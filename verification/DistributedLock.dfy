/**
 * The Redis lock: SET with NX and EX to enter, an unconditional DEL to leave.
 */
module DistributedLock {
  type Key = string

  /** One use of the lock: a `with` block of some process. */
  type Holder = nat

  /** Redis stores only "1"; whose entry it is and when it expires is what the model adds. */
  datatype Entry = Entry(owner: Holder, expiresAt: nat)

  type Table = map<Key, Entry>

  predicate Live(store: Table, now: nat, key: Key) {
    key in store && now < store[key].expiresAt
  }

  /** SET key "1" NX EX ttl */
  function AfterSet(store: Table, now: nat, key: Key, owner: Holder, ttl: nat): Table {
    if Live(store, now, key) then store else store[key := Entry(owner, now + ttl)]
  }

  /** DEL key */
  function AfterDelete(store: Table, key: Key): Table { store - {key} }

  // ----- The code -----

  class RedisClient {
    var now: nat
    var store: Table

    constructor ()
      ensures now == 0 && store == map[]
    {
      now, store := 0, map[];
    }

    method SetIfAbsent(key: Key, owner: Holder, ttl: nat) returns (stored: bool)
      modifies this`store
      ensures stored == !Live(old(store), now, key)
      ensures store == AfterSet(old(store), now, key, owner, ttl)
    {
      if key in store && now < store[key].expiresAt {
        return false;
      }
      store := store[key := Entry(owner, now + ttl)];
      stored := true;
    }

    method Delete(key: Key)
      modifies this`store
      ensures store == AfterDelete(old(store), key)
    {
      store := store - {key};
    }
  }

  class DistributedLock {
    const lockKey: Key
    const ttl: nat
    const holder: Holder
    const redisClient: RedisClient

    constructor (lockKey: Key, ttl: nat, holder: Holder, redisClient: RedisClient)
      ensures this.lockKey == lockKey && this.ttl == ttl && this.holder == holder && this.redisClient == redisClient
    {
      this.lockKey, this.ttl, this.holder, this.redisClient := lockKey, ttl, holder, redisClient;
    }

    method Acquire() returns (acquired: bool)
      modifies redisClient`store
      ensures acquired == !Live(old(redisClient.store), redisClient.now, lockKey)
      ensures redisClient.store == AfterSet(old(redisClient.store), redisClient.now, lockKey, holder, ttl)
    {
      acquired := redisClient.SetIfAbsent(lockKey, holder, ttl);
    }

    method Release()
      modifies redisClient`store
      ensures redisClient.store == AfterDelete(old(redisClient.store), lockKey)
    {
      redisClient.Delete(lockKey);
    }

    /**
     * The context manager around any body, which takes `duration` and does to Redis what it
     * likes.  It enters exactly when the key was free; leaving, it deletes the key exactly when
     * it had entered, whoever owns the entry by then, and leaves everything else as the body did.
     */
    method Lock(duration: nat, body: Table -> Table) returns (acquired: bool)
      modifies redisClient
      ensures redisClient.now == old(redisClient.now) + duration
      ensures acquired == !Live(old(redisClient.store), old(redisClient.now), lockKey)
      ensures var entered := AfterSet(old(redisClient.store), old(redisClient.now), lockKey, holder, ttl);
        redisClient.store == if acquired then body(entered) - {lockKey} else body(old(redisClient.store))
    {
      acquired := Acquire();
      redisClient.now, redisClient.store := redisClient.now + duration, body(redisClient.store);
      if acquired {
        Release();
      }
    }
  }

  // ----- Many holders -----

  datatype Hold = Hold(key: Key, expiresAt: nat)

  /** `holding` are the uses that are inside their critical section. */
  datatype State = State(now: nat, store: Table, holding: map<Holder, Hold>)

  datatype Action =
    | Pass(time: nat)
    | Enter(h: Holder, key: Key, ttl: nat)
    | Leave(h: Holder)
    | Crash(h: Holder)

  function Start(): State { State(0, map[], map[]) }

  predicate Enabled(s: State, a: Action) {
    match a
    case Pass(_) => true
    case Enter(h, _, ttl) => h !in s.holding && ttl > 0
    case Leave(h) => h in s.holding
    case Crash(h) => h in s.holding
  }

  function Step(s: State, a: Action): State
    requires Enabled(s, a)
  {
    match a
    case Pass(time) => s.(now := s.now + time)
    case Enter(h, key, ttl) =>
      if Live(s.store, s.now, key) then s
      else s.(store := AfterSet(s.store, s.now, key, h, ttl), holding := s.holding[h := Hold(key, s.now + ttl)])
    case Leave(h) => s.(store := AfterDelete(s.store, s.holding[h].key), holding := s.holding - {h})
    case Crash(h) => s.(holding := s.holding - {h})
  }

  function Exec(s: State, actions: seq<Action>): State {
    if actions == [] then s
    else
      var before := Exec(s, actions[..|actions| - 1]);
      var a := actions[|actions| - 1];
      if Enabled(before, a) then Step(before, a) else before
  }

  /** Everybody inside is there before the time to live is over. */
  ghost predicate Timely(s: State) {
    forall h :: h in s.holding ==> s.now < s.holding[h].expiresAt
  }

  ghost predicate TimelyRun(actions: seq<Action>) {
    forall i :: 0 <= i <= |actions| ==> Timely(Exec(Start(), actions[..i]))
  }

  ghost predicate Exclusive(s: State) {
    forall h, k :: h in s.holding && k in s.holding && s.holding[h].key == s.holding[k].key ==> h == k
  }

  /** The entry of a held key is the holder's own. */
  ghost predicate OwnEntries(s: State) {
    forall h :: h in s.holding ==>
      s.holding[h].key in s.store && s.store[s.holding[h].key] == Entry(h, s.holding[h].expiresAt)
  }

  lemma StepKeepsOwnEntries(s: State, a: Action)
    requires OwnEntries(s) && Timely(s) && Enabled(s, a)
    ensures OwnEntries(Step(s, a))
  {
  }

  lemma {:induction false} TimelyRunOwnsEntries(actions: seq<Action>)
    requires forall i :: 0 <= i < |actions| ==> Timely(Exec(Start(), actions[..i]))
    ensures OwnEntries(Exec(Start(), actions))
  {
    if actions != [] {
      var init := actions[..|actions| - 1];
      forall i | 0 <= i < |init| ensures Timely(Exec(Start(), init[..i])) {
        assert init[..i] == actions[..i];
      }
      TimelyRunOwnsEntries(init);
      var before := Exec(Start(), init);
      if Enabled(before, actions[|actions| - 1]) {
        StepKeepsOwnEntries(before, actions[|actions| - 1]);
      }
    }
  }

  /**
   * If nobody overstays, at most one holder of a key is inside in every reachable state, and
   * whoever leaves deletes the entry that is its own.
   */
  lemma TimelyRunsAreExclusive(actions: seq<Action>)
    requires TimelyRun(actions)
    ensures var s := Exec(Start(), actions);
      && Exclusive(s)
      && forall h :: h in s.holding ==>
        && s.holding[h].key in s.store && s.store[s.holding[h].key].owner == h
        && Step(s, Leave(h)).store == s.store - {s.holding[h].key}
  {
    TimelyRunOwnsEntries(actions);
  }

  /**
   * The condition is needed: as soon as one holder overstays after a timely run, any other
   * one that enters shares its section, and the first to leave deletes the other's entry.
   */
  lemma OverstayingBreaksTheLock(actions: seq<Action>, late: Holder, next: Holder, ttl: nat)
    requires forall i :: 0 <= i < |actions| ==> Timely(Exec(Start(), actions[..i]))
    requires var s := Exec(Start(), actions);
      late in s.holding && s.holding[late].expiresAt <= s.now && next !in s.holding && ttl > 0
    ensures var s := Exec(Start(), actions);
      var shared := Step(s, Enter(next, s.holding[late].key, ttl));
      && !Exclusive(shared) && next in shared.holding && late in shared.holding
      && shared.store[shared.holding[late].key].owner == next
      && shared.holding[next].key !in Step(shared, Leave(late)).store
  {
    TimelyRunOwnsEntries(actions);
    var s := Exec(Start(), actions);
    var shared := Step(s, Enter(next, s.holding[late].key, ttl));
    assert shared.holding[late].key == shared.holding[next].key && late != next;
  }

  /** And it can happen under every time to live. */
  lemma OverstayingIsPossible(key: Key, ttl: nat)
    requires ttl > 0
    ensures !Exclusive(Exec(Start(), [Enter(0, key, ttl), Pass(ttl), Enter(1, key, ttl)]))
  {
    var actions := [Enter(0, key, ttl), Pass(ttl), Enter(1, key, ttl)];
    assert actions[..2] == [Enter(0, key, ttl), Pass(ttl)] && actions[..2][..1] == [Enter(0, key, ttl)];
    assert Exec(Start(), actions[..2][..1][..0]) == Start();
    var s1 := Exec(Start(), actions[..2][..1]);
    assert s1 == State(0, map[key := Entry(0, ttl)], map[0 := Hold(key, ttl)]);
    var s2 := Exec(Start(), actions[..2]);
    assert s2 == s1.(now := ttl);
    var s3 := Exec(Start(), actions);
    assert 0 in s3.holding && 1 in s3.holding && s3.holding[0].key == s3.holding[1].key;
  }
}
