/** Parsing NUL-separated `git diff --name-status -z` output. */
module NameStatus {
  import opened Wrappers
  import opened Text
  import opened Paths

  const NUL := '\0'

  /** A status with its one path, or two for renames and copies. */
  datatype Record = Record(status: string, paths: seq<string>)

  datatype ParseError = EmptyStatus | IncompleteRecord | BadPath(error: PathError)

  predicate HasTwoPaths(status: string)
    requires status != ""
  {
    status[0] == 'R' || status[0] == 'C'
  }

  function PathCount(status: string): nat
    requires status != ""
  {
    if HasTwoPaths(status) then 2 else 1
  }

  /** Renames and copies have two paths, everything else has one. */
  predicate WellFormed(r: Record) {
    && r.status != "" && NUL !in r.status
    && |r.paths| == (match r.status[0] case 'R' => 2 case 'C' => 2 case _ => 1)
    && forall p :: p in r.paths ==> NUL !in p
  }

  predicate AllWellFormed(records: seq<Record>) {
    forall r :: r in records ==> WellFormed(r)
  }

  function TokensOf(r: Record): seq<string> { [r.status] + r.paths }

  function Flatten(records: seq<Record>): seq<string> {
    if records == [] then [] else TokensOf(records[0]) + Flatten(records[1..])
  }

  function PathsOf(records: seq<Record>): seq<string> {
    if records == [] then [] else records[0].paths + PathsOf(records[1..])
  }

  /** Every token followed by NUL, as git prints them. */
  function Terminated(tokens: seq<string>): string {
    if tokens == [] then "" else tokens[0] + [NUL] + Terminated(tokens[1..])
  }

  function Print(records: seq<Record>): string { Terminated(Flatten(records)) }

  /** The pieces between NULs, without the empty one after a final NUL. */
  function Tokens(raw: string): seq<string> {
    var pieces := Split(raw, NUL);
    if pieces[|pieces| - 1] == "" then pieces[..|pieces| - 1] else pieces
  }

  /** Reads records until the tokens are used up. */
  function RecordsOf(tokens: seq<string>): Result<seq<Record>, ParseError> {
    if tokens == [] then Success([])
    else if tokens[0] == "" then Failure(EmptyStatus)
    else
      var count := PathCount(tokens[0]);
      if |tokens| <= count then Failure(IncompleteRecord)
      else
        match RecordsOf(tokens[count + 1..])
        case Failure(e) => Failure(e)
        case Success(rest) => Success([Record(tokens[0], tokens[1..count + 1])] + rest)
  }

  /** What the parser returns for records: their normalised paths, first occurrences in order. */
  function PathsResult(records: Result<seq<Record>, ParseError>): Result<seq<string>, ParseError> {
    match records
    case Failure(e) => Failure(e)
    case Success(rs) =>
      match NormalizeEach(PathsOf(rs))
      case Failure(e) => Failure(BadPath(e))
      case Success(paths) => Success(Dedup(paths))
  }

  predicate HasFirstRecord(tokens: seq<string>) {
    tokens != [] && tokens[0] != "" && |tokens| > PathCount(tokens[0])
  }

  /** `paths` are the paths of the records before `rest`, as far as all of `tokens` can be read. */
  predicate ReadSoFar(tokens: seq<string>, rest: seq<string>, paths: seq<string>) {
    match RecordsOf(rest)
    case Failure(e) => RecordsOf(tokens) == Failure(e)
    case Success(more) => RecordsOf(tokens).Success? && PathsOf(RecordsOf(tokens).value) == paths + PathsOf(more)
  }

  lemma ReadNothing(tokens: seq<string>)
    ensures ReadSoFar(tokens, tokens, [])
  {
    if RecordsOf(tokens).Success? {
      var paths := PathsOf(RecordsOf(tokens).value);
      assert [] + paths == paths;
    }
  }

  lemma ReadRecord(tokens: seq<string>, rest: seq<string>, paths: seq<string>)
    requires ReadSoFar(tokens, rest, paths) && HasFirstRecord(rest)
    ensures var count := PathCount(rest[0]);
      ReadSoFar(tokens, rest[count + 1..], paths + rest[1..count + 1])
  {
    var count := PathCount(rest[0]);
    FirstRecord(rest[0], rest[1..count + 1], rest[count + 1..]);
    assert [rest[0]] + rest[1..count + 1] + rest[count + 1..] == rest;
    if RecordsOf(rest).Success? {
      var r, more := Record(rest[0], rest[1..count + 1]), RecordsOf(rest[count + 1..]).value;
      assert ([r] + more)[1..] == more;
      assert paths + (r.paths + PathsOf(more)) == paths + r.paths + PathsOf(more);
    }
  }

  /** What reading gives when `records` stand in front. */
  function Behind(records: seq<Record>, more: Result<seq<Record>, ParseError>): Result<seq<Record>, ParseError> {
    match more
    case Failure(e) => Failure(e)
    case Success(rest) => Success(records + rest)
  }

  lemma BehindOneMore(r: Record, records: seq<Record>, more: Result<seq<Record>, ParseError>)
    ensures Behind([r] + records, more) == Behind([r], Behind(records, more))
  {
    if more.Success? {
      assert [r] + records + more.value == [r] + (records + more.value);
    }
  }

  lemma FirstRecord(status: string, paths: seq<string>, more: seq<string>)
    requires status != "" && |paths| == PathCount(status)
    ensures RecordsOf([status] + paths + more) == Behind([Record(status, paths)], RecordsOf(more))
  {
    var tokens := [status] + paths + more;
    assert tokens[1..|paths| + 1] == paths && tokens[|paths| + 1..] == more;
  }

  /** Where the rest cannot be read, neither can the whole. */
  lemma ReadStops(tokens: seq<string>, rest: seq<string>, paths: seq<string>)
    requires ReadSoFar(tokens, rest, paths) && rest != [] && !HasFirstRecord(rest)
    ensures RecordsOf(tokens) == Failure(if rest[0] == "" then EmptyStatus else IncompleteRecord)
  {
  }

  lemma ReadEverything(tokens: seq<string>, paths: seq<string>)
    requires ReadSoFar(tokens, [], paths)
    ensures RecordsOf(tokens).Success? && PathsOf(RecordsOf(tokens).value) == paths
  {
    assert paths + [] == paths;
  }

  method ParseNameStatusZ(raw: string) returns (r: Result<seq<string>, ParseError>)
    ensures r == PathsResult(RecordsOf(Tokens(raw)))
  {
    var tokens := Split(raw, NUL);
    if tokens[|tokens| - 1] == "" {
      tokens := tokens[..|tokens| - 1];
    }
    assert tokens == Tokens(raw);
    var paths: seq<string> := [];
    var index := 0;
    hide RecordsOf, PathsOf, ReadSoFar, NormalizeEach, Tokens;
    ReadNothing(tokens);
    assert tokens[0..] == tokens;
    while index < |tokens|
      invariant 0 <= index <= |tokens| && tokens == Tokens(raw)
      invariant ReadSoFar(tokens, tokens[index..], paths)
    {
      ghost var rest := tokens[index..];
      var status := tokens[index];
      index := index + 1;
      if !HasFirstRecord(rest) { ReadStops(tokens, rest, paths); }
      if status == "" {
        return Failure(EmptyStatus);
      }
      if status[0] == 'R' || status[0] == 'C' {
        if index + 1 >= |tokens| {
          return Failure(IncompleteRecord);
        }
        assert rest[1..3] == [tokens[index], tokens[index + 1]] && rest[3..] == tokens[index + 2..];
        ReadRecord(tokens, rest, paths);
        paths := paths + [tokens[index], tokens[index + 1]];
        index := index + 2;
      } else {
        if index >= |tokens| {
          return Failure(IncompleteRecord);
        }
        assert rest[1..2] == [tokens[index]] && rest[2..] == tokens[index + 1..];
        ReadRecord(tokens, rest, paths);
        paths := paths + [tokens[index]];
        index := index + 1;
      }
    }
    assert tokens[index..] == [];
    ReadEverything(tokens, paths);
    var normalized := NormalizeAll(paths);
    match normalized {
      case Failure(e) => r := Failure(BadPath(e));
      case Success(done) => r := Success(Dedup(done));
    }
  }

  // ----- Printing and parsing -----

  /** The pieces of terminated tokens and what follows the last NUL. */
  lemma {:induction false} PiecesOfTerminated(tokens: seq<string>, partial: string)
    requires NUL !in partial && forall t :: t in tokens ==> NUL !in t
    ensures Split(Terminated(tokens) + partial, NUL) == tokens + [partial]
  {
    if tokens == [] {
      SplitPlain(partial, NUL);
      assert Terminated(tokens) + partial == partial;
    } else {
      assert tokens[0] in tokens;
      var rest := Terminated(tokens[1..]) + partial;
      SplitPrefix(tokens[0], rest, NUL);
      PiecesOfTerminated(tokens[1..], partial);
      assert Terminated(tokens) + partial == tokens[0] + [NUL] + rest;
      assert [tokens[0]] + (tokens[1..] + [partial]) == tokens + [partial];
    }
  }

  lemma {:induction false} FlattenHasNoNul(records: seq<Record>)
    requires AllWellFormed(records)
    ensures forall t :: t in Flatten(records) ==> NUL !in t
  {
    if records != [] {
      assert records[0] in records;
      FlattenHasNoNul(records[1..]);
    }
  }

  /** Reading the tokens of well-formed records, followed by anything, gives them back. */
  lemma {:induction false} RecordsOfFlatten(records: seq<Record>, more: seq<string>)
    requires AllWellFormed(records)
    ensures RecordsOf(Flatten(records) + more) == Behind(records, RecordsOf(more))
  {
    if records == [] {
      assert Flatten(records) + more == more;
      assert RecordsOf(more).Success? ==> records + RecordsOf(more).value == RecordsOf(more).value;
    } else {
      var r, rest := records[0], Flatten(records[1..]) + more;
      assert r in records && [r] + records[1..] == records;
      RecordsOfFlatten(records[1..], more);
      FirstRecord(r.status, r.paths, rest);
      assert Flatten(records) + more == [r.status] + r.paths + rest;
      BehindOneMore(r, records[1..], RecordsOf(more));
    }
  }

  /** Whatever is accepted is the flattening of well-formed records. */
  lemma FirstIsWellFormed(tokens: seq<string>)
    requires HasFirstRecord(tokens) && forall t :: t in tokens ==> NUL !in t
    ensures var count := PathCount(tokens[0]);
      WellFormed(Record(tokens[0], tokens[1..count + 1])) && TokensOf(Record(tokens[0], tokens[1..count + 1])) == tokens[..count + 1]
  {
    var count := PathCount(tokens[0]);
    assert tokens[0] in tokens && forall p :: p in tokens[1..count + 1] ==> p in tokens;
  }

  lemma {:induction false} AcceptedTokensAreRecords(tokens: seq<string>)
    requires RecordsOf(tokens).Success? && forall t :: t in tokens ==> NUL !in t
    ensures Flatten(RecordsOf(tokens).value) == tokens && AllWellFormed(RecordsOf(tokens).value)
  {
    if tokens != [] {
      var count := PathCount(tokens[0]);
      var first := Record(tokens[0], tokens[1..count + 1]);
      FirstIsWellFormed(tokens);
      assert forall t :: t in tokens[count + 1..] ==> t in tokens;
      AcceptedTokensAreRecords(tokens[count + 1..]);
      var rest := RecordsOf(tokens[count + 1..]).value;
      hide WellFormed, TokensOf, PathCount;
      assert ([first] + rest)[1..] == rest;
      assert tokens[..count + 1] + tokens[count + 1..] == tokens;
    }
  }

  /** Printing well-formed records and parsing them back gives their paths. */
  lemma ParsePrinted(records: seq<Record>)
    requires AllWellFormed(records)
    ensures RecordsOf(Tokens(Print(records))) == Success(records)
    ensures PathsResult(RecordsOf(Tokens(Print(records)))) == match NormalizeEach(PathsOf(records))
      case Failure(e) => Failure(BadPath(e))
      case Success(paths) => Success(Dedup(paths))
  {
    FlattenHasNoNul(records);
    TokensOfPrint(Flatten(records), "");
    assert Print(records) + "" == Print(records);
    RecordsOfFlatten(records, []);
    assert Flatten(records) + [] == Flatten(records) && records + [] == records;
  }

  lemma {:induction false} PathsOfRecords(records: seq<Record>, q: string)
    ensures q in PathsOf(records) <==> exists r :: r in records && q in r.paths
  {
    if records != [] {
      PathsOfRecords(records[1..], q);
      assert records == [records[0]] + records[1..];
    }
  }

  /** The parser returns exactly the normalised paths of the records, both of a rename or copy, each once. */
  lemma ParsedPathsAre(records: seq<Record>)
    requires AllWellFormed(records)
    ensures var parsed := PathsResult(RecordsOf(Tokens(Print(records))));
      && (parsed.Success? <==> forall r, q :: r in records && q in r.paths ==> NormalizeRepoPath(q).Success?)
      && (parsed.Success? ==>
        && (forall i, j :: 0 <= i < j < |parsed.value| ==> parsed.value[i] != parsed.value[j])
        && forall p :: p in parsed.value <==>
             exists r, q :: r in records && q in r.paths && NormalizeRepoPath(q) == Success(p))
  {
    hide RecordsOf, Tokens, Print, NormalizeRepoPath, AllWellFormed, NormalizeEach;
    ParsePrinted(records);
    var paths := PathsOf(records);
    NormalizeEachIsPointwise(paths);
    forall q ensures q in paths <==> exists r :: r in records && q in r.paths {
      PathsOfRecords(records, q);
    }
    if NormalizeEach(paths).Success? {
      var all := NormalizeEach(paths).value;
      DedupKeepsFirstOccurrences(all);
      forall p ensures p in all <==> exists q :: q in paths && NormalizeRepoPath(q) == Success(p) {
        if p in all {
          var i :| 0 <= i < |all| && all[i] == p;
          assert paths[i] in paths;
        }
        forall q | q in paths && NormalizeRepoPath(q) == Success(p) ensures p in all {
          var i :| 0 <= i < |paths| && paths[i] == q;
          assert all[i] in all;
        }
      }
    }
  }

  /** Accepted are exactly the prints of well-formed records, with or without the final NUL. */
  lemma AcceptedAreThePrints(raw: string)
    ensures RecordsOf(Tokens(raw)).Success? <==>
      exists records :: AllWellFormed(records) && Tokens(raw) == Flatten(records)
    ensures RecordsOf(Tokens(raw)).Success? ==>
      AllWellFormed(RecordsOf(Tokens(raw)).value) && Tokens(raw) == Flatten(RecordsOf(Tokens(raw)).value)
    ensures raw != "" ==> Terminated(Tokens(raw)) == raw || Terminated(Tokens(raw)) == raw + [NUL]
  {
    if RecordsOf(Tokens(raw)).Success? {
      AcceptedTokensAreRecords(Tokens(raw));
    }
    forall records | AllWellFormed(records) && Tokens(raw) == Flatten(records)
      ensures RecordsOf(Tokens(raw)).Success?
    {
      RecordsOfFlatten(records, []);
      assert Flatten(records) + [] == Flatten(records);
    }
    JoinSplit(raw, NUL);
    TerminatedIsJoin(Split(raw, NUL));
  }

  lemma {:induction false} TerminatedIsJoin(pieces: seq<string>)
    requires pieces != []
    ensures Terminated(pieces) == Join(pieces, NUL) + [NUL]
    ensures pieces[|pieces| - 1] == "" && |pieces| > 1 ==> Terminated(pieces[..|pieces| - 1]) == Join(pieces, NUL)
  {
    if |pieces| > 1 {
      TerminatedIsJoin(pieces[1..]);
      assert pieces[1..][..|pieces| - 2] == pieces[1..|pieces| - 1] == pieces[..|pieces| - 1][1..];
      if |pieces| == 2 {
        assert pieces[1..] == [pieces[1]];
        assert pieces[..1][1..] == [];
      }
    }
  }

  /** The last token counts without its NUL, unless it is empty. */
  function WithPartial(tokens: seq<string>, partial: string): seq<string> {
    if partial == "" then tokens else tokens + [partial]
  }

  lemma TokensOfPrint(tokens: seq<string>, partial: string)
    requires NUL !in partial && forall t :: t in tokens ==> NUL !in t
    ensures Tokens(Terminated(tokens) + partial) == WithPartial(tokens, partial)
  {
    PiecesOfTerminated(tokens, partial);
  }

  /** What is read behind a print of well-formed records. */
  lemma ReadBehindPrint(records: seq<Record>, more: seq<string>, partial: string)
    requires AllWellFormed(records) && NUL !in partial && forall t :: t in more ==> NUL !in t
    ensures RecordsOf(Tokens(Print(records) + (Terminated(more) + partial))) ==
      Behind(records, RecordsOf(WithPartial(more, partial)))
  {
    hide RecordsOf, Flatten, Terminated, Tokens, Behind;
    FlattenHasNoNul(records);
    var all := Flatten(records) + more;
    TerminatedOfConcat(Flatten(records), more);
    assert Print(records) + (Terminated(more) + partial) == Terminated(all) + partial;
    TokensOfPrint(all, partial);
    RecordsOfFlatten(records, WithPartial(more, partial));
    assert Flatten(records) + WithPartial(more, partial) == WithPartial(all, partial);
  }

  /** Where a cut falls: behind some whole tokens and within the next one. */
  lemma {:induction false} CutOfTerminated(tokens: seq<string>, c: nat) returns (k: nat, partial: string)
    requires c < |Terminated(tokens)|
    ensures k < |tokens| && partial <= tokens[k]
    ensures Terminated(tokens)[..c] == Terminated(tokens[..k]) + partial
  {
    if c <= |tokens[0]| {
      k, partial := 0, tokens[0][..c];
      assert Terminated(tokens[..0]) + partial == partial;
    } else {
      k, partial := CutOfTerminated(tokens[1..], c - |tokens[0]| - 1);
      assert tokens[1..][..k] == tokens[..k + 1][1..];
      assert Terminated(tokens[..k + 1]) == tokens[0] + [NUL] + Terminated(tokens[1..][..k]);
      k := k + 1;
    }
  }

  /** More than the first `n` tokens are kept exactly by a cut behind them. */
  lemma CutIsBehind(tokens: seq<string>, k: nat, partial: string, n: nat)
    requires k <= n < |tokens| && partial <= tokens[k]
    ensures |Terminated(tokens[..k]) + partial| > |Terminated(tokens[..n])| <==> k == n && partial != ""
  {
    if k < n {
      assert tokens[..n] == tokens[..k] + tokens[k..n];
      TerminatedOfConcat(tokens[..k], tokens[k..n]);
    }
  }

  /** The print of a record without its last path. */
  function PrintBeforeLastPath(r: Record): (before: string)
    requires r.paths != []
    ensures before + LastPath(r) + [NUL] == Print([r])
  {
    var tokens := [r.status] + r.paths[..|r.paths| - 1];
    TerminatedOfConcat(tokens, [LastPath(r)]);
    assert Flatten([r]) == tokens + [LastPath(r)];
    assert Terminated([LastPath(r)]) == LastPath(r) + [NUL];
    Terminated(tokens)
  }

  function LastPath(r: Record): string
    requires r.paths != []
  {
    r.paths[|r.paths| - 1]
  }

  function WithLastPath(r: Record, path: string): Record
    requires r.paths != []
  {
    r.(paths := r.paths[..|r.paths| - 1] + [path])
  }

  /** What is read of the tokens of a record that are left by a cut. */
  lemma CutRecord(last: Record, k: nat, partial: string)
    requires WellFormed(last) && k < |TokensOf(last)| && partial <= TokensOf(last)[k] && (k == 0 ==> partial != "")
    ensures var n := |last.paths|;
      RecordsOf(WithPartial(TokensOf(last)[..k], partial)) ==
        if k == n && partial != "" then Success([WithLastPath(last, partial)])
        else Failure(IncompleteRecord)
    ensures NUL !in partial && forall t :: t in TokensOf(last)[..k] ==> NUL !in t
  {
    var tokens, n := TokensOf(last), |last.paths|;
    assert tokens[k] == last.status || tokens[k] in last.paths;
    assert forall t :: t in tokens[..k] ==> t in tokens;
    var left := WithPartial(tokens[..k], partial);
    if k == n && partial != "" {
      var paths := WithLastPath(last, partial).paths;
      assert left == [last.status] + paths + [];
      FirstRecord(last.status, paths, []);
      assert [WithLastPath(last, partial)] + [] == [WithLastPath(last, partial)];
    } else {
      assert left[0] <= last.status && PathCount(left[0]) == n >= |left|;
    }
  }

  /**
   * Of a print of well-formed records, cut short inside the last one: what is left is rejected
   * exactly when it keeps no character of the final path; otherwise it is read with that path
   * cut short.
   */
  lemma TruncatedIsRejectedIff(records: seq<Record>, last: Record, c: nat)
    requires AllWellFormed(records) && WellFormed(last) && 0 < c < |Print([last])|
    ensures var raw, kept := Print(records) + Print([last])[..c], c - |PrintBeforeLastPath(last)|;
      RecordsOf(Tokens(raw)) ==
        if kept <= 0 then Failure(IncompleteRecord)
        else Success(records + [WithLastPath(last, LastPath(last)[..kept])])
  {
    var tokens, n := TokensOf(last), |last.paths|;
    assert Print([last]) == Terminated(tokens) by { assert Flatten([last]) == tokens + [] == tokens; }
    assert tokens[..n] == [last.status] + last.paths[..n - 1] && tokens[n] == LastPath(last);
    hide RecordsOf, Tokens, Print, Flatten, Terminated, WellFormed;
    var k, partial := CutOfTerminated(tokens, c);
    CutIsBehind(tokens, k, partial, n);
    CutRecord(last, k, partial);
    ReadBehindPrint(records, tokens[..k], partial);
    if k == n && partial != "" {
      assert partial == LastPath(last)[..|partial|];
    }
  }

  /** Behind any well-formed records, an empty status is rejected. */
  lemma EmptyStatusIsRejected(records: seq<Record>, more: seq<string>)
    requires AllWellFormed(records) && forall t :: t in more ==> NUL !in t
    ensures RecordsOf(Tokens(Print(records) + ([NUL] + Terminated(more)))) == Failure(EmptyStatus)
  {
    hide Tokens, Print, Flatten, WellFormed;
    ReadBehindPrint(records, [""] + more, "");
    assert ([""] + more)[1..] == more;
    assert Terminated([""] + more) + "" == [NUL] + Terminated(more);
  }

  lemma {:induction false} TerminatedOfConcat(first: seq<string>, second: seq<string>)
    ensures Terminated(first + second) == Terminated(first) + Terminated(second)
  {
    if first == [] {
      assert first + second == second;
    } else {
      TerminatedOfConcat(first[1..], second);
      assert (first + second)[1..] == first[1..] + second;
    }
  }
}
