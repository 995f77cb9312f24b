/**
 * The resumable post-hoc evaluation: provider calls may fail at any point, and the next run
 * goes on from the last checkpoint.  A checkpoint is written as a whole or not at all.
 */
module PosthocRun {
  import opened Wrappers
  import opened Text

  datatype Row = Row(caseId: string, input: string, originalOutput: string)

  /** What a provider is asked: for a reference output, or for a judgment of some text. */
  datatype Question = ForReference(row: Row) | ForJudgment(row: Row, text: string, judge: string)

  datatype Call = Call(question: Question, answer: Option<string>)

  /** What a run works on: the file it found, the selected rows and the cached references. */
  datatype Job = Job(start: Option<Checkpoint>, selected: seq<Row>, cached: map<string, string>)

  datatype Evaluation = Evaluation(output: string, judge: string, judgment: string)

  datatype Item = Item(
    caseId: string, original: string, reference: Option<string>, evaluations: seq<Evaluation>, completed: bool)

  /** The checkpoint file. */
  datatype Checkpoint = Checkpoint(judges: seq<string>, cases: seq<Item>)

  datatype Outcome = NoJudges | NothingSelected | DryRun | JudgesDiffer | Interrupted | Completed

  const ORIGINAL := "original"
  const REFERENCE := "reference"

  type Pair = (string, string)

  function PairOf(e: Evaluation): Pair { (e.output, e.judge) }

  // ----- What a checkpoint is worth -----

  predicate DistinctPairs(evaluations: seq<Evaluation>) {
    forall i, j :: 0 <= i < j < |evaluations| ==> PairOf(evaluations[i]) != PairOf(evaluations[j])
  }

  predicate HasPair(evaluations: seq<Evaluation>, output: string, judge: string) {
    exists i :: 0 <= i < |evaluations| && PairOf(evaluations[i]) == (output, judge)
  }

  /** The pairs that have been judged. */
  function KeysOf(evaluations: seq<Evaluation>): (keys: set<Pair>)
    ensures forall o, j :: (o, j) in keys <==> HasPair(evaluations, o, j)
  {
    set i | 0 <= i < |evaluations| :: PairOf(evaluations[i])
  }

  /** Beyond the keys taken at the start, only pairs of these judges have been judged; none was lost. */
  ghost predicate JudgedSince(completed: set<Pair>, judges: seq<string>, evaluations: seq<Evaluation>) {
    && (forall o, j :: HasPair(evaluations, o, j) ==> (o, j) in completed || j in judges)
    && (forall o, j :: (o, j) in completed ==> HasPair(evaluations, o, j))
  }

  /** The pair is judged afterwards, and every other one as before. */
  ghost predicate OnlyAdds(before: seq<Evaluation>, after: seq<Evaluation>, output: string, judge: string) {
    forall o, j :: HasPair(after, o, j) <==> HasPair(before, o, j) || (o == output && j == judge)
  }

  /** Every judge has judged both outputs. */
  predicate FullyJudged(evaluations: seq<Evaluation>, judges: seq<string>) {
    forall judge :: judge in judges ==> HasPair(evaluations, ORIGINAL, judge) && HasPair(evaluations, REFERENCE, judge)
  }

  predicate ItemFits(item: Item, judges: seq<string>) {
    && DistinctPairs(item.evaluations)
    && (forall i :: 0 <= i < |item.evaluations| ==>
      && item.evaluations[i].output in {ORIGINAL, REFERENCE} && item.evaluations[i].judge in judges)
    && (item.reference.None? ==> item.evaluations == [])
    && (item.completed ==> item.reference.Some? && FullyJudged(item.evaluations, judges))
  }

  predicate DistinctJudges(judges: seq<string>) {
    forall i, j :: 0 <= i < j < |judges| ==> judges[i] != judges[j]
  }

  predicate UniqueCases(cases: seq<Item>) {
    forall i, j :: 0 <= i < j < |cases| ==> cases[i].caseId != cases[j].caseId
  }

  predicate Fits(c: Checkpoint) {
    && DistinctJudges(c.judges) && UniqueCases(c.cases)
    && forall i :: 0 <= i < |c.cases| ==> ItemFits(c.cases[i], c.judges)
  }

  /** Same case and original; a stored reference and stored evaluations stay as they are. */
  predicate ItemExtends(before: Item, after: Item) {
    && before.caseId == after.caseId && before.original == after.original
    && (before.reference.Some? ==> after.reference == before.reference)
    && before.evaluations <= after.evaluations
    && (before.completed ==> after.completed)
  }

  predicate Extends(before: Checkpoint, after: Checkpoint) {
    && before.judges == after.judges && |before.cases| <= |after.cases|
    && forall i :: 0 <= i < |before.cases| ==> ItemExtends(before.cases[i], after.cases[i])
  }

  /** The case is done with exactly one evaluation per judge and output. */
  predicate CaseDone(cases: seq<Item>, caseId: string, judges: seq<string>) {
    exists i :: 0 <= i < |cases| && cases[i].caseId == caseId && cases[i].completed
      && FullyJudged(cases[i].evaluations, judges) && |cases[i].evaluations| == 2 * |judges|
  }

  // ----- Where references and judgments come from -----

  /** The item as the run found it, if it did. */
  function OriginOf(job: Job, i: nat): Option<Item> {
    if job.start.Some? && i < |job.start.value.cases| then Some(job.start.value.cases[i]) else None
  }

  ghost predicate IsAnswered(calls: seq<Call>, question: Question, answer: string) {
    Call(question, Some(answer)) in calls
  }

  /** The text that an evaluation is about. */
  function TextOf(item: Item, output: string): string {
    if output == ORIGINAL then item.original else if item.reference.Some? then item.reference.value else ""
  }

  predicate IsSelected(job: Job, row: Row, caseId: string) { row in job.selected && row.caseId == caseId }

  /** A case that the run opened is that of a selected row, with its original output and its cached reference. */
  ghost predicate OriginalIsSourced(job: Job, item: Item) {
    && (exists row :: IsSelected(job, row, item.caseId) && item.original == row.originalOutput)
    && (item.caseId in job.cached ==> item.reference == Some(job.cached[item.caseId]))
  }

  ghost predicate ReferenceIsAnswer(job: Job, calls: seq<Call>, item: Item) {
    && item.reference.Some?
    && exists row :: IsSelected(job, row, item.caseId) && IsAnswered(calls, ForReference(row), item.reference.value)
  }

  ghost predicate JudgmentIsAnswer(job: Job, calls: seq<Call>, item: Item, e: Evaluation) {
    exists row :: IsSelected(job, row, item.caseId) &&
      IsAnswered(calls, ForJudgment(row, TextOf(item, e.output), e.judge), e.judgment)
  }

  ghost predicate ItemIsSourced(job: Job, calls: seq<Call>, origin: Option<Item>, item: Item) {
    && (origin.None? ==> OriginalIsSourced(job, item))
    && (item.reference.Some? ==>
      || (origin.Some? && origin.value.reference.Some?)
      || (origin.None? && item.caseId in job.cached)
      || ReferenceIsAnswer(job, calls, item))
    && forall k :: (if origin.Some? then |origin.value.evaluations| else 0) <= k < |item.evaluations| ==>
      JudgmentIsAnswer(job, calls, item, item.evaluations[k])
  }

  /**
   * What a run adds to the file it found: the cases of selected rows with their original
   * outputs; references that are cached for their case, or else answers of the reference model
   * about it; judgments that are the answers of their judge about their text.
   */
  ghost predicate IsSourced(job: Job, calls: seq<Call>, c: Checkpoint) {
    && (job.start.Some? ==> |job.start.value.cases| <= |c.cases|)
    && forall i :: 0 <= i < |c.cases| ==> ItemIsSourced(job, calls, OriginOf(job, i), c.cases[i])
  }

  ghost predicate WritesAreSourced(job: Job, calls: seq<Call>, n: nat, written: seq<Checkpoint>) {
    forall k :: n <= k < |written| ==> IsSourced(job, calls, written[k])
  }

  lemma ItemStaysSourced(job: Job, calls: seq<Call>, more: seq<Call>, origin: Option<Item>, item: Item)
    requires ItemIsSourced(job, calls, origin, item) && calls <= more
    ensures ItemIsSourced(job, more, origin, item)
  {
    forall e | JudgmentIsAnswer(job, calls, item, e) ensures JudgmentIsAnswer(job, more, item, e) {
      var row :| IsSelected(job, row, item.caseId) &&
        IsAnswered(calls, ForJudgment(row, TextOf(item, e.output), e.judge), e.judgment);
      assert IsAnswered(more, ForJudgment(row, TextOf(item, e.output), e.judge), e.judgment);
    }
    if ReferenceIsAnswer(job, calls, item) {
      var row :| IsSelected(job, row, item.caseId) && IsAnswered(calls, ForReference(row), item.reference.value);
      assert IsAnswered(more, ForReference(row), item.reference.value);
    }
  }

  lemma StaysSourced(job: Job, calls: seq<Call>, more: seq<Call>, c: Checkpoint)
    requires IsSourced(job, calls, c) && calls <= more
    ensures IsSourced(job, more, c)
  {
    forall i | 0 <= i < |c.cases| ensures ItemIsSourced(job, more, OriginOf(job, i), c.cases[i]) {
      ItemStaysSourced(job, calls, more, OriginOf(job, i), c.cases[i]);
    }
  }

  lemma WritesStaySourced(job: Job, calls: seq<Call>, more: seq<Call>, n: nat, middle: seq<Checkpoint>, later: seq<Checkpoint>)
    requires WritesAreSourced(job, calls, n, middle) && calls <= more && middle <= later
    requires WritesAreSourced(job, more, |middle|, later)
    ensures WritesAreSourced(job, more, n, later)
  {
    forall k | n <= k < |later| ensures IsSourced(job, more, later[k]) {
      if k < |middle| { StaysSourced(job, calls, more, middle[k]); }
    }
  }

  /** A case opened for a selected row, with its cached reference. */
  lemma OpenedIsSourced(job: Job, calls: seq<Call>, c: Checkpoint, row: Row)
    requires IsSourced(job, calls, c) && row in job.selected
    ensures var reference := if row.caseId in job.cached then Some(job.cached[row.caseId]) else None;
      IsSourced(job, calls, c.(cases := c.cases + [Item(row.caseId, row.originalOutput, reference, [], false)]))
  {
    var reference := if row.caseId in job.cached then Some(job.cached[row.caseId]) else None;
    var item := Item(row.caseId, row.originalOutput, reference, [], false);
    assert IsSelected(job, row, item.caseId);
    assert ItemIsSourced(job, calls, None, item);
  }

  lemma ReferencedIsSourced(job: Job, calls: seq<Call>, c: Checkpoint, i: nat, row: Row, answer: string)
    requires IsSourced(job, calls, c) && i < |c.cases| && c.cases[i].reference.None? && c.cases[i].evaluations == []
    requires IsSelected(job, row, c.cases[i].caseId) && IsAnswered(calls, ForReference(row), answer)
    ensures IsSourced(job, calls, c.(cases := c.cases[i := c.cases[i].(reference := Some(answer))]))
  {
    var item := c.cases[i].(reference := Some(answer));
    assert ItemIsSourced(job, calls, OriginOf(job, i), c.cases[i]);
    assert ReferenceIsAnswer(job, calls, item);
    assert ItemIsSourced(job, calls, OriginOf(job, i), item);
  }

  lemma JudgedIsSourced(job: Job, calls: seq<Call>, c: Checkpoint, i: nat, row: Row, e: Evaluation)
    requires IsSourced(job, calls, c) && i < |c.cases| && IsSelected(job, row, c.cases[i].caseId)
    requires IsAnswered(calls, ForJudgment(row, TextOf(c.cases[i], e.output), e.judge), e.judgment)
    ensures IsSourced(job, calls, c.(cases := c.cases[i := c.cases[i].(evaluations := c.cases[i].evaluations + [e])]))
  {
    var before := c.cases[i];
    var item := before.(evaluations := before.evaluations + [e]);
    assert ItemIsSourced(job, calls, OriginOf(job, i), before);
    assert JudgmentIsAnswer(job, calls, item, e);
    forall f | JudgmentIsAnswer(job, calls, before, f) ensures JudgmentIsAnswer(job, calls, item, f) {
      var r :| IsSelected(job, r, before.caseId) &&
        IsAnswered(calls, ForJudgment(r, TextOf(before, f.output), f.judge), f.judgment);
      assert IsSelected(job, r, item.caseId);
    }
    if ReferenceIsAnswer(job, calls, before) { assert ReferenceIsAnswer(job, calls, item); }
    assert ItemIsSourced(job, calls, OriginOf(job, i), item);
  }

  lemma CompletedIsSourced(job: Job, calls: seq<Call>, c: Checkpoint, i: nat)
    requires IsSourced(job, calls, c) && i < |c.cases|
    ensures IsSourced(job, calls, c.(cases := c.cases[i := c.cases[i].(completed := true)]))
  {
    var before, item := c.cases[i], c.cases[i].(completed := true);
    assert ItemIsSourced(job, calls, OriginOf(job, i), before);
    forall f | JudgmentIsAnswer(job, calls, before, f) ensures JudgmentIsAnswer(job, calls, item, f) {
      var r :| IsSelected(job, r, before.caseId) &&
        IsAnswered(calls, ForJudgment(r, TextOf(before, f.output), f.judge), f.judgment);
      assert IsSelected(job, r, item.caseId);
    }
    if ReferenceIsAnswer(job, calls, before) { assert ReferenceIsAnswer(job, calls, item); }
    assert ItemIsSourced(job, calls, OriginOf(job, i), item);
  }

  // ----- Counting the evaluations of a full item -----

  lemma {:induction false} FullItemsHaveTwoPerJudge(evaluations: seq<Evaluation>, judges: seq<string>)
    requires DistinctPairs(evaluations) && DistinctJudges(judges) && FullyJudged(evaluations, judges)
    requires forall i :: 0 <= i < |evaluations| ==>
      evaluations[i].output in {ORIGINAL, REFERENCE} && evaluations[i].judge in judges
    ensures |evaluations| == 2 * |judges|
  {
    var have := set i | 0 <= i < |evaluations| :: PairOf(evaluations[i]);
    PairsCount(evaluations);
    var all := AllPairs(judges);
    AllPairsCount(judges);
    forall p | p in all ensures p in have {
      assert HasPair(evaluations, p.0, p.1);
    }
    assert have == all;
  }

  function AllPairs(judges: seq<string>): (pairs: set<Pair>)
    ensures forall p :: p in pairs <==> p.0 in {ORIGINAL, REFERENCE} && p.1 in judges
  {
    if judges == [] then {}
    else
      var last := judges[|judges| - 1];
      AllPairs(judges[..|judges| - 1]) + {(ORIGINAL, last), (REFERENCE, last)}
  }

  lemma {:induction false} PairsCount(evaluations: seq<Evaluation>)
    requires DistinctPairs(evaluations)
    ensures |set i | 0 <= i < |evaluations| :: PairOf(evaluations[i])| == |evaluations|
  {
    if evaluations != [] {
      var init := evaluations[..|evaluations| - 1];
      PairsCount(init);
      var pairs := set i | 0 <= i < |init| :: PairOf(init[i]);
      assert (set i | 0 <= i < |evaluations| :: PairOf(evaluations[i])) == pairs + {PairOf(evaluations[|evaluations| - 1])};
    }
  }

  lemma {:induction false} AllPairsCount(judges: seq<string>)
    requires DistinctJudges(judges)
    ensures |AllPairs(judges)| == 2 * |judges|
  {
    if judges != [] {
      var init, last := judges[..|judges| - 1], judges[|judges| - 1];
      AllPairsCount(init);
      var before, added: set<Pair> := AllPairs(init), {(ORIGINAL, last), (REFERENCE, last)};
      assert before !! added;
      assert |added| == 2 by { assert added - {(ORIGINAL, last)} == {(REFERENCE, last)}; }
    }
  }

  // ----- The run -----

  /** The file when `k` checkpoints have been written, if it held `before` when there were `n`. */
  function FileAt(before: Option<Checkpoint>, n: nat, written: seq<Checkpoint>, k: nat): Option<Checkpoint>
    requires n <= k <= |written|
  {
    if k == n then before else Some(written[k - 1])
  }

  /** From `before`, each checkpoint written since `earlier` goes on from the one it overwrote; the last is on disk. */
  predicate WritesContinue(
      before: Option<Checkpoint>, earlier: seq<Checkpoint>, later: seq<Checkpoint>, disk: Option<Checkpoint>)
  {
    && earlier <= later && disk == FileAt(before, |earlier|, later, |later|)
    && forall k :: |earlier| <= k < |later| ==> DiskContinues(FileAt(before, |earlier|, later, k), Some(later[k]))
  }

  lemma NothingWritten(job: Job, calls: seq<Call>, disk: Option<Checkpoint>, written: seq<Checkpoint>)
    ensures WritesContinue(disk, written, written, disk) && WritesAreSourced(job, calls, |written|, written)
  {
  }

  lemma WritesCompose(
      before: Option<Checkpoint>, earlier: seq<Checkpoint>, middle: seq<Checkpoint>, between: Option<Checkpoint>,
      later: seq<Checkpoint>, disk: Option<Checkpoint>)
    requires WritesContinue(before, earlier, middle, between) && WritesContinue(between, middle, later, disk)
    ensures WritesContinue(before, earlier, later, disk)
  {
    hide DiskContinues;
    forall k | |earlier| <= k < |later|
      ensures DiskContinues(FileAt(before, |earlier|, later, k), Some(later[k]))
    {
      if k < |middle| {
        assert FileAt(before, |earlier|, later, k) == FileAt(before, |earlier|, middle, k);
      } else {
        assert FileAt(before, |earlier|, later, k) == FileAt(between, |middle|, later, k);
      }
    }
  }

  lemma StartIsSourced(job: Job, calls: seq<Call>, c: Checkpoint)
    requires if job.start.Some? then c == job.start.value else c.cases == []
    ensures IsSourced(job, calls, c)
  {
  }

  lemma AnswerIsLogged(calls: seq<Call>, question: Question, answer: string)
    ensures IsAnswered(calls + [Call(question, Some(answer))], question, answer)
  {
  }

  lemma WriteContinues(job: Job, calls: seq<Call>, disk: Option<Checkpoint>, written: seq<Checkpoint>, memory: Checkpoint)
    requires Continues(disk, memory) && IsSourced(job, calls, memory)
    ensures Continues(Some(memory), memory) && WritesContinue(disk, written, written + [memory], Some(memory))
    ensures WritesAreSourced(job, calls, |written|, written + [memory])
  {
    ExtendsReflexive(memory);
  }

  /** Two stretches of a run, one after the other. */
  lemma StretchesCompose(
      job: Job, before: Option<Checkpoint>, earlier: seq<Checkpoint>, calls: seq<Call>, middle: seq<Checkpoint>,
      between: Option<Checkpoint>, more: seq<Call>, later: seq<Checkpoint>, disk: Option<Checkpoint>)
    requires WritesContinue(before, earlier, middle, between) && WritesContinue(between, middle, later, disk)
    requires WritesAreSourced(job, calls, |earlier|, middle) && WritesAreSourced(job, more, |middle|, later)
    requires calls <= more
    ensures WritesContinue(before, earlier, later, disk) && WritesAreSourced(job, more, |earlier|, later)
  {
    WritesCompose(before, earlier, middle, between, later, disk);
    WritesStaySourced(job, calls, more, |earlier|, middle, later);
  }

  class Evaluator {
    var disk: Option<Checkpoint>

    /** Everything that was ever on disk; in this run, every provider call, and whether one failed. */
    var written: seq<Checkpoint>
    var calls: seq<Call>
    var failed: bool

    constructor ()
      ensures disk == None && written == [] && calls == [] && !failed
    {
      disk, written, calls, failed := None, [], [], false;
    }

    predicate Sound()
      reads this
    {
      disk.Some? ==> Fits(disk.value)
    }

    /** A provider call: its answer, or nothing when it fails for good. */
    method Invoke(question: Question) returns (answer: Option<string>)
      modifies this`failed, this`calls
      ensures failed == (old(failed) || answer.None?)
      ensures calls == old(calls) + [Call(question, answer)]
    {
      answer := *;
      failed := failed || answer.None?;
      calls := calls + [Call(question, answer)];
    }

    method WritePartial(c: Checkpoint)
      modifies this`disk, this`written
      ensures disk == Some(c) && written == old(written) + [c]
    {
      disk := Some(c);
      written := written + [c];
    }

    /**
     * Judges the missing outputs of case `i`, a checkpoint after each; nothing comes back when
     * interrupted.  The keys that count as judged are taken once, before the first judgment.
     */
    method JudgeItem(ghost job: Job, memory: Checkpoint, i: nat, row: Row) returns (r: Option<Checkpoint>)
      requires Continues(disk, memory) && i < |memory.cases| && memory.cases[i].reference.Some?
      requires IsSourced(job, calls, memory) && IsSelected(job, row, memory.cases[i].caseId)
      modifies this
      ensures WritesContinue(old(disk), old(written), written, disk)
      ensures old(calls) <= calls && WritesAreSourced(job, calls, |old(written)|, written)
      ensures failed == (old(failed) || r.None?)
      ensures r.Some? ==>
        && Continues(disk, r.value) && Extends(memory, r.value) && |r.value.cases| == |memory.cases|
        && FullyJudged(r.value.cases[i].evaluations, memory.judges) && IsSourced(job, calls, r.value)
    {
      var m := memory;
      var judges := m.judges;
      var completed := KeysOf(memory.cases[i].evaluations);
      assert DistinctJudges(judges);
      ExtendsReflexive(memory);
      NothingJudgedSince(memory.cases[i].evaluations, judges);
      hide Continues, Extends, WritesContinue, FullyJudged, HasPair, JudgedSince, OnlyAdds, DistinctJudges, KeysOf;
      hide IsSourced, WritesAreSourced;
      NothingWritten(job, calls, disk, written);
      for j := 0 to |judges|
        invariant Continues(disk, m) && Extends(memory, m) && |m.cases| == |memory.cases|
        invariant m.judges == judges && m.cases[i].reference.Some? && m.cases[i].caseId == memory.cases[i].caseId
        invariant JudgedSince(completed, judges[..j], m.cases[i].evaluations)
        invariant FullyJudged(m.cases[i].evaluations, judges[..j])
        invariant WritesContinue(old(disk), old(written), written, disk) && failed == old(failed)
        invariant old(calls) <= calls && WritesAreSourced(job, calls, |old(written)|, written)
        invariant IsSourced(job, calls, m)
      {
        NextIsNotJudgedSince(completed, judges, j, m.cases[i].evaluations);
        ghost var disk0, written0, calls0 := disk, written, calls;
        var first := JudgeOutput(job, m, i, row, ORIGINAL, judges[j], completed);
        StretchesCompose(job, old(disk), old(written), calls0, written0, disk0, calls, written, disk);
        if first.None? {
          return None;
        }
        ghost var before1, after1 := m.cases[i].evaluations, first.value.cases[i].evaluations;
        ExtendsTransitive(memory, m, first.value);
        ExtensionKeepsReference(m, first.value, i);
        ReferenceIsNotJudgedSince(completed, before1, after1, judges[j]);
        disk0, written0, calls0 := disk, written, calls;
        var second := JudgeOutput(job, first.value, i, row, REFERENCE, judges[j], completed);
        StretchesCompose(job, old(disk), old(written), calls0, written0, disk0, calls, written, disk);
        if second.None? {
          return None;
        }
        ExtendsTransitive(memory, first.value, second.value);
        ExtensionKeepsReference(first.value, second.value, i);
        BothJudged(completed, judges, j, before1, after1, second.value.cases[i].evaluations);
        m := second.value;
      }
      assert judges[..|judges|] == judges;
      r := Some(m);
    }

    /** One output before one judge, unless that pair is among the keys taken before. */
    method JudgeOutput(
        ghost job: Job, m: Checkpoint, i: nat, row: Row, output: string, judge: string, completed: set<Pair>)
      returns (r: Option<Checkpoint>)
      requires Continues(disk, m) && i < |m.cases| && m.cases[i].reference.Some?
      requires output in {ORIGINAL, REFERENCE} && judge in m.judges
      requires (output, judge) in completed <==> HasPair(m.cases[i].evaluations, output, judge)
      requires IsSourced(job, calls, m) && IsSelected(job, row, m.cases[i].caseId)
      modifies this
      ensures WritesContinue(old(disk), old(written), written, disk)
      ensures old(calls) <= calls && WritesAreSourced(job, calls, |old(written)|, written)
      ensures failed == (old(failed) || r.None?)
      ensures r.Some? ==>
        && Continues(disk, r.value) && Extends(m, r.value) && |r.value.cases| == |m.cases|
        && OnlyAdds(m.cases[i].evaluations, r.value.cases[i].evaluations, output, judge)
        && (r.value == m || disk == r) && IsSourced(job, calls, r.value)
    {
      var item := m.cases[i];
      if (output, judge) in completed {
        ExtendsReflexive(m);
        return Some(m);
      }
      hide IsSourced, WritesContinue, WritesAreSourced;
      NothingWritten(job, calls, disk, written);
      var text := if output == ORIGINAL then item.original else item.reference.value;
      var judgment := Invoke(ForJudgment(row, text, judge));
      StaysSourced(job, old(calls), calls, m);
      NothingWritten(job, calls, disk, written);
      if judgment.None? {
        return None;
      }
      var evaluation := Evaluation(output, judge, judgment.value);
      AppendFits(item, m.judges, evaluation);
      var longer := item.(evaluations := item.evaluations + [evaluation]);
      var after := m.(cases := m.cases[i := longer]);
      AnswerIsLogged(old(calls), ForJudgment(row, text, judge), judgment.value);
      JudgedIsSourced(job, calls, m, i, row, evaluation);
      UpdateContinues(disk, m, i, longer);
      WriteContinues(job, calls, disk, written, after);
      WritePartial(after);
      r := Some(after);
    }

    /** The case of a row in memory: the stored one, or a new one with the cached reference. */
    method OpenCase(ghost job: Job, m: Checkpoint, row: Row, cached: map<string, string>)
      returns (after: Checkpoint, i: nat)
      requires Continues(disk, m) && IsSourced(job, calls, m) && row in job.selected && job.cached == cached
      ensures Continues(disk, after) && Extends(m, after) && IsSourced(job, calls, after)
      ensures i < |after.cases| && after.cases[i].caseId == row.caseId
      ensures after == m || (
        && |after.cases| == |m.cases| + 1 && i == |m.cases| && (forall k :: 0 <= k < i ==> m.cases[k].caseId != row.caseId)
        && after.cases[i].original == row.originalOutput && after.cases[i].evaluations == []
        && after.cases[i].reference == (if row.caseId in cached then Some(cached[row.caseId]) else None)
        && !after.cases[i].completed)
    {
      i := 0;
      ExtendsReflexive(m);
      while i < |m.cases|
        invariant i <= |m.cases|
        invariant forall k :: 0 <= k < i ==> m.cases[k].caseId != row.caseId
      {
        if m.cases[i].caseId == row.caseId {
          return m, i;
        }
        i := i + 1;
      }
      var reference := if row.caseId in cached then Some(cached[row.caseId]) else None;
      OpenedIsSourced(job, calls, m, row);
      hide IsSourced;
      after := m.(cases := m.cases + [Item(row.caseId, row.originalOutput, reference, [], false)]);
      assert Extends(m, after);
      if disk.Some? { ExtendsTransitive(disk.value, m, after); }
    }

    /** Generates the reference output of case `i` when there is none, and writes a checkpoint. */
    method EnsureReference(ghost job: Job, m: Checkpoint, i: nat, row: Row) returns (r: Option<Checkpoint>)
      requires Continues(disk, m) && i < |m.cases|
      requires IsSourced(job, calls, m) && IsSelected(job, row, m.cases[i].caseId)
      modifies this
      ensures WritesContinue(old(disk), old(written), written, disk)
      ensures old(calls) <= calls && WritesAreSourced(job, calls, |old(written)|, written)
      ensures failed == (old(failed) || r.None?)
      ensures r.Some? ==>
        && Continues(disk, r.value) && Extends(m, r.value) && |r.value.cases| == |m.cases|
        && r.value.cases[i].reference.Some?
        && (r.value == m || disk == r) && IsSourced(job, calls, r.value)
    {
      ExtendsReflexive(m);
      if m.cases[i].reference.Some? {
        return Some(m);
      }
      hide IsSourced, WritesContinue, WritesAreSourced;
      var answer := Invoke(ForReference(row));
      StaysSourced(job, old(calls), calls, m);
      NothingWritten(job, calls, disk, written);
      if answer.None? {
        return None;
      }
      var item := m.cases[i].(reference := answer);
      var after := m.(cases := m.cases[i := item]);
      AnswerIsLogged(old(calls), ForReference(row), answer.value);
      assert ItemFits(m.cases[i], m.judges);
      ReferencedIsSourced(job, calls, m, i, row, answer.value);
      UpdateContinues(disk, m, i, item);
      WriteContinues(job, calls, disk, written, after);
      WritePartial(after);
      r := Some(after);
    }

    /** One selected row from start to finish. */
    method EvaluateCase(ghost job: Job, memory: Checkpoint, row: Row, cached: map<string, string>)
      returns (r: Option<Checkpoint>)
      requires Continues(disk, memory) && IsSourced(job, calls, memory) && row in job.selected && job.cached == cached
      modifies this
      ensures WritesContinue(old(disk), old(written), written, disk)
      ensures old(calls) <= calls && WritesAreSourced(job, calls, |old(written)|, written)
      ensures failed == (old(failed) || r.None?)
      ensures r.Some? ==>
        && disk == r && Continues(disk, r.value) && Extends(memory, r.value) && IsSourced(job, calls, r.value)
        && CaseDone(r.value.cases, row.caseId, memory.judges)
    {
      hide IsSourced, WritesContinue, WritesAreSourced;
      var entered, i := OpenCase(job, memory, row, cached);
      var referenced := EnsureReference(job, entered, i, row);
      if referenced.None? {
        return None;
      }
      assert ItemExtends(entered.cases[i], referenced.value.cases[i]);
      ghost var disk1, written1, calls1 := disk, written, calls;
      var judged := JudgeItem(job, referenced.value, i, row);
      StretchesCompose(job, old(disk), old(written), calls1, written1, disk1, calls, written, disk);
      if judged.None? {
        return None;
      }
      ghost var disk2, written2 := disk, written;
      var after := CompleteCase(job, judged.value, i);
      StretchesCompose(job, old(disk), old(written), calls, written2, disk2, calls, written, disk);
      ExtendsTransitive(memory, entered, referenced.value);
      ExtendsTransitive(memory, referenced.value, judged.value);
      ExtendsTransitive(memory, judged.value, after);
      r := Some(after);
    }

    /** Marks a fully judged case as completed, and writes a checkpoint. */
    method CompleteCase(ghost job: Job, m: Checkpoint, i: nat) returns (after: Checkpoint)
      requires Continues(disk, m) && IsSourced(job, calls, m) && i < |m.cases| && m.cases[i].reference.Some?
      requires FullyJudged(m.cases[i].evaluations, m.judges)
      modifies this`disk, this`written
      ensures WritesContinue(old(disk), old(written), written, disk)
      ensures WritesAreSourced(job, calls, |old(written)|, written)
      ensures disk == Some(after) && Continues(disk, after) && Extends(m, after) && IsSourced(job, calls, after)
      ensures CaseDone(after.cases, m.cases[i].caseId, m.judges)
    {
      hide IsSourced, WritesContinue, WritesAreSourced;
      var item := m.cases[i].(completed := true);
      assert ItemFits(m.cases[i], m.judges);
      after := m.(cases := m.cases[i := item]);
      UpdateContinues(disk, m, i, item);
      CompletedIsSourced(job, calls, m, i);
      WriteContinues(job, calls, disk, written, after);
      WritePartial(after);
      FullItemsHaveTwoPerJudge(item.evaluations, m.judges);
      assert after.cases[i].caseId == m.cases[i].caseId;
    }

    /** The selected rows, one after the other; nothing comes back when interrupted. */
    method EvaluateAll(ghost job: Job, start: Checkpoint, selected: seq<Row>, cached: map<string, string>)
      returns (r: Option<Checkpoint>)
      requires Continues(disk, start) && IsSourced(job, calls, start) && job.selected == selected && job.cached == cached
      modifies this
      ensures WritesContinue(old(disk), old(written), written, disk)
      ensures old(calls) <= calls && WritesAreSourced(job, calls, |old(written)|, written)
      ensures failed == (old(failed) || r.None?)
      ensures r.Some? && selected != [] ==>
        && disk == r && r.value.judges == start.judges
        && forall k :: 0 <= k < |selected| ==> CaseDone(r.value.cases, selected[k].caseId, start.judges)
    {
      var memory := start;
      hide Fits, Extends, WritesContinue, CaseDone, IsSourced, WritesAreSourced;
      NothingWritten(job, calls, disk, written);
      for k := 0 to |selected|
        invariant Continues(disk, memory) && memory.judges == start.judges && failed == old(failed)
        invariant k > 0 ==> disk == Some(memory)
        invariant WritesContinue(old(disk), old(written), written, disk)
        invariant old(calls) <= calls && WritesAreSourced(job, calls, |old(written)|, written)
        invariant IsSourced(job, calls, memory)
        invariant forall i :: 0 <= i < k ==> CaseDone(memory.cases, selected[i].caseId, start.judges)
      {
        ghost var disk0, written0, calls0 := disk, written, calls;
        var next := EvaluateCase(job, memory, selected[k], cached);
        StretchesCompose(job, old(disk), old(written), calls0, written0, disk0, calls, written, disk);
        if next.None? {
          return None;
        }
        AllStayDone(memory, next.value, selected, k);
        memory := next.value;
      }
      r := Some(memory);
    }

    /**
     * One run.  Every checkpoint it writes fits and goes on from the one it overwrites; it is
     * interrupted exactly by a failed call; when it completes, every selected case has exactly
     * one evaluation for each judge and output.
     */
    method Run(selected: seq<Row>, rawJudges: seq<string>, execute: bool, cached: map<string, string>)
      returns (outcome: Outcome)
      requires Sound()
      modifies this
      ensures Sound() && DiskContinues(old(disk), disk) && WritesContinue(old(disk), old(written), written, disk)
      ensures WritesAreSourced(Job(old(disk), selected, cached), calls, |old(written)|, written)
      ensures outcome == NoJudges <==> rawJudges == []
      ensures outcome == NothingSelected <==> rawJudges != [] && selected == []
      ensures outcome == DryRun <==> rawJudges != [] && selected != [] && !execute
      ensures outcome == JudgesDiffer <==>
        && rawJudges != [] && selected != [] && execute
        && old(disk).Some? && old(disk).value.judges != Dedup(rawJudges)
      ensures outcome == Interrupted <==>
        && rawJudges != [] && selected != [] && execute
        && (old(disk).Some? ==> old(disk).value.judges == Dedup(rawJudges)) && failed
      ensures outcome != Interrupted && outcome != Completed ==> disk == old(disk) && written == old(written)
      ensures outcome == Completed ==>
        && disk.Some? && disk.value.judges == Dedup(rawJudges)
        && forall k :: 0 <= k < |selected| ==> CaseDone(disk.value.cases, selected[k].caseId, Dedup(rawJudges))
    {
      var judges := Dedup(rawJudges);
      ContinuesReflexive(disk);
      NoJudgesAtAll(rawJudges);
      if judges == [] {
        return NoJudges;
      }
      if selected == [] {
        return NothingSelected;
      }
      if !execute {
        return DryRun;
      }
      failed, calls := false, [];
      if disk.Some? && disk.value.judges != judges {
        return JudgesDiffer;
      }
      var memory := if disk.Some? then disk.value else Checkpoint(judges, []);
      StartIsSourced(Job(disk, selected, cached), calls, memory);
      var done := EvaluateAll(Job(disk, selected, cached), memory, selected, cached);
      RunIsSound(old(disk), old(written), written, disk);
      outcome := if done.Some? then Completed else Interrupted;
    }
  }

  /** What was done stays done while the next row is evaluated. */
  lemma AllStayDone(memory: Checkpoint, next: Checkpoint, selected: seq<Row>, k: nat)
    requires k < |selected| && Fits(next) && Extends(memory, next)
    requires CaseDone(next.cases, selected[k].caseId, memory.judges)
    requires forall i :: 0 <= i < k ==> CaseDone(memory.cases, selected[i].caseId, memory.judges)
    ensures next.judges == memory.judges
    ensures forall i :: 0 <= i < k + 1 ==> CaseDone(next.cases, selected[i].caseId, memory.judges)
  {
    forall i | 0 <= i < k ensures CaseDone(next.cases, selected[i].caseId, memory.judges) {
      CaseStaysDone(memory, next, selected[i].caseId);
    }
  }

  lemma RunIsSound(
      before: Option<Checkpoint>, earlier: seq<Checkpoint>, written: seq<Checkpoint>, disk: Option<Checkpoint>)
    requires DiskContinues(before, before) && WritesContinue(before, earlier, written, disk)
    ensures DiskContinues(before, disk)
    ensures disk.Some? ==> Fits(disk.value)
  {
    WritesGoOn(before, |earlier|, written, |earlier|, |written|);
  }

  lemma NoJudgesAtAll(rawJudges: seq<string>)
    ensures Dedup(rawJudges) == [] <==> rawJudges == []
  {
    if rawJudges != [] {
      assert rawJudges[0] in rawJudges;
    }
  }

  // ----- The keys taken before the judgments -----

  lemma NothingJudgedSince(evaluations: seq<Evaluation>, judges: seq<string>)
    ensures JudgedSince(KeysOf(evaluations), judges[..0], evaluations) && FullyJudged(evaluations, judges[..0])
  {
  }

  /** A judge whose turn comes now was not judged with since: no judge is listed twice. */
  lemma NextIsNotJudgedSince(completed: set<Pair>, judges: seq<string>, j: nat, evaluations: seq<Evaluation>)
    requires j < |judges| && DistinctJudges(judges) && JudgedSince(completed, judges[..j], evaluations)
    ensures judges[j] in judges
    ensures forall o :: (o, judges[j]) in completed <==> HasPair(evaluations, o, judges[j])
  {
    assert judges[j] !in judges[..j];
  }

  lemma ReferenceIsNotJudgedSince(
      completed: set<Pair>, before: seq<Evaluation>, after: seq<Evaluation>, judge: string)
    requires forall o :: (o, judge) in completed <==> HasPair(before, o, judge)
    requires OnlyAdds(before, after, ORIGINAL, judge)
    ensures (REFERENCE, judge) in completed <==> HasPair(after, REFERENCE, judge)
  {
    assert ORIGINAL != REFERENCE;
  }

  lemma BothJudged(
      completed: set<Pair>, judges: seq<string>, j: nat, before: seq<Evaluation>, middle: seq<Evaluation>,
      after: seq<Evaluation>)
    requires j < |judges| && JudgedSince(completed, judges[..j], before) && FullyJudged(before, judges[..j])
    requires OnlyAdds(before, middle, ORIGINAL, judges[j]) && OnlyAdds(middle, after, REFERENCE, judges[j])
    ensures JudgedSince(completed, judges[..j + 1], after) && FullyJudged(after, judges[..j + 1])
  {
    hide HasPair;
    assert judges[..j + 1] == judges[..j] + [judges[j]];
  }

  lemma ExtensionKeepsReference(m: Checkpoint, after: Checkpoint, i: nat)
    requires Extends(m, after) && i < |m.cases| && m.cases[i].reference.Some?
    ensures i < |after.cases| && after.cases[i].reference.Some? && after.judges == m.judges
    ensures after.cases[i].caseId == m.cases[i].caseId
  {
    assert ItemExtends(m.cases[i], after.cases[i]);
  }

  lemma PairStays(before: seq<Evaluation>, after: seq<Evaluation>, output: string, judge: string)
    requires before <= after && HasPair(before, output, judge)
    ensures HasPair(after, output, judge)
  {
    var i :| 0 <= i < |before| && PairOf(before[i]) == (output, judge);
    assert PairOf(after[i]) == (output, judge);
  }

  lemma JudgedStays(before: Item, after: Item, judges: seq<string>)
    requires ItemExtends(before, after) && FullyJudged(before.evaluations, judges)
    ensures FullyJudged(after.evaluations, judges)
  {
    forall judge | judge in judges
      ensures HasPair(after.evaluations, ORIGINAL, judge) && HasPair(after.evaluations, REFERENCE, judge)
    {
      PairStays(before.evaluations, after.evaluations, ORIGINAL, judge);
      PairStays(before.evaluations, after.evaluations, REFERENCE, judge);
    }
  }

  /** A case that is done stays done, with the very same evaluations. */
  lemma CaseStaysDone(before: Checkpoint, after: Checkpoint, caseId: string)
    requires Fits(after) && Extends(before, after) && CaseDone(before.cases, caseId, before.judges)
    ensures CaseDone(after.cases, caseId, after.judges)
  {
    var i :| 0 <= i < |before.cases| && before.cases[i].caseId == caseId && before.cases[i].completed
      && FullyJudged(before.cases[i].evaluations, before.judges) && |before.cases[i].evaluations| == 2 * |before.judges|;
    assert ItemExtends(before.cases[i], after.cases[i]) && ItemFits(after.cases[i], after.judges);
    JudgedStays(before.cases[i], after.cases[i], before.judges);
    FullItemsHaveTwoPerJudge(after.cases[i].evaluations, after.judges);
  }

  /** What every run guarantees of the file, interrupted or not. */
  predicate DiskContinues(before: Option<Checkpoint>, disk: Option<Checkpoint>) {
    && (disk.Some? ==> Fits(disk.value))
    && (before.Some? ==> disk.Some? && Extends(before.value, disk.value))
  }

  /** `memory` goes on from what is on disk. */
  predicate Continues(disk: Option<Checkpoint>, memory: Checkpoint) {
    Fits(memory) && (disk.Some? ==> Fits(disk.value) && Extends(disk.value, memory))
  }

  lemma ExtendsTransitive(a: Checkpoint, b: Checkpoint, c: Checkpoint)
    requires Extends(a, b) && Extends(b, c)
    ensures Extends(a, c)
  {
    forall i | 0 <= i < |a.cases| ensures ItemExtends(a.cases[i], c.cases[i]) {
      assert ItemExtends(a.cases[i], b.cases[i]) && ItemExtends(b.cases[i], c.cases[i]);
    }
  }

  lemma ExtendsReflexive(a: Checkpoint)
    ensures Extends(a, a)
  {
  }

  /** Replacing one item by an extension of it. */
  lemma UpdateContinues(disk: Option<Checkpoint>, memory: Checkpoint, i: nat, item: Item)
    requires Continues(disk, memory) && i < |memory.cases|
    requires ItemFits(item, memory.judges) && ItemExtends(memory.cases[i], item)
    ensures Continues(disk, memory.(cases := memory.cases[i := item]))
    ensures Extends(memory, memory.(cases := memory.cases[i := item]))
  {
    var after := memory.(cases := memory.cases[i := item]);
    forall k | 0 <= k < |memory.cases| ensures ItemExtends(memory.cases[k], after.cases[k]) {}
    if disk.Some? { ExtendsTransitive(disk.value, memory, after); }
  }

  lemma AppendFits(item: Item, judges: seq<string>, e: Evaluation)
    requires ItemFits(item, judges) && item.reference.Some?
    requires e.output in {ORIGINAL, REFERENCE} && e.judge in judges && !HasPair(item.evaluations, e.output, e.judge)
    ensures var longer := item.(evaluations := item.evaluations + [e]);
      && ItemFits(longer, judges) && ItemExtends(item, longer)
      && OnlyAdds(item.evaluations, longer.evaluations, e.output, e.judge)
  {
    var longer := item.evaluations + [e];
    assert PairOf(longer[|item.evaluations|]) == (e.output, e.judge);
    forall o, j | HasPair(item.evaluations, o, j) ensures HasPair(longer, o, j) {
      var i :| 0 <= i < |item.evaluations| && PairOf(item.evaluations[i]) == (o, j);
      assert PairOf(longer[i]) == (o, j);
    }
  }

  // ----- Any number of runs -----

  lemma ContinuesTransitive(a: Option<Checkpoint>, b: Option<Checkpoint>, c: Option<Checkpoint>)
    requires DiskContinues(a, b) && DiskContinues(b, c)
    ensures DiskContinues(a, c)
  {
    if a.Some? { ExtendsTransitive(a.value, b.value, c.value); }
  }

  lemma ContinuesReflexive(a: Option<Checkpoint>)
    requires a.Some? ==> Fits(a.value)
    ensures DiskContinues(a, a)
  {
    if a.Some? { ExtendsReflexive(a.value); }
  }

  lemma GoingOnFits(a: Option<Checkpoint>, b: Option<Checkpoint>)
    requires DiskContinues(a, b)
    ensures DiskContinues(b, b)
  {
    hide Fits;
    ContinuesReflexive(b);
  }

  /** Every checkpoint goes on from the file found at first, and from everything written before it. */
  lemma {:induction false} WritesGoOn(
      before: Option<Checkpoint>, n: nat, written: seq<Checkpoint>, i: nat, k: nat)
    requires n <= i <= k <= |written| && DiskContinues(before, before)
    requires forall m :: n <= m < |written| ==> DiskContinues(FileAt(before, n, written, m), Some(written[m]))
    ensures DiskContinues(FileAt(before, n, written, i), FileAt(before, n, written, k))
  {
    hide DiskContinues;
    if k > n {
      assert DiskContinues(FileAt(before, n, written, k - 1), FileAt(before, n, written, k));
      if i == k {
        GoingOnFits(FileAt(before, n, written, k - 1), FileAt(before, n, written, k));
      } else {
        WritesGoOn(before, n, written, i, k - 1);
        ContinuesTransitive(
          FileAt(before, n, written, i), FileAt(before, n, written, k - 1), FileAt(before, n, written, k));
      }
    }
  }

  /** The checkpoint file, and everything that was ever in it. */
  datatype File = File(disk: Option<Checkpoint>, written: seq<Checkpoint>)

  const NO_FILE := File(None, [])

  predicate RunContinues(before: File, after: File) {
    WritesContinue(before.disk, before.written, after.written, after.disk)
  }

  /** What a run leaves behind that is killed after any of its writes. */
  lemma KilledRunContinues(before: File, after: File, n: nat)
    requires RunContinues(before, after) && |before.written| <= n <= |after.written|
    ensures RunContinues(
      before, File(FileAt(before.disk, |before.written|, after.written, n), after.written[..n]))
  {
    hide DiskContinues;
    var first, written := |before.written|, after.written;
    forall k | first <= k < n
      ensures DiskContinues(FileAt(before.disk, first, written[..n], k), Some(written[..n][k]))
    {
      assert FileAt(before.disk, first, written[..n], k) == FileAt(before.disk, first, written, k);
    }
  }

  lemma {:induction false} RunsContinue(files: seq<File>)
    requires |files| > 0 && files[0] == NO_FILE
    requires forall i :: 0 <= i < |files| - 1 ==> RunContinues(files[i], files[i + 1])
    ensures RunContinues(NO_FILE, files[|files| - 1])
  {
    if |files| > 1 {
      var init := files[..|files| - 1];
      RunsContinue(init);
      var middle, last := files[|files| - 2], files[|files| - 1];
      assert RunContinues(files[|files| - 2], files[|files| - 2 + 1]);
      WritesCompose(None, [], middle.written, middle.disk, last.written, last.disk);
    }
  }

  /**
   * Any number of runs, each interrupted or killed anywhere: every checkpoint ever written has
   * unique cases and no pair stored twice, and every later one, up to the file itself, still has
   * every reference and evaluation of it.
   */
  lemma ResumesLoseNothing(files: seq<File>, j: nat, k: nat)
    requires |files| > 0 && files[0] == NO_FILE
    requires forall i :: 0 <= i < |files| - 1 ==> RunContinues(files[i], files[i + 1])
    requires j <= k < |files[|files| - 1].written|
    ensures var last := files[|files| - 1];
      && Fits(last.written[j]) && Extends(last.written[j], last.written[k])
      && last.disk == Some(last.written[|last.written| - 1])
  {
    RunsContinue(files);
    var written := files[|files| - 1].written;
    assert |NO_FILE.written| == 0;
    hide RunContinues, Extends, Fits;
    ContinuesReflexive(None);
    WritesGoOn(None, 0, written, 0, j + 1);
    WritesGoOn(None, 0, written, j + 1, k + 1);
  }

  /** A run from one file to the next, with what it worked on and asked. */
  datatype Session = Session(job: Job, calls: seq<Call>, before: File, after: File)

  ghost predicate IsSession(s: Session) {
    && s.job.start == s.before.disk && RunContinues(s.before, s.after)
    && WritesAreSourced(s.job, s.calls, |s.before.written|, s.after.written)
  }

  ghost predicate AreSessions(sessions: seq<Session>) {
    && (forall k :: 0 <= k < |sessions| ==> IsSession(sessions[k]))
    && (sessions != [] ==> sessions[0].before == NO_FILE)
    && (forall k :: 0 < k < |sessions| ==> sessions[k].before == sessions[k - 1].after)
  }

  function LastFile(sessions: seq<Session>): File {
    if sessions == [] then NO_FILE else sessions[|sessions| - 1].after
  }

  ghost predicate OriginalIsFrom(s: Session, item: Item) {
    exists row :: IsSelected(s.job, row, item.caseId) && item.original == row.originalOutput
  }

  ghost predicate ReferenceIsFrom(s: Session, item: Item) {
    && item.reference.Some?
    && ((item.caseId in s.job.cached && s.job.cached[item.caseId] == item.reference.value)
        || ReferenceIsAnswer(s.job, s.calls, item))
  }

  /** Every part of the item comes from some session: a selected row, its cache or an answer given in it. */
  ghost predicate IsFromSessions(sessions: seq<Session>, item: Item) {
    && (exists s :: s in sessions && OriginalIsFrom(s, item))
    && (item.reference.Some? ==> exists s :: s in sessions && ReferenceIsFrom(s, item))
    && forall k :: 0 <= k < |item.evaluations| ==>
      exists s :: s in sessions && JudgmentIsAnswer(s.job, s.calls, item, item.evaluations[k])
  }

  lemma JudgmentStays(job: Job, calls: seq<Call>, before: Item, after: Item, e: Evaluation)
    requires ItemExtends(before, after) && (e.output == ORIGINAL || before.reference.Some?)
    requires JudgmentIsAnswer(job, calls, before, e)
    ensures JudgmentIsAnswer(job, calls, after, e)
  {
    var row :| IsSelected(job, row, before.caseId) &&
      IsAnswered(calls, ForJudgment(row, TextOf(before, e.output), e.judge), e.judgment);
    assert IsSelected(job, row, after.caseId) && TextOf(before, e.output) == TextOf(after, e.output);
  }

  /** What was from sessions before is so with another one behind them. */
  lemma ItemStaysFromSessions(sessions: seq<Session>, last: Session, before: Item, after: Item, judges: seq<string>)
    requires IsFromSessions(sessions, before) && ItemExtends(before, after) && ItemFits(before, judges)
    requires ItemIsSourced(last.job, last.calls, Some(before), after)
    ensures IsFromSessions(sessions + [last], after)
  {
    var all := sessions + [last];
    assert last in all && forall s :: s in sessions ==> s in all;
    var s :| s in sessions && OriginalIsFrom(s, before);
    assert OriginalIsFrom(s, after);
    if before.reference.Some? {
      var r :| r in sessions && ReferenceIsFrom(r, before);
      if ReferenceIsAnswer(r.job, r.calls, before) { assert ReferenceIsAnswer(r.job, r.calls, after); }
      assert ReferenceIsFrom(r, after);
    } else if after.reference.Some? {
      assert ReferenceIsFrom(last, after);
    }
    forall k | 0 <= k < |after.evaluations|
      ensures exists s :: s in all && JudgmentIsAnswer(s.job, s.calls, after, after.evaluations[k])
    {
      if k < |before.evaluations| {
        var e := before.evaluations[k];
        var t :| t in sessions && JudgmentIsAnswer(t.job, t.calls, before, e);
        JudgmentStays(t.job, t.calls, before, after, e);
        assert e == after.evaluations[k] && t in all;
      } else {
        assert JudgmentIsAnswer(last.job, last.calls, after, after.evaluations[k]);
      }
    }
  }

  lemma NewItemIsFromSessions(sessions: seq<Session>, last: Session, item: Item)
    requires ItemIsSourced(last.job, last.calls, None, item)
    ensures IsFromSessions(sessions + [last], item)
  {
    assert last in sessions + [last] && OriginalIsFrom(last, item);
    assert item.reference.Some? ==> ReferenceIsFrom(last, item);
  }

  /** The file after a session, item by item. */
  lemma SessionSources(s: Session)
    requires IsSession(s) && (s.before.disk.Some? ==> Fits(s.before.disk.value))
    ensures DiskContinues(s.before.disk, s.after.disk)
    ensures s.after.disk.Some? ==>
      IsSourced(s.job, s.calls, s.after.disk.value) || s.after.disk == s.before.disk
  {
    hide IsSourced;
    ContinuesReflexive(s.before.disk);
    RunIsSound(s.before.disk, s.before.written, s.after.written, s.after.disk);
  }

  lemma ItemIsUnchanged(job: Job, calls: seq<Call>, item: Item)
    ensures ItemIsSourced(job, calls, Some(item), item) && ItemExtends(item, item)
  {
  }

  /**
   * Over any number of runs that complete, are interrupted or killed: every original, reference
   * and judgment in the file comes from one of them, from a selected row of the case, from the
   * cache for the case, or from the provider's answer to that very question.
   */
  lemma {:induction false} EveryCaseHasItsSources(sessions: seq<Session>)
    requires AreSessions(sessions)
    ensures var disk := LastFile(sessions).disk;
      disk.Some? ==> Fits(disk.value) && forall i :: 0 <= i < |disk.value.cases| ==> IsFromSessions(sessions, disk.value.cases[i])
  {
    if sessions != [] {
      var init, last := sessions[..|sessions| - 1], sessions[|sessions| - 1];
      EveryCaseHasItsSources(init);
      assert last.before == LastFile(init) && sessions == init + [last];
      SessionSources(last);
      if last.after.disk.Some? {
        hide Fits, IsSession, ItemIsSourced, IsFromSessions;
        forall i | 0 <= i < |last.after.disk.value.cases|
          ensures IsFromSessions(sessions, last.after.disk.value.cases[i])
        {
          CaseHasItsSources(init, last, i);
        }
      }
    }
  }

  lemma CaseHasItsSources(init: seq<Session>, last: Session, i: nat)
    requires last.job.start == last.before.disk && DiskContinues(last.before.disk, last.after.disk)
    requires last.after.disk.Some? && i < |last.after.disk.value.cases|
    requires IsSourced(last.job, last.calls, last.after.disk.value) || last.after.disk == last.before.disk
    requires last.before.disk.Some? ==>
      && Fits(last.before.disk.value)
      && forall i :: 0 <= i < |last.before.disk.value.cases| ==> IsFromSessions(init, last.before.disk.value.cases[i])
    ensures IsFromSessions(init + [last], last.after.disk.value.cases[i])
  {
    hide IsFromSessions, ItemIsSourced;
    var after := last.after.disk.value;
    if last.before.disk.Some? && i < |last.before.disk.value.cases| {
      var before := last.before.disk.value;
      assert ItemExtends(before.cases[i], after.cases[i]) && ItemFits(before.cases[i], before.judges);
      ItemIsUnchanged(last.job, last.calls, before.cases[i]);
      ItemStaysFromSessions(init, last, before.cases[i], after.cases[i], before.judges);
    } else {
      NewItemIsFromSessions(init, last, after.cases[i]);
    }
  }
}
