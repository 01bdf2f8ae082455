/**
 Two things about reading a results directory that the arithmetic of a budget relies on: the order its
 files are listed in is nothing, and what is recognised may be charged run by run or all at once.
 */
module Reading {
  import opened Common
  import opened Budget
  import opened Store
  import opened DerivedCeiling
  import opened Recognition
  import opened SpendGate
  import opened Listing
  import opened History
  import opened Pass
  import Ledger

  // ------------------------------------------------------------------ the order of the listing

  function Dropped(runs: seq<RecognisedRun>, k: nat): seq<RecognisedRun>
    requires k < |runs|
  {
    runs[..k] + runs[k + 1..]
  }

  lemma {:induction false} TotalWithout(runs: seq<RecognisedRun>, k: nat)
    requires k < |runs|
    ensures Total(runs) == AddTotals(Total(Dropped(runs, k)), Recognised(runs[k]))
  {
    hide Recognised;
    var n := |runs| - 1;
    if k == n {
      assert Dropped(runs, k) == runs[..n];
    } else {
      TotalWithout(runs[..n], k);
      assert Dropped(runs, k)[..n - 1] == Dropped(runs[..n], k);
      assert Dropped(runs, k)[n - 1] == runs[n];
    }
  }

  lemma DroppedKeepsTheRest(runs: seq<RecognisedRun>, k: nat)
    requires k < |runs| && DistinctRuns(runs)
    ensures DistinctRuns(Dropped(runs, k))
    ensures forall run :: run in Dropped(runs, k) <==> run in runs && run != runs[k]
  {
    var rest := Dropped(runs, k);
    forall run | run in runs && run != runs[k] ensures run in rest {
      var i :| 0 <= i < |runs| && runs[i] == run;
      assert rest[if i < k then i else i - 1] == run;
    }
    forall i | 0 <= i < |rest| ensures rest[i] in runs && rest[i] != runs[k] {
      assert rest[i] == runs[if i < k then i else i + 1];
    }
  }

  lemma NoRuns(runs: seq<RecognisedRun>)
    ensures runs == [] <==> forall run :: run !in runs
  {
    if runs != [] {
      assert runs[0] in runs;
    }
  }

  lemma {:induction false} SameRunsSameTotal(left: seq<RecognisedRun>, right: seq<RecognisedRun>)
    requires DistinctRuns(left) && DistinctRuns(right) && forall run :: run in left <==> run in right
    ensures Total(left) == Total(right)
  {
    if left == [] {
      NoRuns(left);
      NoRuns(right);
    } else {
      var n := |left| - 1;
      assert left[n] in left;
      var k :| 0 <= k < |right| && right[k] == left[n];
      DroppedKeepsTheRest(left, n);
      DroppedKeepsTheRest(right, k);
      assert Dropped(left, n) == left[..n];
      SameRunsSameTotal(left[..n], Dropped(right, k));
      TotalWithout(right, k);
    }
  }

  lemma SameRunsSameForRun(left: seq<RecognisedRun>, right: seq<RecognisedRun>, id: string)
    requires DistinctRuns(left) && DistinctRuns(right) && forall run :: run in left <==> run in right
    ensures ForRun(left, id) == ForRun(right, id)
  {
    hide Recognised;
    if i :| 0 <= i < |left| && left[i].runId == id {
      assert left[i] in left;
      var k :| 0 <= k < |right| && right[k] == left[i];
      ForRunFinds(left, i);
      ForRunFinds(right, k);
    } else {
      forall k | 0 <= k < |right| ensures right[k].runId != id {
        assert right[k] in right;
        var i :| 0 <= i < |left| && left[i] == right[k];
      }
      ForRunAbsent(left, id);
      ForRunAbsent(right, id);
    }
  }

  /** Two listings of the same files allow the same identities and give every pass the same budget. */
  lemma ListingOrderIsNothing(suite: Suite, a: Disk, b: Disk, split: Split, model: string, id: string,
      typed: EvalBudget)
    requires Tidy(a) && Tidy(b) && a.ledger == b.ledger && forall f :: f in a.files <==> f in b.files
    ensures SpendOn(suite, a, split, model).Ok? && SpendOn(suite, b, split, model).Ok?
    ensures var left, right := SpendOn(suite, a, split, model).value, SpendOn(suite, b, split, model).value;
            && BoughtIds(left) == BoughtIds(right)
            && GenerationBudget(CasesOf(suite, split), MaxRuns(split), left, id, typed)
               == GenerationBudget(CasesOf(suite, split), MaxRuns(split), right, id, typed)
  {
    SpendOnLists(suite, a, split, model);
    SpendOnLists(suite, b, split, model);
    var left, right := SpendOn(suite, a, split, model).value, SpendOn(suite, b, split, model).value;
    forall run ensures run in left <==> run in right {
      SameViews(suite, a, b, split, model, left, right, run);
    }
    hide SpendOn, Tidy, NovaCeiling, Recognised, ListsSplit;
    SameRunsSameTotal(left, right);
    SameRunsSameForRun(left, right, id);
  }

  lemma SameViews(suite: Suite, a: Disk, b: Disk, split: Split, model: string,
                  left: seq<RecognisedRun>, right: seq<RecognisedRun>, run: RecognisedRun)
    requires a.ledger == b.ledger && forall f :: f in a.files <==> f in b.files
    requires ListsSplit(suite, a, split, model, left) && ListsSplit(suite, b, split, model, right)
    ensures run in left <==> run in right
  {
    hide Over, View;
    if run in left {
      assert IsViewOver(suite, a, split, model, run);
    }
    if run in right {
      assert IsViewOver(suite, b, split, model, run);
    }
  }

  // ------------------------------------------------------------------ read file by file

  /** The split's files of the model, each as the gate recognises it, in listing order. */
  function InFileOrder(suite: Suite, ledger: seq<Ledger.Line>, files: seq<RunFile>, split: Split, model: string)
    : seq<RecognisedRun>
  {
    if files == [] then []
    else
      var before, f := InFileOrder(suite, ledger, files[..|files| - 1], split, model), files[|files| - 1];
      if Over(f, split, model) then before + [View(suite, ledger, f)] else before
  }

  lemma {:induction false} FileOrderLists(suite: Suite, ledger: seq<Ledger.Line>, files: seq<RunFile>, split: Split,
      model: string)
    requires DistinctNames(files)
    ensures ListsSplit(suite, Disk(ledger, files), split, model, InFileOrder(suite, ledger, files, split, model))
  {
    if files != [] {
      var n := |files| - 1;
      FileOrderLists(suite, ledger, files[..n], split, model);
      OneMoreFile(suite, ledger, files, split, model, InFileOrder(suite, ledger, files[..n], split, model));
    }
  }

  lemma OneMoreFile(suite: Suite, ledger: seq<Ledger.Line>, files: seq<RunFile>, split: Split, model: string,
      before: seq<RecognisedRun>)
    requires files != [] && DistinctNames(files)
    requires ListsSplit(suite, Disk(ledger, files[..|files| - 1]), split, model, before)
    ensures var f := files[|files| - 1];
            ListsSplit(suite, Disk(ledger, files), split, model,
                       if Over(f, split, model) then before + [View(suite, ledger, f)] else before)
  {
    var n := |files| - 1;
    var f := files[n];
    hide Over;
    assert forall g :: g in files <==> g in files[..n] || g == f;
    forall run | run in before ensures run.runId != f.name
        && IsViewOver(suite, Disk(ledger, files), split, model, run) {
      assert IsViewOver(suite, Disk(ledger, files[..n]), split, model, run);
    }
    if Over(f, split, model) {
      assert IsViewOver(suite, Disk(ledger, files), split, model, View(suite, ledger, f));
    }
  }

  /** What the gate reads adds up to what its files hold one by one. */
  lemma ReadingIsFileByFile(suite: Suite, disk: Disk, split: Split, model: string)
    requires Tidy(disk)
    ensures SpendOn(suite, disk, split, model).Ok?
    ensures var runs, inOrder := SpendOn(suite, disk, split, model).value,
        InFileOrder(suite, disk.ledger, disk.files, split, model);
            Total(runs) == Total(inOrder) && forall id :: ForRun(runs, id) == ForRun(inOrder, id)
  {
    SpendOnLists(suite, disk, split, model);
    FileOrderLists(suite, disk.ledger, disk.files, split, model);
    assert disk == Disk(disk.ledger, disk.files);
    var runs, inOrder := SpendOn(suite, disk, split, model).value,
        InFileOrder(suite, disk.ledger, disk.files, split, model);
    forall run ensures run in runs <==> run in inOrder {
      SameViews(suite, disk, disk, split, model, runs, inOrder, run);
    }
    hide SpendOn, Tidy, Recognised, ListsSplit, InFileOrder, ForRun, Total;
    SameRunsSameTotal(runs, inOrder);
    forall id ensures ForRun(runs, id) == ForRun(inOrder, id) {
      SameRunsSameForRun(runs, inOrder, id);
    }
  }

  /** Over every history, the gate counts as runs those that bought anything, and the records that were never sent. */
  lemma RunsAreCounted(suite: Suite, commands: seq<Command>, split: Split, model: string)
    requires ValidSuite(suite) && Named(commands)
    ensures var s := Run(suite, commands);
            && SpendOn(suite, s.disk, split, model).Ok?
            && var runs := SpentOn(suite, s, split, model);
               Total(runs).runs == |BoughtIds(runs)| && Total(runs).unsentCalls == UnsentOf(runs)
  {
    var s := Run(suite, commands);
    EveryHistoryKeepsInvariant(suite, commands);
    assert Tidy(s.disk);
    SpendOnLists(suite, s.disk, split, model);
    var runs := SpentOn(suite, s, split, model);
    hide Run, Invariant, Tidy, SpendOn, Total, BoughtIds, UnsentOf;
    forall i | 0 <= i < |runs| ensures runs[i].recorded.Some? && runs[i].recorded.value.calls >= 0 {
      assert IsViewOver(suite, s.disk, split, model, runs[i]);
    }
    TotalCountsTheBought(runs);
  }

  // ------------------------------------------------------------------ charging run by run

  predicate NeverNegative(t: Totals) {
    t.calls >= 0 && t.inputTokens >= 0 && t.outputTokens >= 0 && t.usd >= 0
  }

  lemma ViewIsNeverNegative(suite: Suite, disk: Disk, f: RunFile)
    requires Live(f)
    ensures NeverNegative(Recognised(View(suite, disk.ledger, f)))
  {
    hide ReadLines, TerminalCount;
  }

  /** What is recognised of a run with a run file is never negative, whatever its ledger lines say. */
  lemma RecognisedIsNeverNegative(suite: Suite, disk: Disk, split: Split, model: string)
    requires Tidy(disk)
    ensures SpendOn(suite, disk, split, model).Ok?
    ensures forall run :: run in SpendOn(suite, disk, split, model).value ==> NeverNegative(Recognised(run))
  {
    SpendOnLists(suite, disk, split, model);
    var runs := SpendOn(suite, disk, split, model).value;
    hide SpendOn, Tidy, Recognised, View;
    forall run | run in runs ensures NeverNegative(Recognised(run)) {
      assert IsViewOver(suite, disk, split, model, run);
      var f :| f in disk.files && Over(f, split, model) && run == View(suite, disk.ledger, f);
      ViewIsNeverNegative(suite, disk, f);
    }
  }

  function ChargedInTurn(ceiling: EvalBudget, runs: seq<RecognisedRun>): EvalBudget {
    if runs == [] then ceiling
    else Remaining(ChargedInTurn(ceiling, runs[..|runs| - 1]), Recognised(runs[|runs| - 1]))
  }

  lemma {:induction false} TurnByTurnIsAtOnce(ceiling: EvalBudget, runs: seq<RecognisedRun>)
    requires forall field :: Bound(ceiling, field).Some? ==> Bound(ceiling, field).value >= 0
    requires forall run :: run in runs ==> NeverNegative(Recognised(run))
    ensures ChargedInTurn(ceiling, runs) == Remaining(ceiling, Total(runs))
  {
    if runs == [] {
      assert Bound(ceiling, Calls).Some? ==> Bound(ceiling, Calls).value >= 0;
      assert Bound(ceiling, InputTokens).Some? ==> Bound(ceiling, InputTokens).value >= 0;
      assert Bound(ceiling, OutputTokens).Some? ==> Bound(ceiling, OutputTokens).value >= 0;
      assert Bound(ceiling, Dollars).Some? ==> Bound(ceiling, Dollars).value >= 0;
    } else {
      var n := |runs| - 1;
      assert runs[n] in runs && forall run :: run in runs[..n] ==> run in runs;
      TurnByTurnIsAtOnce(ceiling, runs[..n]);
      hide Recognised;
      RemainingIsAnAction(ceiling, Total(runs[..n]), Recognised(runs[n]));
    }
  }

  /**
   After any history, charging a ceiling with the split's recognised runs one after the other leaves what
   charging their total leaves: the gate never meets the case in which subtraction is not an action.
   */
  lemma RecognisedSpendIsAnAction(suite: Suite, commands: seq<Command>, split: Split, model: string,
      ceiling: EvalBudget)
    requires ValidSuite(suite) && Named(commands)
    requires forall field :: Bound(ceiling, field).Some? ==> Bound(ceiling, field).value >= 0
    ensures var gate := SpendOn(suite, Run(suite, commands).disk, split, model);
            gate.Ok? && ChargedInTurn(ceiling, gate.value) == Remaining(ceiling, Total(gate.value))
  {
    EveryHistoryKeepsInvariant(suite, commands);
    RecognisedIsNeverNegative(suite, Run(suite, commands).disk, split, model);
    hide SpendOn, Run, Invariant;
    TurnByTurnIsAtOnce(ceiling, SpendOn(suite, Run(suite, commands).disk, split, model).value);
  }
}
