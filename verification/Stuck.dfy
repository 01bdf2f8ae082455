/**
 The dead end of a resumed run: recognised at its ceiling with a case still to ask. No command changes it
 again, and every run that is not in it can still be finished.
 */
module Stuck {
  import opened Common
  import opened Budget
  import opened Guard
  import opened Store
  import opened DerivedCeiling
  import opened Pass
  import opened Recognition
  import opened SpendGate
  import opened Listing
  import opened History
  import opened GateTheorems
  import opened Resume

  /** The gate reads the run as having spent its whole ceiling, and the run has a case left. */
  predicate IsStuck(suite: Suite, s: State, f: RunFile)
    requires Live(f)
  {
    && Recognised(View(suite, s.disk.ledger, f)).calls >= |CasesOf(suite, SplitOf(f))|
    && Unanswered(suite, f) > 0
  }

  /** A run gets stuck exactly when it lost more answers than were discounted and sent its ceiling and the discounts. */
  lemma StuckIff(suite: Suite, commands: seq<Command>, f: RunFile)
    requires ValidSuite(suite) && Named(commands) && f in Run(suite, commands).disk.files
    ensures Live(f)
    ensures var s := Run(suite, commands);
            var t := TallyOf(s, f.name);
            IsStuck(suite, s, f)
            <==> Starved(t) && t.sent == |CasesOf(suite, SplitOf(f))| + t.discarded + t.lost
  {
    var s := Run(suite, commands);
    EveryHistoryKeepsInvariant(suite, commands);
    RecognisedIsWhatWasSeen(suite, commands, f);
    RecognisedSpendOfOneRun(suite, s, f);
    AtMostOnePerCase(RunOf(f).generations, CasesOf(suite, SplitOf(f)));
  }

  lemma RecognisedSpendOfOneRun(suite: Suite, s: State, f: RunFile)
    requires ValidSuite(suite) && Invariant(suite, s) && f in s.disk.files
    ensures Live(f) && Recognised(View(suite, s.disk.ledger, f)).calls <= |CasesOf(suite, SplitOf(f))|
  {
    ViewCalls(suite, s, f);
    RecognisedWithinCeiling(CasesOf(suite, SplitOf(f)), AccountOf(s, f));
  }

  // ------------------------------------------------------------------ no way out

  /** A pass whose first call is refused leaves nothing behind. */
  lemma {:induction false} RefusedPassIsNothing(budget: EvalBudget, price: Option<Price>, cases: seq<Case>,
      events: map<string, Event>, now: string)
    requires Refusal(budget, FRESH).Some?
    ensures var p := Generate(budget, price, cases, events, now);
            p.spend == FRESH && p.written == [] && p.tally == NO_TALLY
  {
    if cases != [] {
      RefusedPassIsNothing(budget, price, cases[..|cases| - 1], events, now);
    }
  }

  lemma EmptyPassChangesNothing(s: State, c: Command, f: RunFile, p: Progress)
    requires DistinctNames(s.disk.files) && f in s.disk.files && f.name == c.runId && Live(f)
    requires !LeavesLine(p) && p.written == [] && WithLost(p) == NO_TALLY
    ensures var after := StateAfter(s, c, f.lines, RunOf(f), p);
            f in after.disk.files && AccountOf(after, f) == AccountOf(s, f)
  {
    hide ReadLines, LedgerLine, PutFile, LedgeredTotals, LeavesLine, WithLost, AddTally;
    ReplaceFile(s.disk.files, c.runId, f.lines + AsLines(p.written));
    assert f.lines + AsLines(p.written) == f.lines;
    AddingNoTally(TallyOf(s, f.name));
  }

  /** The command is given no call at all by the ceiling of a stuck run. */
  lemma StuckIsRefused(suite: Suite, s: State, c: Command, lines: seq<Line>, run: StoredRun, f: RunFile)
    requires ValidSuite(suite) && Invariant(suite, s) && Admits(suite, s, c, lines, run)
    requires f in s.disk.files && f.name == c.runId && Live(f) && IsStuck(suite, s, f)
    ensures lines == f.lines && run == RunOf(f)
    ensures Refusal(BudgetFor(suite, s, c), FRESH).Some?
  {
    LookUp(s.disk.files, c.runId);
    var g := ExistingFile(suite, s.disk, c, lines, run);
    SameNameSameFile(s.disk.files, f, g);
    assert AccountBefore(s, c, run) == AccountOf(s, f);
    ViewCalls(suite, s, f);
    AllowanceOf(suite, s, c, lines, run);
  }

  lemma StuckStays(suite: Suite, s: State, c: Command, f: RunFile)
    requires ValidSuite(suite) && c.runId != "" && Invariant(suite, s)
    requires f in s.disk.files && Live(f) && IsStuck(suite, s, f)
    ensures f in Step(suite, s, c).disk.files && AccountOf(Step(suite, s, c), f) == AccountOf(s, f)
  {
    var shape, lines, run, p := ShapeOfStep(suite, s, c);
    assert Tidy(s.disk);
    hide Step, Invariant, PassOf, ReadLines, Sound, IsStuck, Generate, LedgeredTotals, PutFile, Tidy, StateAfter,
        Touches, OpenedFor, LinesOf, AddTally;
    if !shape.Stayed? {
      SameAfterStep(suite, s, c, lines, run, p, f);
      PassTouches(suite, s, c, lines, run, p);
      if f.name == c.runId {
        StuckIsRefused(suite, s, c, lines, run, f);
        PassOfStuckIsNothing(suite, s, c, run, p);
        DistinctFiles(s.disk);
        EmptyPassChangesNothing(s, c, f, p);
      } else {
        OtherStays(s, c, lines, run, p, f);
      }
    }
  }

  lemma OtherStays(s: State, c: Command, lines: seq<Line>, run: StoredRun, p: Progress, f: RunFile)
    requires Touches(s.disk, StateAfter(s, c, lines, run, p).disk, FileAfter(c, lines, p))
    requires f in s.disk.files && Live(f) && f.name != c.runId
    ensures f in StateAfter(s, c, lines, run, p).disk.files
    ensures AccountOf(StateAfter(s, c, lines, run, p), f) == AccountOf(s, f)
  {
    OtherAccountsStay(s, c, lines, run, p, FileAfter(c, lines, p), f);
  }

  lemma DistinctFiles(disk: Disk)
    requires Tidy(disk)
    ensures DistinctNames(disk.files)
  {
  }

  lemma PassOfStuckIsNothing(suite: Suite, s: State, c: Command, run: StoredRun, p: Progress)
    requires SpendOn(suite, s.disk, c.split, c.model).Ok? && PassOf(suite, s, c, run, p)
    requires Refusal(BudgetFor(suite, s, c), FRESH).Some?
    ensures !LeavesLine(p) && p.written == [] && WithLost(p) == NO_TALLY
  {
    hide Generate, Outstanding, SpendOn, GenerationBudget, Refusal;
    RefusedPassIsNothing(BudgetFor(suite, s, c), PriceFor(suite, Some(c.model)),
                         Outstanding(CasesOf(suite, c.split), Completed(run.generations)), c.events, c.now);
  }

  /** Once stuck, a run's file, its ledger lines and what happened in it stay as they are, whatever is done. */
  lemma {:induction false} StuckIsForever(suite: Suite, earlier: seq<Command>, later: seq<Command>, f: RunFile)
    requires ValidSuite(suite) && Named(earlier + later)
    requires f in Run(suite, earlier).disk.files && Live(f) && IsStuck(suite, Run(suite, earlier), f)
    ensures f in Run(suite, earlier + later).disk.files
    ensures AccountOf(Run(suite, earlier + later), f) == AccountOf(Run(suite, earlier), f)
    ensures IsStuck(suite, Run(suite, earlier + later), f)
    decreases |later|
  {
    if later == [] {
      assert earlier + later == earlier;
    } else {
      var n := |later| - 1;
      AllButLast(earlier, later);
      hide Run, IsStuck, AccountOf;
      StuckIsForever(suite, earlier, later[..n], f);
      StuckNext(suite, earlier + later[..n], later[n], f);
    }
  }

  lemma StuckNext(suite: Suite, commands: seq<Command>, c: Command, f: RunFile)
    requires ValidSuite(suite) && Named(commands) && c.runId != ""
    requires f in Run(suite, commands).disk.files && Live(f) && IsStuck(suite, Run(suite, commands), f)
    ensures f in Run(suite, commands + [c]).disk.files
    ensures AccountOf(Run(suite, commands + [c]), f) == AccountOf(Run(suite, commands), f)
    ensures IsStuck(suite, Run(suite, commands + [c]), f)
  {
    assert (commands + [c])[..|commands|] == commands;
    EveryHistoryKeepsInvariant(suite, commands);
    hide Step, Invariant, IsStuck, AccountOf;
    StuckStays(suite, Run(suite, commands), c, f);
    SameAccountSameEnd(suite, Run(suite, commands), Run(suite, commands + [c]), f);
  }

  lemma SameAccountSameEnd(suite: Suite, a: State, b: State, f: RunFile)
    requires Live(f) && AccountOf(a, f) == AccountOf(b, f)
    ensures IsStuck(suite, a, f) <==> IsStuck(suite, b, f)
  {
    ViewCalls(suite, a, f);
    ViewCalls(suite, b, f);
  }
}
