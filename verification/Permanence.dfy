/** What holds of a run's file and tokens over every history: append-only, never asked twice, bounded overshoot. */
module Permanence {
  import opened Common
  import opened Budget
  import opened Store
  import opened DerivedCeiling
  import opened Pass
  import opened Recognition
  import opened SpendGate
  import opened Listing
  import opened History
  import Judge

  // ------------------------------------------------------------------ nothing is bought twice

  /** Once a case has an answer on file there is no later record of it, of any kind. */
  predicate NeverAskedAgain(gs: seq<Generation>) {
    forall i, j :: 0 <= i < j < |gs| && Terminal(gs[i]) ==> gs[i].caseId != gs[j].caseId
  }

  predicate ShownIsAnswered(gs: seq<Generation>) {
    forall i :: 0 <= i < |gs| && gs[i].accepted ==> Terminal(gs[i])
  }

  lemma AskingOnlyTheOutstanding(gs: seq<Generation>, written: seq<Generation>, cases: seq<Case>)
    requires DistinctIds(cases) && NeverAskedAgain(gs)
    requires Follows(written, Outstanding(cases, Completed(gs)))
    ensures NeverAskedAgain(gs + written)
    ensures ShownIsAnswered(gs) ==> ShownIsAnswered(gs + written)
    ensures forall g :: g in written ==> g.caseId in Ids(cases) - Completed(gs)
  {
    var rest := Outstanding(cases, Completed(gs));
    OutstandingIsTheRest(cases, Completed(gs));
    assert forall i :: 0 <= i < |written| ==> rest[i] in cases && rest[i].id !in Completed(gs);
    forall i, j | 0 <= i < j < |gs + written| && Terminal((gs + written)[i])
      ensures (gs + written)[i].caseId != (gs + written)[j].caseId
    {
      if i < |gs| <= j {
        assert gs[i] in gs && gs[i].caseId in Completed(gs);
        assert (gs + written)[j] == written[j - |gs|];
      }
    }
  }

  /** The later file continues the earlier one: same run, same records, and new ones only for unanswered cases. */
  predicate Continues(earlier: RunFile, later: RunFile) {
    && Live(earlier) && Live(later)
    && later.name == earlier.name
    && RunOf(later).header == RunOf(earlier).header
    && RunOf(earlier).generations <= RunOf(later).generations
    && (forall k :: |RunOf(earlier).generations| <= k < |RunOf(later).generations|
          ==> RunOf(later).generations[k].caseId !in Completed(RunOf(earlier).generations))
  }

  lemma OwnContinues(suite: Suite, s: State, c: Command, lines: seq<Line>, run: StoredRun, p: Progress, f: RunFile)
    requires ValidSuite(suite) && c.runId != "" && Tidy(s.disk) && OpenedFor(suite, s.disk, c, lines, run)
    requires Follows(p.written, Outstanding(CasesOf(suite, c.split), Completed(run.generations)))
    requires f in s.disk.files && f.name == c.runId && NeverAskedAgain(RunOf(f).generations)
    ensures Continues(f, FileAfter(c, lines, p)) && NeverAskedAgain(RunOf(FileAfter(c, lines, p)).generations)
  {
    hide Outstanding, Follows, ReadLines;
    LookUp(s.disk.files, c.runId);
    var g := ExistingFile(suite, s.disk, c, lines, run);
    SameNameSameFile(s.disk.files, f, g);
    FileAfterIsOver(suite, s.disk, c, lines, run, p);
    AskingOnlyTheOutstanding(run.generations, p.written, CasesOf(suite, c.split));
  }

  lemma PassContinues(suite: Suite, s: State, c: Command, lines: seq<Line>, run: StoredRun, p: Progress, f: RunFile)
      returns (g: RunFile)
    requires ValidSuite(suite) && c.runId != "" && Tidy(s.disk) && OpenedFor(suite, s.disk, c, lines, run)
    requires Follows(p.written, Outstanding(CasesOf(suite, c.split), Completed(run.generations)))
    requires f in s.disk.files && NeverAskedAgain(RunOf(f).generations)
    ensures g in StateAfter(s, c, lines, run, p).disk.files && Continues(f, g)
  {
    PassTouches(suite, s, c, lines, run, p);
    hide Outstanding, Follows, StateAfter, NeverAskedAgain, Continues, LinesOf, FileAfter;
    if f.name == c.runId {
      OwnContinues(suite, s, c, lines, run, p, f);
      g := FileAfter(c, lines, p);
    } else {
      ContinuesAsIs(f);
      g := f;
    }
  }

  lemma ContinuesAsIs(f: RunFile)
    requires Live(f)
    ensures Continues(f, f)
  {
  }

  ghost predicate AllPermanent(disk: Disk) {
    forall f :: f in disk.files ==>
        Live(f) && NeverAskedAgain(RunOf(f).generations) && ShownIsAnswered(RunOf(f).generations)
  }

  lemma OwnIsPermanent(suite: Suite, disk: Disk, c: Command, lines: seq<Line>, run: StoredRun, p: Progress)
    requires ValidSuite(suite) && c.runId != "" && Tidy(disk) && OpenedFor(suite, disk, c, lines, run)
        && AllPermanent(disk)
    requires Follows(p.written, Outstanding(CasesOf(suite, c.split), Completed(run.generations)))
    ensures Live(FileAfter(c, lines, p)) && NeverAskedAgain(RunOf(FileAfter(c, lines, p)).generations)
    ensures ShownIsAnswered(RunOf(FileAfter(c, lines, p)).generations)
  {
    FileAfterIsOver(suite, disk, c, lines, run, p);
    hide Follows, Outstanding;
    if LinesOf(disk.files, c.runId).Some? {
      var g := ExistingFile(suite, disk, c, lines, run);
    }
    AskingOnlyTheOutstanding(run.generations, p.written, CasesOf(suite, c.split));
  }

  lemma PassStaysPermanent(suite: Suite, s: State, c: Command, lines: seq<Line>, run: StoredRun, p: Progress)
    requires ValidSuite(suite) && c.runId != "" && Tidy(s.disk) && OpenedFor(suite, s.disk, c, lines, run)
        && AllPermanent(s.disk)
    requires Follows(p.written, Outstanding(CasesOf(suite, c.split), Completed(run.generations)))
    ensures AllPermanent(StateAfter(s, c, lines, run, p).disk)
  {
    PassTouches(suite, s, c, lines, run, p);
    hide Follows, Outstanding, StateAfter, FileAfter, NeverAskedAgain, ShownIsAnswered, ReadLines, OpenedFor;
    OwnIsPermanent(suite, s.disk, c, lines, run, p);
  }

  /**
   Over every history, a case with an answer in a run's file is never asked again under that run:
   no record of it follows, so each case has at most one answer however many attempts came before.
   */
  lemma {:induction false} NothingIsBoughtTwice(suite: Suite, commands: seq<Command>)
    requires ValidSuite(suite) && Named(commands)
    ensures AllPermanent(Run(suite, commands).disk)
  {
    if commands != [] {
      var n := |commands| - 1;
      assert Named(commands[..n]);
      NothingIsBoughtTwice(suite, commands[..n]);
      EveryHistoryKeepsInvariant(suite, commands[..n]);
      var s := Run(suite, commands[..n]);
      hide Invariant, PassOf, Follows, AllPermanent, Sound, StateAfter;
      var shape, lines, run, p := ShapeOfStep(suite, s, commands[n]);
      if !shape.Stayed? {
        PassFollows(suite, s, commands[n], run, p);
        PassStaysPermanent(suite, s, commands[n], lines, run, p);
      }
    }
  }

  /** So the passages a run file offers the judge are about distinct cases, whatever its history. */
  lemma ShownPassagesAreDistinct(suite: Suite, commands: seq<Command>, f: RunFile)
    requires ValidSuite(suite) && Named(commands) && f in Run(suite, commands).disk.files
    ensures Live(f) && Judge.DistinctAccepted(RunOf(f).generations)
  {
    NothingIsBoughtTwice(suite, commands);
  }

  lemma StepContinues(suite: Suite, s: State, c: Command, f: RunFile) returns (g: RunFile)
    requires ValidSuite(suite) && c.runId != "" && Invariant(suite, s) && AllPermanent(s.disk)
    requires f in s.disk.files
    ensures g in Step(suite, s, c).disk.files && Continues(f, g)
  {
    var shape, lines, run, p := ShapeOfStep(suite, s, c);
    if shape.Stayed? {
      g := f;
    } else {
      PassFollows(suite, s, c, run, p);
      g := PassContinues(suite, s, c, lines, run, p, f);
    }
  }

  /** A run file is never lost, renamed or rewritten: each later directory holds a continuation of it. */
  lemma {:induction false} FilesOnlyGrow(suite: Suite, earlier: seq<Command>, later: seq<Command>, f: RunFile)
      returns (g: RunFile)
    requires ValidSuite(suite) && Named(earlier + later)
    requires f in Run(suite, earlier).disk.files
    ensures g in Run(suite, earlier + later).disk.files && Continues(f, g)
    decreases |later|
  {
    if later == [] {
      g := ContinuesItself(suite, earlier, later, f);
    } else {
      var n := |later| - 1;
      AllButLast(earlier, later);
      var e := FilesOnlyGrow(suite, earlier, later[..n], f);
      g := NextContinues(suite, earlier + later[..n], later[n], e);
      ContinuesThrough(f, e, g);
    }
  }

  lemma ContinuesItself(suite: Suite, earlier: seq<Command>, later: seq<Command>, f: RunFile) returns (g: RunFile)
    requires ValidSuite(suite) && Named(earlier + later) && later == []
    requires f in Run(suite, earlier).disk.files
    ensures g in Run(suite, earlier + later).disk.files && Continues(f, g)
  {
    assert earlier + later == earlier;
    EveryHistoryKeepsInvariant(suite, earlier);
    g := f;
  }

  lemma NextContinues(suite: Suite, commands: seq<Command>, c: Command, f: RunFile) returns (g: RunFile)
    requires ValidSuite(suite) && Named(commands) && c.runId != ""
    requires f in Run(suite, commands).disk.files
    ensures g in Run(suite, commands + [c]).disk.files && Continues(f, g)
  {
    EveryHistoryKeepsInvariant(suite, commands);
    NothingIsBoughtTwice(suite, commands);
    g := StepContinues(suite, Run(suite, commands), c, f);
    assert (commands + [c])[..|commands|] == commands;
  }

  lemma ContinuesThrough(f: RunFile, e: RunFile, g: RunFile)
    requires Continues(f, e) && Continues(e, g)
    ensures Continues(f, g)
  {
    var a, b, c := RunOf(f).generations, RunOf(e).generations, RunOf(g).generations;
    assert Completed(a) <= Completed(b) by {
      forall x | x in a ensures x in b { var i :| 0 <= i < |a| && a[i] == x; assert b[i] == x; }
    }
    forall k | |a| <= k < |c| ensures c[k].caseId !in Completed(a) {
      if k < |b| { assert c[k] == b[k]; }
    }
  }

  // ------------------------------------------------------------------ tokens pass a ceiling by less than one call

  /** Both records of the run are short of the token ceilings plus one call's tokens. */
  predicate TokensBounded(cases: seq<Case>, a: Account, input: nat, output: nat) {
    var c := NovaCeiling(cases);
    && a.ledgered.inputTokens <= Max(0, c.maxInputTokens - 1 + input)
    && InputTotal(a.generations) <= Max(0, c.maxInputTokens - 1 + input)
    && a.ledgered.outputTokens <= Max(0, c.maxOutputTokens - 1 + output)
    && OutputTotal(a.generations) <= Max(0, c.maxOutputTokens - 1 + output)
  }

  /** The token allowance is at most what the larger of the run's two records leaves of the ceiling. */
  predicate TokensAllowed(cases: seq<Case>, a: Account, budget: EvalBudget) {
    var c := NovaCeiling(cases);
    && Within(budget.inputTokens, Some(Max(0,
        c.maxInputTokens - Max(a.ledgered.inputTokens, InputTotal(a.generations)))))
    && Within(budget.outputTokens, Some(Max(0,
        c.maxOutputTokens - Max(a.ledgered.outputTokens, OutputTotal(a.generations)))))
  }

  lemma PassStaysBounded(cases: seq<Case>, a: Account, budget: EvalBudget, p: Progress, input: nat, output: nat)
    requires TokensBounded(cases, a, input, output) && TokensAllowed(cases, a, budget)
    requires Accounted(budget, p) && TokensWithin(budget, p, input, output)
    ensures TokensBounded(cases, AfterPass(a, p), input, output)
  {
    TotalsAdd(a.generations, p.written);
  }

  lemma AllowanceInTokens(suite: Suite, s: State, c: Command, lines: seq<Line>, run: StoredRun)
    requires ValidSuite(suite) && Invariant(suite, s) && Admits(suite, s, c, lines, run)
    ensures TokensAllowed(CasesOf(suite, c.split), AccountBefore(s, c, run), BudgetFor(suite, s, c))
  {
    hide NovaCeiling, ForRun, Total, Times, Stricter;
    var cases, runs := CasesOf(suite, c.split), SpentOn(suite, s, c.split, c.model);
    ForRunTokens(suite, s, c, lines, run);
    var perRun := Remaining(AsBudget(NovaCeiling(cases)), ForRun(runs, c.runId));
    var budgets := [perRun, Remaining(Times(AsBudget(NovaCeiling(cases)), MaxRuns(c.split)), Total(runs)), c.typed];
    NarrowerIsReflexive(Tightest(budgets));
    TightestIsGreatestLowerBound(budgets, Tightest(budgets));
    assert perRun in budgets;
    assert Within(Bound(Tightest(budgets), InputTokens), Bound(perRun, InputTokens));
    assert Within(Bound(Tightest(budgets), OutputTokens), Bound(perRun, OutputTokens));
  }

  lemma ForRunTokens(suite: Suite, s: State, c: Command, lines: seq<Line>, run: StoredRun)
    requires Invariant(suite, s) && OpenedFor(suite, s.disk, c, lines, run)
    ensures var a, t := AccountBefore(s, c, run), ForRun(SpentOn(suite, s, c.split, c.model), c.runId);
            && t.inputTokens == Max(a.ledgered.inputTokens, InputTotal(a.generations))
            && t.outputTokens == Max(a.ledgered.outputTokens, OutputTotal(a.generations))
  {
    OwnReading(suite, s, c, lines, run);
    hide SpendOn;
  }

  ghost predicate AllBounded(suite: Suite, s: State, input: nat, output: nat) {
    forall f :: f in s.disk.files ==>
        Live(f) && TokensBounded(CasesOf(suite, SplitOf(f)), AccountOf(s, f), input, output)
  }

  lemma BeforeIsBounded(suite: Suite, s: State, c: Command, lines: seq<Line>, run: StoredRun, input: nat, output: nat)
    requires Tidy(s.disk) && AllBounded(suite, s, input, output) && OpenedFor(suite, s.disk, c, lines, run)
    ensures TokensBounded(CasesOf(suite, c.split), AccountBefore(s, c, run), input, output)
  {
    if LinesOf(s.disk.files, c.runId).Some? {
      var f := ExistingFile(suite, s.disk, c, lines, run);
      assert AccountOf(s, f) == AccountBefore(s, c, run);
    } else {
      NoFileNoLines(s.disk, c.runId, ScopeOf(c.model));
    }
  }

  lemma PassIsWithin(suite: Suite, s: State, c: Command, run: StoredRun, p: Progress, input: nat, output: nat)
    requires SpendOn(suite, s.disk, c.split, c.model).Ok? && PassOf(suite, s, c, run, p)
        && EventsAtMost(c.events, input, output)
    ensures TokensWithin(BudgetFor(suite, s, c), p, input, output)
  {
    hide Generate, Outstanding, SpendOn, GenerationBudget;
    PassOvershootsByOneCall(BudgetFor(suite, s, c), PriceFor(suite, Some(c.model)),
                            Outstanding(CasesOf(suite, c.split), Completed(run.generations)), c.events, c.now, input,
                                output);
  }

  lemma OwnStaysBounded(suite: Suite, s: State, c: Command, lines: seq<Line>, run: StoredRun, p: Progress, input: nat,
      output: nat)
    requires ValidSuite(suite) && c.runId != "" && Invariant(suite, s) && AllBounded(suite, s, input, output)
    requires Admits(suite, s, c, lines, run) && PassOf(suite, s, c, run, p) && EventsAtMost(c.events, input, output)
    ensures TokensBounded(CasesOf(suite, c.split), AfterPass(AccountBefore(s, c, run), p), input, output)
  {
    hide Outstanding, TokensWithin, TokensBounded, TokensAllowed, Accounted, PassOf, Follows, Sound;
    BeforeIsBounded(suite, s, c, lines, run, input, output);
    AllowanceInTokens(suite, s, c, lines, run);
    AllowanceOf(suite, s, c, lines, run);
    PassFollows(suite, s, c, run, p);
    PassIsWithin(suite, s, c, run, p, input, output);
    PassStaysBounded(CasesOf(suite, c.split), AccountBefore(s, c, run), BudgetFor(suite, s, c), p, input, output);
  }

  lemma StepStaysBounded(suite: Suite, s: State, c: Command, lines: seq<Line>, run: StoredRun, p: Progress, input: nat,
      output: nat)
    requires ValidSuite(suite) && c.runId != "" && Invariant(suite, s) && AllBounded(suite, s, input, output)
    requires Admits(suite, s, c, lines, run) && PassOf(suite, s, c, run, p) && EventsAtMost(c.events, input, output)
    ensures AllBounded(suite, StateAfter(s, c, lines, run, p), input, output)
  {
    var after, own := StateAfter(s, c, lines, run, p), FileAfter(c, lines, p);
    FileAfterIsOver(suite, s.disk, c, lines, run, p);
    OverMeansItsSplit(own, c.split, c.model);
    PassTouches(suite, s, c, lines, run, p);
    OwnAccountAfter(suite, s, c, lines, run, p);
    OwnStaysBounded(suite, s, c, lines, run, p, input, output);
    forall f | f in after.disk.files ensures Live(f)
        && TokensBounded(CasesOf(suite, SplitOf(f)), AccountOf(after, f), input, output) {
      if f != own {
        OtherAccountsStay(s, c, lines, run, p, own, f);
      }
    }
  }

  lemma BoundedIgnoresTallies(suite: Suite, a: State, b: State, input: nat, output: nat)
    requires AllBounded(suite, a, input, output) && a.disk == b.disk
    ensures AllBounded(suite, b, input, output)
  {
    forall f | f in b.disk.files ensures Live(f)
        && TokensBounded(CasesOf(suite, SplitOf(f)), AccountOf(b, f), input, output) {
      assert TokensBounded(CasesOf(suite, SplitOf(f)), AccountOf(a, f), input, output);
    }
  }

  lemma CommandStaysBounded(suite: Suite, s: State, c: Command, input: nat, output: nat)
    requires ValidSuite(suite) && c.runId != "" && Invariant(suite, s) && AllBounded(suite, s, input, output)
    requires EventsAtMost(c.events, input, output)
    ensures AllBounded(suite, Step(suite, s, c), input, output)
  {
    var shape, lines, run, p := ShapeOfStep(suite, s, c);
    if !shape.Stayed? {
      StepStaysBounded(suite, s, c, lines, run, p, input, output);
      BoundedIgnoresTallies(suite, StateAfter(s, c, lines, run, p), Step(suite, s, c), input, output);
    }
  }

  /**
   However often a run is resumed, if no single call publishes more than these tokens then what the
   run is recognised as having used passes a token ceiling by less than one call.
   */
  lemma {:induction false} TokenOvershootIsOneCall(suite: Suite, commands: seq<Command>, input: nat, output: nat)
    requires ValidSuite(suite) && Named(commands)
    requires forall i :: 0 <= i < |commands| ==> EventsAtMost(commands[i].events, input, output)
    ensures AllBounded(suite, Run(suite, commands), input, output)
  {
    if commands != [] {
      var n := |commands| - 1;
      assert Named(commands[..n]);
      TokenOvershootIsOneCall(suite, commands[..n], input, output);
      EveryHistoryKeepsInvariant(suite, commands[..n]);
      CommandStaysBounded(suite, Run(suite, commands[..n]), commands[n], input, output);
    }
  }

  /** The same said of what the gate reads: strictly less than one call past the ceiling. */
  lemma RecognisedTokensOfOneRun(suite: Suite, commands: seq<Command>, f: RunFile, input: nat, output: nat)
    requires ValidSuite(suite) && Named(commands) && f in Run(suite, commands).disk.files
    requires forall i :: 0 <= i < |commands| ==> EventsAtMost(commands[i].events, input, output)
    requires Live(f) && CasesOf(suite, SplitOf(f)) != []
    ensures var t, c := Recognised(View(suite, Run(suite, commands).disk.ledger, f)),
        NovaCeiling(CasesOf(suite, SplitOf(f)));
            t.inputTokens < c.maxInputTokens + input && t.outputTokens < c.maxOutputTokens + output
  {
    TokenOvershootIsOneCall(suite, commands, input, output);
    BoundsFitTheCeilings(CasesOf(suite, SplitOf(f)));
  }
}
