/**
 Where the ceilings stop holding for what is sent: histories in which one run keeps both an unsent
 record and an answer that was never recorded.
 */
module Crossing {
  import opened Common
  import opened Budget
  import opened Guard
  import opened Store
  import opened DerivedCeiling
  import opened Pass
  import opened Recognition
  import opened SpendGate
  import opened Listing
  import opened History
  import opened GateTheorems

  const MODEL := "nova-2-lite"
  const RUN := "canary"

  /** A dataset of one development case, so a ceiling of one call. */
  function OneCase(case0: Case): Suite {
    Suite([case0], [], "explanations", "1", "frozen", map[MODEL := NOVA_2_LITE])
  }

  /** The same run each time, with nothing typed; `event` is what happens when the pass reaches the case. */
  function Continue(case0: Case, event: Event, now: string): Command {
    Command(Development, MODEL, RUN, None, "prompt", "schema", now, UNCAPPED, true, map[case0.id := event], false)
  }

  function RunIdentity(case0: Case): Identity {
    IdentityOf(OneCase(case0), Continue(case0, Killed(false), ""))
  }

  /** A round is a pass whose provider could not be built, then one interrupted after its request went out. */
  function Rounds(case0: Case, detail: string, now: string, k: nat): seq<Command> {
    if k == 0 then []
    else
      Rounds(case0, detail, now, k - 1)
      + [Continue(case0, Put(NotPrepared(detail)), now)] + [Continue(case0, Put(Interrupted), now)]
  }

  // ------------------------------------------------------------------ one pass over the one case

  lemma OneCaseIsOneVisit(budget: EvalBudget, price: Option<Price>, case0: Case, event: Event, now: string)
    ensures Generate(budget, price, [case0], map[case0.id := event], now)
        == Visit(budget, price, START, case0.id, event, now)
  {
    var events := map[case0.id := event];
    assert [case0][..|[case0]| - 1] == [];
    assert Generate(budget, price, [], events, now) == START;
    assert EventFor(events, [case0][|[case0]| - 1].id) == event;
  }

  /** The figures a run is recognised by, and the truth beside them. */
  function Figures(a: Account): (int, int, nat, Tally) {
    (a.ledgered.calls, Unsent(a), TerminalCount(a.generations), a.tally)
  }

  /** No token and no dollar is on either record. */
  predicate Unpaid(a: Account) {
    && a.ledgered.inputTokens == 0 && a.ledgered.outputTokens == 0 && a.ledgered.usd == 0
    && InputTotal(a.generations) == 0 && OutputTotal(a.generations) == 0
  }

  lemma UnpreparedPass(a: Account, budget: EvalBudget, price: Option<Price>, id: string, detail: string, now: string)
    requires Refusal(budget, FRESH) == None && Unpaid(a)
    ensures var after := AfterPass(a, Visit(budget, price, START, id, Put(NotPrepared(detail)), now));
            && Figures(after) == (a.ledgered.calls, Unsent(a) + 1, TerminalCount(a.generations), OneDiscarded(a.tally))
            && Unpaid(after)
  {
    hide TerminalCount, InputTotal, OutputTotal;
    var p := Visit(budget, price, START, id, Put(NotPrepared(detail)), now);
    TotalsNext(a.generations, RecordOf(id, NotPrepared(detail), now));
    assert p.written == [RecordOf(id, NotPrepared(detail), now)];
  }

  lemma InterruptedPass(a: Account, budget: EvalBudget, price: Option<Price>, id: string, now: string)
    requires Refusal(budget, FRESH) == None && Unpaid(a)
    ensures var after := AfterPass(a, Visit(budget, price, START, id, Put(Interrupted), now));
            && Figures(after) == (a.ledgered.calls + 1, Unsent(a), TerminalCount(a.generations),
                OneInterrupted(a.tally))
            && Unpaid(after)
  {
    hide TerminalCount, InputTotal, OutputTotal;
    assert a.generations + [] == a.generations;
  }

  // ------------------------------------------------------------------ what such a run is allowed

  /** Nothing any ceiling looks at was recognised. */
  predicate Free(t: Totals) {
    t.calls == 0 && t.inputTokens == 0 && t.outputTokens == 0 && t.usd == 0
  }

  lemma {:induction false} FreeTotals(runs: seq<RecognisedRun>)
    requires forall i :: 0 <= i < |runs| ==> Free(Recognised(runs[i]))
    ensures Free(Total(runs)) && BoughtIds(runs) == {}
  {
    if runs != [] {
      FreeTotals(runs[..|runs| - 1]);
    }
  }

  lemma {:induction false} FreeForRun(runs: seq<RecognisedRun>, id: string)
    requires forall i :: 0 <= i < |runs| ==> Free(Recognised(runs[i]))
    ensures Free(ForRun(runs, id))
  {
    if runs != [] {
      FreeForRun(runs[1..], id);
    }
  }

  /** At least one of each, which is all a first call needs. */
  const ONE := EvalBudget(Some(1), Some(1), Some(1), Some(1))

  lemma RoomLeft(derived: EvalBudget, t: Totals, allowed: nat)
    requires Free(t) && allowed >= 1 && Narrower(ONE, derived)
    ensures Narrower(ONE, Remaining(derived, t)) && Narrower(ONE, Remaining(Times(derived, allowed), t))
  {
    forall field: Field
      ensures Within(Bound(ONE, field), Bound(Remaining(derived, t), field))
      ensures Within(Bound(ONE, field), Bound(Remaining(Times(derived, allowed), t), field))
    {
      assert Within(Bound(ONE, field), Bound(derived, field));
      if Bound(derived, field).Some? {
        Scale(Bound(derived, field).value, 1, allowed);
      }
    }
  }

  lemma FirstCallIsAllowed(cases: seq<Case>, allowed: nat, runs: seq<RecognisedRun>, id: string)
    requires cases != [] && allowed >= 1 && Free(ForRun(runs, id)) && Free(Total(runs))
    ensures Refusal(GenerationBudget(cases, allowed, runs, id, UNCAPPED), FRESH) == None
  {
    var derived := AsBudget(NovaCeiling(cases));
    BoundsFitTheCeilings(cases);
    assert NovaCeiling(cases).logicalCalls == |cases|;
    hide NovaCeiling, InputBounds, ForRun, Total;
    assert Narrower(ONE, derived);
    RoomLeft(derived, ForRun(runs, id), allowed);
    RoomLeft(derived, Total(runs), allowed);
    assert Narrower(ONE, UNCAPPED);
    var budgets := [Remaining(derived, ForRun(runs, id)), Remaining(Times(derived, allowed), Total(runs)), UNCAPPED];
    TightestIsGreatestLowerBound(budgets, ONE);
    var budget := Tightest(budgets);
    assert Within(Bound(ONE, Calls), Bound(budget, Calls))
        && Within(Bound(ONE, InputTokens), Bound(budget, InputTokens));
    assert Within(Bound(ONE, OutputTokens), Bound(budget, OutputTokens));
  }

  // ------------------------------------------------------------------ a directory holding only this run

  ghost predicate IsTheFile(s: State, case0: Case, f: RunFile, a: Account) {
    && s.disk.files == [f]
    && f.name == RUN && Over(f, Development, MODEL)
    && RunOf(f).header.identity == RunIdentity(case0)
    && AccountOf(s, f) == a
  }

  /** The directory holds this run's file and no other, or nothing yet; `a` is the run's account. */
  ghost predicate OnlyRun(s: State, case0: Case, a: Account) {
    (s == EMPTY && a == NO_ACCOUNT) || exists f :: IsTheFile(s, case0, f, a)
  }

  lemma EveryViewIsFree(s: State, case0: Case, a: Account)
    requires Invariant(OneCase(case0), s) && OnlyRun(s, case0, a) && RecognisedCalls(a) == 0 && Unpaid(a)
    ensures forall i :: 0 <= i < |SpentOn(OneCase(case0), s, Development, MODEL)| ==>
        Free(Recognised(SpentOn(OneCase(case0), s, Development, MODEL)[i]))
  {
    var suite := OneCase(case0);
    var runs := SpentOn(suite, s, Development, MODEL);
    SpendOnLists(suite, s.disk, Development, MODEL);
    forall i | 0 <= i < |runs| ensures Free(Recognised(runs[i])) {
      assert IsViewOver(suite, s.disk, Development, MODEL, runs[i]);
      var g :| g in s.disk.files && Over(g, Development, MODEL) && runs[i] == View(suite, s.disk.ledger, g);
      ViewIsFree(s, case0, a, g);
    }
  }

  lemma ViewIsFree(s: State, case0: Case, a: Account, g: RunFile)
    requires OnlyRun(s, case0, a) && RecognisedCalls(a) == 0 && Unpaid(a) && g in s.disk.files
    ensures Live(g) && Free(Recognised(View(OneCase(case0), s.disk.ledger, g)))
  {
    hide TerminalCount, InputTotal, OutputTotal, ReadLines;
    var f :| IsTheFile(s, case0, f, a);
    assert g == f;
    OverMeansItsSplit(f, Development, MODEL);
    ViewCalls(OneCase(case0), s, f);
  }

  /** The next command of the run opens its store on that account. */
  lemma OpensOn(s: State, case0: Case, a: Account, c: Command) returns (lines: seq<Line>, run: StoredRun)
    requires Invariant(OneCase(case0), s) && OnlyRun(s, case0, a)
    requires c.runId == RUN && c.model == MODEL
        && IdentityOf(OneCase(case0), c) == RunIdentity(case0)
    ensures OpenFile(LinesOf(s.disk.files, c.runId), Header(c.runId, c.now, None, IdentityOf(OneCase(case0), c)))
        == Ok((lines, run))
    ensures OpenedFor(OneCase(case0), s.disk, c, lines, run)
    ensures AccountBefore(s, c, run) == a
  {
    var suite := OneCase(case0);
    var h := Header(c.runId, c.now, None, IdentityOf(suite, c));
    OpeningTidyFile(suite, s.disk, c, h);
    if s == EMPTY {
      lines, run := [HeaderLine(h)], StoredRun(h, [], []);
      assert [] + [HeaderLine(h)] == lines;
    } else {
      var f :| IsTheFile(s, case0, f, a);
      lines, run := f.lines, RunOf(f);
      LookUp(s.disk.files, RUN);
      assert f in s.disk.files;
      OverMeansItsSplit(f, Development, MODEL);
    }
  }

  lemma NothingCompleted(case0: Case, gs: seq<Generation>)
    requires AnsweredOnce(gs, [case0]) && TerminalCount(gs) == 0
    ensures Outstanding([case0], Completed(gs)) == [case0]
  {
    TerminalsAreCompleted(gs, [case0]);
    assert Completed(gs) == {};
    assert [case0][..0] == [];
  }

  /** One command of the run while it is recognised as having spent nothing: its one case is put to the provider. */
  lemma OneMorePass(s: State, case0: Case, a: Account, event: Event, now: string) returns (budget: EvalBudget)
    requires Invariant(OneCase(case0), s) && OnlyRun(s, case0, a)
    requires RecognisedCalls(a) == 0 && TerminalCount(a.generations) == 0 && Unpaid(a)
    ensures Refusal(budget, FRESH) == None
    ensures OnlyRun(Step(OneCase(case0), s, Continue(case0, event, now)), case0,
                    AfterPass(a, Visit(budget, Some(NOVA_2_LITE), START, case0.id, event, now)))
  {
    var suite, c := OneCase(case0), Continue(case0, event, now);
    assert CasesOf(suite, c.split) == [case0] && PriceFor(suite, Some(c.model)) == Some(NOVA_2_LITE);
    assert SpendOn(suite, s.disk, Development, MODEL).Ok?;
    var lines, run := OpensOn(s, case0, a, c);
    EveryViewIsFree(s, case0, a);
    AccountBeforeIsRecognised(suite, s, c, lines, run);
    hide Generate, Visit, Outstanding, SpendOn, OnlyRun, Invariant, Unpaid, OpenedFor, OpenFile, TerminalCount,
        StateAfter, Step, GenerationBudget;
    var runs := SpentOn(suite, s, Development, MODEL);
    FreeTotals(runs);
    FreeForRun(runs, RUN);
    FirstCallIsAllowed([case0], MaxRuns(Development), runs, RUN);
    budget := BudgetFor(suite, s, c);
    NothingCompleted(case0, run.generations);
    StepTaken(suite, s, c, lines, run);
    OneCaseIsOneVisit(budget, Some(NOVA_2_LITE), case0, event, now);
    PassLeavesOnlyRun(s, case0, a, c, lines, run, Visit(budget, Some(NOVA_2_LITE), START, case0.id, event, now));
  }

  lemma FilesAfter(s: State, case0: Case, a: Account, c: Command, lines: seq<Line>, run: StoredRun, p: Progress)
    requires OnlyRun(s, case0, a) && c.runId == RUN
    ensures StateAfter(s, c, lines, run, p).disk.files == [FileAfter(c, lines, p)]
  {
    hide Over, AccountOf, ReadLines, IdentityOf;
  }

  lemma PassLeavesOnlyRun(s: State, case0: Case, a: Account, c: Command, lines: seq<Line>, run: StoredRun, p: Progress)
    requires Invariant(OneCase(case0), s) && OnlyRun(s, case0, a)
    requires c.runId == RUN && c.model == MODEL && c.split == Development
    requires IdentityOf(OneCase(case0), c) == RunIdentity(case0)
    requires OpenedFor(OneCase(case0), s.disk, c, lines, run) && AccountBefore(s, c, run) == a
    ensures OnlyRun(StateAfter(s, c, lines, run, p), case0, AfterPass(a, p))
  {
    var after, own := StateAfter(s, c, lines, run, p), FileAfter(c, lines, p);
    FileAfterIsOver(OneCase(case0), s.disk, c, lines, run, p);
    OwnAccountAfter(OneCase(case0), s, c, lines, run, p);
    FilesAfter(s, case0, a, c, lines, run, p);
    hide Invariant, AfterPass, AccountBefore, ReadLines, StateAfter, FileAfter, OpenedFor;
    assert IsTheFile(after, case0, own, AfterPass(a, p));
  }

  // ------------------------------------------------------------------ round after round

  predicate AfterRounds(a: Account, k: nat) {
    Figures(a) == (k, k, 0, Tally(k, k, k, 0, 0)) && Unpaid(a)
  }

  lemma OneRound(s: State, case0: Case, a: Account, detail: string, now: string, k: nat) returns (b: Account)
    requires Invariant(OneCase(case0), s) && OnlyRun(s, case0, a) && AfterRounds(a, k)
    ensures var suite := OneCase(case0);
            var halfway := Step(suite, s, Continue(case0, Put(NotPrepared(detail)), now));
            OnlyRun(Step(suite, halfway, Continue(case0, Put(Interrupted), now)), case0, b) && AfterRounds(b, k + 1)
  {
    var suite := OneCase(case0);
    hide Step, OnlyRun, Invariant, AfterPass, Visit, Unpaid, TerminalCount;
    var budget := OneMorePass(s, case0, a, Put(NotPrepared(detail)), now);
    UnpreparedPass(a, budget, Some(NOVA_2_LITE), case0.id, detail, now);
    var halfway := Step(suite, s, Continue(case0, Put(NotPrepared(detail)), now));
    var unprepared := AfterPass(a, Visit(budget, Some(NOVA_2_LITE), START, case0.id, Put(NotPrepared(detail)), now));
    StepKeepsInvariant(suite, s, Continue(case0, Put(NotPrepared(detail)), now));
    budget := OneMorePass(halfway, case0, unprepared, Put(Interrupted), now);
    InterruptedPass(unprepared, budget, Some(NOVA_2_LITE), case0.id, now);
    b := AfterPass(unprepared, Visit(budget, Some(NOVA_2_LITE), START, case0.id, Put(Interrupted), now));
  }

  lemma TwoMore(suite: Suite, before: seq<Command>, first: Command, second: Command)
    ensures Run(suite, before + [first] + [second]) == Step(suite, Step(suite, Run(suite, before), first), second)
  {
    hide Step;
    assert (before + [first] + [second])[..|before| + 1] == before + [first];
    assert (before + [first])[..|before|] == before;
  }

  lemma NothingYet(case0: Case)
    ensures Run(OneCase(case0), []) == EMPTY && OnlyRun(EMPTY, case0, NO_ACCOUNT) && AfterRounds(NO_ACCOUNT, 0)
  {
  }

  lemma {:induction false} RoundsAreReached(case0: Case, detail: string, now: string, k: nat) returns (a: Account)
    ensures Named(Rounds(case0, detail, now, k))
    ensures var s := Run(OneCase(case0), Rounds(case0, detail, now, k));
            Invariant(OneCase(case0), s) && OnlyRun(s, case0, a) && AfterRounds(a, k)
  {
    var suite, commands := OneCase(case0), Rounds(case0, detail, now, k);
    hide Step, OnlyRun, Invariant, AfterRounds, Run;
    NothingYet(case0);
    if k == 0 {
      a := NO_ACCOUNT;
    } else {
      a := RoundsAreReached(case0, detail, now, k - 1);
      var before := Rounds(case0, detail, now, k - 1);
      a := OneRound(Run(suite, before), case0, a, detail, now, k - 1);
      TwoMore(suite, before, Continue(case0, Put(NotPrepared(detail)), now), Continue(case0, Put(Interrupted), now));
    }
    EveryHistoryKeepsInvariant(suite, commands);
  }

  lemma RoundsFigures(a: Account, k: nat)
    requires AfterRounds(a, k)
    ensures RecognisedCalls(a) == 0 && Unpaid(a) && a.tally.sent == k
    ensures (Uncrossed(a.tally) <==> k == 0) && (Hidden(a.tally) <==> k > 0)
  {
  }

  /**
   A split of one case has a ceiling of one call. Yet for every k there is a history of one run on it
   that has sent k requests and, by what the gate reads, has spent no call at all: the run is not even
   among those that bought anything. No bound of any kind holds for what a crossed run sends.
   */
  lemma CrossedHistoriesSendWithoutBound(case0: Case, detail: string, now: string, k: nat)
    ensures var suite, commands := OneCase(case0), Rounds(case0, detail, now, k);
            var s := Run(suite, commands);
            && ValidSuite(suite) && Named(commands) && NovaCeiling(CasesOf(suite, Development)).logicalCalls == 1
            && TallyOf(s, RUN).sent == k
            && SpendOn(suite, s.disk, Development, MODEL).Ok?
            && Total(SpendOn(suite, s.disk, Development, MODEL).value).calls == 0
            && BoughtIds(SpendOn(suite, s.disk, Development, MODEL).value) == {}
            && (Uncrossed(TallyOf(s, RUN)) <==> k == 0) && (Hidden(TallyOf(s, RUN)) <==> k > 0)
  {
    var suite := OneCase(case0);
    var a := RoundsAreReached(case0, detail, now, k);
    var s := Run(suite, Rounds(case0, detail, now, k));
    GateIsHeld(suite, s, Development, MODEL);
    RoundsFigures(a, k);
    hide Run, Invariant, OnlyRun, AfterRounds, SpendOn, ReadLines;
    hide RecognisedCalls, Unpaid, Uncrossed, Hidden, Recognised;
    EveryViewIsFree(s, case0, a);
    FreeTotals(SpentOn(suite, s, Development, MODEL));
    TallyIsTheAccounts(s, case0, a);
  }

  lemma TallyIsTheAccounts(s: State, case0: Case, a: Account)
    requires OnlyRun(s, case0, a)
    ensures TallyOf(s, RUN) == a.tally
  {
  }

  // ------------------------------------------------------------------ one interrupted pass

  lemma RunOne(suite: Suite, c: Command)
    ensures Run(suite, [c]) == Step(suite, Run(suite, []), c)
  {
    hide Step;
    assert [c][..0] == [];
  }

  lemma FirstPass(case0: Case, event: Event, now: string) returns (budget: EvalBudget)
    ensures var suite, commands := OneCase(case0), [Continue(case0, event, now)];
            var s := Run(suite, commands);
            && Refusal(budget, FRESH) == None && Invariant(suite, s)
            && OnlyRun(s, case0, AfterPass(NO_ACCOUNT, Visit(budget, Some(NOVA_2_LITE), START, case0.id, event, now)))
  {
    var suite, c := OneCase(case0), Continue(case0, event, now);
    hide Step, OnlyRun, Invariant, Run, Visit, AfterPass;
    NothingYet(case0);
    EveryHistoryKeepsInvariant(suite, []);
    EveryHistoryKeepsInvariant(suite, [c]);
    budget := OneMorePass(EMPTY, case0, NO_ACCOUNT, event, now);
    RunOne(suite, c);
  }

  lemma OnlyViewIsBought(s: State, case0: Case, a: Account)
    requires Invariant(OneCase(case0), s) && OnlyRun(s, case0, a) && RecognisedCalls(a) > 0
    ensures RUN in BoughtIds(SpentOn(OneCase(case0), s, Development, MODEL))
  {
    var suite := OneCase(case0);
    SpendOnLists(suite, s.disk, Development, MODEL);
    hide SpendOn, ReadLines, TerminalCount;
    var f :| IsTheFile(s, case0, f, a);
    assert f in s.disk.files;
    ViewCalls(suite, s, f);
    assert Bought(View(suite, s.disk.ledger, f));
  }

  predicate OnceInterrupted(a: Account) {
    Figures(a) == (1, 0, 0, Tally(1, 1, 0, 0, 0))
  }

  lemma OneRecognised(a: Account)
    requires OnceInterrupted(a)
    ensures RecognisedCalls(a) == 1
  {
  }

  lemma StarvedNext(s: State, case0: Case, a: Account, c: Command) returns (lines: seq<Line>, run: StoredRun)
    requires Invariant(OneCase(case0), s) && OnlyRun(s, case0, a) && OnceInterrupted(a)
    requires c.runId == RUN && c.model == MODEL && c.split == Development && c.typed == UNCAPPED && c.authorised
    requires IdentityOf(OneCase(case0), c) == RunIdentity(case0)
    ensures SpendOn(OneCase(case0), s.disk, Development, MODEL).Ok?
    ensures Opens(OneCase(case0), s, c, lines, run)
    ensures Outstanding(CasesOf(OneCase(case0), Development), Completed(run.generations)) == [case0]
    ensures BudgetFor(OneCase(case0), s, c).calls == Some(0)
  {
    var suite := OneCase(case0);
    assert CasesOf(suite, Development) == [case0] && ValidSuite(suite);
    hide IdentityOf, RunIdentity, OnceInterrupted, RecognisedCalls, OneCase, ValidSuite;
    OneRecognised(a);
    GateIsHeld(suite, s, Development, MODEL);
    hide Invariant, SpendOn, OpenFile, OnlyRun, ReadLines, TerminalCount, GenerationBudget, OpenedFor, Outstanding;
    hide Sound, Completed, BoughtIds;
    lines, run := OpensOn(s, case0, a, c);
    OnlyViewIsBought(s, case0, a);
    AccountBeforeIsRecognised(suite, s, c, lines, run);
    NothingAnswered(case0, a);
    AllowedNothing(suite, s, c, lines, run, a);
  }

  lemma NothingAnswered(case0: Case, a: Account)
    requires Sound([case0], a) && OnceInterrupted(a)
    ensures Outstanding([case0], Completed(a.generations)) == [case0]
  {
    NothingCompleted(case0, a.generations);
  }

  lemma AllowedNothing(suite: Suite, s: State, c: Command, lines: seq<Line>, run: StoredRun, a: Account)
    requires ValidSuite(suite) && Invariant(suite, s) && Admits(suite, s, c, lines, run)
        && AccountBefore(s, c, run) == a
    requires |CasesOf(suite, c.split)| == 1 == RecognisedCalls(a) && c.typed == UNCAPPED
    ensures BudgetFor(suite, s, c).calls == Some(0)
  {
    hide Invariant, SpendOn, GenerationBudget, AccountBefore, OpenedFor, RecognisedCalls;
    AllowanceOf(suite, s, c, lines, run);
  }

  /** After one interrupted pass the run's one case is outstanding and the next command is allowed no call for it. */
  lemma InterruptedRunIsStarved(case0: Case, now: string, event: Event, later: string)
    returns (lines: seq<Line>, run: StoredRun)
    ensures var suite, c := OneCase(case0), Continue(case0, event, later);
            var s := Run(suite, [Continue(case0, Put(Interrupted), now)]);
            && SpendOn(suite, s.disk, Development, MODEL).Ok?
            && Opens(suite, s, c, lines, run)
            && Outstanding(CasesOf(suite, Development), Completed(run.generations)) == [case0]
            && BudgetFor(suite, s, c).calls == Some(0)
  {
    var s := Run(OneCase(case0), [Continue(case0, Put(Interrupted), now)]);
    hide Run, Invariant, OnlyRun, Opens, Visit, AfterPass;
    var budget := FirstPass(case0, Put(Interrupted), now);
    InterruptedPass(NO_ACCOUNT, budget, Some(NOVA_2_LITE), case0.id, now);
    var a := AfterPass(NO_ACCOUNT, Visit(budget, Some(NOVA_2_LITE), START, case0.id, Put(Interrupted), now));
    lines, run := StarvedNext(s, case0, a, Continue(case0, event, later));
  }
}
