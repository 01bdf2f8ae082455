/** Resuming a run: what it is allowed, when it finishes, and what it never does again. */
module Resume {
  import opened Common
  import opened Budget
  import opened Guard
  import opened Store
  import opened DerivedCeiling
  import opened Pass
  import opened Recognition
  import opened SpendGate
  import opened Listing
  import opened History

  // ------------------------------------------------------------------ the allowance

  /**
   With no typed cap, a resumed run is given exactly as many calls as it has cases outstanding --
   neither the per-run nor the per-gate ceiling is ever tighter -- unless more of its answers went
   unrecorded than its other discounts hide; then it is given fewer.
   */
  lemma ResumeAllowance(suite: Suite, commands: seq<Command>, c: Command, lines: seq<Line>, run: StoredRun)
    requires ValidSuite(suite) && Named(commands)
    requires SpendOn(suite, Run(suite, commands).disk, c.split, c.model).Ok?
    requires Opens(suite, Run(suite, commands), c, lines, run) && c.typed.calls == None
    ensures var s := Run(suite, commands);
            var allowed := BudgetFor(suite, s, c).calls;
            var outstanding := |Outstanding(CasesOf(suite, c.split), Completed(run.generations))|;
            var t := TallyOf(s, c.runId);
            && allowed.Some? && allowed.value <= outstanding
            && (allowed.value == outstanding <==> t.interrupted <= t.discarded + t.lost)
  {
    var s := Run(suite, commands);
    EveryHistoryKeepsInvariant(suite, commands);
    OpeningTidyFile(suite, s.disk, c, Header(c.runId, c.now, None, IdentityOf(suite, c)));
    AllowanceOf(suite, s, c, lines, run);
    AccountBeforeIsRecognised(suite, s, c, lines, run);
    AllowanceIsOutstandingIff(CasesOf(suite, c.split), AccountBefore(s, c, run));
  }

  // ------------------------------------------------------------------ starving

  /** The run lost more answers than its discounts hide. */
  predicate Starved(t: Tally) {
    t.interrupted > t.discarded + t.lost
  }

  /** After any history a starved run has not completed its split. */
  lemma StarvedRunIsUnfinished(suite: Suite, commands: seq<Command>, f: RunFile)
    requires ValidSuite(suite) && Named(commands) && f in Run(suite, commands).disk.files
    requires Starved(TallyOf(Run(suite, commands), f.name))
    ensures Live(f) && Outstanding(CasesOf(suite, SplitOf(f)), Completed(RunOf(f).generations)) != []
  {
    var s := Run(suite, commands);
    EveryHistoryKeepsInvariant(suite, commands);
    StarvedIsUnfinished(CasesOf(suite, SplitOf(f)), AccountOf(s, f));
  }

  /** Nothing that happened is ever undone. */
  predicate Later(t: Tally, later: Tally) {
    && t.sent <= later.sent && t.interrupted <= later.interrupted
    && t.discarded <= later.discarded && t.legacy <= later.legacy && t.lost <= later.lost
  }

  lemma StepIsLater(suite: Suite, s: State, c: Command, id: string)
    ensures Later(TallyOf(s, id), TallyOf(Step(suite, s, c), id))
  {
    hide RunCommand;
  }

  lemma {:induction false} TalliesOnlyGrow(suite: Suite, earlier: seq<Command>, later: seq<Command>, id: string)
    ensures Later(TallyOf(Run(suite, earlier), id), TallyOf(Run(suite, earlier + later), id))
    decreases |later|
  {
    if later == [] {
      assert earlier + later == earlier;
    } else {
      var n := |later| - 1;
      TalliesOnlyGrow(suite, earlier, later[..n], id);
      assert (earlier + later)[..|earlier + later| - 1] == earlier + later[..n];
      hide Step;
      StepIsLater(suite, Run(suite, earlier + later[..n]), later[n], id);
    }
  }

  /**
   Whatever commands follow, a run has completed its split only if by then as many discounts have been made
   as answers it had lost already: a starved run is owed the difference first, and without it never finishes.
   */
  lemma StarvedRunNeedsDiscounts(suite: Suite, earlier: seq<Command>, later: seq<Command>, f: RunFile)
    requires ValidSuite(suite) && Named(earlier + later) && f in Run(suite, earlier + later).disk.files
    ensures Live(f)
    ensures var t, after := TallyOf(Run(suite, earlier), f.name), TallyOf(Run(suite, earlier + later), f.name);
            Completed(RunOf(f).generations) == Ids(CasesOf(suite, SplitOf(f)))
            ==> after.discarded + after.lost >= after.interrupted >= t.interrupted
  {
    EveryHistoryKeepsInvariant(suite, earlier + later);
    TalliesOnlyGrow(suite, earlier, later, f.name);
    hide Run, Invariant;
    if Starved(TallyOf(Run(suite, earlier + later), f.name)) {
      StarvedRunIsUnfinished(suite, earlier + later, f);
      EverythingDone(CasesOf(suite, SplitOf(f)));
    }
  }

  lemma {:induction false} EverythingDone(cases: seq<Case>)
    ensures Outstanding(cases, Ids(cases)) == []
  {
    DoneIsNotOutstanding(cases, Ids(cases));
  }

  lemma {:induction false} DoneIsNotOutstanding(cases: seq<Case>, done: set<string>)
    requires forall c :: c in cases ==> c.id in done
    ensures Outstanding(cases, done) == []
  {
    if cases != [] {
      var n := |cases| - 1;
      assert cases[n] in cases && forall c :: c in cases[..n] ==> c in cases;
      DoneIsNotOutstanding(cases[..n], done);
    }
  }

  // ------------------------------------------------------------------ finishing

  /** The case gets an answer that is written down, if it is asked at all. */
  predicate Answers(event: Event) {
    event.Put? && (event.reply.Answered? || event.reply.Rejected?
        || (event.reply.Failed? && !LegacyUnprepared(event.reply)))
  }

  predicate AllAnswer(cases: seq<Case>, events: map<string, Event>) {
    forall i :: 0 <= i < |cases| ==> Answers(EventFor(events, cases[i].id))
  }

  /** What the guard holds after the first k cases were all answered leaves every ceiling open. */
  predicate NeverFull(budget: EvalBudget, price: Option<Price>, cases: seq<Case>, events: map<string, Event>,
      now: string) {
    forall k :: 0 <= k < |cases| ==>
      var p := Generate(budget, price, cases[..k], events, now);
      Refusal(budget.(calls := None), p.spend) == None
  }

  /** A pass whose providers all answer, with enough calls and room under the other ceilings, reaches every case. */
  lemma {:induction false} PassReachesEveryCase(
    budget: EvalBudget, price: Option<Price>, cases: seq<Case>, events: map<string, Event>, now: string, k: nat)
    requires k <= |cases| && AllAnswer(cases, events) && NeverFull(budget, price, cases, events, now)
    requires budget.calls == None || budget.calls.value >= |cases|
    ensures var p := Generate(budget, price, cases[..k], events, now);
            && p.ending == Running
            && p.spend.calls <= k
            && |p.written| == k
            && TerminalCount(p.written) == k
    decreases k
  {
    if k > 0 {
      PassReachesEveryCase(budget, price, cases, events, now, k - 1);
      assert cases[..k][..k - 1] == cases[..k - 1];
      var p := Generate(budget, price, cases[..k - 1], events, now);
      assert Refusal(budget.(calls := None), p.spend) == None;
      hide Visit, TerminalCount, Refusal, NeverFull, Generate;
      AnsweredVisit(budget, price, p, cases[k - 1].id, EventFor(events, cases[k - 1].id), now);
    } else {
      assert cases[..0] == [];
    }
  }

  lemma AnsweredReply(budget: EvalBudget, price: Option<Price>, p: Progress, id: string, reply: Reply, now: string)
    requires Answers(Put(reply)) && Refusal(budget, p.spend) == None
    ensures var after := OnReply(budget, price, p, id, reply, now);
            && after.ending == Running
            && after.spend.calls == p.spend.calls + 1
            && |after.written| == |p.written| + 1
            && TerminalCount(after.written) == TerminalCount(p.written) + 1
  {
    hide TerminalCount, Terminal, RecordOf, Refusal;
    RecordKinds(id, reply, now);
    TotalsNext(p.written, RecordOf(id, reply, now));
  }

  lemma AnsweredVisit(budget: EvalBudget, price: Option<Price>, p: Progress, id: string, event: Event, now: string)
    requires Answers(event) && p.ending == Running
    requires Refusal(budget.(calls := None), p.spend) == None
    requires budget.calls == None || p.spend.calls < budget.calls.value
    ensures var after := Visit(budget, price, p, id, event, now);
            && after.ending == Running
            && after.spend.calls <= p.spend.calls + 1
            && |after.written| == |p.written| + 1
            && TerminalCount(after.written) == TerminalCount(p.written) + 1
  {
    assert Refusal(budget, p.spend) == None;
    hide TerminalCount, Terminal, Refusal, OnReply;
    AnsweredReply(budget, price, p, id, event.reply, now);
  }

  lemma SameSizeSubset(a: set<string>, b: set<string>)
    requires a <= b && |a| == |b|
    ensures a == b
  {
    assert b == a + (b - a);
  }

  /** All the outstanding cases answered: the run has answered its whole split. */
  lemma PassAnswersTheRest(gs: seq<Generation>, cases: seq<Case>, budget: EvalBudget, price: Option<Price>,
      events: map<string, Event>, now: string)
    requires DistinctIds(cases) && AnsweredOnce(gs, cases)
    requires var outstanding := Outstanding(cases, Completed(gs));
             && budget.calls == Some(|outstanding|) && AllAnswer(outstanding, events)
             && NeverFull(budget, price, outstanding, events, now)
    ensures Completed(gs + Generate(budget, price, Outstanding(cases, Completed(gs)), events, now).written)
        == Ids(cases)
  {
    hide Generate, TerminalCount, Outstanding, Follows;
    var outstanding := Outstanding(cases, Completed(gs));
    var p := Generate(budget, price, outstanding, events, now);
    PassReachesEveryCase(budget, price, outstanding, events, now, |outstanding|);
    assert outstanding[..|outstanding|] == outstanding;
    WrittenFollowsCases(budget, price, outstanding, events, now);
    StillAnsweredOnce(gs, p.written, cases);
    AtMostOnePerCase(gs, cases);
    TotalsAdd(gs, p.written);
    TerminalsAreCompleted(gs + p.written, cases);
    IdsCount(cases);
    SameSizeSubset(Completed(gs + p.written), Ids(cases));
  }

  /**
   A resume finishes the split: when nothing of the run went unrecorded beyond its discounts, no
   cap was typed, every outstanding case gets an answer and only the call count could bind, the
   command ends with every case of the split completed.
   */
  lemma ResumeFinishesTheSplit(suite: Suite, commands: seq<Command>, c: Command, lines: seq<Line>, run: StoredRun)
    requires ValidSuite(suite) && Named(commands) && c.runId != ""
    requires SpendOn(suite, Run(suite, commands).disk, c.split, c.model).Ok?
    requires Opens(suite, Run(suite, commands), c, lines, run) && c.typed.calls == None
    requires PriceFor(suite, Some(c.model)).Some?
    requires var t := TallyOf(Run(suite, commands), c.runId); t.interrupted <= t.discarded + t.lost
    requires AllAnswer(Outstanding(CasesOf(suite, c.split), Completed(run.generations)), c.events)
    requires NeverFull(BudgetFor(suite, Run(suite, commands), c), PriceFor(suite, Some(c.model)),
                       Outstanding(CasesOf(suite, c.split), Completed(run.generations)), c.events, c.now)
    ensures exists f :: f in Run(suite, commands + [c]).disk.files && f.name == c.runId && Live(f)
              && Completed(RunOf(f).generations) == Ids(CasesOf(suite, c.split))
  {
    var s := Run(suite, commands);
    EveryHistoryKeepsInvariant(suite, commands);
    OpeningTidyFile(suite, s.disk, c, Header(c.runId, c.now, None, IdentityOf(suite, c)));
    ResumeAllowance(suite, commands, c, lines, run);
    var p := Ended(Generate(BudgetFor(suite, s, c), PriceFor(suite, Some(c.model)),
                            Outstanding(CasesOf(suite, c.split), Completed(run.generations)), c.events, c.now), c.died);
    AccountBeforeIsRecognised(suite, s, c, lines, run);
    PassAnswersTheRest(run.generations, CasesOf(suite, c.split), BudgetFor(suite, s, c), PriceFor(suite, Some(c.model)),
        c.events, c.now);
    PassFinishes(suite, s, c, lines, run, p);
    RunningLeavesItsFile(suite, s, c, lines, run, p);
    assert (commands + [c])[..|commands|] == commands;
    assert FileAfter(c, lines, p) in Run(suite, commands + [c]).disk.files;
  }

  lemma PassFinishes(suite: Suite, s: State, c: Command, lines: seq<Line>, run: StoredRun, p: Progress)
    requires ValidSuite(suite) && c.runId != "" && Invariant(suite, s) && OpenedFor(suite, s.disk, c, lines, run)
    requires Completed(run.generations + p.written) == Ids(CasesOf(suite, c.split))
    ensures Live(FileAfter(c, lines, p))
        && Completed(RunOf(FileAfter(c, lines, p)).generations) == Ids(CasesOf(suite, c.split))
  {
    FileAfterIsOver(suite, s.disk, c, lines, run, p);
  }

  lemma RunningLeavesItsFile(suite: Suite, s: State, c: Command, lines: seq<Line>, run: StoredRun, p: Progress)
    requires Invariant(suite, s) && c.runId != ""
    requires Opens(suite, s, c, lines, run) && OpenedFor(suite, s.disk, c, lines, run)
    requires PriceFor(suite, Some(c.model)).Some?
    requires p == Ended(Generate(BudgetFor(suite, s, c), PriceFor(suite, Some(c.model)),
                                 Outstanding(CasesOf(suite, c.split), Completed(run.generations)), c.events, c.now),
                                     c.died)
    ensures FileAfter(c, lines, p) in Step(suite, s, c).disk.files
  {
    EffectiveIsTyped(s.disk, c);
    var outstanding := Outstanding(CasesOf(suite, c.split), Completed(run.generations));
    ReplaceFile(s.disk.files, c.runId, lines + AsLines(p.written));
    if outstanding == [] {
      assert p.written == [];
      assert lines + AsLines(p.written) == lines;
    }
  }

  // ------------------------------------------------------------------ the first run of a split

  /** Every case is answered inside its own two attempts. */
  predicate ConformingAnswers(cases: seq<Case>, events: map<string, Event>) {
    forall i :: 0 <= i < |cases| ==>
      var event := EventFor(events, cases[i].id);
      Answers(event) && Conforms(cases[i], event.reply)
  }

  /** The spend is inside the bounds of the first k cases. */
  predicate InsideBounds(cases: seq<Case>, k: nat, s: Spend)
    requires k <= |cases|
  {
    && s.calls <= k
    && s.inputTokens <= InputBounds(cases[..k])
    && s.outputTokens <= OUTPUT_BOUND * k
    && (s.usd.Some? ==> 0 <= s.usd.value <= Cost(NOVA_2_LITE, s.inputTokens, s.outputTokens))
  }

  /** The ceiling refuses nothing that is inside the bounds of fewer than all the cases. */
  ghost predicate KeepsRoom(budget: EvalBudget, cases: seq<Case>) {
    forall k: nat, s: Spend :: k < |cases| && InsideBounds(cases, k, s) ==> Refusal(budget, s) == None
  }

  lemma DerivedCeilingKeepsRoom(cases: seq<Case>)
    ensures KeepsRoom(AsBudget(NovaCeiling(cases)), cases)
  {
    forall k: nat, s: Spend | k < |cases| && InsideBounds(cases, k, s)
        ensures Refusal(AsBudget(NovaCeiling(cases)), s) == None {
      RoomForTheNext(cases, s, k);
    }
  }

  lemma {:induction false} ConformingPassStaysInside(budget: EvalBudget, cases: seq<Case>, events: map<string, Event>,
      now: string, k: nat)
    requires k <= |cases| && ConformingAnswers(cases, events) && KeepsRoom(budget, cases)
    ensures var p := Generate(budget, Some(NOVA_2_LITE), cases[..k], events, now);
            p.ending == Running && InsideBounds(cases, k, p.spend)
    decreases k
  {
    if k > 0 {
      ConformingPassStaysInside(budget, cases, events, now, k - 1);
      assert cases[..k][..k - 1] == cases[..k - 1];
      var p := Generate(budget, Some(NOVA_2_LITE), cases[..k - 1], events, now);
      ConformingVisit(budget, cases, p, k, EventFor(events, cases[k - 1].id), now);
    }
  }

  lemma ConformingVisit(budget: EvalBudget, cases: seq<Case>, p: Progress, k: nat, event: Event, now: string)
    requires 0 < k <= |cases| && p.ending == Running && InsideBounds(cases, k - 1, p.spend)
    requires Refusal(budget, p.spend) == None && Answers(event) && Conforms(cases[k - 1], event.reply)
    ensures var after := Visit(budget, Some(NOVA_2_LITE), p, cases[k - 1].id, event, now);
            after.ending == Running && InsideBounds(cases, k, after.spend)
  {
    assert cases[..k][..k - 1] == cases[..k - 1];
    ConformingCharge(budget, p.spend, event.reply, cases[k - 1]);
  }

  lemma ConformingCharge(budget: EvalBudget, s: Spend, reply: Reply, c: Case)
    requires Refusal(budget, s) == None && Conforms(c, reply)
    requires s.usd.Some? ==> 0 <= s.usd.value <= Cost(NOVA_2_LITE, s.inputTokens, s.outputTokens)
    ensures var after := Ask(budget, Some(NOVA_2_LITE), s, reply);
            && after.calls <= s.calls + 1
            && after.inputTokens <= s.inputTokens + InputBound(c)
            && after.outputTokens <= s.outputTokens + OUTPUT_BOUND
            && (after.usd.Some? ==> 0 <= after.usd.value <= Cost(NOVA_2_LITE, after.inputTokens, after.outputTokens))
  {
  }

  lemma ConformingPassIsNeverFull(budget: EvalBudget, cases: seq<Case>, events: map<string, Event>, now: string)
    requires ConformingAnswers(cases, events) && KeepsRoom(budget, cases)
    ensures NeverFull(budget, Some(NOVA_2_LITE), cases, events, now)
  {
    forall k | 0 <= k < |cases|
      ensures Refusal(budget.(calls := None), Generate(budget, Some(NOVA_2_LITE), cases[..k], events, now).spend)
          == None
    {
      ConformingPassStaysInside(budget, cases, events, now, k);
      assert Refusal(budget, Generate(budget, Some(NOVA_2_LITE), cases[..k], events, now).spend) == None;
    }
  }

  /** Three ceilings of which the first is the least of the three, field by field, meet in the first. */
  lemma MeetInTheFirst(first: EvalBudget, second: EvalBudget, third: EvalBudget)
    requires Narrower(first, second) && Narrower(first, third)
    ensures Tightest([first, second, third]) == first
  {
    var budgets := [first, second, third];
    NarrowerIsReflexive(first);
    TightestIsGreatestLowerBound(budgets, first);
    TightestIsGreatestLowerBound(budgets, Tightest(budgets));
    NarrowerIsReflexive(Tightest(budgets));
    assert first in budgets;
    SameLowerBoundsAreEqual(first, Tightest(budgets));
  }

  /** A ceiling with nothing spent is itself, and several times it is no narrower. */
  lemma NothingSpent(derived: EvalBudget, allowed: nat)
    requires allowed >= 1
    requires forall field :: Bound(derived, field).Some? && Bound(derived, field).value >= 0
    ensures Remaining(derived, NOTHING) == derived
    ensures Narrower(derived, Remaining(Times(derived, allowed), NOTHING))
  {
    assert Bound(derived, Calls).value >= 0 && Bound(derived, InputTokens).value >= 0;
    assert Bound(derived, OutputTokens).value >= 0 && Bound(derived, Dollars).value >= 0;
    Scale(derived.calls.value, 1, allowed);
    Scale(derived.inputTokens.value, 1, allowed);
    Scale(derived.outputTokens.value, 1, allowed);
    Scale(derived.usd.value, 1, allowed);
  }

  /** Before anything is bought and with nothing typed, a run is given the derived ceiling whole. */
  lemma FirstBudgetIsDerived(cases: seq<Case>, allowed: nat, runId: string)
    requires allowed >= 1
    ensures GenerationBudget(cases, allowed, [], runId, UNCAPPED) == AsBudget(NovaCeiling(cases))
  {
    var derived := AsBudget(NovaCeiling(cases));
    NothingSpent(derived, allowed);
    MeetInTheFirst(derived, Remaining(Times(derived, allowed), NOTHING), UNCAPPED);
  }

  lemma {:induction false} NothingDoneAllOutstanding(cases: seq<Case>)
    ensures Outstanding(cases, {}) == cases
  {
    if cases != [] {
      NothingDoneAllOutstanding(cases[..|cases| - 1]);
      assert cases == cases[..|cases| - 1] + [cases[|cases| - 1]];
    }
  }

  /**
   From the derivation to the disk: the first run of a split, on the model the ceiling was priced
   for, with every case inside its own two attempts, finishes the whole split in one command.
   */
  lemma FirstConformingRunFinishes(suite: Suite, c: Command)
    requires ValidSuite(suite) && c.runId != "" && c.typed == UNCAPPED && c.authorised
    requires CasesOf(suite, c.split) != [] && PriceFor(suite, Some(c.model)) == Some(NOVA_2_LITE)
    requires ConformingAnswers(CasesOf(suite, c.split), c.events)
    ensures exists f :: f in Run(suite, [c]).disk.files && f.name == c.runId && Live(f)
              && Completed(RunOf(f).generations) == Ids(CasesOf(suite, c.split))
  {
    var cases := CasesOf(suite, c.split);
    var h := Header(c.runId, c.now, None, IdentityOf(suite, c));
    var lines, run := [HeaderLine(h)], StoredRun(h, [], []);
    NothingBoughtYet(suite, c.split, c.model);
    assert Run(suite, []) == EMPTY;
    assert [] + [HeaderLine(h)] == lines;
    NothingDoneAllOutstanding(cases);
    assert Completed([]) == {};
    FirstBudgetIsDerived(cases, MaxRuns(c.split), c.runId);
    DerivedCeilingKeepsRoom(cases);
    ConformingPassIsNeverFull(AsBudget(NovaCeiling(cases)), cases, c.events, c.now);
    ResumeFinishesTheSplit(suite, [], c, lines, run);
    assert [] + [c] == [c];
  }
}
