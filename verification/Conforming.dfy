/**
 Histories in which every case stays inside its own two attempts and no answer is lost: however such runs
 are stopped, killed and resumed, no ceiling ever refuses what is left of them.
 */
module Conforming {
  import opened Common
  import opened Budget
  import opened Guard
  import opened Store
  import opened DerivedCeiling
  import opened DollarLeak
  import opened Dollars
  import opened Pass
  import opened Recognition
  import opened SpendGate
  import opened Listing
  import opened History
  import opened Resume

  // ------------------------------------------------------------------ one pass

  /** The case is asked and its reply stays inside its own two attempts, or the process dies before asking. */
  predicate Gentle(c: Case, event: Event) {
    event == Killed(false) || (event.Put? && !event.reply.Interrupted? && Conforms(c, event.reply))
  }

  predicate AllGentle(cases: seq<Case>, events: map<string, Event>) {
    forall i :: 0 <= i < |cases| ==> Gentle(cases[i], EventFor(events, cases[i].id))
  }

  /** The tokens of the records fit the bounds of the cases they answered, and all of them were charged. */
  predicate Fits(rest: seq<Case>, p: Progress) {
    && p.tally.interrupted == 0
    && p.spend.inputTokens == InputTotal(p.written) && p.spend.outputTokens == OutputTotal(p.written)
    && Completed(p.written) <= Ids(rest)
    && InputTotal(p.written) + InputBounds(Outstanding(rest, Completed(p.written))) <= InputBounds(rest)
    && OutputTotal(p.written) <= OUTPUT_BOUND * TerminalCount(p.written)
  }

  lemma {:induction false} OutstandingExcept(cases: seq<Case>, done: set<string>, id: string)
    requires id !in Ids(cases)
    ensures Outstanding(cases, done + {id}) == Outstanding(cases, done)
  {
    if cases != [] {
      var n := |cases| - 1;
      assert cases[n] in cases && forall c :: c in cases[..n] ==> c in cases;
      OutstandingExcept(cases[..n], done, id);
    }
  }

  lemma BoundsNext(cases: seq<Case>, c: Case)
    ensures InputBounds(cases + [c]) == InputBounds(cases) + InputBound(c)
  {
    assert (cases + [c])[..|cases|] == cases;
  }

  lemma BoundsOfLast(rest: seq<Case>, done: set<string>)
    requires rest != []
    ensures InputBounds(rest) == InputBounds(rest[..|rest| - 1]) + InputBound(rest[|rest| - 1])
    ensures InputBounds(Outstanding(rest, done)) == InputBounds(Outstanding(rest[..|rest| - 1], done))
        + if rest[|rest| - 1].id in done then 0 else InputBound(rest[|rest| - 1])
  {
    BoundsNext(Outstanding(rest[..|rest| - 1], done), rest[|rest| - 1]);
  }

  /** A case that was not answered adds no more to the outstanding bounds than to all of them. */
  lemma StillFits(rest: seq<Case>, p: Progress)
    requires rest != [] && Fits(rest[..|rest| - 1], p)
    ensures Fits(rest, p)
  {
    assert rest == rest[..|rest| - 1] + [rest[|rest| - 1]];
    BoundsOfLast(rest, Completed(p.written));
    hide Outstanding, InputBounds, Completed;
  }

  lemma CompletedWith(gs: seq<Generation>, written: seq<Generation>)
    ensures Completed(gs + written) == Completed(gs) + Completed(written)
  {
    hide Terminal;
  }

  lemma LastIsElsewhere(rest: seq<Case>)
    requires rest != [] && DistinctIds(rest)
    ensures rest[|rest| - 1].id !in Ids(rest[..|rest| - 1])
    ensures Ids(rest) == Ids(rest[..|rest| - 1]) + {rest[|rest| - 1].id}
  {
    assert rest == rest[..|rest| - 1] + [rest[|rest| - 1]];
  }

  /** What one more record of the last case leaves outstanding. */
  lemma RecordAnswers(rest: seq<Case>, gs: seq<Generation>, record: Generation)
    requires rest != [] && DistinctIds(rest) && Completed(gs) <= Ids(rest[..|rest| - 1])
    requires record.caseId == rest[|rest| - 1].id
    ensures Completed(gs + [record]) <= Ids(rest)
    ensures record.caseId in Completed(gs + [record]) <==> Terminal(record)
    ensures Outstanding(rest[..|rest| - 1], Completed(gs + [record])) == Outstanding(rest[..|rest| - 1], Completed(gs))
  {
    CompletedWith(gs, [record]);
    OneRecord(record);
    LastIsElsewhere(rest);
    hide Completed, Ids, Terminal, Outstanding;
    if Terminal(record) {
      OutstandingExcept(rest[..|rest| - 1], Completed(gs), record.caseId);
    } else {
      assert Completed(gs + [record]) == Completed(gs);
    }
  }

  /** One more record, of the last case, whose tokens fit that case's bound. */
  lemma RecordFits(rest: seq<Case>, gs: seq<Generation>, record: Generation)
    requires rest != [] && DistinctIds(rest) && Completed(gs) <= Ids(rest[..|rest| - 1])
    requires InputTotal(gs) + InputBounds(Outstanding(rest[..|rest| - 1], Completed(gs)))
        <= InputBounds(rest[..|rest| - 1])
    requires record.caseId == rest[|rest| - 1].id
    requires Terminal(record) ==> OrZero(record.inputTokens) <= InputBound(rest[|rest| - 1])
    ensures InputTotal(gs + [record]) + InputBounds(Outstanding(rest, Completed(gs + [record]))) <= InputBounds(rest)
  {
    TotalsNext(gs, record);
    RecordAnswers(rest, gs, record);
    BoundsOfLast(rest, Completed(gs + [record]));
    hide InputTotal, Completed, InputBounds, InputBound, Ids, Terminal, Outstanding, TerminalCount, OutputTotal;
  }

  /** What is left to show once the input is accounted for. */
  lemma FitsFrom(rest: seq<Case>, p: Progress, after: Progress, input: nat, output: nat, terminal: bool)
    requires rest != [] && Fits(rest[..|rest| - 1], p) && after.tally.interrupted == p.tally.interrupted
    requires after.spend.inputTokens == p.spend.inputTokens + input
        && InputTotal(after.written) == InputTotal(p.written) + input
    requires after.spend.outputTokens == p.spend.outputTokens + output
        && OutputTotal(after.written) == OutputTotal(p.written) + output
    requires TerminalCount(after.written) == TerminalCount(p.written) + if terminal then 1 else 0
    requires output <= if terminal then OUTPUT_BOUND else 0
    requires Completed(after.written) <= Ids(rest)
    requires InputTotal(after.written) + InputBounds(Outstanding(rest, Completed(after.written))) <= InputBounds(rest)
    ensures Fits(rest, after)
  {
    hide InputTotal, OutputTotal, TerminalCount, Completed, InputBounds, Outstanding, Ids;
    assert OUTPUT_BOUND * (TerminalCount(p.written) + 1) == OUTPUT_BOUND * TerminalCount(p.written) + OUTPUT_BOUND;
  }

  lemma ReplyFits(budget: EvalBudget, price: Option<Price>, rest: seq<Case>, p: Progress, reply: Reply, now: string)
    requires rest != [] && DistinctIds(rest) && Fits(rest[..|rest| - 1], p)
    requires Refusal(budget, p.spend) == None && !reply.Interrupted? && Conforms(rest[|rest| - 1], reply)
    ensures Fits(rest, OnReply(budget, price, p, rest[|rest| - 1].id, reply, now))
  {
    var id := rest[|rest| - 1].id;
    var record, after := RecordOf(id, reply, now), OnReply(budget, price, p, id, reply, now);
    RecordKinds(id, reply, now);
    ReplyTokens(rest[|rest| - 1], reply, record);
    RecordAnswers(rest, p.written, record);
    RecordFits(rest, p.written, record);
    hide Fits, OnReply, RecordOf, Terminal, Completed, Ids, Outstanding, InputBounds, InputBound, LegacyUnprepared;
    ReplyWrites(budget, price, p, id, reply, now);
    ChargeOf(budget, price, p.spend, reply);
    TotalsNext(p.written, record);
    hide InputOf, OutputOf, InputTotal, OutputTotal, TerminalCount, Conforms, Ask, Refusal;
    FitsFrom(rest, p, after, InputOf(reply), OutputOf(reply), Terminal(record));
  }

  lemma ReplyWrites(budget: EvalBudget, price: Option<Price>, p: Progress, id: string, reply: Reply, now: string)
    requires !reply.Interrupted?
    ensures var after := OnReply(budget, price, p, id, reply, now);
            && after.written == p.written + [RecordOf(id, reply, now)]
            && after.spend == Ask(budget, price, p.spend, reply)
            && after.tally.interrupted == p.tally.interrupted
  {
    hide Ask, RecordOf;
  }

  lemma ReplyTokens(c: Case, reply: Reply, record: Generation)
    requires Conforms(c, reply) && !reply.Interrupted?
    requires Terminal(record) <==> !reply.NotPrepared? && !LegacyUnprepared(reply)
    ensures if Terminal(record) then InputOf(reply) <= InputBound(c) && OutputOf(reply) <= OUTPUT_BOUND
            else InputOf(reply) == 0 == OutputOf(reply)
  {
    hide Terminal, InputBound;
  }

  lemma OneRecord(record: Generation)
    ensures Completed([record]) == if Terminal(record) then {record.caseId} else {}
  {
  }

  /** What putting one admitted call through the guard adds to its tokens. */
  lemma ChargeOf(budget: EvalBudget, price: Option<Price>, s: Spend, reply: Reply)
    requires Refusal(budget, s) == None
    ensures Ask(budget, price, s, reply).inputTokens == s.inputTokens + InputOf(reply)
    ensures Ask(budget, price, s, reply).outputTokens == s.outputTokens + OutputOf(reply)
  {
    hide Refusal, EstimateUsd;
  }

  lemma {:induction false} GentlePassFits(budget: EvalBudget, price: Option<Price>, rest: seq<Case>,
      events: map<string, Event>, now: string)
    requires DistinctIds(rest) && AllGentle(rest, events)
    ensures Fits(rest, Generate(budget, price, rest, events, now))
  {
    if rest != [] {
      var n := |rest| - 1;
      GentlePassFits(budget, price, rest[..n], events, now);
      var p, event := Generate(budget, price, rest[..n], events, now), EventFor(events, rest[n].id);
      StillFits(rest, p);
      hide Fits, OnReply, Refusal;
      if p.ending == Running {
        if event.Put? && Refusal(budget, p.spend) == None {
          ReplyFits(budget, price, rest, p, event.reply, now);
        } else {
          OnlyTheEnding(budget, price, rest, p, event, now);
        }
      }
    }
  }

  lemma OnlyTheEnding(budget: EvalBudget, price: Option<Price>, rest: seq<Case>, p: Progress, event: Event,
      now: string)
    requires rest != [] && Fits(rest, p) && Gentle(rest[|rest| - 1], event)
    requires event.Put? ==> Refusal(budget, p.spend).Some?
    ensures Fits(rest, Visit(budget, price, p, rest[|rest| - 1].id, event, now))
  {
    hide OnReply, Refusal, InputTotal, OutputTotal, TerminalCount, Completed, InputBounds, Outstanding;
  }

  // ------------------------------------------------------------------ one run

  /** Nothing was lost, no ledgered token is missing from the records, and the records fit their cases' bounds. */
  predicate Modest(cases: seq<Case>, a: Account) {
    var gs := a.generations;
    && a.tally.interrupted == 0
    && a.ledgered.inputTokens <= InputTotal(gs) && a.ledgered.outputTokens <= OutputTotal(gs)
    && InputTotal(gs) + InputBounds(Outstanding(cases, Completed(gs))) <= InputBounds(cases)
    && OutputTotal(gs) <= OUTPUT_BOUND * TerminalCount(gs)
  }

  lemma {:induction false} OutstandingTwice(cases: seq<Case>, done: set<string>, more: set<string>)
    ensures Outstanding(cases, done + more) == Outstanding(Outstanding(cases, done), more)
  {
    if cases != [] {
      var n := |cases| - 1;
      OutstandingTwice(cases[..n], done, more);
      if cases[n].id !in done {
        var rest := Outstanding(cases[..n], done);
        assert (rest + [cases[n]])[..|rest|] == rest;
      }
    }
  }

  lemma PassStaysModest(cases: seq<Case>, a: Account, p: Progress)
    requires Modest(cases, a) && Fits(Outstanding(cases, Completed(a.generations)), p)
    ensures Modest(cases, AfterPass(a, p))
  {
    TotalsAdd(a.generations, p.written);
    CompletedWith(a.generations, p.written);
    OutstandingTwice(cases, Completed(a.generations), Completed(p.written));
    hide InputTotal, OutputTotal, TerminalCount, Completed, Outstanding, InputBounds;
  }

  // ------------------------------------------------------------------ every history of such commands

  predicate GentleCommand(suite: Suite, c: Command) {
    AllGentle(CasesOf(suite, c.split), c.events)
  }

  predicate GentleHistory(suite: Suite, commands: seq<Command>) {
    forall i :: 0 <= i < |commands| ==> GentleCommand(suite, commands[i])
  }

  ghost predicate AllModest(suite: Suite, s: State) {
    forall f :: f in s.disk.files ==> Live(f) && Modest(CasesOf(suite, SplitOf(f)), AccountOf(s, f))
  }

  lemma NothingIsModest(cases: seq<Case>)
    ensures Modest(cases, NO_ACCOUNT)
  {
    assert Completed([]) == {};
    NothingDoneAllOutstanding(cases);
  }

  lemma BeforeIsModest(suite: Suite, s: State, c: Command, lines: seq<Line>, run: StoredRun)
    requires Invariant(suite, s) && AllModest(suite, s) && OpenedFor(suite, s.disk, c, lines, run)
    ensures Modest(CasesOf(suite, c.split), AccountBefore(s, c, run))
  {
    if LinesOf(s.disk.files, c.runId).Some? {
      var f := ExistingFile(suite, s.disk, c, lines, run);
      assert AccountOf(s, f) == AccountBefore(s, c, run);
    } else {
      NoFileNoLines(s.disk, c.runId, ScopeOf(c.model));
      NothingIsModest(CasesOf(suite, c.split));
    }
  }

  lemma PassOfGentleFits(suite: Suite, s: State, c: Command, run: StoredRun, p: Progress)
    requires ValidSuite(suite) && GentleCommand(suite, c)
    requires SpendOn(suite, s.disk, c.split, c.model).Ok? && PassOf(suite, s, c, run, p)
    ensures Fits(Outstanding(CasesOf(suite, c.split), Completed(run.generations)), p)
  {
    var rest := Outstanding(CasesOf(suite, c.split), Completed(run.generations));
    OutstandingIsTheRest(CasesOf(suite, c.split), Completed(run.generations));
    forall i | 0 <= i < |rest| ensures Gentle(rest[i], EventFor(c.events, rest[i].id)) {
      assert rest[i] in CasesOf(suite, c.split);
    }
    hide SpendOn, GenerationBudget, Generate, Outstanding;
    GentlePassFits(BudgetFor(suite, s, c), PriceFor(suite, Some(c.model)), rest, c.events, c.now);
    NoPassFits(rest);
  }

  lemma NoPassFits(rest: seq<Case>)
    ensures Fits(rest, START)
  {
    assert Completed([]) == {};
    NothingDoneAllOutstanding(rest);
  }

  lemma StepStaysModest(suite: Suite, s: State, c: Command)
    requires ValidSuite(suite) && c.runId != "" && Invariant(suite, s) && AllModest(suite, s)
    requires GentleCommand(suite, c)
    ensures AllModest(suite, Step(suite, s, c))
  {
    var shape, lines, run, p := ShapeOfStep(suite, s, c);
    assert Tidy(s.disk);
    hide AllModest, StateAfter, PassOf, Invariant, Step, Tidy, GentleCommand, AccountOf, ReadLines, OpenedFor;
    if !shape.Stayed? {
      PassLeavesModest(suite, s, c, lines, run, p);
      forall f: RunFile | Live(f)
          ensures AccountOf(Step(suite, s, c), f) == AccountOf(StateAfter(s, c, lines, run, p), f) {
        SameAfterStep(suite, s, c, lines, run, p, f);
      }
      SameAccountsSameBounds(suite, StateAfter(s, c, lines, run, p), Step(suite, s, c));
    }
  }

  lemma OwnStaysModest(suite: Suite, s: State, c: Command, lines: seq<Line>, run: StoredRun, p: Progress)
    requires ValidSuite(suite) && Invariant(suite, s) && AllModest(suite, s)
    requires GentleCommand(suite, c) && Admits(suite, s, c, lines, run) && PassOf(suite, s, c, run, p)
    ensures Modest(CasesOf(suite, c.split), AfterPass(AccountBefore(s, c, run), p))
  {
    GateIsHeld(suite, s, c.split, c.model);
    hide Modest, Fits, Invariant, PassOf, SpendOn, OpenedFor, GentleCommand, AllModest, AfterPass, AccountBefore;
    BeforeIsModest(suite, s, c, lines, run);
    PassOfGentleFits(suite, s, c, run, p);
    assert AccountBefore(s, c, run).generations == run.generations by { AccountHasItsRecords(s, c, run); }
    PassStaysModest(CasesOf(suite, c.split), AccountBefore(s, c, run), p);
  }

  lemma AccountHasItsRecords(s: State, c: Command, run: StoredRun)
    ensures AccountBefore(s, c, run).generations == run.generations
  {
  }

  lemma PassLeavesModest(suite: Suite, s: State, c: Command, lines: seq<Line>, run: StoredRun, p: Progress)
    requires ValidSuite(suite) && c.runId != "" && Invariant(suite, s) && AllModest(suite, s)
    requires GentleCommand(suite, c) && Admits(suite, s, c, lines, run) && PassOf(suite, s, c, run, p)
    ensures AllModest(suite, StateAfter(s, c, lines, run, p))
  {
    forall f | f in StateAfter(s, c, lines, run, p).disk.files
        ensures Live(f) && Modest(CasesOf(suite, SplitOf(f)), AccountOf(StateAfter(s, c, lines, run, p), f)) {
      hide StateAfter, Modest, Invariant, AllModest, PassOf, OpenedFor, GentleCommand;
      FileStaysModest(suite, s, c, lines, run, p, f);
    }
  }

  lemma FileStaysModest(suite: Suite, s: State, c: Command, lines: seq<Line>, run: StoredRun, p: Progress, f: RunFile)
    requires ValidSuite(suite) && c.runId != "" && Invariant(suite, s) && AllModest(suite, s)
    requires GentleCommand(suite, c) && Admits(suite, s, c, lines, run) && PassOf(suite, s, c, run, p)
    requires f in StateAfter(s, c, lines, run, p).disk.files
    ensures Live(f) && Modest(CasesOf(suite, SplitOf(f)), AccountOf(StateAfter(s, c, lines, run, p), f))
  {
    assert Tidy(s.disk);
    OwnFileIsModest(suite, s, c, lines, run, p);
    PassTouches(suite, s, c, lines, run, p);
    hide Modest, Invariant, PassOf, SpendOn, StateAfter, ReadLines, OpenedFor, GentleCommand, AfterPass, Tidy;
    hide AccountOf, FileAfter;
    if f != FileAfter(c, lines, p) {
      OtherAccountsStay(s, c, lines, run, p, FileAfter(c, lines, p), f);
    }
  }

  lemma OwnFileIsModest(suite: Suite, s: State, c: Command, lines: seq<Line>, run: StoredRun, p: Progress)
    requires ValidSuite(suite) && c.runId != "" && Invariant(suite, s) && AllModest(suite, s)
    requires GentleCommand(suite, c) && Admits(suite, s, c, lines, run) && PassOf(suite, s, c, run, p)
    ensures var own := FileAfter(c, lines, p);
            && own.name == c.runId && Live(own)
            && Modest(CasesOf(suite, SplitOf(own)), AccountOf(StateAfter(s, c, lines, run, p), own))
  {
    assert Tidy(s.disk);
    FileAfterIsOver(suite, s.disk, c, lines, run, p);
    OverMeansItsSplit(FileAfter(c, lines, p), c.split, c.model);
    OwnAccountAfter(suite, s, c, lines, run, p);
    hide Modest, Invariant, PassOf, SpendOn, StateAfter, ReadLines, OpenedFor, GentleCommand, AfterPass, AllModest;
    OwnStaysModest(suite, s, c, lines, run, p);
  }

  lemma SameAccountsSameBounds(suite: Suite, a: State, b: State)
    requires AllModest(suite, a) && a.disk == b.disk && forall f :: Live(f) ==> AccountOf(b, f) == AccountOf(a, f)
    ensures AllModest(suite, b)
  {
    hide Modest, AccountOf;
  }

  lemma AllButTheLast(suite: Suite, commands: seq<Command>)
    requires commands != [] && Named(commands) && GentleHistory(suite, commands)
    ensures var n := |commands| - 1;
            && Named(commands[..n]) && GentleHistory(suite, commands[..n])
            && commands[n].runId != "" && GentleCommand(suite, commands[n])
  {
  }

  /** After any history of such commands every run's records fit its own cases' bounds. */
  lemma {:induction false} EveryRunIsModest(suite: Suite, commands: seq<Command>)
    requires ValidSuite(suite) && Named(commands) && GentleHistory(suite, commands)
    ensures AllModest(suite, Run(suite, commands))
  {
    if commands != [] {
      var n := |commands| - 1;
      AllButTheLast(suite, commands);
      hide AllModest, Step, Invariant, GentleCommand, GentleHistory, Named;
      EveryRunIsModest(suite, commands[..n]);
      EveryHistoryKeepsInvariant(suite, commands[..n]);
      StepStaysModest(suite, Run(suite, commands[..n]), commands[n]);
    }
  }

  // ------------------------------------------------------------------ the room that is left

  /** More than these cases can use in each field, staying inside their attempts. */
  function Need(rest: seq<Case>): EvalBudget {
    var input, output := InputBounds(rest), OUTPUT_BOUND * |rest|;
    EvalBudget(Some(|rest|), Some(input + 1), Some(output + 1), Some(Cost(NOVA_2_LITE, input, output) + 1))
  }

  lemma NeedIsRoom(budget: EvalBudget, rest: seq<Case>)
    requires Narrower(Need(rest), budget)
    ensures KeepsRoom(budget, rest)
  {
    assert Within(Bound(Need(rest), Calls), Bound(budget, Calls));
    assert Within(Bound(Need(rest), InputTokens), Bound(budget, InputTokens));
    assert Within(Bound(Need(rest), OutputTokens), Bound(budget, OutputTokens));
    assert Within(Bound(Need(rest), Dollars), Bound(budget, Dollars));
    forall k: nat, s: Spend | k < |rest| && InsideBounds(rest, k, s) ensures Refusal(budget, s) == None {
      BoundsGrow(rest, k);
      hide InputBounds, Cost;
      CostGrows(NOVA_2_LITE, s.inputTokens, s.outputTokens, InputBounds(rest), OUTPUT_BOUND * |rest|);
    }
  }

  /** What a run that fits its cases may be recognised as having spent. */
  predicate SpentModestly(cases: seq<Case>, done: nat, rest: seq<Case>, t: Totals) {
    && done + |rest| == |cases|
    && t.calls == done
    && 0 <= t.inputTokens && t.inputTokens + InputBounds(rest) <= InputBounds(cases)
    && 0 <= t.outputTokens <= OUTPUT_BOUND * done
    && t.usd <= Cost(NOVA_2_LITE, t.inputTokens, t.outputTokens)
  }

  /** What the derived ceiling is, against the bounds of its cases. */
  lemma CeilingFigures(cases: seq<Case>)
    requires cases != []
    ensures var derived := AsBudget(NovaCeiling(cases));
            && derived.calls == Some(|cases|)
            && derived.inputTokens.Some? && InputBounds(cases) < derived.inputTokens.value
            && derived.outputTokens.Some? && OUTPUT_BOUND * |cases| < derived.outputTokens.value
            && derived.usd.Some?
            && Cost(NOVA_2_LITE, InputBounds(cases), OUTPUT_BOUND * |cases|) < derived.usd.value
  {
    BoundsFitTheCeilings(cases);
    assert NovaCeiling(cases).logicalCalls == |cases|;
    hide NovaCeiling, InputBounds, Cost;
  }

  lemma OwnCeilingHasRoom(cases: seq<Case>, done: nat, rest: seq<Case>, t: Totals)
    requires cases != [] && SpentModestly(cases, done, rest, t)
    ensures Narrower(Need(rest), Remaining(AsBudget(NovaCeiling(cases)), t))
  {
    hide NovaCeiling, InputBounds, Cost, AsBudget;
    CeilingFigures(cases);
    assert t.outputTokens + OUTPUT_BOUND * |rest| <= OUTPUT_BOUND * |cases|;
    DollarsCoverBoth(t.inputTokens, t.outputTokens, InputBounds(rest), OUTPUT_BOUND * |rest|, InputBounds(cases),
        OUTPUT_BOUND * |cases|);
    LeavesTheNeed(AsBudget(NovaCeiling(cases)), t, rest);
  }

  lemma DollarsCoverBoth(input: nat, output: nat, moreInput: nat, moreOutput: nat, allInput: nat, allOutput: nat)
    requires input + moreInput <= allInput && output + moreOutput <= allOutput
    ensures Cost(NOVA_2_LITE, input, output) + Cost(NOVA_2_LITE, moreInput, moreOutput)
        <= Cost(NOVA_2_LITE, allInput, allOutput)
  {
    CostAdds(NOVA_2_LITE, input, output, moreInput, moreOutput);
    CostGrows(NOVA_2_LITE, input + moreInput, output + moreOutput, allInput, allOutput);
  }

  lemma LeavesTheNeed(ceiling: EvalBudget, t: Totals, rest: seq<Case>)
    requires ceiling.calls.Some? && t.calls + Need(rest).calls.value <= ceiling.calls.value
    requires ceiling.inputTokens.Some? && t.inputTokens + Need(rest).inputTokens.value <= ceiling.inputTokens.value
    requires ceiling.outputTokens.Some? && t.outputTokens + Need(rest).outputTokens.value <= ceiling.outputTokens.value
    requires ceiling.usd.Some? && t.usd + Need(rest).usd.value <= ceiling.usd.value
    ensures Narrower(Need(rest), Remaining(ceiling, t))
  {
    hide InputBounds, Cost;
  }

  /** The gate's ceiling leaves at least what the run's own does, if the others are within theirs. */
  lemma GateLeavesAsMuch(bound: int, allowed: nat, own: int, total: int)
    requires allowed >= 1 && total - own <= bound * (allowed - 1)
    ensures Max(0, bound - own) <= Max(0, bound * allowed - total)
  {
    assert bound * allowed == bound * (allowed - 1) + bound;
  }

  /** No other field of the gate's ceiling is ever tighter than the run's own either. */
  lemma OwnIsTighter(cases: seq<Case>, allowed: nat, own: Totals, total: Totals)
    requires allowed >= 1
    requires forall field ::
               && Bound(AsBudget(NovaCeiling(cases)), field).Some?
               && Spent(total, field) - Spent(own, field)
                  <= Bound(AsBudget(NovaCeiling(cases)), field).value * (allowed - 1)
    ensures Narrower(Remaining(AsBudget(NovaCeiling(cases)), own),
                     Remaining(Times(AsBudget(NovaCeiling(cases)), allowed), total))
  {
    var derived := AsBudget(NovaCeiling(cases));
    hide NovaCeiling;
    forall field
        ensures Within(Bound(Remaining(derived, own), field), Bound(Remaining(Times(derived, allowed), total), field)) {
      GateLeavesAsMuch(Bound(derived, field).value, allowed, Spent(own, field), Spent(total, field));
    }
  }

  /** What the gate reads of one run of such a history. */
  lemma ModestReading(suite: Suite, s: State, f: RunFile)
    requires ValidSuite(suite) && Live(f) && f in s.disk.files && Invariant(suite, s) && AllModest(suite, s)
        && AllCosted(suite, s)
    requires PriceFor(suite, Some(ModelOf(f))) == Some(NOVA_2_LITE)
    ensures var cases, gs := CasesOf(suite, SplitOf(f)), RunOf(f).generations;
            SpentModestly(cases, TerminalCount(gs), Outstanding(cases, Completed(gs)),
                          Recognised(View(suite, s.disk.ledger, f)))
  {
    var cases, a := CasesOf(suite, SplitOf(f)), AccountOf(s, f);
    var t := Recognised(View(suite, s.disk.ledger, f));
    assert Modest(cases, a) && FileCosted(suite, s, f) && Sound(cases, a);
    hide AllModest, AllCosted, Invariant;
    RecognisedIsCosted(suite, s, f, NOVA_2_LITE);
    RecognisedIsSeen(cases, a);
    ViewCalls(suite, s, f);
    ViewTokens(suite, s, f);
    AtMostOnePerCase(a.generations, cases);
    assert a.generations == RunOf(f).generations;
    hide Recognised, View, ReadLines, TerminalCount, InputTotal, OutputTotal, Cost, InputBounds, Outstanding, AccountOf;
    hide FileCosted, RecognisedCalls, AnsweredOnce, Completed;
    ModestAccount(cases, a, t);
  }

  lemma ModestAccount(cases: seq<Case>, a: Account, t: Totals)
    requires Sound(cases, a) && Modest(cases, a) && DistinctIds(cases) && Costed(NOVA_2_LITE, t)
    requires t.calls == a.tally.sent - Unseen(a.tally)
    requires t.inputTokens == Max(a.ledgered.inputTokens, InputTotal(a.generations))
    requires t.outputTokens == Max(a.ledgered.outputTokens, OutputTotal(a.generations))
    ensures SpentModestly(cases, TerminalCount(a.generations), Outstanding(cases, Completed(a.generations)), t)
  {
    AtMostOnePerCase(a.generations, cases);
    hide TerminalCount, InputTotal, OutputTotal, Cost, InputBounds, Outstanding, AnsweredOnce, Completed;
  }

  lemma ViewTokens(suite: Suite, s: State, f: RunFile)
    requires Live(f)
    ensures var t, a := Recognised(View(suite, s.disk.ledger, f)), AccountOf(s, f);
            && t.inputTokens == Max(a.ledgered.inputTokens, InputTotal(a.generations))
            && t.outputTokens == Max(a.ledgered.outputTokens, OutputTotal(a.generations))
  {
    hide ReadLines;
  }

  // ------------------------------------------------------------------ the gate never refuses what is left

  lemma ModestTokens(cases: seq<Case>, done: nat, rest: seq<Case>, t: Totals)
    requires cases != [] && SpentModestly(cases, done, rest, t)
    requires done == 0 ==> rest == cases
    ensures 0 <= t.inputTokens <= InputBounds(cases) && 0 <= t.outputTokens <= OUTPUT_BOUND * |cases|
    ensures 0 <= t.calls <= |cases| && (t.calls == 0 ==> t.inputTokens == 0 && t.outputTokens == 0)
  {
    hide InputBounds, Cost;
  }

  lemma ModestDollars(cases: seq<Case>, done: nat, rest: seq<Case>, t: Totals)
    requires cases != [] && SpentModestly(cases, done, rest, t)
    requires done == 0 ==> rest == cases
    ensures t.usd <= Cost(NOVA_2_LITE, InputBounds(cases), OUTPUT_BOUND * |cases|)
    ensures t.calls == 0 ==> t.usd <= 0
  {
    ModestTokens(cases, done, rest, t);
    hide InputBounds, Cost;
    DollarsWithin(t.usd, t.inputTokens, t.outputTokens, InputBounds(cases), OUTPUT_BOUND * |cases|);
  }

  lemma DollarsWithin(usd: Usd, input: nat, output: nat, allInput: nat, allOutput: nat)
    requires usd <= Cost(NOVA_2_LITE, input, output) && input <= allInput && output <= allOutput
    ensures usd <= Cost(NOVA_2_LITE, allInput, allOutput)
    ensures input == 0 && output == 0 ==> usd <= 0
  {
    CostGrows(NOVA_2_LITE, input, output, allInput, allOutput);
  }

  /** The most that answering every case once, inside its own attempts, can come to. */
  function MostOf(cases: seq<Case>, field: Field): nat {
    match field
    case Calls => |cases|
    case InputTokens => InputBounds(cases)
    case OutputTokens => OUTPUT_BOUND * |cases|
    case Dollars => Cost(NOVA_2_LITE, InputBounds(cases), OUTPUT_BOUND * |cases|)
  }

  /** Such a run is recognised within that in every field, and for nothing unless it bought. */
  lemma ModestIsWithin(cases: seq<Case>, done: nat, rest: seq<Case>, t: Totals, field: Field)
    requires cases != [] && SpentModestly(cases, done, rest, t)
    requires done == 0 ==> rest == cases
    ensures Spent(t, field) <= if t.calls > 0 then MostOf(cases, field) else 0
  {
    hide InputBounds, Cost, SpentModestly;
    ModestTokens(cases, done, rest, t);
    ModestDollars(cases, done, rest, t);
    FieldByField(t, field, cases);
  }

  lemma FieldByField(t: Totals, field: Field, cases: seq<Case>)
    requires 0 <= t.calls <= MostOf(cases, Calls) && t.inputTokens <= MostOf(cases, InputTokens)
    requires t.outputTokens <= MostOf(cases, OutputTokens) && t.usd <= MostOf(cases, Dollars)
    requires t.calls == 0 ==> t.inputTokens == 0 && t.outputTokens == 0 && t.usd <= 0
    ensures Spent(t, field) <= if t.calls > 0 then MostOf(cases, field) else 0
  {
    hide MostOf;
  }

  lemma CeilingIsMore(cases: seq<Case>, field: Field)
    requires cases != []
    ensures var ceiling := Bound(AsBudget(NovaCeiling(cases)), field);
            ceiling.Some? && MostOf(cases, field) <= ceiling.value
  {
    hide NovaCeiling, InputBounds, Cost, AsBudget;
    CeilingFigures(cases);
  }

  lemma EachRunIsWithin(suite: Suite, s: State, split: Split, model: string, field: Field)
    requires ValidSuite(suite) && Invariant(suite, s) && AllModest(suite, s) && AllCosted(suite, s)
    requires CasesOf(suite, split) != [] && PriceFor(suite, Some(model)) == Some(NOVA_2_LITE)
    ensures SpendOn(suite, s.disk, split, model).Ok?
    ensures EachSpendsWithin(SpentOn(suite, s, split, model), field, MostOf(CasesOf(suite, split), field))
  {
    var cases := CasesOf(suite, split);
    SpendOnLists(suite, s.disk, split, model);
    var runs := SpentOn(suite, s, split, model);
    hide SpendOn, Invariant, AllModest, AllCosted, Recognised, View, MostOf, Spent, Over, Tidy;
    forall i | 0 <= i < |runs|
        ensures Spent(Recognised(runs[i]), field)
            <= if Bought(runs[i]) then MostOf(cases, field) else 0 {
      assert IsViewOver(suite, s.disk, split, model, runs[i]);
      var f :| f in s.disk.files && Over(f, split, model) && runs[i] == View(suite, s.disk.ledger, f);
      OneRunIsWithin(suite, s, split, model, f, field);
    }
  }

  lemma OneRunIsWithin(suite: Suite, s: State, split: Split, model: string, f: RunFile, field: Field)
    requires ValidSuite(suite) && Invariant(suite, s) && AllModest(suite, s) && AllCosted(suite, s)
    requires CasesOf(suite, split) != [] && PriceFor(suite, Some(model)) == Some(NOVA_2_LITE)
    requires f in s.disk.files && Over(f, split, model)
    ensures var t := Recognised(View(suite, s.disk.ledger, f));
            Spent(t, field) <= if t.calls > 0 then MostOf(CasesOf(suite, split), field) else 0
  {
    var cases, gs := CasesOf(suite, split), RunOf(f).generations;
    OverMeansItsSplit(f, split, model);
    ModestReading(suite, s, f);
    assert Sound(cases, AccountOf(s, f));
    hide Invariant, AllModest, AllCosted, Recognised, View, InputBounds, Cost, SpentModestly, Spent, MostOf;
    if TerminalCount(gs) == 0 {
      NothingAnsweredAllLeft(cases, gs);
    }
    ModestIsWithin(cases, TerminalCount(gs), Outstanding(cases, Completed(gs)),
        Recognised(View(suite, s.disk.ledger, f)), field);
  }

  lemma NothingAnsweredAllLeft(cases: seq<Case>, gs: seq<Generation>)
    requires AnsweredOnce(gs, cases) && TerminalCount(gs) == 0
    ensures Outstanding(cases, Completed(gs)) == cases
  {
    TerminalsAreCompleted(gs, cases);
    NothingDoneAllOutstanding(cases);
    assert Completed(gs) == {};
  }

  /** Before the command: what the gate charges its run with fits what the run has answered. */
  lemma OwnSpendIsModest(suite: Suite, s: State, c: Command, lines: seq<Line>, run: StoredRun)
    requires ValidSuite(suite) && Invariant(suite, s) && AllModest(suite, s) && AllCosted(suite, s)
    requires OpenedFor(suite, s.disk, c, lines, run) && PriceFor(suite, Some(c.model)) == Some(NOVA_2_LITE)
    requires SpendOn(suite, s.disk, c.split, c.model).Ok?
    ensures var cases := CasesOf(suite, c.split);
            SpentModestly(cases, TerminalCount(run.generations), Outstanding(cases, Completed(run.generations)),
                          ForRun(SpentOn(suite, s, c.split, c.model), c.runId))
  {
    OwnReading(suite, s, c, lines, run);
    assert Tidy(s.disk);
    hide SpendOn, Invariant, AllModest, AllCosted, ForRun, SpentModestly, Recognised, RecordedTotals, Tidy;
    if LinesOf(s.disk.files, c.runId).Some? {
      var f := ExistingFile(suite, s.disk, c, lines, run);
      ModestReading(suite, s, f);
      assert OwnView(suite, s, c, run) == View(suite, s.disk.ledger, f);
    } else {
      NoFileNoLines(s.disk, c.runId, ScopeOf(c.model));
      NothingToRead(c.runId, PriceFor(suite, Some(c.model)), [NameOf(c.split)]);
      NothingIsSpentModestly(CasesOf(suite, c.split), run.generations, NOTHING);
    }
  }

  lemma NothingIsSpentModestly(cases: seq<Case>, gs: seq<Generation>, t: Totals)
    requires gs == [] && t.calls == 0 && t.inputTokens == 0 && t.outputTokens == 0 && t.usd == 0
    ensures SpentModestly(cases, TerminalCount(gs), Outstanding(cases, Completed(gs)), t)
  {
    NothingAnsweredAllLeft(cases, gs);
    hide InputBounds, Outstanding, Completed;
  }

  /** The other runs of the gate leave one whole derived ceiling to this one, in every field. */
  lemma OthersLeaveTheRest(suite: Suite, s: State, c: Command, field: Field)
    requires ValidSuite(suite) && Invariant(suite, s) && AllModest(suite, s) && AllCosted(suite, s)
    requires CasesOf(suite, c.split) != [] && PriceFor(suite, Some(c.model)) == Some(NOVA_2_LITE)
    requires SpendOn(suite, s.disk, c.split, c.model).Ok?
    requires MayRun(SpentOn(suite, s, c.split, c.model), c.runId, MaxRuns(c.split))
    ensures var derived, runs := AsBudget(NovaCeiling(CasesOf(suite, c.split))), SpentOn(suite, s, c.split, c.model);
            && Bound(derived, field).Some?
            && Spent(Total(runs), field) - Spent(ForRun(runs, c.runId), field)
               <= Bound(derived, field).value * (MaxRuns(c.split) - 1)
  {
    hide SpendOn, Invariant, AllModest, AllCosted, NovaCeiling, Recognised, EachSpendsWithin, Spent, Bound, BoughtIds;
    hide AsBudget, Total, ForRun, EachWithin, MayRun, MaxRuns, CasesOf, DistinctRuns, PriceFor, ValidSuite, MostOf;
    var runs, most := SpentOn(suite, s, c.split, c.model), MostOf(CasesOf(suite, c.split), field);
    CeilingIsMore(CasesOf(suite, c.split), field);
    GateIsHeld(suite, s, c.split, c.model);
    RunsAreWithin(suite, s, c.split, c.model);
    EachRunIsWithin(suite, s, c.split, c.model, field);
    OthersAllowed(runs, c.runId, MaxRuns(c.split));
    OthersSpendWithin(runs, field, most, c.runId);
    ForEachOther(most, Bound(AsBudget(NovaCeiling(CasesOf(suite, c.split))), field).value,
        Spent(Total(runs), field) - Spent(ForRun(runs, c.runId), field), |BoughtIds(runs) - {c.runId}|,
        MaxRuns(c.split) - 1);
  }

  lemma ForEachOther(most: nat, bound: nat, spent: int, others: nat, allowed: nat)
    requires spent <= most * others && others <= allowed && most <= bound
    ensures spent <= bound * allowed
  {
    Scale(most, others, allowed);
    Scale(allowed, most, bound);
  }

  /**
   What the gate may spend in all: over any such history a split's runs are together recognised within what
   answering its cases comes to, once for each run the split is allowed, in every field.
   */
  lemma GateSpendsWithin(suite: Suite, commands: seq<Command>, split: Split, model: string, field: Field)
    requires ValidSuite(suite) && Named(commands) && GentleHistory(suite, commands)
    requires CasesOf(suite, split) != [] && PriceFor(suite, Some(model)) == Some(NOVA_2_LITE)
    ensures var s := Run(suite, commands);
            && SpendOn(suite, s.disk, split, model).Ok?
            && Spent(Total(SpentOn(suite, s, split, model)), field)
               <= MostOf(CasesOf(suite, split), field) * MaxRuns(split)
  {
    var s, most := Run(suite, commands), MostOf(CasesOf(suite, split), field);
    EveryHistoryKeepsInvariant(suite, commands);
    EveryRunIsModest(suite, commands);
    EveryRunIsCosted(suite, commands);
    EachRunIsWithin(suite, s, split, model, field);
    GateIsHeld(suite, s, split, model);
    RunsAreWithin(suite, s, split, model);
    hide Run, Invariant, AllModest, AllCosted, SpendOn, Total, BoughtIds, MostOf, Spent, MaxRuns, EachSpendsWithin;
    hide ForRun;
    AllSpendWithin(SpentOn(suite, s, split, model), field, most);
    ForEachOther(most, most, Spent(Total(SpentOn(suite, s, split, model)), field),
        |BoughtIds(SpentOn(suite, s, split, model))|, MaxRuns(split));
  }

  /** With nothing typed, the command has room for all its run has left to ask. */
  lemma RoomForTheRest(suite: Suite, s: State, c: Command, lines: seq<Line>, run: StoredRun)
    requires ValidSuite(suite) && Invariant(suite, s) && AllModest(suite, s) && AllCosted(suite, s)
    requires Admits(suite, s, c, lines, run) && c.typed == UNCAPPED && CasesOf(suite, c.split) != []
    requires PriceFor(suite, Some(c.model)) == Some(NOVA_2_LITE)
    ensures KeepsRoom(BudgetFor(suite, s, c), Outstanding(CasesOf(suite, c.split), Completed(run.generations)))
  {
    var cases, runs := CasesOf(suite, c.split), SpentOn(suite, s, c.split, c.model);
    var rest, own := Outstanding(cases, Completed(run.generations)), ForRun(runs, c.runId);
    var derived := AsBudget(NovaCeiling(cases));
    GateIsHeld(suite, s, c.split, c.model);
    OwnSpendIsModest(suite, s, c, lines, run);
    hide SpendOn, Invariant, AllModest, AllCosted, NovaCeiling, BoughtIds, Recognised, Outstanding, OpenedFor;
    hide Need, MayRun, ForRun, Total, SpentModestly;
    OwnCeilingHasRoom(cases, TerminalCount(run.generations), rest, own);
    forall field ensures Bound(derived, field).Some?
        && Spent(Total(runs), field) - Spent(own, field) <= Bound(derived, field).value * (MaxRuns(c.split) - 1) {
      OthersLeaveTheRest(suite, s, c, field);
    }
    OwnIsTighter(cases, MaxRuns(c.split), own, Total(runs));
    MeetsTheNeed(derived, MaxRuns(c.split), own, Total(runs), rest);
    NeedIsRoom(BudgetFor(suite, s, c), rest);
  }

  lemma MeetsTheNeed(derived: EvalBudget, allowed: nat, own: Totals, total: Totals, rest: seq<Case>)
    requires Narrower(Need(rest), Remaining(derived, own))
    requires Narrower(Remaining(derived, own), Remaining(Times(derived, allowed), total))
    ensures Narrower(Need(rest), Tightest([Remaining(derived, own), Remaining(Times(derived, allowed), total),
                                           UNCAPPED]))
  {
    var perRun, perGate := Remaining(derived, own), Remaining(Times(derived, allowed), total);
    hide Need;
    forall field ensures Within(Bound(Need(rest), field), Bound(perGate, field)) {
      assert Within(Bound(Need(rest), field), Bound(perRun, field));
      assert Within(Bound(perRun, field), Bound(perGate, field));
    }
    TightestIsGreatestLowerBound([perRun, perGate, UNCAPPED], Need(rest));
  }

  // ------------------------------------------------------------------ a resume of such a history

  /**
   After any history whose commands all stay inside their cases' attempts and lose no answer, wherever they
   were stopped or killed, a resume with nothing typed whose remaining cases are answered inside theirs is
   refused on no ceiling, and finishes the split.
   */
  lemma ConformingResumeFinishes(suite: Suite, commands: seq<Command>, c: Command, lines: seq<Line>, run: StoredRun)
    requires ValidSuite(suite) && Named(commands) && c.runId != ""
    requires GentleHistory(suite, commands)
    requires SpendOn(suite, Run(suite, commands).disk, c.split, c.model).Ok?
    requires Opens(suite, Run(suite, commands), c, lines, run) && c.typed == UNCAPPED
    requires PriceFor(suite, Some(c.model)) == Some(NOVA_2_LITE)
    requires ConformingAnswers(Outstanding(CasesOf(suite, c.split), Completed(run.generations)), c.events)
    ensures var s, rest := Run(suite, commands), Outstanding(CasesOf(suite, c.split), Completed(run.generations));
            KeepsRoom(BudgetFor(suite, s, c), rest)
    ensures exists f :: f in Run(suite, commands + [c]).disk.files && f.name == c.runId && Live(f)
              && Completed(RunOf(f).generations) == Ids(CasesOf(suite, c.split))
  {
    var s, rest := Run(suite, commands), Outstanding(CasesOf(suite, c.split), Completed(run.generations));
    EveryHistoryKeepsInvariant(suite, commands);
    EveryRunIsModest(suite, commands);
    EveryRunIsCosted(suite, commands);
    OpeningTidyFile(suite, s.disk, c, Header(c.runId, c.now, None, IdentityOf(suite, c)));
    RoomForTheRest(suite, s, c, lines, run);
    ConformingPassIsNeverFull(BudgetFor(suite, s, c), rest, c.events, c.now);
    NothingWasLost(suite, s, c, lines, run);
    hide Run, Invariant, AllModest, AllCosted, SpendOn, Opens, KeepsRoom, Outstanding;
    ResumeFinishesTheSplit(suite, commands, c, lines, run);
  }

  lemma NothingWasLost(suite: Suite, s: State, c: Command, lines: seq<Line>, run: StoredRun)
    requires Invariant(suite, s) && AllModest(suite, s) && OpenedFor(suite, s.disk, c, lines, run)
    ensures TallyOf(s, c.runId).interrupted == 0
  {
    BeforeIsModest(suite, s, c, lines, run);
  }
}
