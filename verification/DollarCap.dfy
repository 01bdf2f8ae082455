/**
 A dollar cap of nothing, typed by the operator: what every command under it still buys.
 */
module DollarCap {
  import opened Common
  import opened Budget
  import opened Guard
  import opened Store
  import opened DerivedCeiling
  import opened DollarLeak
  import opened Dollars
  import opened Pass
  import opened Recognition
  import opened SpendGate
  import opened Listing
  import opened History
  import opened Resume
  import opened Finishing
  import opened Conforming

  // ------------------------------------------------------------------ one pass with no dollars left

  predicate Priceable(event: Event) {
    event.Put? && Prices(event.reply)
  }

  predicate ReachesPrice(cases: seq<Case>, events: map<string, Event>) {
    exists i :: 0 <= i < |cases| && Priceable(EventFor(events, cases[i].id))
  }

  /** The cases up to and including the first whose reply can be priced. */
  function UpToPrice(cases: seq<Case>, events: map<string, Event>): seq<Case> {
    if cases == [] || !ReachesPrice(cases[..|cases| - 1], events) then cases
    else UpToPrice(cases[..|cases| - 1], events)
  }

  /** Everything a pass leaves behind but the way it ended. */
  predicate SameTraces(a: Progress, b: Progress) {
    a.spend == b.spend && a.written == b.written && a.tally == b.tally
  }

  /** Money is known, and not negative, in a pass still running exactly when a priceable reply was reached. */
  predicate KnownSince(reached: bool, p: Progress) {
    && (p.ending == Running ==> (p.spend.usd.Some? <==> reached))
    && (p.spend.usd.Some? ==> p.spend.usd.value >= 0)
  }

  lemma VisitKeepsKnown(budget: EvalBudget, price: Price, p: Progress, id: string, event: Event, now: string,
      reached: bool)
    requires KnownSince(reached, p) && p.ending == Running
    ensures KnownSince(reached || Priceable(event), Visit(budget, Some(price), p, id, event, now))
  {
    hide Refusal, RecordOf, LegacyUnprepared;
    if event.Put? {
      AskKeepsKnown(budget, price, p.spend, event.reply);
    }
    if event.LostAfterAnswer? {
      AskKeepsKnown(budget, price, p.spend, Answered(event.telemetry));
    }
  }

  lemma {:induction false} PassKnows(budget: EvalBudget, price: Price, cases: seq<Case>, events: map<string, Event>,
      now: string)
    ensures KnownSince(ReachesPrice(cases, events), Generate(budget, Some(price), cases, events, now))
  {
    if cases != [] {
      var n := |cases| - 1;
      PassKnows(budget, price, cases[..n], events, now);
      var p, event := Generate(budget, Some(price), cases[..n], events, now), EventFor(events, cases[n].id);
      assert ReachesPrice(cases, events) <==> ReachesPrice(cases[..n], events) || Priceable(event) by {
        assert forall i :: 0 <= i < n ==> cases[..n][i] == cases[i];
      }
      hide Visit, Priceable, ReachesPrice;
      if p.ending == Running {
        VisitKeepsKnown(budget, price, p, cases[n].id, event, now, ReachesPrice(cases[..n], events));
      }
    }
  }

  lemma UnknownIsUncapped(budget: EvalBudget, price: Price, p: Progress, id: string, event: Event, now: string)
    requires p.spend.usd == None
    ensures Visit(budget, Some(price), p, id, event, now)
         == Visit(budget.(usd := None), Some(price), p, id, event, now)
  {
    if event.Put? {
      SameWithoutDollars(budget, price, p.spend, event.reply);
    } else if event.LostAfterAnswer? {
      SameWithoutDollars(budget, price, p.spend, Answered(event.telemetry));
    } else {
      SameWithoutDollars(budget, price, p.spend, Interrupted);
    }
    hide Ask, Refusal, RecordOf, LegacyUnprepared;
  }

  lemma ShutLeavesTraces(budget: EvalBudget, price: Price, p: Progress, id: string, event: Event, now: string)
    requires budget.usd.Some? && budget.usd.value <= 0 && p.spend.usd.Some? && p.spend.usd.value >= 0
    ensures SameTraces(Visit(budget, Some(price), p, id, event, now), p)
  {
  }

  /**
   With no dollars to spend, a pass leaves what it would with no dollar ceiling at all had its cases ended at
   the first whose reply can be priced.
   */
  lemma {:induction false} NoDollarsPass(budget: EvalBudget, price: Price, cases: seq<Case>,
      events: map<string, Event>, now: string)
    requires budget.usd.Some? && budget.usd.value <= 0
    ensures var p := Generate(budget, Some(price), cases, events, now);
            var q := Generate(budget.(usd := None), Some(price), UpToPrice(cases, events), events, now);
            SameTraces(p, q) && (!ReachesPrice(cases, events) ==> p == q)
  {
    if cases != [] {
      var n := |cases| - 1;
      NoDollarsPass(budget, price, cases[..n], events, now);
      PassKnows(budget, price, cases[..n], events, now);
      var p, event := Generate(budget, Some(price), cases[..n], events, now), EventFor(events, cases[n].id);
      assert ReachesPrice(cases[..n], events) ==> ReachesPrice(cases, events) by {
        assert forall i :: 0 <= i < n ==> cases[..n][i] == cases[i];
      }
      hide Visit, ReachesPrice;
      if !ReachesPrice(cases[..n], events) {
        AllUpToPrice(cases, events);
        if p.ending == Running {
          UnknownIsUncapped(budget, price, p, cases[n].id, event, now);
        }
      } else if p.ending == Running {
        ShutLeavesTraces(budget, price, p, cases[n].id, event, now);
      }
    }
  }

  lemma AllUpToPrice(cases: seq<Case>, events: map<string, Event>)
    requires cases != [] && !ReachesPrice(cases[..|cases| - 1], events)
    ensures UpToPrice(cases, events) == cases
    ensures UpToPrice(cases[..|cases| - 1], events) == cases[..|cases| - 1]
  {
    var before := cases[..|cases| - 1];
    if before != [] {
      assert forall i :: 0 <= i < |before| - 1 ==> before[..|before| - 1][i] == before[i];
    }
  }

  // ------------------------------------------------------------------ after any history

  lemma TypedNothingIsNothing(cases: seq<Case>, allowed: nat, runs: seq<RecognisedRun>, id: string, typed: EvalBudget)
    requires typed.usd.Some?
    ensures var usd := GenerationBudget(cases, allowed, runs, id, typed).usd;
            usd.Some? && usd.value <= typed.usd.value
  {
    var derived := AsBudget(NovaCeiling(cases));
    var budgets := [Remaining(derived, ForRun(runs, id)), Remaining(Times(derived, allowed), Total(runs)), typed];
    hide NovaCeiling, ForRun, Total;
    NarrowerIsReflexive(Tightest(budgets));
    TightestIsGreatestLowerBound(budgets, Tightest(budgets));
    assert typed in budgets;
    assert Within(Bound(Tightest(budgets), Dollars), Bound(typed, Dollars));
  }

  /**
   After any history, a command typed with no dollars makes the pass of the same command with no dollar
   ceiling at all, up to and including its first case whose reply can be priced.
   */
  lemma TypedDollarCapLeaks(suite: Suite, commands: seq<Command>, c: Command, lines: seq<Line>, run: StoredRun)
      returns (p: Progress)
    requires ValidSuite(suite) && Named(commands) && c.runId != ""
    requires SpendOn(suite, Run(suite, commands).disk, c.split, c.model).Ok?
    requires Opens(suite, Run(suite, commands), c, lines, run) && PriceFor(suite, Some(c.model)).Some?
    requires c.typed.usd.Some? && c.typed.usd.value <= 0
    requires Outstanding(CasesOf(suite, c.split), Completed(run.generations)) != []
    ensures var s, rest := Run(suite, commands), Outstanding(CasesOf(suite, c.split), Completed(run.generations));
            && p == Generate(BudgetFor(suite, s, c), PriceFor(suite, Some(c.model)), rest, c.events, c.now)
            && Run(suite, commands + [c]) == StateAfter(s, c, lines, run, Ended(p, c.died))
            && SameTraces(p, Generate(BudgetFor(suite, s, c).(usd := None), PriceFor(suite, Some(c.model)),
                                      UpToPrice(rest, c.events), c.events, c.now))
  {
    var s, rest := Run(suite, commands), Outstanding(CasesOf(suite, c.split), Completed(run.generations));
    EveryHistoryKeepsInvariant(suite, commands);
    OneMoreCommand(suite, commands, c);
    hide Run, Invariant, Opens, SpendOn, GenerationBudget, Generate, Outstanding, StateAfter, Step, UpToPrice;
    StepTaken(suite, s, c, lines, run);
    TypedNothingIsNothing(CasesOf(suite, c.split), MaxRuns(c.split), SpentOn(suite, s, c.split, c.model), c.runId,
        c.typed);
    NoDollarsPass(BudgetFor(suite, s, c), PriceFor(suite, Some(c.model)).value, rest, c.events, c.now);
    p := Generate(BudgetFor(suite, s, c), PriceFor(suite, Some(c.model)), rest, c.events, c.now);
  }

  // ------------------------------------------------------------------ as many calls as there are cases, on nothing

  /** The smallest answer that can be priced. */
  const PRICED := Answered(Telemetry(1, Some(1), Some(1)))

  /** One run of the development split with no dollars typed, every case answered. */
  function OnNothing(suite: Suite, id: string, model: string, now: string): Command {
    Command(Development, model, id, None, "prompt", "schema", now, UNCAPPED.(usd := Some(0)), true,
            Everywhere(suite.development, PRICED), false)
  }

  function Repeated(c: Command, k: nat): seq<Command> {
    seq(k, _ => c)
  }

  lemma OneMoreOfIt(c: Command, k: nat)
    ensures Repeated(c, k + 1) == Repeated(c, k) + [c]
  {
  }

  /** The directory holds this command's own run and no other, which has sent `k` requests and lost nothing. */
  ghost predicate OnlyIts(suite: Suite, s: State, c: Command, k: nat) {
    && TallyOf(s, c.runId) == Tally(k, 0, 0, 0, 0)
    && forall f :: f in s.disk.files ==>
         f.name == c.runId && Live(f) && RunOf(f).header.identity == IdentityOf(suite, c)
  }

  lemma OnNothingIsGentle(suite: Suite, id: string, model: string, now: string)
    ensures GentleCommand(suite, OnNothing(suite, id, model, now))
  {
    var cases := suite.development;
    forall i | 0 <= i < |cases|
        ensures Gentle(cases[i], EventFor(Everywhere(cases, PRICED), cases[i].id)) {
      assert cases[i].id in Everywhere(cases, PRICED);
    }
  }

  lemma RepeatedIsGentle(suite: Suite, c: Command, k: nat)
    requires GentleCommand(suite, c) && c.runId != ""
    ensures GentleHistory(suite, Repeated(c, k)) && Named(Repeated(c, k))
  {
  }

  /** The command goes on: it may run, and its file opens. */
  lemma OpensAgain(suite: Suite, s: State, c: Command, k: nat) returns (lines: seq<Line>, run: StoredRun)
    requires Invariant(suite, s) && OnlyIts(suite, s, c, k) && c.split == Development && c.authorised
    requires suite.development != [] && c.runId != ""
    ensures SpendOn(suite, s.disk, c.split, c.model).Ok?
    ensures Opens(suite, s, c, lines, run) && OpenedFor(suite, s.disk, c, lines, run)
  {
    assert Tidy(s.disk);
    GateIsHeld(suite, s, c.split, c.model);
    OnlyItMayRun(suite, s, c, k);
    var h := Header(c.runId, c.now, None, IdentityOf(suite, c));
    OpeningTidyFile(suite, s.disk, c, h);
    hide SpendOn, Invariant, BoughtIds, ReadLines;
    if s.disk.files == [] {
      lines, run := [HeaderLine(h)], StoredRun(h, [], []);
      assert LinesOf(s.disk.files, c.runId) == None;
      assert [] + [HeaderLine(h)] == lines;
    } else {
      var f := s.disk.files[0];
      assert f in s.disk.files;
      Reopens(suite, s, c, f);
      lines, run := f.lines, RunOf(f);
    }
  }

  lemma OnlyItMayRun(suite: Suite, s: State, c: Command, k: nat)
    requires Invariant(suite, s) && OnlyIts(suite, s, c, k) && c.split == Development
    requires SpendOn(suite, s.disk, c.split, c.model).Ok?
    ensures MayRun(SpentOn(suite, s, c.split, c.model), c.runId, MaxRuns(c.split))
  {
    var runs := SpentOn(suite, s, c.split, c.model);
    SpendOnLists(suite, s.disk, c.split, c.model);
    hide SpendOn, Invariant, ReadLines;
    forall run | run in runs ensures run.runId == c.runId {
      assert IsViewOver(suite, s.disk, c.split, c.model, run);
    }
    assert BoughtIds(runs) <= {c.runId};
    Subset(BoughtIds(runs), {c.runId});
  }

  /** While it has answered fewer than all its cases, one is left. */
  lemma OneIsLeft(suite: Suite, s: State, c: Command, lines: seq<Line>, run: StoredRun, k: nat)
    requires ValidSuite(suite) && Invariant(suite, s) && OpenedFor(suite, s.disk, c, lines, run)
    requires OnlyIts(suite, s, c, k) && k < |CasesOf(suite, c.split)|
    ensures Outstanding(CasesOf(suite, c.split), Completed(run.generations)) != []
  {
    AccountBeforeIsRecognised(suite, s, c, lines, run);
    AtMostOnePerCase(run.generations, CasesOf(suite, c.split));
  }

  lemma {:induction false} OnlyTheFirst(rest: seq<Case>, events: map<string, Event>)
    requires rest != [] && AllReply(rest, events, PRICED)
    ensures UpToPrice(rest, events) == [rest[0]]
  {
    if |rest| == 1 {
      assert rest == [rest[0]];
      assert !ReachesPrice(rest[..0], events);
    } else {
      assert Priceable(EventFor(events, rest[..|rest| - 1][0].id));
      OnlyTheFirst(rest[..|rest| - 1], events);
    }
  }

  predicate SentOne(t: Tally) {
    t == Tally(1, 0, 0, 0, 0)
  }

  /** A pass over one priced answer, let through, sends that request and records its answer. */
  lemma OneAnswer(budget: EvalBudget, price: Option<Price>, c: Case, events: map<string, Event>, now: string)
    requires Refusal(budget, FRESH) == None && EventFor(events, c.id) == Put(PRICED)
    ensures var p := Generate(budget, price, [c], events, now);
            SentOne(p.tally)
  {
    assert [c][..0] == [];
    assert Generate(budget, price, [], events, now) == START;
    hide Refusal, Ask, RecordOf;
  }

  /** The dollars aside, the typed command has the room it would have with nothing typed. */
  lemma TypedDollarsAside(cases: seq<Case>, allowed: nat, runs: seq<RecognisedRun>, id: string, usd: Usd)
    ensures GenerationBudget(cases, allowed, runs, id, UNCAPPED.(usd := Some(usd))).(usd := None)
         == GenerationBudget(cases, allowed, runs, id, UNCAPPED).(usd := None)
  {
    var derived := AsBudget(NovaCeiling(cases));
    hide NovaCeiling, Stricter, ForRun, Total;
    var perRun, perGate := Remaining(derived, ForRun(runs, id)), Remaining(Times(derived, allowed), Total(runs));
    var left, right := [perRun, perGate, UNCAPPED.(usd := Some(usd))], [perRun, perGate, UNCAPPED];
    assert Column(left, Calls) == Column(right, Calls);
    assert Column(left, InputTokens) == Column(right, InputTokens);
    assert Column(left, OutputTokens) == Column(right, OutputTokens);
  }

  lemma {:induction false} RepliesNeverDie(budget: EvalBudget, price: Option<Price>, cases: seq<Case>,
      events: map<string, Event>, now: string, reply: Reply)
    requires AllReply(cases, events, reply)
    ensures Generate(budget, price, cases, events, now).ending != Dead
  {
    if cases != [] {
      RepliesNeverDie(budget, price, cases[..|cases| - 1], events, now, reply);
      hide Ask, Refusal, RecordOf;
    }
  }

  lemma SameButDollars(suite: Suite, s: State, c: Command)
    requires SpendOn(suite, s.disk, c.split, c.model).Ok? && c.typed == UNCAPPED.(usd := Some(0))
    ensures BudgetFor(suite, s, c).(usd := None) == BudgetFor(suite, s, c.(typed := UNCAPPED)).(usd := None)
  {
    hide SpendOn;
    TypedDollarsAside(CasesOf(suite, c.split), MaxRuns(c.split), SpentOn(suite, s, c.split, c.model), c.runId, 0);
  }

  /** The first call is let through: nothing but the dollars could refuse it, and those do not. */
  lemma FirstCallIsLetThrough(suite: Suite, s: State, c: Command, lines: seq<Line>, run: StoredRun)
    requires ValidSuite(suite) && Invariant(suite, s) && AllModest(suite, s) && AllCosted(suite, s)
    requires Admits(suite, s, c, lines, run) && c.typed == UNCAPPED.(usd := Some(0))
    requires PriceFor(suite, Some(c.model)) == Some(NOVA_2_LITE) && CasesOf(suite, c.split) != []
    requires Outstanding(CasesOf(suite, c.split), Completed(run.generations)) != []
    ensures Refusal(BudgetFor(suite, s, c).(usd := None), FRESH) == None
  {
    var rest := Outstanding(CasesOf(suite, c.split), Completed(run.generations));
    SameButDollars(suite, s, c);
    hide SpendOn, Invariant, GenerationBudget, AllModest, AllCosted, Outstanding, MayRun, IdentityOf, OpenedFor;
    hide KeepsRoom, Refusal;
    OpenTwin(suite, s, c, c.(typed := UNCAPPED), lines, run);
    RoomForTheRest(suite, s, c.(typed := UNCAPPED), lines, run);
    RoomForOne(BudgetFor(suite, s, c.(typed := UNCAPPED)), rest);
  }

  lemma OpenTwin(suite: Suite, s: State, c: Command, twin: Command, lines: seq<Line>, run: StoredRun)
    requires SpendOn(suite, s.disk, c.split, c.model).Ok? && Admits(suite, s, c, lines, run)
    requires twin == c.(typed := UNCAPPED)
    ensures Admits(suite, s, twin, lines, run) && PriceFor(suite, Some(twin.model)) == PriceFor(suite, Some(c.model))
    ensures CasesOf(suite, twin.split) == CasesOf(suite, c.split)
  {
    assert IdentityOf(suite, twin) == IdentityOf(suite, c);
    hide SpendOn, ReadLines;
  }

  lemma RoomForOne(budget: EvalBudget, rest: seq<Case>)
    requires KeepsRoom(budget, rest) && rest != []
    ensures Refusal(budget.(usd := None), FRESH) == None
  {
    assert InsideBounds(rest, 0, FRESH);
    assert Refusal(budget, FRESH) == None;
  }

  lemma OnlyItsAfter(suite: Suite, s: State, c: Command, lines: seq<Line>, run: StoredRun, p: Progress, k: nat)
    requires Tidy(s.disk) && c.runId != "" && OpenedFor(suite, s.disk, c, lines, run) && OnlyIts(suite, s, c, k)
    requires SentOne(p.tally) && p.ending != Dead
    ensures OnlyIts(suite, StateAfter(s, c, lines, run, p), c, k + 1)
  {
    var after := StateAfter(s, c, lines, run, p);
    TallyAfter(s, c, lines, run, p, k);
    OnlyItsFiles(suite, s, c, lines, run, p);
    hide StateAfter, ReadLines, IdentityOf;
  }

  lemma TallyAfter(s: State, c: Command, lines: seq<Line>, run: StoredRun, p: Progress, k: nat)
    requires TallyOf(s, c.runId) == Tally(k, 0, 0, 0, 0)
    requires SentOne(p.tally) && p.ending != Dead
    ensures TallyOf(StateAfter(s, c, lines, run, p), c.runId) == Tally(k + 1, 0, 0, 0, 0)
  {
    OneMoreSent(TallyOf(s, c.runId), p.tally, k);
    hide AddTally, PutFile;
  }

  lemma OnlyItsFiles(suite: Suite, s: State, c: Command, lines: seq<Line>, run: StoredRun, p: Progress)
    requires Tidy(s.disk) && c.runId != "" && OpenedFor(suite, s.disk, c, lines, run)
    requires forall f :: f in s.disk.files ==> f.name == c.runId
    ensures forall f :: f in StateAfter(s, c, lines, run, p).disk.files ==>
              f.name == c.runId && Live(f) && RunOf(f).header.identity == IdentityOf(suite, c)
  {
    FileAfterIsOver(suite, s.disk, c, lines, run, p);
    PassTouches(suite, s, c, lines, run, p);
    hide ReadLines, StateAfter, IdentityOf;
  }

  lemma OneMoreSent(t: Tally, more: Tally, k: nat)
    requires t == Tally(k, 0, 0, 0, 0) && SentOne(more)
    ensures AddTally(t, more) == Tally(k + 1, 0, 0, 0, 0)
  {
  }

  lemma OnePassOnNothing(suite: Suite, s: State, c: Command, lines: seq<Line>, run: StoredRun, p: Progress)
    requires ValidSuite(suite) && Invariant(suite, s) && AllModest(suite, s) && AllCosted(suite, s)
    requires Admits(suite, s, c, lines, run) && c.split == Development && c.typed == UNCAPPED.(usd := Some(0))
    requires c.events == Everywhere(suite.development, PRICED) && suite.development != []
    requires PriceFor(suite, Some(c.model)) == Some(NOVA_2_LITE)
    requires Outstanding(suite.development, Completed(run.generations)) != []
    requires var rest := Outstanding(suite.development, Completed(run.generations));
             && p == Generate(BudgetFor(suite, s, c), PriceFor(suite, Some(c.model)), rest, c.events, c.now)
             && SameTraces(p, Generate(BudgetFor(suite, s, c).(usd := None), PriceFor(suite, Some(c.model)),
                                       UpToPrice(rest, c.events), c.events, c.now))
    ensures SentOne(p.tally) && p.ending != Dead
  {
    var cases, done := suite.development, Completed(run.generations);
    assert CasesOf(suite, c.split) == cases;
    hide SpendOn, Invariant, AllModest, AllCosted, GenerationBudget, Generate, Outstanding, Everywhere, OpenedFor;
    hide UpToPrice, MayRun, Refusal, SentOne, AllReply, SameTraces;
    FirstCallIsLetThrough(suite, s, c, lines, run);
    OutstandingReplies(cases, done, PRICED);
    OneOfThem(BudgetFor(suite, s, c), PriceFor(suite, Some(c.model)), Outstanding(cases, done), c.events, c.now, p);
  }

  /** All the cases would be answered alike; the first is, and shuts the guard. */
  lemma OneOfThem(budget: EvalBudget, price: Option<Price>, rest: seq<Case>, events: map<string, Event>, now: string,
      p: Progress)
    requires rest != [] && AllReply(rest, events, PRICED) && Refusal(budget.(usd := None), FRESH) == None
    requires p == Generate(budget, price, rest, events, now)
    requires SameTraces(p, Generate(budget.(usd := None), price, UpToPrice(rest, events), events, now))
    ensures SentOne(p.tally) && p.ending != Dead
  {
    OnlyTheFirst(rest, events);
    assert EventFor(events, rest[0].id) == Put(PRICED);
    hide Generate, UpToPrice, Refusal, SentOne;
    OneAnswer(budget.(usd := None), price, rest[0], events, now);
    RepliesNeverDie(budget, price, rest, events, now, PRICED);
  }

  lemma OneMoreOnNothing(suite: Suite, c: Command, k: nat)
    requires ValidSuite(suite) && PriceFor(suite, Some(c.model)) == Some(NOVA_2_LITE) && c.runId != ""
    requires c == OnNothing(suite, c.runId, c.model, c.now) && k < |suite.development|
    requires OnlyIts(suite, Run(suite, Repeated(c, k)), c, k)
    ensures OnlyIts(suite, Run(suite, Repeated(c, k + 1)), c, k + 1)
  {
    var commands := Repeated(c, k);
    var s, cases := Run(suite, commands), suite.development;
    OnNothingIsGentle(suite, c.runId, c.model, c.now);
    RepeatedIsGentle(suite, c, k);
    OneMoreOfIt(c, k);
    EveryHistoryKeepsInvariant(suite, commands);
    EveryRunIsModest(suite, commands);
    EveryRunIsCosted(suite, commands);
    assert Tidy(s.disk) && CasesOf(suite, c.split) == cases;
    hide Run, Invariant, SpendOn, AllModest, AllCosted, GentleHistory, Named, Repeated, OnlyIts, Tidy, StateAfter;
    hide Everywhere, GenerationBudget, OpenedFor, OpenFile;
    var lines, run := OpensAgain(suite, s, c, k);
    OneIsLeft(suite, s, c, lines, run, k);
    var p := TypedDollarCapLeaks(suite, commands, c, lines, run);
    OnePassOnNothing(suite, s, c, lines, run, p);
    OnlyItsAfter(suite, s, c, lines, run, p, k);
  }

  lemma {:induction false} EveryOneIsSent(suite: Suite, c: Command, k: nat)
    requires ValidSuite(suite) && PriceFor(suite, Some(c.model)) == Some(NOVA_2_LITE) && c.runId != ""
    requires c == OnNothing(suite, c.runId, c.model, c.now) && k <= |suite.development|
    ensures OnlyIts(suite, Run(suite, Repeated(c, k)), c, k)
  {
    if k == 0 {
      assert Repeated(c, 0) == [];
    } else {
      EveryOneIsSent(suite, c, k - 1);
      OneMoreOnNothing(suite, c, k - 1);
    }
  }

  /** From nothing, k commands on no dollars send k requests and record every answer, up to the whole split. */
  lemma {:induction false} NothingBuysEveryCase(suite: Suite, id: string, model: string, now: string, k: nat)
    requires ValidSuite(suite) && PriceFor(suite, Some(model)) == Some(NOVA_2_LITE) && id != ""
    requires k <= |suite.development|
    ensures TallyOf(Run(suite, Repeated(OnNothing(suite, id, model, now), k)), id) == Tally(k, 0, 0, 0, 0)
  {
    EveryOneIsSent(suite, OnNothing(suite, id, model, now), k);
  }
}
