/**
 Dollars over every history: no record of a run says it cost more than its tokens, so under the gate's
 own ceilings the dollars are never gone while the first call would still be let through.
 */
module Dollars {
  import opened Common
  import opened Budget
  import opened Guard
  import opened Store
  import opened DerivedCeiling
  import opened DollarLeak
  import opened Pass
  import opened Recognition
  import opened SpendGate
  import opened Listing
  import opened History

  // ------------------------------------------------------------------ one pass

  /** What the guard holds is not above the price of the tokens it holds. */
  predicate SpendCosted(price: Price, s: Spend) {
    s.usd.Some? ==> s.tokensReported && s.usd.value <= Cost(price, s.inputTokens, s.outputTokens)
  }

  lemma AskKeepsCosted(budget: EvalBudget, price: Price, s: Spend, reply: Reply)
    requires SpendCosted(price, s)
    ensures SpendCosted(price, Ask(budget, Some(price), s, reply))
    ensures SpendCosted(price, Grant(s))
  {
    NothingCosts(price);
    CostAdds(price, s.inputTokens, s.outputTokens, InputOf(reply), OutputOf(reply));
    hide Cost, Refusal;
  }

  lemma VisitKeepsCosted(budget: EvalBudget, price: Price, p: Progress, id: string, event: Event, now: string)
    requires SpendCosted(price, p.spend)
    ensures SpendCosted(price, Visit(budget, Some(price), p, id, event, now).spend)
  {
    hide Ask, Refusal, RecordOf, SpendCosted, Grant;
    match event {
      case Put(reply) => AskKeepsCosted(budget, price, p.spend, reply);
      case LostAfterAnswer(telemetry) => AskKeepsCosted(budget, price, p.spend, Answered(telemetry));
      case Killed(_) => AskKeepsCosted(budget, price, p.spend, Interrupted);
    }
  }

  lemma {:induction false} PassKeepsCosted(budget: EvalBudget, price: Price, cases: seq<Case>,
      events: map<string, Event>, now: string)
    ensures SpendCosted(price, Generate(budget, Some(price), cases, events, now).spend)
  {
    if cases != [] {
      var n := |cases| - 1;
      PassKeepsCosted(budget, price, cases[..n], events, now);
      VisitKeepsCosted(budget, price, Generate(budget, Some(price), cases[..n], events, now), cases[n].id,
          EventFor(events, cases[n].id), now);
      hide Visit, SpendCosted;
    }
  }

  lemma CostedAdd(price: Price, a: Totals, b: Totals)
    requires Costed(price, a) && Costed(price, b)
    ensures Costed(price, AddTotals(a, b))
  {
    CostAdds(price, a.inputTokens, a.outputTokens, b.inputTokens, b.outputTokens);
    hide Cost;
  }

  lemma LineIsCosted(price: Price, p: Progress)
    requires SpendCosted(price, p.spend)
    ensures Costed(price, PassLine(p))
  {
    NothingCosts(price);
  }

  lemma AfterPassIsCosted(price: Price, a: Account, p: Progress)
    requires Costed(price, a.ledgered) && SpendCosted(price, p.spend)
    ensures Costed(price, AfterPass(a, p).ledgered)
  {
    LineIsCosted(price, p);
    CostedAdd(price, a.ledgered, PassLine(p));
    hide Costed, PassLine;
  }

  // ------------------------------------------------------------------ every file, over every history

  predicate FileCosted(suite: Suite, s: State, f: RunFile)
    requires Live(f)
  {
    PriceFor(suite, Some(ModelOf(f))).Some? ==>
        Costed(PriceFor(suite, Some(ModelOf(f))).value, AccountOf(s, f).ledgered)
  }

  ghost predicate AllCosted(suite: Suite, s: State) {
    forall f :: f in s.disk.files ==> Live(f) && FileCosted(suite, s, f)
  }

  lemma BeforeIsCosted(suite: Suite, s: State, c: Command, lines: seq<Line>, run: StoredRun, price: Price)
    requires Tidy(s.disk) && AllCosted(suite, s) && OpenedFor(suite, s.disk, c, lines, run)
    requires PriceFor(suite, Some(c.model)) == Some(price)
    ensures Costed(price, AccountBefore(s, c, run).ledgered)
  {
    if LinesOf(s.disk.files, c.runId).Some? {
      var f := ExistingFile(suite, s.disk, c, lines, run);
      assert FileCosted(suite, s, f);
      assert AccountOf(s, f) == AccountBefore(s, c, run);
    } else {
      NoFileNoLines(s.disk, c.runId, ScopeOf(c.model));
      NothingCosts(price);
    }
  }

  lemma PassIsCosted(suite: Suite, s: State, c: Command, run: StoredRun, p: Progress, price: Price)
    requires SpendOn(suite, s.disk, c.split, c.model).Ok? && PassOf(suite, s, c, run, p)
    requires PriceFor(suite, Some(c.model)) == Some(price)
    ensures SpendCosted(price, p.spend)
  {
    hide Generate, Outstanding, SpendOn, GenerationBudget;
    PassKeepsCosted(BudgetFor(suite, s, c), price, Outstanding(CasesOf(suite, c.split), Completed(run.generations)),
        c.events, c.now);
  }

  lemma OwnStaysCosted(suite: Suite, s: State, c: Command, lines: seq<Line>, run: StoredRun, p: Progress)
    requires c.runId != "" && Tidy(s.disk) && AllCosted(suite, s) && OpenedFor(suite, s.disk, c, lines, run)
    requires SpendOn(suite, s.disk, c.split, c.model).Ok? && PassOf(suite, s, c, run, p)
    ensures Live(FileAfter(c, lines, p)) && FileCosted(suite, StateAfter(s, c, lines, run, p), FileAfter(c, lines, p))
  {
    var own := FileAfter(c, lines, p);
    FileAfterIsOver(suite, s.disk, c, lines, run, p);
    OverMeansItsSplit(own, c.split, c.model);
    OwnAccountAfter(suite, s, c, lines, run, p);
    hide SpendOn, PassOf, OpenedFor, ReadLines, Costed, AfterPass, AccountBefore, StateAfter, FileAfter, Tidy,
        AllCosted;
    var price := PriceFor(suite, Some(c.model));
    if price.Some? {
      BeforeIsCosted(suite, s, c, lines, run, price.value);
      PassIsCosted(suite, s, c, run, p, price.value);
      AfterPassIsCosted(price.value, AccountBefore(s, c, run), p);
    }
  }

  lemma PassStaysCosted(suite: Suite, s: State, c: Command, lines: seq<Line>, run: StoredRun, p: Progress)
    requires c.runId != "" && Tidy(s.disk) && AllCosted(suite, s) && OpenedFor(suite, s.disk, c, lines, run)
    requires SpendOn(suite, s.disk, c.split, c.model).Ok? && PassOf(suite, s, c, run, p)
    ensures AllCosted(suite, StateAfter(s, c, lines, run, p))
  {
    var after, own := StateAfter(s, c, lines, run, p), FileAfter(c, lines, p);
    PassTouches(suite, s, c, lines, run, p);
    OwnStaysCosted(suite, s, c, lines, run, p);
    hide SpendOn, PassOf, OpenedFor, ReadLines, Costed, StateAfter, FileAfter, Tidy;
    forall f | f in after.disk.files ensures Live(f) && FileCosted(suite, after, f) {
      if f != own {
        OthersStayCosted(suite, s, c, lines, run, p, f);
      }
    }
  }

  lemma OthersStayCosted(suite: Suite, s: State, c: Command, lines: seq<Line>, run: StoredRun, p: Progress, f: RunFile)
    requires Touches(s.disk, StateAfter(s, c, lines, run, p).disk, FileAfter(c, lines, p))
    requires Live(f) && f.name != c.runId && FileCosted(suite, s, f)
    ensures FileCosted(suite, StateAfter(s, c, lines, run, p), f)
  {
    OtherAccountsStay(s, c, lines, run, p, FileAfter(c, lines, p), f);
  }

  lemma CostedIgnoresTallies(suite: Suite, a: State, b: State)
    requires AllCosted(suite, a) && a.disk == b.disk
    ensures AllCosted(suite, b)
  {
    forall f | f in b.disk.files ensures Live(f) && FileCosted(suite, b, f) {
      assert FileCosted(suite, a, f);
    }
  }

  lemma StepStaysCosted(suite: Suite, s: State, c: Command)
    requires ValidSuite(suite) && c.runId != "" && Invariant(suite, s) && AllCosted(suite, s)
    ensures AllCosted(suite, Step(suite, s, c))
  {
    var shape, lines, run, p := ShapeOfStep(suite, s, c);
    hide AllCosted, StateAfter, PassOf;
    if !shape.Stayed? {
      PassStaysCosted(suite, s, c, lines, run, p);
      CostedIgnoresTallies(suite, StateAfter(s, c, lines, run, p), Step(suite, s, c));
    }
  }

  /** After any history no run's ledger lines say it cost more than its tokens do. */
  lemma {:induction false} EveryRunIsCosted(suite: Suite, commands: seq<Command>)
    requires ValidSuite(suite) && Named(commands)
    ensures AllCosted(suite, Run(suite, commands))
  {
    if commands != [] {
      var n := |commands| - 1;
      assert Named(commands[..n]);
      EveryRunIsCosted(suite, commands[..n]);
      EveryHistoryKeepsInvariant(suite, commands[..n]);
      hide AllCosted, Step, Invariant;
      StepStaysCosted(suite, Run(suite, commands[..n]), commands[n]);
    }
  }

  // ------------------------------------------------------------------ what the gate reads

  lemma RecognisedIsCosted(suite: Suite, s: State, f: RunFile, price: Price)
    requires Live(f) && FileCosted(suite, s, f) && PriceFor(suite, Some(ModelOf(f))) == Some(price)
    ensures Costed(price, Recognised(View(suite, s.disk.ledger, f)))
  {
    var l, gs := LedgeredTotals(s.disk.ledger, f), RunOf(f).generations;
    var input, output := Max(l.inputTokens, InputTotal(gs)), Max(l.outputTokens, OutputTotal(gs));
    assert Costed(price, l);
    hide ReadLines, TerminalCount, InputTotal, OutputTotal, Cost;
    CostGrows(price, l.inputTokens, l.outputTokens, input, output);
    CostGrows(price, InputTotal(gs), OutputTotal(gs), input, output);
  }

  lemma {:induction false} TotalIsCosted(runs: seq<RecognisedRun>, price: Price)
    requires forall run :: run in runs ==> Costed(price, Recognised(run))
    ensures Costed(price, Total(runs))
  {
    if runs == [] {
      NothingCosts(price);
    } else {
      var n := |runs| - 1;
      assert runs[n] in runs && forall run :: run in runs[..n] ==> run in runs;
      TotalIsCosted(runs[..n], price);
      hide Costed, Recognised;
      CostedAdd(price, Total(runs[..n]), Recognised(runs[n]));
    }
  }

  lemma {:induction false} ForRunIsCosted(runs: seq<RecognisedRun>, id: string, price: Price)
    requires forall run :: run in runs ==> Costed(price, Recognised(run))
    ensures Costed(price, ForRun(runs, id))
  {
    if runs == [] {
      NothingCosts(price);
    } else {
      assert runs[0] in runs && forall run :: run in runs[1..] ==> run in runs;
      ForRunIsCosted(runs[1..], id, price);
    }
  }

  lemma ReadingIsCosted(suite: Suite, s: State, split: Split, model: string, price: Price)
    requires Tidy(s.disk) && AllCosted(suite, s) && PriceFor(suite, Some(model)) == Some(price)
    ensures SpendOn(suite, s.disk, split, model).Ok?
    ensures forall run :: run in SpendOn(suite, s.disk, split, model).value ==> Costed(price, Recognised(run))
  {
    SpendOnLists(suite, s.disk, split, model);
    var runs := SpendOn(suite, s.disk, split, model).value;
    hide SpendOn, Tidy, Recognised, View, Costed, FileCosted;
    forall run | run in runs ensures Costed(price, Recognised(run)) {
      assert IsViewOver(suite, s.disk, split, model, run);
      var f :| f in s.disk.files && Over(f, split, model) && run == View(suite, s.disk.ledger, f);
      OverMeansItsSplit(f, split, model);
      RecognisedIsCosted(suite, s, f, price);
    }
  }

  // ------------------------------------------------------------------ the first call

  lemma {:induction false} StricterIsOneOfThem(values: seq<Option<int>>)
    ensures Stricter(values).Some? ==> Stricter(values) in values
  {
    if values != [] {
      StricterIsOneOfThem(values[1..]);
      assert values == [values[0]] + values[1..];
    }
  }

  lemma NarrowerRefusesToo(budget: EvalBudget, wider: EvalBudget)
    requires Narrower(budget, wider) && Refusal(wider, FRESH).Some?
    ensures Refusal(budget, FRESH).Some?
  {
    assert Within(Bound(budget, Calls), Bound(wider, Calls))
        && Within(Bound(budget, InputTokens), Bound(wider, InputTokens));
    assert Within(Bound(budget, OutputTokens), Bound(wider, OutputTokens));
  }

  lemma ThreeTogether(a: EvalBudget, b: EvalBudget, c: EvalBudget)
    ensures Narrower(Tightest([a, b, c]), a) && Narrower(Tightest([a, b, c]), b)
    ensures Tightest([a, b, c]).usd.Some? ==> Tightest([a, b, c]).usd in [a.usd, b.usd, c.usd]
  {
    var budgets := [a, b, c];
    NarrowerIsReflexive(Tightest(budgets));
    TightestIsGreatestLowerBound(budgets, Tightest(budgets));
    assert a in budgets && b in budgets;
    StricterIsOneOfThem(Column(budgets, Dollars));
    assert Column(budgets, Dollars) == [a.usd, b.usd, c.usd];
  }

  lemma TimesCovers(price: Price, ceiling: EvalBudget, times: nat)
    requires CoversItsTokens(price, ceiling)
    ensures CoversItsTokens(price, Times(ceiling, times))
  {
    CostScales(price, ceiling.inputTokens.value, ceiling.outputTokens.value, times);
    Scale(times, Cost(price, ceiling.inputTokens.value, ceiling.outputTokens.value), ceiling.usd.value);
  }

  lemma CostScales(price: Price, input: nat, output: nat, times: nat)
    ensures Cost(price, input * times, output * times) == Cost(price, input, output) * times
  {
    calc {
      Cost(price, input * times, output * times);
      price.input * (input * times) + price.output * (output * times);
      (price.input * input) * times + (price.output * output) * times;
      Cost(price, input, output) * times;
    }
  }

  lemma SpentBoundIsZero(ceiling: EvalBudget, spent: Totals)
    requires ceiling.usd.Some? && Remaining(ceiling, spent).usd == Some(0)
    ensures ceiling.usd.value <= spent.usd
  {
  }

  lemma SomethingCapped(ceiling: EvalBudget, times: nat)
    requires CoversItsTokens(NOVA_2_LITE, ceiling) && CoversItsTokens(NOVA_2_LITE, Times(ceiling, times))
    ensures ceiling.usd.Some? && Times(ceiling, times).usd.Some?
  {
    hide Cost;
  }

  lemma DollarsGoneRefuses(cases: seq<Case>, allowed: nat, runs: seq<RecognisedRun>, id: string, typed: EvalBudget)
    requires Costed(NOVA_2_LITE, ForRun(runs, id)) && Costed(NOVA_2_LITE, Total(runs)) && typed.usd == None
    requires GenerationBudget(cases, allowed, runs, id, typed).usd == Some(0)
    ensures Refusal(GenerationBudget(cases, allowed, runs, id, typed), FRESH).Some?
  {
    hide NovaCeiling, ForRun, Total, Costed, Cost, Refusal, Tightest, Times, AsBudget, CoversItsTokens, Narrower;
    var derived := AsBudget(NovaCeiling(cases));
    var perRun, perGate := Remaining(derived, ForRun(runs, id)), Remaining(Times(derived, allowed), Total(runs));
    DerivedCoversItsTokens(cases);
    TimesCovers(NOVA_2_LITE, derived, allowed);
    ThreeTogether(perRun, perGate, typed);
    SomethingCapped(derived, allowed);
    if perRun.usd == Some(0) {
      SpentBoundIsZero(derived, ForRun(runs, id));
      TokensGoFirst(NOVA_2_LITE, derived, ForRun(runs, id));
      NarrowerRefusesToo(Tightest([perRun, perGate, typed]), perRun);
    } else {
      SpentBoundIsZero(Times(derived, allowed), Total(runs));
      TokensGoFirst(NOVA_2_LITE, Times(derived, allowed), Total(runs));
      NarrowerRefusesToo(Tightest([perRun, perGate, typed]), perGate);
    }
  }

  /**
   After any history on the model the ceilings are priced for, a command with no typed dollar cap whose
   allowance is gone in any one field -- calls, tokens of either kind or dollars -- is refused its first
   call. What the dollar check skips is never reached through the gate's own ceilings.
   */
  lemma EmptyAllowanceIsRefused(suite: Suite, commands: seq<Command>, c: Command, field: Field)
    requires ValidSuite(suite) && Named(commands) && c.typed.usd == None
    requires PriceFor(suite, Some(c.model)) == Some(NOVA_2_LITE)
    requires SpendOn(suite, Run(suite, commands).disk, c.split, c.model).Ok?
    requires Bound(BudgetFor(suite, Run(suite, commands), c), field) == Some(0)
    ensures Refusal(BudgetFor(suite, Run(suite, commands), c), FRESH).Some?
  {
    if field.Dollars? {
      var s := Run(suite, commands);
      EveryRunIsCosted(suite, commands);
      EveryHistoryKeepsInvariant(suite, commands);
      ReadingIsCosted(suite, s, c.split, c.model, NOVA_2_LITE);
      hide Run, SpendOn, Invariant, AllCosted, Costed, GenerationBudget;
      var runs := SpendOn(suite, s.disk, c.split, c.model).value;
      TotalIsCosted(runs, NOVA_2_LITE);
      ForRunIsCosted(runs, c.runId, NOVA_2_LITE);
      DollarsGoneRefuses(CasesOf(suite, c.split), MaxRuns(c.split), runs, c.runId, c.typed);
    }
  }
}
