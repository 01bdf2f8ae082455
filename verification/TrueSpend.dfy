/**
 What a run really spent, in each figure the gate reads, followed beside its two records: what each command's
 events did, whether or not anything was written down.
 */
module TrueSpend {
  import opened Common
  import opened Budget
  import opened Guard
  import opened Store
  import opened DerivedCeiling
  import opened Pass
  import opened Recognition
  import opened SpendGate
  import opened Listing
  import opened History
  import opened Permanence

  /** The figures of a spend: requests, attempts, tokens each way, and 1e-8 dollars at a price. */
  datatype Kind = Requests | Attempts | TokensIn | TokensOut | Dollars(price: Price)

  /** Nothing was sent for this reply, whatever the records will say of it. */
  predicate NothingSent(reply: Reply) {
    reply.NotPrepared? || LegacyUnprepared(reply)
  }

  /** What one request that was put to the provider really came to. */
  function True(kind: Kind, reply: Reply): nat {
    if NothingSent(reply) then 0
    else
      match kind
      case Requests => 1
      case Attempts => if reply.Answered? then AtLeastOne(reply.telemetry.attempts) else 1
      case TokensIn => InputOf(reply)
      case TokensOut => OutputOf(reply)
      case Dollars(price) => Cost(price, InputOf(reply), OutputOf(reply))
  }

  /** What of it a guard does not charge: an attempt nobody reported, or dollars half reported. */
  function Uncharged(kind: Kind, reply: Reply): nat {
    match kind
    case Attempts => if reply.Answered? && reply.telemetry.attempts == 0 then 1 else 0
    case Dollars(price) => if HalfReported(reply) then Cost(price, InputOf(reply), OutputOf(reply)) else 0
    case _ => 0
  }

  /** A request or an attempt that was never made is taken off the ledger's figure when it has an unsent record. */
  predicate Discounted(kind: Kind) {
    kind.Requests? || kind.Attempts?
  }

  function Charged(kind: Kind, s: Spend): int {
    match kind
    case Requests => s.calls
    case Attempts => s.attempts
    case TokensIn => s.inputTokens
    case TokensOut => s.outputTokens
    case Dollars(_) => if s.usd.Some? then s.usd.value else 0
  }

  function Recorded(kind: Kind, gs: seq<Generation>): nat {
    match kind
    case Requests => TerminalCount(gs)
    case Attempts => AttemptTotal(gs)
    case TokensIn => InputTotal(gs)
    case TokensOut => OutputTotal(gs)
    case Dollars(price) => Cost(price, InputTotal(gs), OutputTotal(gs))
  }

  function FigureOf(kind: Kind, t: Totals): int {
    match kind
    case Requests => t.calls
    case Attempts => t.attempts
    case TokensIn => t.inputTokens
    case TokensOut => t.outputTokens
    case Dollars(_) => t.usd
  }

  function UnsentRecords(gs: seq<Generation>): nat {
    |gs| - TerminalCount(gs)
  }

  /** What the unsent records take off the ledger's figure. */
  function Discount(kind: Kind, gs: seq<Generation>): nat {
    if Discounted(kind) then UnsentRecords(gs) else 0
  }

  // ------------------------------------------------------------------ what one pass spent

  /**
   What a pass spent, what of it never reached a record, what of it its ledger line misses once unsent records
   are taken off, and how many such records there are to take off.
   */
  datatype Usage = Usage(used: nat, unrecorded: nat, missed: nat, unsent: nat)

  const NOTHING_USED := Usage(0, 0, 0, 0)

  function AddUsage(a: Usage, b: Usage): Usage {
    Usage(a.used + b.used, a.unrecorded + b.unrecorded, a.missed + b.missed, a.unsent + b.unsent)
  }

  /** What comes of a reply that is written down. */
  function OfReply(kind: Kind, reply: Reply): Usage {
    if reply.NotPrepared? then Usage(0, 0, if Discounted(kind) then 1 else 0, if Discounted(kind) then 1 else 0)
    else if LegacyUnprepared(reply) then Usage(0, 0, 0, if Discounted(kind) then 1 else 0)
    else Usage(True(kind, reply), if reply.Interrupted? then True(kind, reply) else 0, Uncharged(kind, reply), 0)
  }

  /** What comes of one that is not. */
  function OfLost(kind: Kind, reply: Reply): Usage {
    Usage(True(kind, reply), True(kind, reply), Uncharged(kind, reply), 0)
  }

  /** What the event at one case comes to, if the guard lets it happen. */
  function Met(kind: Kind, budget: EvalBudget, s: Spend, event: Event): Usage {
    if event == Killed(false) || Refusal(budget, s).Some? then NOTHING_USED
    else
      match event
      case Put(reply) => OfReply(kind, reply)
      case LostAfterAnswer(telemetry) => OfLost(kind, Answered(telemetry))
      case Killed(_) => OfLost(kind, Interrupted)
  }

  function PassUsage(kind: Kind, budget: EvalBudget, price: Option<Price>, cases: seq<Case>,
      events: map<string, Event>, now: string): Usage {
    if cases == [] then NOTHING_USED
    else
      var before := PassUsage(kind, budget, price, cases[..|cases| - 1], events, now);
      var p := Generate(budget, price, cases[..|cases| - 1], events, now);
      if p.ending != Running then before
      else AddUsage(before, Met(kind, budget, p.spend, EventFor(events, cases[|cases| - 1].id)))
  }

  /** The guard charged what was used but for what it misses, and the records hold it but for what was lost. */
  predicate Tells(kind: Kind, p: Progress, u: Usage) {
    && (p.ending != Dead ==> Charged(kind, p.spend) - u.unsent == u.used - u.missed)
    && Recorded(kind, p.written) == u.used - u.unrecorded
    && Discount(kind, p.written) == u.unsent
  }

  /** A guard that charged no call charged nothing else, and one that reported no tokens counted none. */
  predicate Consistent(s: Spend) {
    && s.calls >= 0
    && (s.calls == 0 ==> s.attempts == 0 && s.inputTokens == 0 && s.outputTokens == 0 && s.usd == None)
    && (!s.tokensReported ==> s.inputTokens == 0 && s.outputTokens == 0)
  }

  /** The kind is in the pass's own prices. */
  predicate AtPrice(kind: Kind, price: Option<Price>) {
    kind.Dollars? ==> price == Some(kind.price)
  }

  lemma AskCharges(kind: Kind, budget: EvalBudget, price: Option<Price>, s: Spend, reply: Reply)
    requires Refusal(budget, s) == None && AtPrice(kind, price)
    ensures var u, after := OfReply(kind, reply), Ask(budget, price, s, reply);
            Charged(kind, after) - u.unsent == Charged(kind, s) + u.used - u.missed
  {
    if kind.Dollars? {
      NothingCosts(kind.price);
    }
    hide Refusal, Cost;
  }

  lemma AskStaysConsistent(budget: EvalBudget, price: Option<Price>, s: Spend, reply: Reply)
    requires Consistent(s)
    ensures Consistent(Ask(budget, price, s, reply)) && Consistent(Grant(s))
  {
    hide Refusal, EstimateUsd;
  }

  lemma AnswerIsLost(kind: Kind, telemetry: Telemetry)
    ensures var lost, kept := OfLost(kind, Answered(telemetry)), OfReply(kind, Answered(telemetry));
            lost.used == kept.used && lost.missed == kept.missed && lost.unsent == kept.unsent == 0
            && lost.unrecorded == lost.used
  {
  }

  lemma RecordedAdds(kind: Kind, gs: seq<Generation>, written: seq<Generation>)
    ensures Recorded(kind, gs + written) == Recorded(kind, gs) + Recorded(kind, written)
    ensures Discount(kind, gs + written) == Discount(kind, gs) + Discount(kind, written)
  {
    TotalsAdd(gs, written);
    AttemptsAdd(gs, written);
    hide TerminalCount, AttemptTotal, InputTotal, OutputTotal, Cost;
    if kind.Dollars? {
      CostAdds(kind.price, InputTotal(gs), OutputTotal(gs), InputTotal(written), OutputTotal(written));
    }
  }

  lemma {:induction false} AttemptsAdd(a: seq<Generation>, b: seq<Generation>)
    ensures AttemptTotal(a + b) == AttemptTotal(a) + AttemptTotal(b)
  {
    if b == [] {
      assert a + b == a;
    } else {
      var n := |b| - 1;
      AttemptsAdd(a, b[..n]);
      assert (a + b)[..|a + b| - 1] == a + b[..n];
    }
  }

  /** One record holds what came of its reply. */
  lemma RecordHolds(kind: Kind, id: string, reply: Reply, now: string)
    requires !reply.Interrupted?
    ensures var u, one := OfReply(kind, reply), [RecordOf(id, reply, now)];
            Recorded(kind, one) == u.used - u.unrecorded && Discount(kind, one) == u.unsent
  {
    var record := RecordOf(id, reply, now);
    RecordKinds(id, reply, now);
    OneRecord(record);
    hide Terminal, TerminalCount, AttemptTotal, InputTotal, OutputTotal;
  }

  lemma OneRecord(record: Generation)
    ensures TerminalCount([record]) == if Terminal(record) then 1 else 0
    ensures AttemptTotal([record]) == if Terminal(record) then record.attempts else 0
    ensures InputTotal([record]) == if Terminal(record) then OrZero(record.inputTokens) else 0
    ensures OutputTotal([record]) == if Terminal(record) then OrZero(record.outputTokens) else 0
  {
    hide Terminal;
    assert [record][..0] == [];
  }

  lemma ReplyTells(kind: Kind, budget: EvalBudget, price: Option<Price>, p: Progress, u: Usage, id: string,
      reply: Reply, now: string)
    requires Tells(kind, p, u) && p.ending == Running && Refusal(budget, p.spend) == None && AtPrice(kind, price)
    ensures Tells(kind, OnReply(budget, price, p, id, reply, now), AddUsage(u, OfReply(kind, reply)))
  {
    AskCharges(kind, budget, price, p.spend, reply);
    hide Refusal, Ask, Charged, Recorded, Discount, RecordOf, LegacyUnprepared;
    if reply.Interrupted? {
      InterruptedIsUnrecorded(kind);
    } else {
      RecordHolds(kind, id, reply, now);
      RecordedAdds(kind, p.written, [RecordOf(id, reply, now)]);
      hide OfReply;
    }
  }

  lemma InterruptedIsUnrecorded(kind: Kind)
    ensures OfReply(kind, Interrupted).used == OfReply(kind, Interrupted).unrecorded
    ensures OfReply(kind, Interrupted).unsent == 0
  {
  }

  lemma VisitTells(kind: Kind, budget: EvalBudget, price: Option<Price>, p: Progress, u: Usage, id: string,
      event: Event, now: string)
    requires Tells(kind, p, u) && p.ending == Running && AtPrice(kind, price)
    ensures Tells(kind, Visit(budget, price, p, id, event, now), AddUsage(u, Met(kind, budget, p.spend, event)))
  {
    hide Ask, Refusal, OnReply, Recorded, Discount, Charged, OfReply, OfLost;
    if Refusal(budget, p.spend) == None {
      match event {
        case Put(reply) => ReplyTells(kind, budget, price, p, u, id, reply, now);
        case LostAfterAnswer(telemetry) =>
          AskCharges(kind, budget, price, p.spend, Answered(telemetry));
          AnswerIsLost(kind, telemetry);
        case Killed(_) => LostIsUnrecorded(kind);
      }
    }
  }

  lemma LostIsUnrecorded(kind: Kind)
    ensures OfLost(kind, Interrupted).used == OfLost(kind, Interrupted).unrecorded
    ensures OfLost(kind, Interrupted).unsent == 0
  {
  }

  lemma NoPassTells(kind: Kind)
    ensures Tells(kind, START, NOTHING_USED) && Consistent(START.spend)
  {
    hide Cost, TerminalCount, AttemptTotal, InputTotal, OutputTotal, Terminal;
    NothingWritten(kind);
  }

  lemma NothingWritten(kind: Kind)
    ensures Recorded(kind, []) == 0 && Discount(kind, []) == 0
  {
    if kind.Dollars? {
      NothingCosts(kind.price);
    }
    hide Cost;
  }

  /** The independent account of the events is what the guard and the records were told. */
  lemma {:induction false} PassFollowsUse(kind: Kind, budget: EvalBudget, price: Option<Price>, cases: seq<Case>,
      events: map<string, Event>, now: string)
    requires AtPrice(kind, price)
    ensures Tells(kind, Generate(budget, price, cases, events, now),
                  PassUsage(kind, budget, price, cases, events, now))
    ensures Consistent(Generate(budget, price, cases, events, now).spend)
  {
    hide Tells, Visit, Met, Consistent, AtPrice;
    if cases == [] {
      NoPassTells(kind);
    } else {
      var n := |cases| - 1;
      PassFollowsUse(kind, budget, price, cases[..n], events, now);
      var p := Generate(budget, price, cases[..n], events, now);
      if p.ending == Running {
        VisitTells(kind, budget, price, p, PassUsage(kind, budget, price, cases[..n], events, now), cases[n].id,
            EventFor(events, cases[n].id), now);
        VisitStaysConsistent(budget, price, p, cases[n].id, EventFor(events, cases[n].id), now);
      }
    }
  }

  lemma VisitStaysConsistent(budget: EvalBudget, price: Option<Price>, p: Progress, id: string, event: Event,
      now: string)
    requires Consistent(p.spend)
    ensures Consistent(Visit(budget, price, p, id, event, now).spend)
  {
    hide Ask, Refusal, Consistent, RecordOf, LegacyUnprepared, Grant;
    match event {
      case Put(reply) => AskStaysConsistent(budget, price, p.spend, reply);
      case LostAfterAnswer(telemetry) => AskStaysConsistent(budget, price, p.spend, Answered(telemetry));
      case Killed(_) => AskStaysConsistent(budget, price, p.spend, Interrupted);
    }
  }

  // ------------------------------------------------------------------ what one run spent

  /** All a run spent, what of it never reached a record, and what of it the ledger misses. */
  datatype Truth = Truth(used: nat, unrecorded: nat, missed: nat)

  const NOTHING_SPENT := Truth(0, 0, 0)

  function AddTruth(a: Truth, b: Truth): Truth {
    Truth(a.used + b.used, a.unrecorded + b.unrecorded, a.missed + b.missed)
  }

  /** A process that died left no ledger line: it misses all it was used for, and what its records take off. */
  function TruthOfPass(u: Usage, p: Progress): Truth {
    Truth(u.used, u.unrecorded, if p.ending == Dead then u.used + u.unsent else u.missed)
  }

  /** Each record of the run is short of the truth by exactly what never reached it. */
  predicate Told(kind: Kind, ledgered: Totals, gs: seq<Generation>, t: Truth) {
    && FigureOf(kind, ledgered) - Discount(kind, gs) == t.used - t.missed
    && Recorded(kind, gs) == t.used - t.unrecorded
  }

  lemma LineTells(kind: Kind, p: Progress)
    requires Consistent(p.spend)
    ensures FigureOf(kind, PassLine(p)) == Charged(kind, p.spend)
    ensures p.spend.calls == 0 ==> Charged(kind, p.spend) == 0
  {
  }

  lemma PassStaysTold(kind: Kind, a: Account, p: Progress, u: Usage, t: Truth)
    requires Told(kind, a.ledgered, a.generations, t) && Tells(kind, p, u) && Consistent(p.spend)
    ensures var after := AfterPass(a, p);
            Told(kind, after.ledgered, after.generations, AddTruth(t, TruthOfPass(u, p)))
  {
    RecordedAdds(kind, a.generations, p.written);
    LineTells(kind, p);
    FigureAdds(kind, a.ledgered, PassLine(p));
    hide Recorded, Discount, FigureOf, PassLine, AddTotals, Charged;
  }

  lemma FigureAdds(kind: Kind, a: Totals, b: Totals)
    ensures FigureOf(kind, AddTotals(a, b)) == FigureOf(kind, a) + FigureOf(kind, b)
  {
  }

  /** What the gate recognises of a run is what it spent, less what neither record shows. */
  lemma RecognisedIsTrue(kind: Kind, suite: Suite, s: State, f: RunFile, t: Truth)
    requires Live(f) && Told(kind, AccountOf(s, f).ledgered, AccountOf(s, f).generations, t)
    requires AtPrice(kind, PriceFor(suite, Some(ModelOf(f))))
    ensures FigureOf(kind, Recognised(View(suite, s.disk.ledger, f))) == t.used - Min(t.unrecorded, t.missed)
  {
    hide ReadLines, TerminalCount, InputTotal, OutputTotal, AttemptTotal, Cost;
  }

  // ------------------------------------------------------------------ over every history

  function BudgetOn(suite: Suite, disk: Disk, c: Command): EvalBudget {
    match SpendOn(suite, disk, c.split, c.model)
    case Err(_) => UNCAPPED
    case Ok(runs) => GenerationBudget(CasesOf(suite, c.split), MaxRuns(c.split), runs, c.runId, c.typed)
  }

  function RestOn(suite: Suite, disk: Disk, c: Command): seq<Case> {
    match OpenFile(LinesOf(disk.files, c.runId), Header(c.runId, c.now, None, IdentityOf(suite, c)))
    case Err(_) => []
    case Ok((_, run)) => Outstanding(CasesOf(suite, c.split), Completed(run.generations))
  }

  /** What one command used, if it came to a pass. */
  function CommandTruth(kind: Kind, suite: Suite, disk: Disk, c: Command): Truth {
    var outcome := RunCommand(suite, disk, c).outcome;
    if !outcome.Ran? then NOTHING_SPENT
    else
      TruthOfPass(PassUsage(kind, BudgetOn(suite, disk, c), PriceFor(suite, Some(c.model)), RestOn(suite, disk, c),
                            c.events, c.now), outcome.progress)
  }

  /** What the run of this name used over all these commands. */
  function TruthOf(kind: Kind, suite: Suite, commands: seq<Command>, id: string): Truth {
    if commands == [] then NOTHING_SPENT
    else
      var n := |commands| - 1;
      var before := TruthOf(kind, suite, commands[..n], id);
      if commands[n].runId != id then before
      else AddTruth(before, CommandTruth(kind, suite, Run(suite, commands[..n]).disk, commands[n]))
  }

  /** A command that came to a pass made this one. */
  lemma RanIsThisPass(suite: Suite, disk: Disk, c: Command)
    requires Tidy(disk) && RunCommand(suite, disk, c).outcome.Ran?
    ensures RunCommand(suite, disk, c).outcome.progress
         == Ended(Generate(BudgetOn(suite, disk, c), PriceFor(suite, Some(c.model)), RestOn(suite, disk, c),
                           c.events, c.now), c.died)
  {
    EffectiveIsTyped(disk, c);
    hide SpendOn, OpenFile, Generate, Outstanding, PutFile, LinesOf, GenerationBudget, EffectiveRunId, BoughtIds;
  }

  lemma RanFollows(kind: Kind, suite: Suite, disk: Disk, c: Command)
    requires Tidy(disk) && RunCommand(suite, disk, c).outcome.Ran? && AtPrice(kind, PriceFor(suite, Some(c.model)))
    ensures Tells(kind, RunCommand(suite, disk, c).outcome.progress,
                  PassUsage(kind, BudgetOn(suite, disk, c), PriceFor(suite, Some(c.model)), RestOn(suite, disk, c),
                            c.events, c.now))
    ensures Consistent(RunCommand(suite, disk, c).outcome.progress.spend)
  {
    hide RunCommand, PassUsage, Generate, BudgetOn, RestOn, Tells, Ended, Tidy, Consistent, AtPrice;
    RanIsThisPass(suite, disk, c);
    var budget, price, rest := BudgetOn(suite, disk, c), PriceFor(suite, Some(c.model)), RestOn(suite, disk, c);
    PassFollowsUse(kind, budget, price, rest, c.events, c.now);
    EndingTellsNothing(kind, Generate(budget, price, rest, c.events, c.now),
                       PassUsage(kind, budget, price, rest, c.events, c.now), c.died);
  }

  lemma EndingTellsNothing(kind: Kind, p: Progress, u: Usage, died: bool)
    requires Tells(kind, p, u)
    ensures Tells(kind, Ended(p, died), u) && Ended(p, died).spend == p.spend
  {
  }

  /** The run's records tell the truth, but for what never reached them; dollars, at its own model's price. */
  ghost predicate FileTells(kind: Kind, disk: Disk, suite: Suite, commands: seq<Command>, f: RunFile)
    requires Live(f)
  {
    AtPrice(kind, PriceFor(suite, Some(ModelOf(f)))) ==>
      Told(kind, LedgeredTotals(disk.ledger, f), RunOf(f).generations, TruthOf(kind, suite, commands, f.name))
  }

  ghost predicate FilesTell(kind: Kind, disk: Disk, suite: Suite, commands: seq<Command>) {
    forall f :: f in disk.files ==> Live(f) && FileTells(kind, disk, suite, commands, f)
  }

  /** A name with no file has used nothing. */
  ghost predicate NamesTell(kind: Kind, disk: Disk, suite: Suite, commands: seq<Command>) {
    forall id :: LinesOf(disk.files, id) == None ==> TruthOf(kind, suite, commands, id) == NOTHING_SPENT
  }

  ghost predicate AllTold(kind: Kind, suite: Suite, commands: seq<Command>) {
    var disk := Run(suite, commands).disk;
    FilesTell(kind, disk, suite, commands) && NamesTell(kind, disk, suite, commands)
  }

  lemma TruthNext(kind: Kind, suite: Suite, commands: seq<Command>, c: Command, id: string)
    ensures TruthOf(kind, suite, commands + [c], id) ==
            var before := TruthOf(kind, suite, commands, id);
            if c.runId != id then before
            else AddTruth(before, CommandTruth(kind, suite, Run(suite, commands).disk, c))
    ensures Run(suite, commands + [c]) == Step(suite, Run(suite, commands), c)
  {
    assert (commands + [c])[..|commands|] == commands;
    hide CommandTruth, Step;
  }

  lemma NothingMore(t: Truth)
    ensures AddTruth(t, NOTHING_SPENT) == t
  {
  }

  lemma BeforeIsTold(kind: Kind, suite: Suite, commands: seq<Command>, c: Command, lines: seq<Line>, run: StoredRun)
    requires AllTold(kind, suite, commands) && Tidy(Run(suite, commands).disk)
    requires OpenedFor(suite, Run(suite, commands).disk, c, lines, run) && AtPrice(kind, PriceFor(suite, Some(c.model)))
    ensures var a := AccountBefore(Run(suite, commands), c, run);
            Told(kind, a.ledgered, a.generations, TruthOf(kind, suite, commands, c.runId))
  {
    var disk := Run(suite, commands).disk;
    hide Run, TruthOf, ReadLines, Told, AtPrice;
    if LinesOf(disk.files, c.runId).Some? {
      var f := ExistingFile(suite, disk, c, lines, run);
      assert f in disk.files && FileTells(kind, disk, suite, commands, f);
    } else {
      NoFileNoLines(disk, c.runId, ScopeOf(c.model));
      NothingIsToldTruly(kind);
    }
  }

  lemma NothingIsToldTruly(kind: Kind)
    ensures Told(kind, NOTHING, [], NOTHING_SPENT)
  {
    hide Recorded, Discount;
    NothingWritten(kind);
  }

  /** The pass the command made, or the one it did not, tells what it spent. */
  ghost predicate Accounts(kind: Kind, suite: Suite, disk: Disk, c: Command, p: Progress, u: Usage) {
    AtPrice(kind, PriceFor(suite, Some(c.model))) ==>
      Tells(kind, p, u) && Consistent(p.spend) && CommandTruth(kind, suite, disk, c) == TruthOfPass(u, p)
  }

  lemma PassTells(kind: Kind, suite: Suite, s: State, c: Command, lines: seq<Line>, run: StoredRun, p: Progress)
      returns (u: Usage)
    requires Tidy(s.disk) && SpendOn(suite, s.disk, c.split, c.model).Ok?
    requires !RunCommand(suite, s.disk, c).outcome.Declined?
    requires IsPass(suite, s, c, RunCommand(suite, s.disk, c), lines, run, p)
    ensures Accounts(kind, suite, s.disk, c, p, u)
  {
    hide SpendOn, RunCommand, Tells, PassUsage, BudgetOn, RestOn, Consistent, AtPrice;
    if RunCommand(suite, s.disk, c).outcome.Ran? {
      u := PassUsage(kind, BudgetOn(suite, s.disk, c), PriceFor(suite, Some(c.model)), RestOn(suite, s.disk, c),
                     c.events, c.now);
      if AtPrice(kind, PriceFor(suite, Some(c.model))) {
        RanFollows(kind, suite, s.disk, c);
      }
    } else {
      u := NOTHING_USED;
      NoPassTells(kind);
    }
  }

  lemma OwnIsTold(kind: Kind, suite: Suite, commands: seq<Command>, c: Command, lines: seq<Line>, run: StoredRun,
      p: Progress, u: Usage)
    requires AllTold(kind, suite, commands) && Tidy(Run(suite, commands).disk) && c.runId != ""
    requires OpenedFor(suite, Run(suite, commands).disk, c, lines, run)
    requires AtPrice(kind, PriceFor(suite, Some(c.model))) && Tells(kind, p, u) && Consistent(p.spend)
    ensures var own, after := FileAfter(c, lines, p), StateAfter(Run(suite, commands), c, lines, run, p);
            && Live(own)
            && Told(kind, LedgeredTotals(after.disk.ledger, own), RunOf(own).generations,
                    AddTruth(TruthOf(kind, suite, commands, c.runId), TruthOfPass(u, p)))
  {
    var s := Run(suite, commands);
    BeforeIsTold(kind, suite, commands, c, lines, run);
    OwnAccountAfter(suite, s, c, lines, run, p);
    hide Run, TruthOf, AllTold, Told, Tells, ReadLines, AfterPass, StateAfter, AccountBefore, TruthOfPass, AddTruth;
    PassStaysTold(kind, AccountBefore(s, c, run), p, u, TruthOf(kind, suite, commands, c.runId));
  }

  lemma OwnFileTells(kind: Kind, suite: Suite, commands: seq<Command>, c: Command, lines: seq<Line>, run: StoredRun,
      p: Progress, u: Usage)
    requires AllTold(kind, suite, commands) && Tidy(Run(suite, commands).disk) && c.runId != ""
    requires OpenedFor(suite, Run(suite, commands).disk, c, lines, run)
    requires Accounts(kind, suite, Run(suite, commands).disk, c, p, u)
    ensures var own, after := FileAfter(c, lines, p), StateAfter(Run(suite, commands), c, lines, run, p);
            Live(own) && FileTells(kind, after.disk, suite, commands + [c], own)
  {
    var s, own := Run(suite, commands), FileAfter(c, lines, p);
    FileAfterIsOver(suite, s.disk, c, lines, run, p);
    OverMeansItsSplit(own, c.split, c.model);
    TruthNext(kind, suite, commands, c, c.runId);
    hide Run, TruthOf, AllTold, Told, Tells, ReadLines, StateAfter, TruthOfPass, AddTruth, CommandTruth, OpenedFor;
    hide Consistent, AtPrice, Tidy;
    if AtPrice(kind, PriceFor(suite, Some(c.model))) {
      OwnIsTold(kind, suite, commands, c, lines, run, p, u);
    }
  }

  lemma FileStaysTold(kind: Kind, suite: Suite, commands: seq<Command>, c: Command, lines: seq<Line>, run: StoredRun,
      p: Progress, u: Usage, f: RunFile)
    requires AllTold(kind, suite, commands) && Tidy(Run(suite, commands).disk) && c.runId != ""
    requires OpenedFor(suite, Run(suite, commands).disk, c, lines, run)
    requires Accounts(kind, suite, Run(suite, commands).disk, c, p, u)
    requires f in StateAfter(Run(suite, commands), c, lines, run, p).disk.files
    ensures Live(f)
        && FileTells(kind, StateAfter(Run(suite, commands), c, lines, run, p).disk, suite, commands + [c], f)
  {
    var s := Run(suite, commands);
    TruthNext(kind, suite, commands, c, f.name);
    PassTouches(suite, s, c, lines, run, p);
    OwnFileTells(kind, suite, commands, c, lines, run, p, u);
    hide Run, TruthOf, Told, Accounts, ReadLines, StateAfter, AddTruth, CommandTruth, Tidy, OpenedFor, AtPrice;
    var own := FileAfter(c, lines, p);
    if f != own {
      OtherTotalsStay(s.disk, StateAfter(s, c, lines, run, p).disk, own, f);
    }
  }

  lemma StillNameless(suite: Suite, s: State, c: Command, lines: seq<Line>, run: StoredRun, p: Progress, id: string)
    requires Tidy(s.disk) && c.runId != "" && OpenedFor(suite, s.disk, c, lines, run)
    requires LinesOf(StateAfter(s, c, lines, run, p).disk.files, id) == None
    ensures id != c.runId && LinesOf(s.disk.files, id) == None
  {
    PassTouches(suite, s, c, lines, run, p);
    hide ReadLines, StateAfter;
    LookUp(StateAfter(s, c, lines, run, p).disk.files, id);
    LookUp(s.disk.files, id);
    assert FileAfter(c, lines, p) in StateAfter(s, c, lines, run, p).disk.files;
  }

  lemma FilesStayTold(kind: Kind, suite: Suite, commands: seq<Command>, c: Command, lines: seq<Line>, run: StoredRun,
      p: Progress, u: Usage)
    requires AllTold(kind, suite, commands) && Tidy(Run(suite, commands).disk) && c.runId != ""
    requires OpenedFor(suite, Run(suite, commands).disk, c, lines, run)
    requires Accounts(kind, suite, Run(suite, commands).disk, c, p, u)
    ensures FilesTell(kind, StateAfter(Run(suite, commands), c, lines, run, p).disk, suite, commands + [c])
  {
    hide Run, TruthOf, FileTells, Accounts, ReadLines, StateAfter, Tidy, OpenedFor, AllTold;
    var disk := StateAfter(Run(suite, commands), c, lines, run, p).disk;
    forall f | f in disk.files ensures Live(f) && FileTells(kind, disk, suite, commands + [c], f) {
      FileStaysTold(kind, suite, commands, c, lines, run, p, u, f);
    }
  }

  lemma NamesStayTold(kind: Kind, suite: Suite, commands: seq<Command>, c: Command, lines: seq<Line>, run: StoredRun,
      p: Progress)
    requires NamesTell(kind, Run(suite, commands).disk, suite, commands)
    requires Tidy(Run(suite, commands).disk) && c.runId != ""
    requires OpenedFor(suite, Run(suite, commands).disk, c, lines, run)
    ensures NamesTell(kind, StateAfter(Run(suite, commands), c, lines, run, p).disk, suite, commands + [c])
  {
    hide Run, TruthOf, ReadLines, StateAfter, CommandTruth, Tidy, OpenedFor, LinesOf;
    forall id | LinesOf(StateAfter(Run(suite, commands), c, lines, run, p).disk.files, id) == None
        ensures TruthOf(kind, suite, commands + [c], id) == NOTHING_SPENT {
      StillNameless(suite, Run(suite, commands), c, lines, run, p, id);
      TruthNext(kind, suite, commands, c, id);
    }
  }

  lemma PassKeepsTold(kind: Kind, suite: Suite, commands: seq<Command>, c: Command, lines: seq<Line>, run: StoredRun,
      p: Progress, u: Usage)
    requires AllTold(kind, suite, commands) && Tidy(Run(suite, commands).disk) && c.runId != ""
    requires OpenedFor(suite, Run(suite, commands).disk, c, lines, run)
    requires Accounts(kind, suite, Run(suite, commands).disk, c, p, u)
    requires Run(suite, commands + [c]).disk == StateAfter(Run(suite, commands), c, lines, run, p).disk
    ensures AllTold(kind, suite, commands + [c])
  {
    hide Run, Accounts, StateAfter, Tidy, OpenedFor, FilesTell, NamesTell;
    FilesStayTold(kind, suite, commands, c, lines, run, p, u);
    NamesStayTold(kind, suite, commands, c, lines, run, p);
  }

  /** A command that declined used nothing and left every record as it was. */
  lemma DeclinedKeepsTold(kind: Kind, suite: Suite, commands: seq<Command>, c: Command)
    requires AllTold(kind, suite, commands) && RunCommand(suite, Run(suite, commands).disk, c).outcome.Declined?
    requires RunCommand(suite, Run(suite, commands).disk, c).disk == Run(suite, commands).disk
    ensures AllTold(kind, suite, commands + [c])
  {
    hide Run, TruthOf, RunCommand, AddTruth, FilesTell, NamesTell;
    TruthNext(kind, suite, commands, c, c.runId);
    DeclinedUsesNothing(kind, suite, Run(suite, commands), c);
    forall id ensures TruthOf(kind, suite, commands + [c], id) == TruthOf(kind, suite, commands, id) {
      TruthNext(kind, suite, commands, c, id);
      NothingMore(TruthOf(kind, suite, commands, id));
    }
    SameTruth(kind, Run(suite, commands).disk, suite, commands, commands + [c]);
  }

  lemma DeclinedUsesNothing(kind: Kind, suite: Suite, s: State, c: Command)
    requires RunCommand(suite, s.disk, c).outcome.Declined? && RunCommand(suite, s.disk, c).disk == s.disk
    ensures CommandTruth(kind, suite, s.disk, c) == NOTHING_SPENT && Step(suite, s, c).disk == s.disk
  {
    hide RunCommand;
  }

  lemma SameTruth(kind: Kind, disk: Disk, suite: Suite, a: seq<Command>, b: seq<Command>)
    requires forall id :: TruthOf(kind, suite, b, id) == TruthOf(kind, suite, a, id)
    requires FilesTell(kind, disk, suite, a) && NamesTell(kind, disk, suite, a)
    ensures FilesTell(kind, disk, suite, b) && NamesTell(kind, disk, suite, b)
  {
    hide TruthOf, Told, ReadLines, LinesOf;
  }

  lemma CommandKeepsTold(kind: Kind, suite: Suite, commands: seq<Command>, c: Command)
    requires c.runId != "" && Invariant(suite, Run(suite, commands)) && AllTold(kind, suite, commands)
    ensures AllTold(kind, suite, commands + [c])
  {
    var s := Run(suite, commands);
    var lines, run, p := CommandIsAPass(suite, s, c);
    assert Tidy(s.disk);
    TruthNext(kind, suite, commands, c, c.runId);
    hide Run, TruthOf, Told, Invariant, RunCommand, CommandTruth, AllTold, OpenedFor, PassOf, Tidy, StateAfter, SpendOn;
    if RunCommand(suite, s.disk, c).outcome.Declined? {
      DeclinedKeepsTold(kind, suite, commands, c);
    } else {
      var u := PassTells(kind, suite, s, c, lines, run, p);
      PassKeepsTold(kind, suite, commands, c, lines, run, p, u);
    }
  }

  lemma NothingIsTold(kind: Kind, suite: Suite, commands: seq<Command>)
    requires commands == []
    ensures AllTold(kind, suite, commands)
  {
    assert Run(suite, commands) == EMPTY;
  }

  lemma {:induction false} EveryRunIsTold(kind: Kind, suite: Suite, commands: seq<Command>)
    requires ValidSuite(suite) && Named(commands)
    ensures AllTold(kind, suite, commands)
  {
    if commands == [] {
      NothingIsTold(kind, suite, commands);
    } else {
      var n := |commands| - 1;
      assert Named(commands[..n]) && commands[n].runId != "";
      hide AllTold, Invariant, Run, Named;
      EveryRunIsTold(kind, suite, commands[..n]);
      EveryHistoryKeepsInvariant(suite, commands[..n]);
      CommandKeepsTold(kind, suite, commands[..n], commands[n]);
      assert commands[..n] + [commands[n]] == commands;
    }
  }

  /**
   Over every history, what the gate recognises of a run -- requests, attempts, tokens either way, or dollars at
   its model's price -- is exactly what it spent, less what both its records miss: nothing, if every answer was
   recorded or every charge ledgered.
   */
  lemma RecognisedIsTheTruth(kind: Kind, suite: Suite, commands: seq<Command>, f: RunFile)
    requires ValidSuite(suite) && Named(commands) && f in Run(suite, commands).disk.files
    ensures Live(f)
    ensures AtPrice(kind, PriceFor(suite, Some(ModelOf(f)))) ==>
              var t := TruthOf(kind, suite, commands, f.name);
              FigureOf(kind, Recognised(View(suite, Run(suite, commands).disk.ledger, f)))
              == t.used - Min(t.unrecorded, t.missed)
  {
    EveryRunIsTold(kind, suite, commands);
    hide Run, TruthOf, AtPrice, Told, Recognised, View, Tidy;
    assert FileTells(kind, Run(suite, commands).disk, suite, commands, f);
    if AtPrice(kind, PriceFor(suite, Some(ModelOf(f)))) {
      RecognisedIsTrue(kind, suite, Run(suite, commands), f, TruthOf(kind, suite, commands, f.name));
    }
  }

  lemma RecognisedTokens(kind: Kind, suite: Suite, commands: seq<Command>, f: RunFile)
    requires ValidSuite(suite) && Named(commands) && f in Run(suite, commands).disk.files && !kind.Dollars?
    ensures Live(f)
    ensures var t := TruthOf(kind, suite, commands, f.name);
            FigureOf(kind, Recognised(View(suite, Run(suite, commands).disk.ledger, f)))
            == t.used - Min(t.unrecorded, t.missed)
  {
    RecognisedIsTheTruth(kind, suite, commands, f);
    hide Run, TruthOf, Recognised, View, FigureOf, ValidSuite, Named;
  }

  /** So what a run really used of its tokens passes their ceiling by less than one call and what both records miss. */
  lemma TokensOfOneRun(suite: Suite, commands: seq<Command>, f: RunFile, input: nat, output: nat)
    requires ValidSuite(suite) && Named(commands) && f in Run(suite, commands).disk.files
    requires forall i :: 0 <= i < |commands| ==> EventsAtMost(commands[i].events, input, output)
    requires Live(f) && CasesOf(suite, SplitOf(f)) != []
    ensures var c := NovaCeiling(CasesOf(suite, SplitOf(f)));
            var prompted := TruthOf(TokensIn, suite, commands, f.name);
            var generated := TruthOf(TokensOut, suite, commands, f.name);
            && prompted.used < c.maxInputTokens + input + Min(prompted.unrecorded, prompted.missed)
            && generated.used < c.maxOutputTokens + output + Min(generated.unrecorded, generated.missed)
  {
    RecognisedTokensOfOneRun(suite, commands, f, input, output);
    RecognisedTokens(TokensIn, suite, commands, f);
    RecognisedTokens(TokensOut, suite, commands, f);
    hide Run, TruthOf, NovaCeiling, View, Recognised, ValidSuite, Named, CasesOf, EventsAtMost;
  }
}
