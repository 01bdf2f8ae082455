/**
 One generation pass over the outstanding cases of one run: ask the guard, ask the provider,
 write the answer down, and stop where a ceiling, an interruption or the end stops it.
 */
module Pass {
  import opened Common
  import opened Budget
  import opened Guard
  import opened Store
  import opened DerivedCeiling

  /**
   What happens when the pass reaches one case. `Put` reaches the provider; `LostAfterAnswer` is an
   interruption between the answer and its record; `Killed` is a process that gets to run nothing
   more, with a request in flight or not. `Ended` is the process that dies after the last case.
   */
  datatype Event =
    | Put(reply: Reply)
    | LostAfterAnswer(telemetry: Telemetry)
    | Killed(inFlight: bool)

  datatype Ending = Running | Stopped(ceiling: Field) | Broken | Dead

  /**
   What really happened in a run, which no record need show: requests sent, requests sent whose
   answer was never recorded, permissions given back, charged requests that in truth were never
   sent, and charges that died before the ledger.
   */
  datatype Tally = Tally(sent: nat, interrupted: nat, discarded: nat, legacy: nat, lost: nat)

  const NO_TALLY := Tally(0, 0, 0, 0, 0)

  function AddTally(a: Tally, b: Tally): Tally {
    Tally(a.sent + b.sent, a.interrupted + b.interrupted, a.discarded + b.discarded, a.legacy + b.legacy,
          a.lost + b.lost)
  }

  datatype Progress = Progress(spend: Spend, written: seq<Generation>, tally: Tally, ending: Ending)

  const START := Progress(FRESH, [], NO_TALLY, Running)

  /** The provider reported an unbuilt client the way it did before the failure had a name. */
  predicate LegacyUnprepared(reply: Reply) {
    reply.Failed? && NOT_PREPARED_PREFIX <= reply.detail
  }

  function AtLeastOne(attempts: nat): nat {
    if attempts == 0 then 1 else attempts
  }

  /** The record written for a case that got an ordinary ending. */
  function RecordOf(id: string, reply: Reply, now: string): Generation {
    match reply
    case Answered(t) => Generation(id, true, None, None, AtLeastOne(t.attempts), t.input, t.output, Some(now))
    case Rejected => Generation(id, false, Some(SchemaRejection), None, 1, None, None, Some(now))
    case Failed(detail) => Generation(id, false, Some(ProviderFailure), Some(detail), 1, None, None, Some(now))
    case NotPrepared(detail) => Generation(id, false, Some(ProviderNotPrepared), Some(detail), 0, None, None, Some(now))
    case Interrupted => Generation(id, false, None, None, 0, None, None, Some(now))
  }

  function EventFor(events: map<string, Event>, id: string): Event {
    if id in events then events[id] else Killed(false)
  }

  function OneSent(t: Tally): Tally {
    t.(sent := t.sent + 1)
  }

  function OneLegacy(t: Tally): Tally {
    t.(legacy := t.legacy + 1)
  }

  function OneDiscarded(t: Tally): Tally {
    t.(discarded := t.discarded + 1)
  }

  /** A request was sent and its answer will never be in the run file. */
  function OneInterrupted(t: Tally): Tally {
    t.(sent := t.sent + 1, interrupted := t.interrupted + 1)
  }

  function Write(p: Progress, spend: Spend, record: Generation, tally: Tally): Progress {
    Progress(spend, p.written + [record], tally, Running)
  }

  function Lose(p: Progress, spend: Spend, ending: Ending): Progress {
    Progress(spend, p.written, OneInterrupted(p.tally), ending)
  }

  function OnReply(budget: EvalBudget, price: Option<Price>, p: Progress, id: string, reply: Reply,
      now: string): Progress {
    var spend := Ask(budget, price, p.spend, reply);
    if reply.Interrupted? then Lose(p, spend, Broken)
    else
      var tally :=
        if reply.NotPrepared? then OneDiscarded(p.tally)
        else if LegacyUnprepared(reply) then OneLegacy(p.tally)
        else OneSent(p.tally);
      Write(p, spend, RecordOf(id, reply, now), tally)
  }

  /** The pass at one case. */
  function Visit(budget: EvalBudget, price: Option<Price>, p: Progress, id: string, event: Event,
      now: string): Progress {
    if event == Killed(false) then p.(ending := Dead)
    else if Refusal(budget, p.spend).Some? then p.(ending := Stopped(Refusal(budget, p.spend).value))
    else if event.Put? then OnReply(budget, price, p, id, event.reply, now)
    else if event.LostAfterAnswer? then Lose(p, Ask(budget, price, p.spend, Answered(event.telemetry)), Broken)
    else Lose(p, Grant(p.spend), Dead)
  }

  function Generate(budget: EvalBudget, price: Option<Price>, cases: seq<Case>, events: map<string, Event>,
      now: string): Progress {
    if cases == [] then START
    else
      var before := Generate(budget, price, cases[..|cases| - 1], events, now);
      var id := cases[|cases| - 1].id;
      if before.ending != Running then before else Visit(budget, price, before, id, EventFor(events, id), now)
  }

  /** The process may still die once the pass is over, and then nothing more of it is written down. */
  function Ended(p: Progress, died: bool): Progress {
    if died then p.(ending := Dead) else p
  }

  // ------------------------------------------------------------------ counting records

  function TerminalCount(gs: seq<Generation>): (n: nat)
    ensures n <= |gs|
  {
    if gs == [] then 0
    else TerminalCount(gs[..|gs| - 1]) + if Terminal(gs[|gs| - 1]) then 1 else 0
  }

  function InputTotal(gs: seq<Generation>): nat {
    if gs == [] then 0
    else InputTotal(gs[..|gs| - 1]) + if Terminal(gs[|gs| - 1]) then OrZero(gs[|gs| - 1].inputTokens) else 0
  }

  function OutputTotal(gs: seq<Generation>): nat {
    if gs == [] then 0
    else OutputTotal(gs[..|gs| - 1]) + if Terminal(gs[|gs| - 1]) then OrZero(gs[|gs| - 1].outputTokens) else 0
  }

  function AttemptTotal(gs: seq<Generation>): nat {
    if gs == [] then 0
    else AttemptTotal(gs[..|gs| - 1]) + if Terminal(gs[|gs| - 1]) then gs[|gs| - 1].attempts else 0
  }

  lemma TotalsNext(gs: seq<Generation>, g: Generation)
    ensures TerminalCount(gs + [g]) == TerminalCount(gs) + if Terminal(g) then 1 else 0
    ensures InputTotal(gs + [g]) == InputTotal(gs) + if Terminal(g) then OrZero(g.inputTokens) else 0
    ensures OutputTotal(gs + [g]) == OutputTotal(gs) + if Terminal(g) then OrZero(g.outputTokens) else 0
  {
    assert (gs + [g])[..|gs|] == gs;
  }

  lemma {:induction false} TotalsAdd(a: seq<Generation>, b: seq<Generation>)
    ensures TerminalCount(a + b) == TerminalCount(a) + TerminalCount(b)
    ensures InputTotal(a + b) == InputTotal(a) + InputTotal(b)
    ensures OutputTotal(a + b) == OutputTotal(a) + OutputTotal(b)
  {
    if b == [] {
      assert a + b == a;
    } else {
      var n := |b| - 1;
      TotalsAdd(a, b[..n]);
      assert (a + b)[..|a + b| - 1] == a + b[..n];
    }
  }

  // ------------------------------------------------------------------ the pass accounts for itself

  /** What the guard, the records and the truth say about one pass, while and after it runs. */
  predicate Accounted(budget: EvalBudget, p: Progress) {
    && p.spend.calls == p.tally.sent + p.tally.legacy
    && p.tally.interrupted <= p.tally.sent
    && TerminalCount(p.written) == p.tally.sent - p.tally.interrupted
    && |p.written| - TerminalCount(p.written) == p.tally.discarded + p.tally.legacy
    && p.tally.lost == 0
    && (budget.calls.Some? ==> p.spend.calls <= Max(0, budget.calls.value))
    && InputTotal(p.written) <= p.spend.inputTokens
    && OutputTotal(p.written) <= p.spend.outputTokens
    && (p.ending.Running? ==> p.tally.interrupted == 0 && InputTotal(p.written) == p.spend.inputTokens
                              && OutputTotal(p.written) == p.spend.outputTokens)
  }

  lemma RecordKinds(id: string, reply: Reply, now: string)
    requires !reply.Interrupted?
    ensures Terminal(RecordOf(id, reply, now)) <==> !reply.NotPrepared? && !LegacyUnprepared(reply)
    ensures RecordOf(id, reply, now).caseId == id
    ensures OrZero(RecordOf(id, reply, now).inputTokens) == InputOf(reply)
    ensures OrZero(RecordOf(id, reply, now).outputTokens) == OutputOf(reply)
  {
  }

  lemma ReplyKeepsAccount(budget: EvalBudget, price: Option<Price>, p: Progress, id: string, reply: Reply, now: string)
    requires Accounted(budget, p) && p.ending == Running && Refusal(budget, p.spend) == None
    ensures Accounted(budget, OnReply(budget, price, p, id, reply, now))
  {
    hide Terminal, TerminalCount, InputTotal, OutputTotal;
    if !reply.Interrupted? {
      RecordKinds(id, reply, now);
      TotalsNext(p.written, RecordOf(id, reply, now));
    }
  }

  lemma VisitKeepsAccount(budget: EvalBudget, price: Option<Price>, p: Progress, id: string, event: Event, now: string)
    requires Accounted(budget, p) && p.ending == Running
    ensures Accounted(budget, Visit(budget, price, p, id, event, now))
  {
    hide Terminal, TerminalCount, InputTotal, OutputTotal, OnReply;
    match event {
      case Put(reply) =>
        if Refusal(budget, p.spend) == None { ReplyKeepsAccount(budget, price, p, id, reply, now); }
      case _ =>
    }
  }

  lemma {:induction false} PassAccounts(budget: EvalBudget, price: Option<Price>, cases: seq<Case>,
      events: map<string, Event>, now: string)
    ensures Accounted(budget, Generate(budget, price, cases, events, now))
  {
    if cases != [] {
      var n := |cases| - 1;
      PassAccounts(budget, price, cases[..n], events, now);
      var p := Generate(budget, price, cases[..n], events, now);
      if p.ending == Running {
        VisitKeepsAccount(budget, price, p, cases[n].id, EventFor(events, cases[n].id), now);
      }
    }
  }

  // ------------------------------------------------------------------ which cases are written

  /** Each record is about its own case, in the order the cases were reached; shown words are an answer. */
  predicate Follows(written: seq<Generation>, cases: seq<Case>) {
    && |written| <= |cases|
    && (forall i :: 0 <= i < |written| ==> written[i].caseId == cases[i].id)
    && (forall i :: 0 <= i < |written| && written[i].accepted ==> Terminal(written[i]))
  }

  lemma {:induction false} WrittenFollowsCases(budget: EvalBudget, price: Option<Price>, cases: seq<Case>,
      events: map<string, Event>, now: string)
    ensures var p := Generate(budget, price, cases, events, now);
            Follows(p.written, cases) && (p.ending == Running ==> |p.written| == |cases|)
  {
    hide Visit;
    if cases != [] {
      var n := |cases| - 1;
      WrittenFollowsCases(budget, price, cases[..n], events, now);
      var p := Generate(budget, price, cases[..n], events, now);
      assert forall i :: 0 <= i < n ==> cases[..n][i] == cases[i];
      if p.ending == Running {
        VisitWritesAtMostOne(budget, price, p, cases[n].id, EventFor(events, cases[n].id), now);
      }
    }
  }

  lemma VisitWritesAtMostOne(budget: EvalBudget, price: Option<Price>, p: Progress, id: string, event: Event,
      now: string)
    ensures var after := Visit(budget, price, p, id, event, now);
            after.written == p.written
            || (|after.written| == |p.written| + 1 && after.written[..|p.written|] == p.written
                && after.written[|p.written|].caseId == id
                && (after.written[|p.written|].accepted ==> Terminal(after.written[|p.written|])))
    ensures p.ending == Running && Visit(budget, price, p, id, event, now).ending == Running
            ==> |Visit(budget, price, p, id, event, now).written| == |p.written| + 1
  {
  }

  /** The record says what came back for its case, and when. */
  predicate Says(record: Generation, event: Event, now: string) {
    && event.Put? && !event.reply.Interrupted? && record.recordedAt == Some(now)
    && (record.accepted <==> event.reply.Answered?)
    && match event.reply
       case Answered(t) => record.failure == None && record.attempts >= 1 && record.attempts >= t.attempts
                           && record.inputTokens == t.input && record.outputTokens == t.output
       case Rejected => record.failure == Some(SchemaRejection) && record.attempts == 1
       case Failed(why) => record.failure == Some(ProviderFailure) && record.detail == Some(why) && record.attempts == 1
       case NotPrepared(why) =>
         record.failure == Some(ProviderNotPrepared) && record.detail == Some(why) && record.attempts == 0
       case Interrupted => false
  }

  /** What ended the pass: the ceiling its next call met, and then a case is left. */
  predicate EndedFor(budget: EvalBudget, p: Progress, cases: seq<Case>) {
    match p.ending
    case Stopped(ceiling) => Refusal(budget, p.spend) == Some(ceiling) && |p.written| < |cases|
    case _ => true
  }

  lemma {:induction false} RecordsSayWhatCameBack(budget: EvalBudget, price: Option<Price>, cases: seq<Case>,
      events: map<string, Event>, now: string)
    ensures var p := Generate(budget, price, cases, events, now);
            && |p.written| <= |cases|
            && (forall i :: 0 <= i < |p.written| ==> Says(p.written[i], EventFor(events, cases[i].id), now))
            && EndedFor(budget, p, cases)
  {
    WrittenFollowsCases(budget, price, cases, events, now);
    if cases != [] {
      var n := |cases| - 1;
      RecordsSayWhatCameBack(budget, price, cases[..n], events, now);
      WrittenFollowsCases(budget, price, cases[..n], events, now);
      var p := Generate(budget, price, cases[..n], events, now);
      assert forall i :: 0 <= i < n ==> cases[..n][i] == cases[i];
      hide Says, Visit, Generate, Follows;
      assert Generate(budget, price, cases, events, now) == if p.ending != Running then p
          else Visit(budget, price, p, cases[n].id, EventFor(events, cases[n].id), now) by {
        GenerateNext(budget, price, cases, events, now);
      }
      if p.ending == Running {
        VisitSays(budget, price, p, cases[n].id, EventFor(events, cases[n].id), now);
      }
    }
  }

  lemma GenerateNext(budget: EvalBudget, price: Option<Price>, cases: seq<Case>, events: map<string, Event>,
      now: string)
    requires cases != []
    ensures var n := |cases| - 1;
            var p := Generate(budget, price, cases[..n], events, now);
            Generate(budget, price, cases, events, now)
              == if p.ending != Running then p
                 else Visit(budget, price, p, cases[n].id, EventFor(events, cases[n].id), now)
  {
    hide Visit;
  }

  lemma VisitSays(budget: EvalBudget, price: Option<Price>, p: Progress, id: string, event: Event, now: string)
    requires p.ending == Running
    ensures var after := Visit(budget, price, p, id, event, now);
            && (after.written == p.written
                || exists record :: after.written == p.written + [record] && Says(record, event, now))
            && (after.ending.Stopped? ==>
                  after.written == p.written && Refusal(budget, after.spend) == Some(after.ending.ceiling))
  {
    hide Ask, Refusal;
    if event.Put? && Refusal(budget, p.spend) == None && !event.reply.Interrupted? {
      assert Says(RecordOf(id, event.reply, now), event, now);
      assert Visit(budget, price, p, id, event, now).written == p.written + [RecordOf(id, event.reply, now)];
    }
  }

  // ------------------------------------------------------------------ a pass is a run of the guard

  /** The replies a pass met, in order, the refused one too; a dead process met none at its last case. */
  function Replies(budget: EvalBudget, price: Option<Price>, cases: seq<Case>, events: map<string, Event>,
      now: string): seq<Reply> {
    if cases == [] then []
    else
      var before := Replies(budget, price, cases[..|cases| - 1], events, now);
      if Generate(budget, price, cases[..|cases| - 1], events, now).ending != Running then before
      else
        match EventFor(events, cases[|cases| - 1].id)
        case Put(reply) => before + [reply]
        case LostAfterAnswer(telemetry) => before + [Answered(telemetry)]
        case Killed(_) => before
  }

  /** A pass that ends with its process alive has spent what its guard charges for those replies. */
  lemma {:induction false} PassSpendsAsTheGuard(budget: EvalBudget, price: Option<Price>, cases: seq<Case>,
      events: map<string, Event>, now: string)
    ensures var p := Generate(budget, price, cases, events, now);
            p.ending != Dead ==> p.spend == AskAll(budget, price, Replies(budget, price, cases, events, now))
  {
    if cases != [] {
      var n := |cases| - 1;
      PassSpendsAsTheGuard(budget, price, cases[..n], events, now);
      var p := Generate(budget, price, cases[..n], events, now);
      var replies, event := Replies(budget, price, cases[..n], events, now), EventFor(events, cases[n].id);
      hide Ask, Refusal, RecordOf;
      if p.ending == Running && !event.Killed? {
        var reply := if event.Put? then event.reply else Answered(event.telemetry);
        assert (replies + [reply])[..|replies|] == replies;
        RefusedOrAsked(budget, price, p.spend, reply);
      }
    }
  }

  lemma RefusedOrAsked(budget: EvalBudget, price: Option<Price>, s: Spend, reply: Reply)
    ensures Refusal(budget, s).Some? ==> Ask(budget, price, s, reply) == s
  {
  }

  // ------------------------------------------------------------------ how far tokens may pass a ceiling

  /** No event of the pass publishes more than these token counts. */
  predicate EventsAtMost(events: map<string, Event>, input: nat, output: nat) {
    forall id :: id in events ==>
      && (events[id].Put? ==> InputOf(events[id].reply) <= input && OutputOf(events[id].reply) <= output)
      && (events[id].LostAfterAnswer? ==>
           OrZero(events[id].telemetry.input) <= input && OrZero(events[id].telemetry.output) <= output)
  }

  predicate TokensWithin(budget: EvalBudget, p: Progress, input: nat, output: nat) {
    && (budget.inputTokens.Some? ==> p.spend.inputTokens <= Max(0, budget.inputTokens.value - 1 + input))
    && (budget.outputTokens.Some? ==> p.spend.outputTokens <= Max(0, budget.outputTokens.value - 1 + output))
    && (budget.inputTokens.Some? && budget.inputTokens.value <= 0 ==> p.spend.inputTokens == 0)
    && (budget.outputTokens.Some? && budget.outputTokens.value <= 0 ==> p.spend.outputTokens == 0)
  }

  lemma {:induction false} PassOvershootsByOneCall(
    budget: EvalBudget, price: Option<Price>, cases: seq<Case>, events: map<string, Event>, now: string, input: nat,
        output: nat)
    requires EventsAtMost(events, input, output)
    ensures TokensWithin(budget, Generate(budget, price, cases, events, now), input, output)
  {
    if cases != [] {
      var n := |cases| - 1;
      PassOvershootsByOneCall(budget, price, cases[..n], events, now, input, output);
      var p := Generate(budget, price, cases[..n], events, now);
      if p.ending == Running {
        VisitOvershootsByOneCall(budget, price, p, cases[n].id, EventFor(events, cases[n].id), now, input, output);
      }
    }
  }

  lemma VisitOvershootsByOneCall(
    budget: EvalBudget, price: Option<Price>, p: Progress, id: string, event: Event, now: string, input: nat,
        output: nat)
    requires EventsAtMost(map[id := event], input, output)
    requires TokensWithin(budget, p, input, output)
    ensures TokensWithin(budget, Visit(budget, price, p, id, event, now), input, output)
  {
    hide RecordOf, EstimateUsd, LegacyUnprepared;
    assert map[id := event][id] == event;
  }
}
