/**
 The budget guard and the provider wrapper that must ask it first.

 The guard's fields change in place; every method is tied to a function on `Spend` values, and
 what the guard promises over a whole run is proved about those functions.
 */
module Guard {
  import opened Common
  import opened Budget

  /** What a provider publishes about one answer. A count it does not publish is absent. */
  datatype Telemetry = Telemetry(attempts: nat, input: Option<nat>, output: Option<nat>)

  /** Every way one provider call can end. */
  datatype Reply =
    | Answered(telemetry: Telemetry)
    | Rejected
    | Failed(detail: string)
    | NotPrepared(detail: string)
    | Interrupted

  datatype Asked = Refused(ceiling: Field) | Permitted

  datatype Spend = Spend(
    calls: int,
    attempts: int,
    inputTokens: nat,
    outputTokens: nat,
    tokensReported: bool,
    usd: Option<Usd>,
    unsentCalls: int)

  const FRESH := Spend(0, 0, 0, 0, false, None, 0)

  predicate Reached(ceiling: Option<int>, used: int) {
    ceiling.Some? && used >= ceiling.value
  }

  /** The ceiling that refuses the next call, if any, in the order the guard looks at them. */
  function Refusal(budget: EvalBudget, spend: Spend): Option<Field> {
    if Reached(budget.calls, spend.calls) then Some(Calls)
    else if Reached(budget.inputTokens, spend.inputTokens) then Some(InputTokens)
    else if Reached(budget.outputTokens, spend.outputTokens) then Some(OutputTokens)
    else if spend.usd.Some? && Reached(budget.usd, spend.usd.value) then Some(Dollars)
    else None
  }

  function OrZero(count: Option<nat>): nat {
    if count.Some? then count.value else 0
  }

  function Grant(spend: Spend): Spend {
    spend.(calls := spend.calls + 1)
  }

  function GiveBack(spend: Spend): Spend {
    spend.(calls := spend.calls - 1, unsentCalls := spend.unsentCalls + 1)
  }

  function Charge(price: Option<Price>, spend: Spend, telemetry: Option<Telemetry>): Spend {
    match telemetry
    case None => spend.(attempts := spend.attempts + 1)
    case Some(t) =>
      var tried := spend.(attempts := spend.attempts + t.attempts);
      if t.input == None && t.output == None then tried
      else
        var counted := tried.(tokensReported := true,
                              inputTokens := tried.inputTokens + OrZero(t.input),
                              outputTokens := tried.outputTokens + OrZero(t.output));
        match EstimateUsd(price, t.input, t.output)
        case None => counted
        case Some(usd) => counted.(usd := Some((if spend.usd.Some? then spend.usd.value else 0) + usd))
  }

  /** One call put through the wrapper: permission, then exactly one charge or one return. */
  function Ask(budget: EvalBudget, price: Option<Price>, spend: Spend, reply: Reply): Spend {
    if Refusal(budget, spend).Some? then spend
    else
      match reply
      case Answered(t) => Charge(price, Grant(spend), Some(t))
      case NotPrepared(_) => GiveBack(Grant(spend))
      case _ => Charge(price, Grant(spend), None)
  }

  datatype GuardError = PricingUnavailable

  class BudgetGuard {
    const budget: EvalBudget
    const price: Option<Price>
    const live: bool
    var spend: Spend

    constructor (budget: EvalBudget, price: Option<Price>, live: bool)
      ensures this.budget == budget && this.price == price && this.live == live
      ensures spend == FRESH
    {
      this.budget, this.price, this.live := budget, price, live;
      spend := FRESH;
    }

    /** A live run with a dollar ceiling and no verified price is refused before any call. */
    static method Open(budget: EvalBudget, price: Option<Price>, live: bool)
      returns (r: Result<BudgetGuard, GuardError>)
      ensures r.Err? <==> live && budget.usd.Some? && price == None
      ensures r.Ok? ==> fresh(r.value) && r.value.spend == FRESH
      ensures r.Ok? ==> r.value.budget == budget && r.value.price == price && r.value.live == live
    {
      if live && budget.usd.Some? && price == None {
        return Err(PricingUnavailable);
      }
      var guard := new BudgetGuard(budget, price, live);
      r := Ok(guard);
    }

    method Authorise() returns (asked: Asked)
      modifies this`spend
      ensures asked == match Refusal(budget, old(spend)) case None => Permitted case Some(c) => Refused(c)
      ensures spend == if asked.Permitted? then Grant(old(spend)) else old(spend)
    {
      if budget.calls.Some? && spend.calls >= budget.calls.value {
        return Refused(Calls);
      }
      if budget.inputTokens.Some? && spend.inputTokens >= budget.inputTokens.value {
        return Refused(InputTokens);
      }
      if budget.outputTokens.Some? && spend.outputTokens >= budget.outputTokens.value {
        return Refused(OutputTokens);
      }
      if budget.usd.Some? && spend.usd.Some? && spend.usd.value >= budget.usd.value {
        return Refused(Dollars);
      }
      spend := spend.(calls := spend.calls + 1);
      return Permitted;
    }

    method Discard()
      modifies this`spend
      ensures spend == GiveBack(old(spend))
    {
      spend := spend.(calls := spend.calls - 1);
      spend := spend.(unsentCalls := spend.unsentCalls + 1);
    }

    method Record(telemetry: Option<Telemetry>)
      modifies this`spend
      ensures spend == Charge(price, old(spend), telemetry)
    {
      if telemetry == None {
        spend := spend.(attempts := spend.attempts + 1);
        return;
      }
      var t := telemetry.value;
      spend := spend.(attempts := spend.attempts + t.attempts);
      if t.input == None && t.output == None {
        return;
      }
      spend := spend.(tokensReported := true);
      spend := spend.(inputTokens := spend.inputTokens + OrZero(t.input));
      spend := spend.(outputTokens := spend.outputTokens + OrZero(t.output));
      var increment := EstimateUsd(price, t.input, t.output);
      if increment.Some? {
        spend := spend.(usd := Some((if spend.usd.Some? then spend.usd.value else 0) + increment.value));
      }
    }
  }

  /** The wrapper between a pass and its provider. `reply` is what the wrapped provider would do. */
  class BudgetedProvider {
    const guard: BudgetGuard
    var notPrepared: bool

    constructor (guard: BudgetGuard)
      ensures this.guard == guard && !notPrepared
    {
      this.guard := guard;
      notPrepared := false;
    }

    method Run(reply: Reply) returns (asked: Asked)
      modifies this`notPrepared, guard`spend
      ensures asked == match Refusal(guard.budget, old(guard.spend)) case None => Permitted case Some(c) => Refused(c)
      ensures guard.spend == Ask(guard.budget, guard.price, old(guard.spend), reply)
      ensures notPrepared == (old(notPrepared) || (asked.Permitted? && reply.NotPrepared?))
    {
      asked := guard.Authorise();
      if asked.Refused? {
        return;
      }
      match reply {
        case NotPrepared(_) =>
          notPrepared := true;
          guard.Discard();
        case Answered(t) =>
          guard.Record(Some(t));
        case _ =>
          guard.Record(None);
      }
    }
  }

  // ------------------------------------------------------------------ whole runs

  /** What the guard holds after putting these calls through the wrapper, in order. */
  function AskAll(budget: EvalBudget, price: Option<Price>, replies: seq<Reply>): Spend {
    if replies == [] then FRESH
    else
      var last := |replies| - 1;
      Ask(budget, price, AskAll(budget, price, replies[..last]), replies[last])
  }

  /** The replies that were actually asked for: those the guard did not refuse. */
  function Admitted(budget: EvalBudget, price: Option<Price>, replies: seq<Reply>): seq<Reply> {
    if replies == [] then []
    else
      var last := |replies| - 1;
      var before := Admitted(budget, price, replies[..last]);
      if Refusal(budget, AskAll(budget, price, replies[..last])).Some? then before
      else before + [replies[last]]
  }

  function Sent(replies: seq<Reply>): (n: nat)
    ensures n <= |replies|
  {
    if replies == [] then 0
    else Sent(replies[..|replies| - 1]) + if replies[|replies| - 1].NotPrepared? then 0 else 1
  }

  function InputOf(reply: Reply): nat {
    if reply.Answered? then OrZero(reply.telemetry.input) else 0
  }

  function OutputOf(reply: Reply): nat {
    if reply.Answered? then OrZero(reply.telemetry.output) else 0
  }

  /** What a call that was sent took: what its answer says, and one when there is no answer to say it. */
  function AttemptsOf(reply: Reply): nat {
    match reply
    case Answered(t) => t.attempts
    case NotPrepared(_) => 0
    case _ => 1
  }

  function AttemptSum(replies: seq<Reply>): nat {
    if replies == [] then 0 else AttemptSum(replies[..|replies| - 1]) + AttemptsOf(replies[|replies| - 1])
  }

  function InputSum(replies: seq<Reply>): nat {
    if replies == [] then 0 else InputSum(replies[..|replies| - 1]) + InputOf(replies[|replies| - 1])
  }

  function OutputSum(replies: seq<Reply>): nat {
    if replies == [] then 0 else OutputSum(replies[..|replies| - 1]) + OutputOf(replies[|replies| - 1])
  }

  /** The answer publishes exactly one of its two token counts, so it cannot be priced. */
  predicate HalfReported(reply: Reply) {
    reply.Answered? && reply.telemetry.input.Some? != reply.telemetry.output.Some?
  }

  /** What the half-reported answers would have cost had their published count been priced. */
  function Unmeasured(price: Price, replies: seq<Reply>): nat {
    if replies == [] then 0
    else
      var reply := replies[|replies| - 1];
      Unmeasured(price, replies[..|replies| - 1])
      + if HalfReported(reply) then Cost(price, InputOf(reply), OutputOf(reply)) else 0
  }

  /** The guard's account of the calls it admitted. */
  predicate Balanced(budget: EvalBudget, s: Spend, admitted: seq<Reply>) {
    && s.calls + s.unsentCalls == |admitted|
    && s.calls == Sent(admitted)
    && s.attempts == AttemptSum(admitted)
    && s.inputTokens == InputSum(admitted)
    && s.outputTokens == OutputSum(admitted)
    && (budget.calls.Some? ==> s.calls <= Max(0, budget.calls.value))
  }

  lemma AskKeepsBalance(budget: EvalBudget, price: Option<Price>, s: Spend, admitted: seq<Reply>, reply: Reply)
    requires Balanced(budget, s, admitted) && Refusal(budget, s) == None
    ensures Balanced(budget, Ask(budget, price, s, reply), admitted + [reply])
  {
    SumsExtend(admitted, reply);
  }

  /**
   Conservation on every path: each permission ends as one call or one returned permission,
   the call count is the calls really sent and never passes its ceiling, and the attempts and tokens
   are those of what was sent.
   */
  lemma {:induction false} GuardConserves(budget: EvalBudget, price: Option<Price>, replies: seq<Reply>)
    ensures Balanced(budget, AskAll(budget, price, replies), Admitted(budget, price, replies))
  {
    if replies != [] {
      var last := |replies| - 1;
      GuardConserves(budget, price, replies[..last]);
      var s := AskAll(budget, price, replies[..last]);
      if Refusal(budget, s) == None {
        AskKeepsBalance(budget, price, s, Admitted(budget, price, replies[..last]), replies[last]);
      }
    }
  }

  lemma SumsExtend(before: seq<Reply>, reply: Reply)
    ensures Sent(before + [reply]) == Sent(before) + if reply.NotPrepared? then 0 else 1
    ensures AttemptSum(before + [reply]) == AttemptSum(before) + AttemptsOf(reply)
    ensures InputSum(before + [reply]) == InputSum(before) + InputOf(reply)
    ensures OutputSum(before + [reply]) == OutputSum(before) + OutputOf(reply)
  {
    assert (before + [reply])[..|before|] == before;
  }

  /** What has been used of a field; dollars nobody could estimate are nothing to compare. */
  function Used(s: Spend, field: Field): Option<int> {
    match field
    case Calls => Some(s.calls)
    case InputTokens => Some(s.inputTokens)
    case OutputTokens => Some(s.outputTokens)
    case Dollars => s.usd
  }

  predicate UsedUp(budget: EvalBudget, s: Spend, field: Field) {
    Bound(budget, field).Some? && Used(s, field).Some? && Used(s, field).value >= Bound(budget, field).value
  }

  /** A call is refused exactly when some ceiling is used up, and by the first of them in this order. */
  lemma RefusedByTheFirst(budget: EvalBudget, s: Spend)
    ensures var order := [Calls, InputTokens, OutputTokens, Dollars];
            match Refusal(budget, s)
            case None => forall field :: !UsedUp(budget, s, field)
            case Some(field) => exists i :: 0 <= i < 4 && order[i] == field && UsedUp(budget, s, field)
                                  && forall j :: 0 <= j < i ==> !UsedUp(budget, s, order[j])
  {
    var order := [Calls, InputTokens, OutputTokens, Dollars];
    match Refusal(budget, s)
    case None =>
    case Some(field) =>
      var i := match field case Calls => 0 case InputTokens => 1 case OutputTokens => 2 case Dollars => 3;
      assert order[i] == field;
  }

  /** Some answer came with a count of its tokens. */
  predicate Published(replies: seq<Reply>) {
    exists r :: r in replies && r.Answered? && (r.telemetry.input.Some? || r.telemetry.output.Some?)
  }

  /** Token counts are reported, be they zero, exactly when some answer published one. */
  lemma {:induction false} TokensAreReportedIff(budget: EvalBudget, price: Option<Price>, replies: seq<Reply>)
    ensures AskAll(budget, price, replies).tokensReported <==> Published(Admitted(budget, price, replies))
  {
    if replies != [] {
      var last := |replies| - 1;
      TokensAreReportedIff(budget, price, replies[..last]);
      var admitted := Admitted(budget, price, replies[..last]);
      hide Refusal, EstimateUsd;
      PublishedNext(admitted, replies[last]);
    }
  }

  lemma PublishedNext(replies: seq<Reply>, reply: Reply)
    ensures Published(replies + [reply])
        <==> (Published(replies)
              || (reply.Answered? && (reply.telemetry.input.Some? || reply.telemetry.output.Some?)))
  {
    assert forall r :: r in replies + [reply] <==> r in replies || r == reply;
  }

  /**
   Money is the price of the tokens, short only by what half-reported answers left unpriceable; with no price
   it stays unknown.
   */
  predicate Priced(price: Option<Price>, s: Spend, admitted: seq<Reply>) {
    match price
    case None => s.usd == None
    case Some(p) =>
      && (if s.usd.Some? then s.usd.value else 0) + Unmeasured(p, admitted) == Cost(p, s.inputTokens, s.outputTokens)
      && (s.usd == None <==> forall r :: r in admitted && r.Answered? ==>
          r.telemetry.input == None || r.telemetry.output == None)
  }

  lemma AskKeepsPriced(budget: EvalBudget, price: Option<Price>, s: Spend, admitted: seq<Reply>, reply: Reply)
    requires Priced(price, s, admitted) && Refusal(budget, s) == None
    ensures Priced(price, Ask(budget, price, s, reply), admitted + [reply])
  {
    assert (admitted + [reply])[..|admitted|] == admitted;
    hide Cost, Refusal;
    if price.Some? {
      CostAdds(price.value, s.inputTokens, s.outputTokens, InputOf(reply), OutputOf(reply));
      NothingCosts(price.value);
    }
  }

  lemma NothingCosts(price: Price)
    ensures Cost(price, 0, 0) == 0
  {
  }

  /** Over every run, money follows the tokens of the calls the guard admitted. */
  lemma {:induction false} MoneyFollowsTokens(budget: EvalBudget, price: Option<Price>, replies: seq<Reply>)
    ensures Priced(price, AskAll(budget, price, replies), Admitted(budget, price, replies))
  {
    if replies != [] {
      var last := |replies| - 1;
      MoneyFollowsTokens(budget, price, replies[..last]);
      hide Priced, Ask;
      var s := AskAll(budget, price, replies[..last]);
      if Refusal(budget, s) == None {
        AskKeepsPriced(budget, price, s, Admitted(budget, price, replies[..last]), replies[last]);
      } else {
        RefusedIsUnchanged(budget, price, s, replies[last]);
      }
    } else {
      NothingPriced(price);
    }
  }

  lemma RefusedIsUnchanged(budget: EvalBudget, price: Option<Price>, s: Spend, reply: Reply)
    requires Refusal(budget, s).Some?
    ensures Ask(budget, price, s, reply) == s
  {
  }

  lemma NothingPriced(price: Option<Price>)
    ensures Priced(price, FRESH, [])
  {
  }

  lemma CostAdds(price: Price, i0: nat, o0: nat, i1: nat, o1: nat)
    ensures Cost(price, i0 + i1, o0 + o1) == Cost(price, i0, o0) + Cost(price, i1, o1)
  {
  }

  /** No single call publishes more than these. */
  predicate CallsAtMost(price: Option<Price>, replies: seq<Reply>, input: nat, output: nat, usd: nat) {
    forall r :: r in replies ==>
      && InputOf(r) <= input
      && OutputOf(r) <= output
      && (price.Some? ==> Cost(price.value, InputOf(r), OutputOf(r)) <= usd)
  }

  /**
   Token and dollar ceilings are looked at before a call, so they may be passed by one call and
   never by a second. The first call is checked against no dollars at all.
   */
  lemma {:induction false} OvershootIsOneCall(
    budget: EvalBudget, price: Option<Price>, replies: seq<Reply>, input: nat, output: nat, usd: nat)
    requires CallsAtMost(price, replies, input, output, usd)
    ensures var s := AskAll(budget, price, replies);
            && (budget.inputTokens.Some? ==> s.inputTokens <= Max(0, budget.inputTokens.value - 1 + input))
            && (budget.outputTokens.Some? ==> s.outputTokens <= Max(0, budget.outputTokens.value - 1 + output))
            && (budget.usd.Some? && s.usd.Some? ==> s.usd.value <= Max(0, budget.usd.value - 1) + usd)
  {
    if replies != [] {
      var last := |replies| - 1;
      assert forall r :: r in replies[..last] ==> r in replies;
      OvershootIsOneCall(budget, price, replies[..last], input, output, usd);
      assert replies[last] in replies;
      AskStaysWithinOneCall(budget, price, AskAll(budget, price, replies[..last]), replies[last], input, output, usd);
    }
  }

  lemma AskStaysWithinOneCall(
    budget: EvalBudget, price: Option<Price>, s: Spend, reply: Reply, input: nat, output: nat, usd: nat)
    requires CallsAtMost(price, [reply], input, output, usd)
    ensures var after := Ask(budget, price, s, reply);
            && (after.inputTokens == s.inputTokens || !budget.inputTokens.Some?
                || after.inputTokens <= budget.inputTokens.value - 1 + input)
            && (after.outputTokens == s.outputTokens || !budget.outputTokens.Some?
                || after.outputTokens <= budget.outputTokens.value - 1 + output)
            && (after.usd == s.usd || !budget.usd.Some?
                || after.usd.value <= Max(0, budget.usd.value - 1) + usd)
  {
    assert reply in [reply];
  }
}
