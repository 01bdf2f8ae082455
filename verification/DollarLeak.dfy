/**
 When a guard with nothing left refuses its first call, what a guard with no dollars left lets through,
 and why the derived ceiling is never the one that lets it.
 */
module DollarLeak {
  import opened Common
  import opened Budget
  import opened Guard
  import opened DerivedCeiling

  /**
   A guard opened on what is left of a ceiling refuses its first call exactly when the calls, the input
   tokens or the output tokens are used up. The dollars being used up refuses nothing by itself.
   */
  lemma FirstCallIsRefusedIff(ceiling: EvalBudget, spent: Totals)
    ensures Refusal(Remaining(ceiling, spent), FRESH).Some? <==>
            || (ceiling.calls.Some? && ceiling.calls.value <= spent.calls)
            || (ceiling.inputTokens.Some? && ceiling.inputTokens.value <= spent.inputTokens)
            || (ceiling.outputTokens.Some? && ceiling.outputTokens.value <= spent.outputTokens)
  {
  }

  // ------------------------------------------------------------------ what gets through

  /** The answer gives both token counts, so it can be priced. */
  predicate Prices(reply: Reply) {
    reply.Answered? && reply.telemetry.input.Some? && reply.telemetry.output.Some?
  }

  predicate SomePriced(replies: seq<Reply>) {
    exists r :: r in replies && Prices(r)
  }

  /** The replies up to and including the first that can be priced. */
  function UpToPriced(replies: seq<Reply>): seq<Reply> {
    if replies == [] || !SomePriced(replies[..|replies| - 1]) then replies
    else UpToPriced(replies[..|replies| - 1])
  }

  /** Money is known, and never negative, exactly when a call that could be priced was admitted. */
  lemma {:induction false} KnownOncePriced(budget: EvalBudget, price: Price, replies: seq<Reply>)
    ensures var s := AskAll(budget, Some(price), replies);
            && (s.usd.Some? ==> s.usd.value >= 0 && SomePriced(replies))
            && (SomePriced(replies) ==> s.usd.Some? || Refusal(budget, s).Some?)
  {
    if replies != [] {
      var n := |replies| - 1;
      KnownOncePriced(budget, price, replies[..n]);
      assert replies == replies[..n] + [replies[n]];
      hide Refusal;
      var s := AskAll(budget, Some(price), replies[..n]);
      AskKeepsKnown(budget, price, s, replies[n]);
    }
  }

  lemma AskKeepsKnown(budget: EvalBudget, price: Price, s: Spend, reply: Reply)
    ensures var after := Ask(budget, Some(price), s, reply);
            && (s.usd.Some? ==> after.usd.Some?)
            && (s.usd.Some? && s.usd.value >= 0 ==> after.usd.value >= 0)
            && (after.usd.Some? && s.usd == None ==> after.usd.value >= 0 && Prices(reply))
            && (Refusal(budget, s).Some? ==> after == s)
            && (Refusal(budget, s) == None && Prices(reply) ==> after.usd.Some?)
  {
    hide Refusal, Cost;
  }

  /** Once a priceable reply has been reached, a guard with no dollars left is shut. */
  lemma ShutOncePriced(budget: EvalBudget, price: Price, replies: seq<Reply>)
    requires budget.usd.Some? && budget.usd.value <= 0 && SomePriced(replies)
    ensures Refusal(budget, AskAll(budget, Some(price), replies)).Some?
  {
    KnownOncePriced(budget, price, replies);
  }

  lemma SameWithoutDollars(budget: EvalBudget, price: Price, s: Spend, reply: Reply)
    requires s.usd == None
    ensures Refusal(budget, s).Some? <==> Refusal(budget.(usd := None), s).Some?
    ensures Ask(budget, Some(price), s, reply) == Ask(budget.(usd := None), Some(price), s, reply)
  {
  }

  /**
   With no dollars left a guard admits what it would with no dollar ceiling at all, up to and including
   the first reply that can be priced, and nothing after it.
   */
  lemma {:induction false} NoDollarsAdmitsUpToPriced(budget: EvalBudget, price: Price, replies: seq<Reply>)
    requires budget.usd.Some? && budget.usd.value <= 0
    ensures var open := budget.(usd := None);
            && AskAll(budget, Some(price), replies) == AskAll(open, Some(price), UpToPriced(replies))
            && Admitted(budget, Some(price), replies) == Admitted(open, Some(price), UpToPriced(replies))
  {
    if replies != [] {
      var n := |replies| - 1;
      NoDollarsAdmitsUpToPriced(budget, price, replies[..n]);
      hide Refusal, Ask;
      if SomePriced(replies[..n]) {
        ShutOncePriced(budget, price, replies[..n]);
        RefusedIsUnchanged(budget, Some(price), AskAll(budget, Some(price), replies[..n]), replies[n]);
      } else {
        KnownOncePriced(budget, price, replies[..n]);
        NothingPricedYet(replies[..n]);
        SameWithoutDollars(budget, price, AskAll(budget, Some(price), replies[..n]), replies[n]);
      }
    }
  }

  lemma NothingPricedYet(replies: seq<Reply>)
    requires !SomePriced(replies)
    ensures UpToPriced(replies) == replies
  {
    if replies != [] {
      assert forall r :: r in replies[..|replies| - 1] ==> r in replies;
    }
  }

  lemma {:induction false} UncappedAdmitsAll(price: Option<Price>, replies: seq<Reply>)
    ensures Admitted(UNCAPPED, price, replies) == replies
  {
    if replies != [] {
      UncappedAdmitsAll(price, replies[..|replies| - 1]);
      assert replies == replies[..|replies| - 1] + [replies[|replies| - 1]];
    }
  }

  // ------------------------------------------------------------------ and again in every later pass

  /** What one pass adds to the totals a later one is measured against. */
  function Charged(s: Spend): Totals {
    Totals(1, s.calls, s.attempts, s.inputTokens, s.outputTokens, if s.usd.Some? then s.usd.value else 0, 0, 0, 0)
  }

  /** The totals after these passes, each under a fresh guard on what the ceiling has left. */
  function SpentAfter(ceiling: EvalBudget, price: Price, spent: Totals, passes: seq<seq<Reply>>): Totals {
    if passes == [] then spent
    else
      var before := SpentAfter(ceiling, price, spent, passes[..|passes| - 1]);
      AddTotals(before, Charged(AskAll(Remaining(ceiling, before), Some(price), passes[|passes| - 1])))
  }

  function SentUpToPriced(passes: seq<seq<Reply>>): nat {
    if passes == [] then 0
    else SentUpToPriced(passes[..|passes| - 1]) + Sent(UpToPriced(passes[|passes| - 1]))
  }

  function DollarsOnly(usd: Usd): EvalBudget {
    UNCAPPED.(usd := Some(usd))
  }

  lemma OnePassLeaks(usd: Usd, price: Price, spent: Totals, replies: seq<Reply>)
    requires usd <= spent.usd
    ensures var s := AskAll(Remaining(DollarsOnly(usd), spent), Some(price), replies);
            s.calls == Sent(UpToPriced(replies)) && Charged(s).usd >= 0
  {
    var budget := Remaining(DollarsOnly(usd), spent);
    assert budget == DollarsOnly(0) && budget.(usd := None) == UNCAPPED;
    NoDollarsAdmitsUpToPriced(budget, price, replies);
    UncappedAdmitsAll(Some(price), UpToPriced(replies));
    GuardConserves(budget, Some(price), replies);
    KnownOncePriced(budget, price, replies);
  }

  /**
   With its dollars gone and no other cap, a ceiling lets every later pass send its own calls up to the
   first that can be priced, however many passes there are.
   */
  lemma {:induction false} EveryPassLeaks(usd: Usd, price: Price, spent: Totals, passes: seq<seq<Reply>>)
    requires usd <= spent.usd
    ensures var after := SpentAfter(DollarsOnly(usd), price, spent, passes);
            after.usd >= spent.usd && after.calls == spent.calls + SentUpToPriced(passes)
  {
    if passes != [] {
      var n := |passes| - 1;
      EveryPassLeaks(usd, price, spent, passes[..n]);
      OnePassLeaks(usd, price, SpentAfter(DollarsOnly(usd), price, spent, passes[..n]), passes[n]);
    }
  }

  /** So k passes of one answered call each send k calls on no dollars at all. */
  lemma {:induction false} NothingLeftBuysWithoutBound(price: Price, telemetry: Telemetry, k: nat)
    requires telemetry.input.Some? && telemetry.output.Some?
    ensures var passes := seq(k, _ => [Answered(telemetry)]);
            SpentAfter(DollarsOnly(0), price, NOTHING, passes).calls == k
  {
    EveryPassLeaks(0, price, NOTHING, seq(k, _ => [Answered(telemetry)]));
    OneEach(telemetry, k);
  }

  lemma {:induction false} OneEach(telemetry: Telemetry, k: nat)
    ensures SentUpToPriced(seq(k, _ => [Answered(telemetry)])) == k
  {
    if k > 0 {
      OneEach(telemetry, k - 1);
      var passes: seq<seq<Reply>> := seq(k, _ => [Answered(telemetry)]);
      assert passes[..k - 1] == seq(k - 1, _ => [Answered(telemetry)]);
      assert passes[k - 1] == [Answered(telemetry)];
      assert [Answered(telemetry)][..0] == [];
    }
  }

  // ------------------------------------------------------------------ never under the derived ceiling

  /** The totals are not below zero, and cost no more than their tokens do. */
  predicate Costed(price: Price, t: Totals) {
    t.inputTokens >= 0 && t.outputTokens >= 0 && t.usd <= Cost(price, t.inputTokens, t.outputTokens)
  }

  /** Token and dollar bounds of which the dollars cover the tokens, spent to the last one. */
  predicate CoversItsTokens(price: Price, ceiling: EvalBudget) {
    && ceiling.inputTokens.Some? && ceiling.inputTokens.value >= 0
    && ceiling.outputTokens.Some? && ceiling.outputTokens.value >= 0
    && ceiling.usd.Some? && Cost(price, ceiling.inputTokens.value, ceiling.outputTokens.value) <= ceiling.usd.value
  }

  /** Under such a ceiling, once the dollars are gone so are the tokens of one kind, and those do refuse. */
  lemma TokensGoFirst(price: Price, ceiling: EvalBudget, spent: Totals)
    requires price.input > 0 && price.output > 0 && CoversItsTokens(price, ceiling) && Costed(price, spent)
    requires ceiling.usd.value <= spent.usd
    ensures Refusal(Remaining(ceiling, spent), FRESH).Some?
  {
    if spent.inputTokens < ceiling.inputTokens.value && spent.outputTokens < ceiling.outputTokens.value {
      FewerCostLess(price, spent.inputTokens, spent.outputTokens, ceiling.inputTokens.value,
          ceiling.outputTokens.value);
    }
  }

  lemma FewerCostLess(price: Price, input: nat, output: nat, input': nat, output': nat)
    requires price.input > 0 && price.output > 0 && input < input' && output < output'
    ensures Cost(price, input, output) < Cost(price, input', output')
  {
    assert price.input * input < price.input * input';
    assert price.output * output < price.output * output';
  }

  lemma DerivedCoversItsTokens(cases: seq<Case>)
    ensures CoversItsTokens(NOVA_2_LITE, AsBudget(NovaCeiling(cases)))
  {
    TokenCeilingsFitTheDollarCeiling(cases);
  }
}
