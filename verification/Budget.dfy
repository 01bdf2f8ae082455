/**
 Ceilings and totals, and the three operations every gate composes them with:
 adding spends, subtracting a spend from a ceiling, and meeting several ceilings.

 Money is an integer count of 1e-8 USD. Prices are quoted in cents per million tokens, and
 one cent per million tokens times one token is exactly 1e-8 USD, so no price is ever rounded.
 */
module Budget {
  import opened Common

  type Usd = int

  /** Cents per million tokens, as published. */
  datatype Price = Price(input: nat, output: nat)

  /** `None` means uncapped. */
  datatype EvalBudget = EvalBudget(
    calls: Option<int>,
    inputTokens: Option<int>,
    outputTokens: Option<int>,
    usd: Option<Usd>)

  const UNCAPPED := EvalBudget(None, None, None, None)

  datatype Totals = Totals(
    runs: int,
    calls: int,
    attempts: int,
    inputTokens: int,
    outputTokens: int,
    usd: Usd,
    unattributedRuns: int,
    unattributedCalls: int,
    unsentCalls: int)

  const NOTHING := Totals(0, 0, 0, 0, 0, 0, 0, 0, 0)

  function AddTotals(left: Totals, right: Totals): Totals {
    Totals(left.runs + right.runs, left.calls + right.calls, left.attempts + right.attempts,
           left.inputTokens + right.inputTokens, left.outputTokens + right.outputTokens,
           left.usd + right.usd,
           left.unattributedRuns + right.unattributedRuns,
           left.unattributedCalls + right.unattributedCalls,
           left.unsentCalls + right.unsentCalls)
  }

  lemma AddingNothing(totals: Totals)
    ensures AddTotals(NOTHING, totals) == totals == AddTotals(totals, NOTHING)
  {
  }

  /** The price of these tokens; `None` without a price or without both counts. */
  function EstimateUsd(price: Option<Price>, input: Option<nat>, output: Option<nat>): Option<Usd> {
    if price == None || input == None || output == None then None
    else Some(Cost(price.value, input.value, output.value))
  }

  function Cost(price: Price, input: nat, output: nat): nat {
    price.input * input + price.output * output
  }

  function Less(ceiling: Option<int>, spent: int): Option<int> {
    match ceiling
    case None => None
    case Some(c) => Some(Max(0, c - spent))
  }

  function Remaining(ceiling: EvalBudget, spent: Totals): EvalBudget {
    EvalBudget(Less(ceiling.calls, spent.calls),
               Less(ceiling.inputTokens, spent.inputTokens),
               Less(ceiling.outputTokens, spent.outputTokens),
               Less(ceiling.usd, spent.usd))
  }

  /** The least of the bounds that are there at all. */
  function Stricter(values: seq<Option<int>>): Option<int> {
    if values == [] then None
    else
      var rest := Stricter(values[1..]);
      match (values[0], rest)
      case (None, _) => rest
      case (Some(v), None) => Some(v)
      case (Some(v), Some(r)) => Some(if r < v then r else v)
  }

  /** The four things a ceiling bounds, in the order a guard checks them. */
  datatype Field = Calls | InputTokens | OutputTokens | Dollars

  function Bound(budget: EvalBudget, field: Field): Option<int> {
    match field
    case Calls => budget.calls
    case InputTokens => budget.inputTokens
    case OutputTokens => budget.outputTokens
    case Dollars => budget.usd
  }

  function Spent(totals: Totals, field: Field): int {
    match field
    case Calls => totals.calls
    case InputTokens => totals.inputTokens
    case OutputTokens => totals.outputTokens
    case Dollars => totals.usd
  }

  function Column(budgets: seq<EvalBudget>, field: Field): seq<Option<int>> {
    seq(|budgets|, i requires 0 <= i < |budgets| => Bound(budgets[i], field))
  }

  function Tightest(budgets: seq<EvalBudget>): EvalBudget {
    EvalBudget(Stricter(Column(budgets, Calls)), Stricter(Column(budgets, InputTokens)),
               Stricter(Column(budgets, OutputTokens)), Stricter(Column(budgets, Dollars)))
  }

  // ------------------------------------------------------------------ the order on ceilings

  /** `a` allows no more than `b`; uncapped is the top. */
  predicate Within(a: Option<int>, b: Option<int>) {
    b == None || (a.Some? && a.value <= b.value)
  }

  predicate Narrower(a: EvalBudget, b: EvalBudget) {
    forall field: Field :: Within(Bound(a, field), Bound(b, field))
  }

  lemma {:induction false} StricterIsMeet(values: seq<Option<int>>, bound: Option<int>)
    ensures Within(bound, Stricter(values)) <==> forall i :: 0 <= i < |values| ==> Within(bound, values[i])
  {
    if values != [] {
      StricterIsMeet(values[1..], bound);
      assert forall i :: 0 <= i < |values| - 1 ==> values[1..][i] == values[i + 1];
      assert (forall i :: 0 <= i < |values| ==> Within(bound, values[i])) <==>
             Within(bound, values[0]) && forall i :: 0 <= i < |values| - 1 ==> Within(bound, values[1..][i]);
    }
  }

  /** The composition of ceilings is their greatest lower bound: it narrows, and never more than needed. */
  lemma TightestIsGreatestLowerBound(budgets: seq<EvalBudget>, b: EvalBudget)
    ensures Narrower(b, Tightest(budgets)) <==> forall other :: other in budgets ==> Narrower(b, other)
  {
    forall field: Field
      ensures Within(Bound(b, field), Bound(Tightest(budgets), field))
         <==> forall other :: other in budgets ==> Within(Bound(b, field), Bound(other, field))
    {
      var column := Column(budgets, field);
      StricterIsMeet(column, Bound(b, field));
      assert forall i :: 0 <= i < |budgets| ==> column[i] == Bound(budgets[i], field) && budgets[i] in budgets;
    }
  }

  lemma SameLowerBoundsAreEqual(a: EvalBudget, b: EvalBudget)
    requires Narrower(a, b) && Narrower(b, a)
    ensures a == b
  {
    assert forall field: Field :: Within(Bound(a, field), Bound(b, field)) && Within(Bound(b, field), Bound(a, field));
    assert Bound(a, Calls) == Bound(b, Calls) && Bound(a, InputTokens) == Bound(b, InputTokens);
    assert Bound(a, OutputTokens) == Bound(b, OutputTokens) && Bound(a, Dollars) == Bound(b, Dollars);
  }

  lemma NarrowerIsReflexive(a: EvalBudget)
    ensures Narrower(a, a)
  {
  }

  /** Order and repetition of the ceilings do not matter: only which ones are present. */
  lemma TightestDependsOnlyOnMembers(left: seq<EvalBudget>, right: seq<EvalBudget>)
    requires forall b :: b in left <==> b in right
    ensures Tightest(left) == Tightest(right)
  {
    NarrowerIsReflexive(Tightest(left));
    NarrowerIsReflexive(Tightest(right));
    TightestIsGreatestLowerBound(left, Tightest(left));
    TightestIsGreatestLowerBound(right, Tightest(left));
    TightestIsGreatestLowerBound(left, Tightest(right));
    TightestIsGreatestLowerBound(right, Tightest(right));
    SameLowerBoundsAreEqual(Tightest(left), Tightest(right));
  }

  /** Nesting does not matter either, so a stage may add its own bound at any depth. */
  lemma TightestFlattens(left: seq<EvalBudget>, right: seq<EvalBudget>)
    ensures Tightest([Tightest(left), Tightest(right)]) == Tightest(left + right)
  {
    var nested, flat := Tightest([Tightest(left), Tightest(right)]), Tightest(left + right);
    forall c ensures Narrower(c, nested) <==> Narrower(c, flat) {
      TightestIsGreatestLowerBound([Tightest(left), Tightest(right)], c);
      TightestIsGreatestLowerBound(left, c);
      TightestIsGreatestLowerBound(right, c);
      TightestIsGreatestLowerBound(left + right, c);
    }
    NarrowerIsReflexive(nested);
    NarrowerIsReflexive(flat);
    SameLowerBoundsAreEqual(nested, flat);
  }

  // ------------------------------------------------------------------ spending is an action

  /** Two spends charged in turn leave what their sum leaves, in one field. */
  predicate FieldActs(ceiling: Option<int>, earlier: int, later: int) {
    ceiling == None || later >= 0 || ceiling.value >= earlier
  }

  /**
   Charging two spends one after the other leaves what charging their sum leaves, exactly when
   no capped field is handed something back after it was already overspent.
   */
  lemma RemainingIsAnAction(ceiling: EvalBudget, earlier: Totals, later: Totals)
    ensures Remaining(Remaining(ceiling, earlier), later) == Remaining(ceiling, AddTotals(earlier, later))
       <==> forall field :: FieldActs(Bound(ceiling, field), Spent(earlier, field), Spent(later, field))
  {
    var twice := Remaining(Remaining(ceiling, earlier), later);
    var once := Remaining(ceiling, AddTotals(earlier, later));
    assert twice == once <==> forall field :: Bound(twice, field) == Bound(once, field) by {
      if forall field :: Bound(twice, field) == Bound(once, field) {
        assert Bound(twice, Calls) == Bound(once, Calls) && Bound(twice, InputTokens) == Bound(once, InputTokens);
        assert Bound(twice, OutputTokens) == Bound(once, OutputTokens) && Bound(twice, Dollars) == Bound(once, Dollars);
      }
    }
    forall field
      ensures Bound(twice, field) == Bound(once, field)
         <==> FieldActs(Bound(ceiling, field), Spent(earlier, field), Spent(later, field))
    {
    }
  }

  lemma {:induction false} StricterOfRemainders(values: seq<Option<int>>, left: seq<Option<int>>, spent: int)
    requires |left| == |values|
    requires forall i :: 0 <= i < |values| ==> left[i] == Less(values[i], spent)
    ensures Less(Stricter(values), spent) == Stricter(left)
  {
    if values != [] {
      StricterOfRemainders(values[1..], left[1..], spent);
    }
  }

  /** What is left of the tightest ceiling is the tightest of what is left of each. */
  lemma RemainingCommutesWithTightest(budgets: seq<EvalBudget>, left: seq<EvalBudget>, spent: Totals)
    requires |left| == |budgets|
    requires forall i :: 0 <= i < |budgets| ==> left[i] == Remaining(budgets[i], spent)
    ensures Remaining(Tightest(budgets), spent) == Tightest(left)
  {
    StricterOfRemainders(Column(budgets, Calls), Column(left, Calls), spent.calls);
    StricterOfRemainders(Column(budgets, InputTokens), Column(left, InputTokens), spent.inputTokens);
    StricterOfRemainders(Column(budgets, OutputTokens), Column(left, OutputTokens), spent.outputTokens);
    StricterOfRemainders(Column(budgets, Dollars), Column(left, Dollars), spent.usd);
  }
}
