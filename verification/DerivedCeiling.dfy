/**
 What a generation run may spend, computed from the prompts it will send.

 Tokens are counted high, two attempts are reckoned for each case, and the whole is raised by a
 quarter. The results here say that this arithmetic, roundings included, never stops an honest run.
 */
module DerivedCeiling {
  import opened Common
  import opened Budget
  import opened Guard

  /** One case, with the length of the prompt production builds for it. */
  datatype Case = Case(id: string, promptCharacters: nat)

  const CHARACTERS_PER_TOKEN := 3
  const PROTOCOL_TOKEN_OVERHEAD := 400
  const ATTEMPTS_PER_CALL := 2
  const VERBALISE_MAX_TOKENS := 256
  /** One cent, in units of 1e-8 USD. */
  const CENT := 1_000_000
  const NOVA_2_LITE := Price(33, 275)

  datatype Ceiling = Ceiling(
    logicalCalls: nat,
    providerAttempts: nat,
    maxInputTokens: nat,
    maxOutputTokens: nat,
    projected: Usd,
    maxUsd: Usd)

  function AsBudget(c: Ceiling): EvalBudget {
    EvalBudget(Some(c.logicalCalls), Some(c.maxInputTokens), Some(c.maxOutputTokens), Some(c.maxUsd))
  }

  /** Characters to tokens, rounded up. */
  function Tokens(characters: nat): nat {
    (characters + CHARACTERS_PER_TOKEN - 1) / CHARACTERS_PER_TOKEN
  }

  /** A quarter more, rounded down to a whole token. */
  function WithHeadroom(tokens: nat): nat {
    tokens * 5 / 4
  }

  /** A quarter more, rounded up to a whole cent. */
  function Cents(value: nat): nat {
    (value * 5 + 4 * CENT - 1) / (4 * CENT) * CENT
  }

  function PromptCharacters(cases: seq<Case>): nat {
    if cases == [] then 0
    else PromptCharacters(cases[..|cases| - 1]) + cases[|cases| - 1].promptCharacters
  }

  function ProjectedInput(cases: seq<Case>): nat {
    (Tokens(PromptCharacters(cases)) + PROTOCOL_TOKEN_OVERHEAD * |cases|) * ATTEMPTS_PER_CALL
  }

  function ProjectedOutput(cases: seq<Case>): nat {
    VERBALISE_MAX_TOKENS * (|cases| * ATTEMPTS_PER_CALL)
  }

  function NovaCeiling(cases: seq<Case>): Ceiling {
    var input, output := ProjectedInput(cases), ProjectedOutput(cases);
    var projected := Cost(NOVA_2_LITE, input, output);
    Ceiling(|cases|, |cases| * ATTEMPTS_PER_CALL, WithHeadroom(input), WithHeadroom(output), projected,
        Cents(projected))
  }

  // ------------------------------------------------------------------ the roundings

  /**
   The dollar ceiling is a whole number of cents, at least the projection and a quarter, and less than a cent
   over.
   */
  lemma CentsRoundUpOnce(value: nat)
    ensures Cents(value) % CENT == 0
    ensures 5 * value <= 4 * Cents(value) < 5 * value + 4 * CENT
  {
  }

  /** Spending both token ceilings to the last token costs no more than the dollar ceiling. */
  lemma TokenCeilingsFitTheDollarCeiling(cases: seq<Case>)
    ensures var c := NovaCeiling(cases);
            Cost(NOVA_2_LITE, c.maxInputTokens, c.maxOutputTokens) <= c.maxUsd
  {
    CentsRoundUpOnce(NovaCeiling(cases).projected);
  }

  // ------------------------------------------------------------------ every conforming run

  /** The most input one case may use: both attempts, each its own prompt rounded up plus the overhead. */
  function InputBound(c: Case): nat {
    ATTEMPTS_PER_CALL * (Tokens(c.promptCharacters) + PROTOCOL_TOKEN_OVERHEAD)
  }

  const OUTPUT_BOUND := ATTEMPTS_PER_CALL * VERBALISE_MAX_TOKENS

  predicate Conforms(c: Case, reply: Reply) {
    InputOf(reply) <= InputBound(c) && OutputOf(reply) <= OUTPUT_BOUND
  }

  predicate AllConform(cases: seq<Case>, replies: seq<Reply>) {
    |cases| == |replies| && forall i :: 0 <= i < |cases| ==> Conforms(cases[i], replies[i])
  }

  function InputBounds(cases: seq<Case>): nat {
    if cases == [] then 0
    else InputBounds(cases[..|cases| - 1]) + InputBound(cases[|cases| - 1])
  }

  /** Rounding each prompt up on its own costs at most two thirds of a token more than rounding the sum. */
  lemma {:induction false} BoundsAreNearTheProjection(cases: seq<Case>)
    ensures 3 * InputBounds(cases) <= 2 * PromptCharacters(cases) + 2404 * |cases|
  {
    if cases != [] {
      BoundsAreNearTheProjection(cases[..|cases| - 1]);
    }
  }

  lemma BoundsFitTheCeilings(cases: seq<Case>)
    requires cases != []
    ensures var c := NovaCeiling(cases);
            && InputBounds(cases) < c.maxInputTokens
            && OUTPUT_BOUND * |cases| < c.maxOutputTokens
            && Cost(NOVA_2_LITE, InputBounds(cases), OUTPUT_BOUND * |cases|) < c.maxUsd
  {
    BoundsAreNearTheProjection(cases);
    CentsRoundUpOnce(NovaCeiling(cases).projected);
    assert 3 * ProjectedInput(cases) >= 2 * PromptCharacters(cases) + 2400 * |cases|;
    hide InputBounds, PromptCharacters, Cents, ProjectedInput;
    NearlyFits(InputBounds(cases), ProjectedInput(cases), PromptCharacters(cases), |cases|,
               Cents(NovaCeiling(cases).projected));
  }

  /** Four tokens in two thousand four hundred are far inside a quarter. */
  lemma NearlyFits(bounds: nat, projected: nat, characters: nat, n: nat, dollars: int)
    requires n > 0 && 3 * bounds <= 2 * characters + 2404 * n && 3 * projected >= 2 * characters + 2400 * n
    requires 5 * Cost(NOVA_2_LITE, projected, 512 * n) <= 4 * dollars
    ensures bounds < WithHeadroom(projected) && Cost(NOVA_2_LITE, bounds, 512 * n) < dollars
  {
  }

  lemma {:induction false} ProjectionIsWithinBounds(cases: seq<Case>)
    ensures ProjectedInput(cases) <= InputBounds(cases) && ProjectedOutput(cases) == OUTPUT_BOUND * |cases|
  {
    if cases != [] {
      ProjectionIsWithinBounds(cases[..|cases| - 1]);
    }
  }

  /** And no looser: each ceiling is at most a quarter over the most that conforming cases may use, and a cent. */
  lemma CeilingsAreNoLooser(cases: seq<Case>)
    ensures var c, input, output := NovaCeiling(cases), InputBounds(cases), OUTPUT_BOUND * |cases|;
            && c.logicalCalls == |cases| && c.providerAttempts == 2 * |cases|
            && 4 * c.maxInputTokens <= 5 * input
            && 4 * c.maxOutputTokens <= 5 * output
            && 4 * c.maxUsd < 5 * Cost(NOVA_2_LITE, input, output) + 4 * CENT
  {
    var input, output := ProjectedInput(cases), ProjectedOutput(cases);
    ProjectionIsWithinBounds(cases);
    hide InputBounds, ProjectedInput, ProjectedOutput, Cents, Cost, CENT;
    CentsRoundUpOnce(Cost(NOVA_2_LITE, input, output));
    CostGrows(NOVA_2_LITE, input, output, InputBounds(cases), OUTPUT_BOUND * |cases|);
  }

  lemma CeilingParts(cases: seq<Case>)
    ensures var c := NovaCeiling(cases);
            && c.logicalCalls == |cases| && c.providerAttempts == 2 * |cases|
            && c.maxInputTokens == WithHeadroom(ProjectedInput(cases))
            && c.maxOutputTokens == WithHeadroom(ProjectedOutput(cases))
            && c.projected == Cost(NOVA_2_LITE, ProjectedInput(cases), ProjectedOutput(cases))
            && c.maxUsd == Cents(c.projected)
  {
    hide ProjectedInput, ProjectedOutput, Cents, Cost, WithHeadroom;
  }

  /** The ceiling is a quarter over these thirds of tokens, give or take a token's rounding. */
  predicate AQuarterMore(limit: nat, thirds: nat) {
    5 * thirds - 12 < 12 * limit <= 5 * (thirds + 4)
  }

  /** In numbers: two attempts of a third of a token a character and 400 tokens a case, and a quarter more. */
  lemma InputCeilingInNumbers(cases: seq<Case>)
    ensures AQuarterMore(NovaCeiling(cases).maxInputTokens, 2 * PromptCharacters(cases) + 2400 * |cases|)
  {
    CeilingParts(cases);
    ThirdsOfTokens(cases);
    hide ProjectedInput, NovaCeiling;
    QuarterMore(ProjectedInput(cases), 2 * PromptCharacters(cases) + 2400 * |cases|);
  }

  lemma ThirdsOfTokens(cases: seq<Case>)
    ensures var used := 2 * PromptCharacters(cases) + 2400 * |cases|; used <= 3 * ProjectedInput(cases) <= used + 4
  {
    TokensInNumbers(PromptCharacters(cases), |cases|, ProjectedInput(cases));
  }

  lemma QuarterMore(tokens: nat, used: nat)
    requires used <= 3 * tokens <= used + 4
    ensures AQuarterMore(WithHeadroom(tokens), used)
  {
  }

  /** Two attempts of 256 tokens back from each case, and a quarter more. */
  lemma OutputCeilingInNumbers(cases: seq<Case>)
    ensures NovaCeiling(cases).maxOutputTokens == 640 * |cases|
  {
    CeilingParts(cases);
  }

  /** At 33 and 275 cents a million, in 1e-8 dollars. */
  lemma ProjectionInNumbers(cases: seq<Case>)
    ensures var used := 2 * PromptCharacters(cases) + 2400 * |cases|;
            33 * used + 422400 * |cases| <= 3 * NovaCeiling(cases).projected <= 33 * (used + 4) + 422400 * |cases|
  {
    CeilingParts(cases);
    TokensInNumbers(PromptCharacters(cases), |cases|, ProjectedInput(cases));
  }

  /** A quarter more, and less than a cent over. */
  lemma DollarCeilingInNumbers(cases: seq<Case>)
    ensures var c := NovaCeiling(cases);
            5 * c.projected <= 4 * c.maxUsd < 5 * c.projected + 4000000
  {
    CeilingParts(cases);
    CentsInNumbers(NovaCeiling(cases).projected);
  }

  lemma CentsInNumbers(value: nat)
    ensures 5 * value <= 4 * Cents(value) < 5 * value + 4000000
  {
    CentsRoundUpOnce(value);
  }

  lemma TokensInNumbers(characters: nat, n: nat, input: nat)
    requires input == (Tokens(characters) + PROTOCOL_TOKEN_OVERHEAD * n) * ATTEMPTS_PER_CALL
    ensures 2 * characters + 2400 * n <= 3 * input <= 2 * characters + 2400 * n + 4
  {
  }

  lemma {:induction false} ConformingSums(cases: seq<Case>, replies: seq<Reply>)
    requires AllConform(cases, replies)
    ensures InputSum(replies) <= InputBounds(cases)
    ensures OutputSum(replies) <= OUTPUT_BOUND * |cases|
  {
    if cases != [] {
      var n := |cases| - 1;
      ConformingSums(cases[..n], replies[..n]);
      assert Conforms(cases[n], replies[n]);
    }
  }

  lemma {:induction false} BoundsGrow(cases: seq<Case>, k: nat)
    requires k <= |cases|
    ensures InputBounds(cases[..k]) <= InputBounds(cases)
    decreases |cases|
  {
    if k < |cases| {
      BoundsGrow(cases[..|cases| - 1], k);
      assert cases[..|cases| - 1][..k] == cases[..k];
    } else {
      assert cases[..k] == cases;
    }
  }

  lemma CostGrows(price: Price, input: nat, output: nat, input': nat, output': nat)
    requires input <= input' && output <= output'
    ensures Cost(price, input, output) <= Cost(price, input', output')
  {
    CostAdds(price, input, output, input' - input, output' - output);
  }

  /** A spend inside the bounds of part of the cases leaves every ceiling but the call count open. */
  lemma RoomForTheNext(cases: seq<Case>, s: Spend, done: nat)
    requires done < |cases|
    requires s.calls <= done && s.inputTokens <= InputBounds(cases[..done]) && s.outputTokens <= OUTPUT_BOUND * done
    requires s.usd.Some? ==> s.usd.value <= Cost(NOVA_2_LITE, s.inputTokens, s.outputTokens)
    ensures Refusal(AsBudget(NovaCeiling(cases)), s) == None
  {
    assert NovaCeiling(cases).logicalCalls == |cases|;
    BoundsGrow(cases, done);
    BoundsFitTheCeilings(cases);
    assert OUTPUT_BOUND * done <= OUTPUT_BOUND * |cases|;
    hide NovaCeiling, InputBounds, Cost;
    CostGrows(NOVA_2_LITE, s.inputTokens, s.outputTokens, InputBounds(cases), OUTPUT_BOUND * |cases|);
  }

  /**
   The guard built from the derived ceiling never refuses a run whose every case stays inside its
   own two attempts, whatever each call's outcome: all the cases are asked, on all four ceilings.
   */
  lemma {:induction false} ConformingRunIsNeverRefused(cases: seq<Case>, replies: seq<Reply>, k: nat)
    requires AllConform(cases, replies) && k <= |cases|
    ensures Admitted(AsBudget(NovaCeiling(cases)), Some(NOVA_2_LITE), replies[..k]) == replies[..k]
    decreases k
  {
    if k > 0 {
      var budget, before := AsBudget(NovaCeiling(cases)), replies[..k - 1];
      assert replies[..k][..k - 1] == before;
      ConformingRunIsNeverRefused(cases, replies, k - 1);
      GuardConserves(budget, Some(NOVA_2_LITE), before);
      MoneyFollowsTokens(budget, Some(NOVA_2_LITE), before);
      ConformingSums(cases[..k - 1], before);
      hide NovaCeiling, InputBounds, InputSum, OutputSum, AttemptSum, Sent, Cost, Unmeasured, Ask, Refusal, AsBudget;
      RoomForTheNext(cases, AskAll(budget, Some(NOVA_2_LITE), before), k - 1);
    }
  }
}
