/**
 An explanation run's numbers, overall and one family at a time, and the rules it is judged against.
 The families partition the run, so no overall number says more or less than its seven parts.
 */
module Families {
  import opened Common
  import opened Counting

  datatype Family =
    PlanSummary | TrackAutoRecoverable | TrackApprovalRequired | TrackBlocked | TrackUnaffected | CustomerWait
        | Revalidation

  /** The sum of one number a family, over all seven. */
  function Over(part: Family -> int): int {
    part(PlanSummary) + part(TrackAutoRecoverable) + part(TrackApprovalRequired) + part(TrackBlocked)
    + part(TrackUnaffected) + part(CustomerWait) + part(Revalidation)
  }

  function OverReal(part: Family -> real): real {
    part(PlanSummary) + part(TrackAutoRecoverable) + part(TrackApprovalRequired) + part(TrackBlocked)
    + part(TrackUnaffected) + part(CustomerWait) + part(Revalidation)
  }

  // ------------------------------------------------------------------ the records

  datatype FailureKind = SchemaRejection | UnknownFactRef | MissingRequiredFact | WordCap | UnsupportedDigit
      | ProviderFailure

  datatype ValidationFailure =
    | MissingToolUse | MalformedOutput | SchemaInvalid | UnsupportedVocabulary
    | UnknownCandidate | RequiredFactMissing | WordCapExceeded | UnsupportedQuantity

  /** Which counter each of the validator's refusals belongs to, when it is seen on an accepted passage. */
  function CounterOf(failure: ValidationFailure): FailureKind {
    match failure
    case MissingToolUse | MalformedOutput | SchemaInvalid | UnsupportedVocabulary => SchemaRejection
    case UnknownCandidate => UnknownFactRef
    case RequiredFactMissing => MissingRequiredFact
    case WordCapExceeded => WordCap
    case UnsupportedQuantity => UnsupportedDigit
  }

  datatype Passage = Passage(caseId: string, family: Family, accepted: bool, failure: Option<FailureKind>,
      speech: string, factRefs: seq<string>)

  datatype Flag =
    OutcomeContradiction | AuthorityContradiction | UnsupportedEntityOrOption | UnsupportedGuarantee
        | UnsupportedQuantityInWords

  datatype Dimension = Faithfulness | CausalCompleteness | Clarity | Brevity | SpeechNaturalness

  datatype Scores = Scores(faithfulness: nat, causalCompleteness: nat, clarity: nat, brevity: nat,
      speechNaturalness: nat) {
    function Of(dimension: Dimension): nat {
      match dimension
      case Faithfulness => faithfulness
      case CausalCompleteness => causalCompleteness
      case Clarity => clarity
      case Brevity => brevity
      case SpeechNaturalness => speechNaturalness
    }
  }

  /** A case with no verdict carries no scores: absence is never a zero. */
  datatype CaseScore = CaseScore(caseId: string, family: Family, accepted: bool, judged: bool, flags: set<Flag>,
      scores: Option<Scores>)

  // ------------------------------------------------------------------ counting over a run

  function Within<T>(family: T -> Family, f: Family, xs: seq<T>): seq<T> {
    Filter(x => family(x) == f, xs)
  }

  lemma WithinHolds<T>(family: T -> Family, f: Family, xs: seq<T>)
    ensures forall x :: x in Within(family, f, xs) <==> x in xs && family(x) == f
  {
    FilterCounts(x => family(x) == f, xs);
  }

  lemma WithinNext<T>(family: T -> Family, f: Family, xs: seq<T>)
    requires xs != []
    ensures var n := |xs| - 1;
            Within(family, f, xs) == Within(family, f, xs[..n]) + if family(xs[n]) == f then [xs[n]] else []
  {
  }

  function FamilyOf(score: CaseScore): Family {
    score.family
  }

  function PassageFamily(passage: Passage): Family {
    passage.family
  }

  function ScoresOf(family: Family, scores: seq<CaseScore>): seq<CaseScore> {
    Within(FamilyOf, family, scores)
  }

  function PassagesOf(family: Family, passages: seq<Passage>): seq<Passage> {
    Within(PassageFamily, family, passages)
  }

  predicate Flagged(flag: Flag, score: CaseScore) {
    score.judged && flag in score.flags
  }

  /** How many of these cases were judged to show the flag. */
  function FlagCount(flag: Flag, scores: seq<CaseScore>): nat {
    Count(s => Flagged(flag, s), scores)
  }

  function SemanticFailures(scores: seq<CaseScore>): nat {
    FlagCount(OutcomeContradiction, scores) + FlagCount(AuthorityContradiction, scores)
        + FlagCount(UnsupportedEntityOrOption, scores)
    + FlagCount(UnsupportedGuarantee, scores) + FlagCount(UnsupportedQuantityInWords, scores)
  }

  predicate IsScored(score: CaseScore) {
    score.accepted && score.scores.Some?
  }

  function ScoredOnly(scores: seq<CaseScore>): seq<CaseScore> {
    Filter(IsScored, scores)
  }

  function Mark(dimension: Dimension): CaseScore -> int {
    (s: CaseScore) => if s.scores.Some? then s.scores.value.Of(dimension) else 0
  }

  /** The mean over accepted, judged passages; none where nothing was scored. */
  function Mean(dimension: Dimension, scores: seq<CaseScore>): Option<real> {
    var scored := ScoredOnly(scores);
    if scored == [] then None else Some(Total(Mark(dimension), scored) as real / |scored| as real)
  }

  predicate Unfaithful(score: CaseScore) {
    IsScored(score) && score.scores.value.faithfulness < 3
  }

  function BelowThree(scores: seq<CaseScore>): nat {
    Count(Unfaithful, scores)
  }

  datatype Acceptance = Acceptance(cases: nat, accepted: nat, validatorRejected: nat, providerFailures: nat,
      fallbacks: nat)

  predicate Rejected(passage: Passage) {
    !passage.accepted && passage.failure.Some? && !passage.failure.value.ProviderFailure?
  }

  predicate Unreached(passage: Passage) {
    !passage.accepted && passage.failure == Some(ProviderFailure)
  }

  function Accepted(passages: seq<Passage>): Acceptance {
    Acceptance(
      |passages|,
      Count((p: Passage) => p.accepted, passages),
      Count(Rejected, passages),
      Count(Unreached, passages),
      Count((p: Passage) => !p.accepted, passages))
  }

  // ------------------------------------------------------------------ the structural counters

  /** What the application's own validator would now say of a passage it accepted, if its case is one of these. */
  function Leak(cases: map<string, Family>, validate: Passage -> Option<ValidationFailure>,
      passage: Passage): Option<FailureKind> {
    if passage.caseId !in cases || !passage.accepted then None
    else match validate(passage)
      case None => None
      case Some(failure) => Some(CounterOf(failure))
  }

  function Leaks(kind: FailureKind, cases: map<string, Family>, validate: Passage -> Option<ValidationFailure>,
      passages: seq<Passage>): nat {
    Count(p => Leak(cases, validate, p) == Some(kind), passages)
  }

  /** What the validator refused the passage for is what this counter is named after. */
  predicate Named(kind: FailureKind, failure: ValidationFailure) {
    match kind
    case SchemaRejection => failure in [MissingToolUse, MalformedOutput, SchemaInvalid, UnsupportedVocabulary]
    case UnknownFactRef => failure == UnknownCandidate
    case MissingRequiredFact => failure == RequiredFactMissing
    case WordCap => failure == WordCapExceeded
    case UnsupportedDigit => failure == UnsupportedQuantity
    case ProviderFailure => false
  }

  /** An accepted passage of a known case that the validator refuses for this. */
  predicate Slipped(kind: FailureKind, cases: map<string, Family>, validate: Passage -> Option<ValidationFailure>,
      p: Passage) {
    p.accepted && p.caseId in cases && validate(p).Some? && Named(kind, validate(p).value)
  }

  /** Each structural counter is how many such passages there are. */
  lemma CountersSayWhatSlipped(kind: FailureKind, cases: map<string, Family>,
      validate: Passage -> Option<ValidationFailure>, passages: seq<Passage>)
    ensures Leaks(kind, cases, validate, passages) == |Places(p => Slipped(kind, cases, validate, p), passages)|
  {
    CountsTheSame(p => Leak(cases, validate, p) == Some(kind), p => Slipped(kind, cases, validate, p), passages);
  }

  /** How the passages divided, passage by passage. */
  lemma AcceptanceSays(passages: seq<Passage>)
    ensures Accepted(passages).cases == |passages|
    ensures Accepted(passages).accepted == |Places((p: Passage) => p.accepted, passages)|
    ensures Accepted(passages).fallbacks == |Places((p: Passage) => !p.accepted, passages)|
    ensures Accepted(passages).providerFailures
         == |Places((p: Passage) => !p.accepted && p.failure == Some(ProviderFailure), passages)|
    ensures Accepted(passages).validatorRejected
         == |Places((p: Passage) => !p.accepted && p.failure != None && p.failure != Some(ProviderFailure), passages)|
  {
    CountIsSize((p: Passage) => p.accepted, passages);
    CountIsSize((p: Passage) => !p.accepted, passages);
    CountsTheSame(Unreached, (p: Passage) => !p.accepted && p.failure == Some(ProviderFailure), passages);
    CountsTheSame(Rejected, (p: Passage) => !p.accepted && p.failure != None && p.failure != Some(ProviderFailure),
        passages);
  }

  /** A flag is counted once for each judged passage that raised it. */
  lemma FlagsAreCounted(flag: Flag, scores: seq<CaseScore>)
    ensures FlagCount(flag, scores) == |Places((s: CaseScore) => s.judged && flag in s.flags, scores)|
  {
    CountsTheSame(s => Flagged(flag, s), (s: CaseScore) => s.judged && flag in s.flags, scores);
  }

  /** How many accepted passages were scored. */
  function Marked(scores: seq<CaseScore>): nat {
    if scores == [] then 0
    else
      var last := scores[|scores| - 1];
      Marked(scores[..|scores| - 1]) + if last.accepted && last.scores.Some? then 1 else 0
  }

  /** And what those were scored on one dimension, in all. */
  function MarkSum(d: Dimension, scores: seq<CaseScore>): nat {
    if scores == [] then 0
    else
      var before, last := MarkSum(d, scores[..|scores| - 1]), scores[|scores| - 1];
      if !last.accepted || last.scores == None then before
      else
        match (d, last.scores.value)
        case (Faithfulness, Scores(mark, _, _, _, _)) => before + mark
        case (CausalCompleteness, Scores(_, mark, _, _, _)) => before + mark
        case (Clarity, Scores(_, _, mark, _, _)) => before + mark
        case (Brevity, Scores(_, _, _, mark, _)) => before + mark
        case (SpeechNaturalness, Scores(_, _, _, _, mark)) => before + mark
  }

  lemma {:induction false} MarksAddUp(d: Dimension, scores: seq<CaseScore>)
    ensures |ScoredOnly(scores)| == Marked(scores) && Total(Mark(d), ScoredOnly(scores)) == MarkSum(d, scores)
  {
    if scores != [] {
      var n := |scores| - 1;
      MarksAddUp(d, scores[..n]);
      var before := ScoredOnly(scores[..n]);
      assert (before + [scores[n]])[..|before|] == before;
    }
  }

  /** A mean is over the accepted passages that were scored, and there is none without any. */
  lemma MeanSays(d: Dimension, scores: seq<CaseScore>)
    ensures Mean(d, scores) == if Marked(scores) == 0 then None
                               else Some(MarkSum(d, scores) as real / Marked(scores) as real)
  {
    MarksAddUp(d, scores);
  }

  const STRUCTURAL: set<FailureKind> :=
      {SchemaRejection, UnknownFactRef, MissingRequiredFact, WordCap, UnsupportedDigit}

  method HardMetrics(cases: map<string, Family>, validate: Passage -> Option<ValidationFailure>, passages: seq<Passage>)
      returns (counters: map<FailureKind, nat>)
    ensures counters.Keys == STRUCTURAL
    ensures forall kind :: kind in counters ==> counters[kind] == Leaks(kind, cases, validate, passages)
  {
    counters := map[SchemaRejection := 0, UnknownFactRef := 0, MissingRequiredFact := 0, WordCap := 0,
        UnsupportedDigit := 0];
    for k := 0 to |passages|
      invariant counters.Keys == STRUCTURAL
      invariant forall kind :: kind in counters ==> counters[kind] == Leaks(kind, cases, validate, passages[..k])
    {
      assert passages[..k + 1][..k] == passages[..k];
      var passage := passages[k];
      if passage.caseId !in cases {
        continue;
      }
      var leak := if passage.accepted then validate(passage) else None;
      if leak.Some? {
        var kind := CounterOf(leak.value);
        counters := counters[kind := counters[kind] + 1];
      }
    }
    assert passages[..|passages|] == passages;
  }

  // ------------------------------------------------------------------ the families partition the run

  function Part<T>(p: T -> bool, family: T -> Family, f: Family, xs: seq<T>): nat {
    Count(p, Within(family, f, xs))
  }

  lemma PartNext<T>(p: T -> bool, family: T -> Family, f: Family, xs: seq<T>)
    requires xs != []
    ensures var n := |xs| - 1;
            Part(p, family, f, xs) == Part(p, family, f, xs[..n]) + if family(xs[n]) == f && p(xs[n]) then 1 else 0
  {
    var n := |xs| - 1;
    var before := Within(family, f, xs[..n]);
    assert (before + [xs[n]])[..|before|] == before;
  }

  /** Whatever is counted, the run's count is the sum of its families' counts. */
  lemma {:induction false} CountsPartition<T>(p: T -> bool, family: T -> Family, xs: seq<T>)
    ensures Count(p, xs) == Over(f => Part(p, family, f, xs))
  {
    if xs != [] {
      CountsPartition(p, family, xs[..|xs| - 1]);
      PartNext(p, family, PlanSummary, xs);
      PartNext(p, family, TrackAutoRecoverable, xs);
      PartNext(p, family, TrackApprovalRequired, xs);
      PartNext(p, family, TrackBlocked, xs);
      PartNext(p, family, TrackUnaffected, xs);
      PartNext(p, family, CustomerWait, xs);
      PartNext(p, family, Revalidation, xs);
    }
  }

  lemma ScoreCountPartitions(p: CaseScore -> bool, scores: seq<CaseScore>)
    ensures Count(p, scores) == Over(f => Count(p, ScoresOf(f, scores)))
  {
    CountsPartition(p, FamilyOf, scores);
  }

  lemma PassageCountPartitions(p: Passage -> bool, passages: seq<Passage>)
    ensures Count(p, passages) == Over(f => Count(p, PassagesOf(f, passages)))
  {
    CountsPartition(p, PassageFamily, passages);
  }

  /** Each judged flag's count is the sum of the families'. */
  lemma FlagsPartition(flag: Flag, scores: seq<CaseScore>)
    ensures FlagCount(flag, scores) == Over(f => FlagCount(flag, ScoresOf(f, scores)))
  {
    ScoreCountPartitions(s => Flagged(flag, s), scores);
  }

  lemma SemanticFailuresPartition(scores: seq<CaseScore>)
    ensures SemanticFailures(scores) == Over(f => SemanticFailures(ScoresOf(f, scores)))
  {
    FlagsPartition(OutcomeContradiction, scores);
    FlagsPartition(AuthorityContradiction, scores);
    FlagsPartition(UnsupportedEntityOrOption, scores);
    FlagsPartition(UnsupportedGuarantee, scores);
    FlagsPartition(UnsupportedQuantityInWords, scores);
  }

  lemma ScoredPartition(scores: seq<CaseScore>)
    ensures |ScoredOnly(scores)| == Over(f => |ScoredOnly(ScoresOf(f, scores))|)
    ensures BelowThree(scores) == Over(f => BelowThree(ScoresOf(f, scores)))
  {
    ScoreCountPartitions(IsScored, scores);
    ScoreCountPartitions(Unfaithful, scores);
    FilterCounts(IsScored, scores);
    forall f: Family ensures |ScoredOnly(ScoresOf(f, scores))| == Count(IsScored, ScoresOf(f, scores)) {
      FilterCounts(IsScored, ScoresOf(f, scores));
    }
  }

  lemma CasesPartition(passages: seq<Passage>)
    ensures |passages| == Over(f => |PassagesOf(f, passages)|)
  {
    var any := (p: Passage) => true;
    PassageCountPartitions(any, passages);
    CountsAll(any, passages);
    forall f ensures Count(any, PassagesOf(f, passages)) == |PassagesOf(f, passages)| {
      CountsAll(any, PassagesOf(f, passages));
    }
  }

  /** How the run divided is the sum of how each family divided, and the division itself is complete. */
  lemma AcceptancePartitions(passages: seq<Passage>)
    ensures Accepted(passages).cases == Over(f => Accepted(PassagesOf(f, passages)).cases)
    ensures Accepted(passages).accepted == Over(f => Accepted(PassagesOf(f, passages)).accepted)
    ensures Accepted(passages).validatorRejected == Over(f => Accepted(PassagesOf(f, passages)).validatorRejected)
    ensures Accepted(passages).providerFailures == Over(f => Accepted(PassagesOf(f, passages)).providerFailures)
    ensures Accepted(passages).fallbacks == Over(f => Accepted(PassagesOf(f, passages)).fallbacks)
    ensures Accepted(passages).cases == Accepted(passages).accepted + Accepted(passages).fallbacks
  {
    CasesPartition(passages);
    PassageCountPartitions((p: Passage) => p.accepted, passages);
    PassageCountPartitions(Rejected, passages);
    PassageCountPartitions(Unreached, passages);
    PassageCountPartitions((p: Passage) => !p.accepted, passages);
    var any := (p: Passage) => true;
    CountSplits(any, (p: Passage) => p.accepted, (p: Passage) => !p.accepted, passages);
    CountsAll(any, passages);
  }

  // ------------------------------------------------------------------ the structural counters, family by family

  /** A family's structural counter is over its own cases and its own passages. */
  function FamilyLeaks(kind: FailureKind, f: Family, cases: map<string, Family>,
      validate: Passage -> Option<ValidationFailure>, passages: seq<Passage>): nat {
    Leaks(kind, map id | id in cases && cases[id] == f :: cases[id], validate, PassagesOf(f, passages))
  }

  /** A leaking passage filed under the family of its case. */
  predicate FiledRight(kind: FailureKind, cases: map<string, Family>, validate: Passage -> Option<ValidationFailure>,
      p: Passage) {
    Leak(cases, validate, p) == Some(kind) && cases[p.caseId] == p.family
  }

  lemma FamilyLeaksCount(kind: FailureKind, f: Family, cases: map<string, Family>,
      validate: Passage -> Option<ValidationFailure>, passages: seq<Passage>)
    ensures FamilyLeaks(kind, f, cases, validate, passages)
        == Count(p => FiledRight(kind, cases, validate, p), PassagesOf(f, passages))
  {
    var own := map id | id in cases && cases[id] == f :: cases[id];
    WithinHolds(PassageFamily, f, passages);
    CountSame(p => Leak(own, validate, p) == Some(kind), p => FiledRight(kind, cases, validate, p),
        PassagesOf(f, passages));
  }

  lemma FamilyLeaksSum(kind: FailureKind, cases: map<string, Family>, validate: Passage -> Option<ValidationFailure>,
      passages: seq<Passage>)
    ensures Over(f => FamilyLeaks(kind, f, cases, validate, passages))
        == Count(p => FiledRight(kind, cases, validate, p), passages)
  {
    var filed := p => FiledRight(kind, cases, validate, p);
    PassageCountPartitions(filed, passages);
    FamilyLeaksCount(kind, PlanSummary, cases, validate, passages);
    FamilyLeaksCount(kind, TrackAutoRecoverable, cases, validate, passages);
    FamilyLeaksCount(kind, TrackApprovalRequired, cases, validate, passages);
    FamilyLeaksCount(kind, TrackBlocked, cases, validate, passages);
    FamilyLeaksCount(kind, TrackUnaffected, cases, validate, passages);
    FamilyLeaksCount(kind, CustomerWait, cases, validate, passages);
    FamilyLeaksCount(kind, Revalidation, cases, validate, passages);
  }

  /**
   The families' structural counters never add up to more than the run's, and add up to exactly it
   when and only when every leaking passage is filed under the family of its case.
   */
  lemma LeaksPartition(kind: FailureKind, cases: map<string, Family>, validate: Passage -> Option<ValidationFailure>,
      passages: seq<Passage>)
    ensures Over(f => FamilyLeaks(kind, f, cases, validate, passages)) <= Leaks(kind, cases, validate, passages)
    ensures Over(f => FamilyLeaks(kind, f, cases, validate, passages)) == Leaks(kind, cases, validate, passages)
            <==> forall p :: p in passages && Leak(cases, validate, p) == Some(kind) ==> cases[p.caseId] == p.family
  {
    FamilyLeaksSum(kind, cases, validate, passages);
    CountGrows(p => FiledRight(kind, cases, validate, p), p => Leak(cases, validate, p) == Some(kind), passages);
  }
}
