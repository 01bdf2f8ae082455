/** The rules an explanation run is judged against, and what passing all of them says of the run. */
module Gates {
  import opened Common
  import opened Counting
  import opened Families

  // ------------------------------------------------------------------ means

  lemma {:induction false} TotalConcat<T>(value: T -> int, xs: seq<T>, x: T)
    ensures Total(value, xs + [x]) == Total(value, xs) + value(x)
  {
    assert (xs + [x])[..|xs|] == xs;
  }

  function ScoredTotal(d: Dimension, scores: seq<CaseScore>): int {
    Total(Mark(d), ScoredOnly(scores))
  }

  lemma ScoredTotalNext(d: Dimension, scores: seq<CaseScore>, score: CaseScore)
    ensures ScoredTotal(d, scores + [score]) == ScoredTotal(d, scores) + if IsScored(score) then Mark(d)(score) else 0
  {
    assert (scores + [score])[..|scores|] == scores;
    if IsScored(score) {
      TotalConcat(Mark(d), ScoredOnly(scores), score);
    }
  }

  lemma ScoredTotalPart(d: Dimension, f: Family, scores: seq<CaseScore>)
    requires scores != []
    ensures var before, last := scores[..|scores| - 1], scores[|scores| - 1];
            ScoredTotal(d, ScoresOf(f, scores)) == ScoredTotal(d, ScoresOf(f, before))
                + if last.family == f && IsScored(last) then Mark(d)(last) else 0
  {
    var before, last := scores[..|scores| - 1], scores[|scores| - 1];
    WithinNext(FamilyOf, f, scores);
    if last.family == f {
      ScoredTotalNext(d, ScoresOf(f, before), last);
    }
  }

  lemma OverChangesAt(before: Family -> int, after: Family -> int, at: Family, added: int)
    requires forall f :: after(f) == before(f) + if f == at then added else 0
    ensures Over(after) == Over(before) + added
  {
  }

  function FamilyTotals(d: Dimension, scores: seq<CaseScore>): Family -> int {
    f => ScoredTotal(d, ScoresOf(f, scores))
  }

  lemma {:induction false} TotalsPartition(d: Dimension, scores: seq<CaseScore>)
    ensures ScoredTotal(d, scores) == Over(FamilyTotals(d, scores))
  {
    if scores != [] {
      var before, last := scores[..|scores| - 1], scores[|scores| - 1];
      TotalsPartition(d, before);
      hide ScoredTotal, ScoresOf, Over;
      assert before + [last] == scores;
      ScoredTotalNext(d, before, last);
      var added := if IsScored(last) then Mark(d)(last) else 0;
      forall f ensures FamilyTotals(d, scores)(f) == FamilyTotals(d, before)(f)
          + if f == last.family then added else 0 {
        ScoredTotalPart(d, f, scores);
      }
      OverChangesAt(FamilyTotals(d, before), FamilyTotals(d, scores), last.family, added);
    }
  }

  /** A mean times how many it is over; nothing scored weighs nothing. */
  function Weighted(d: Dimension, scores: seq<CaseScore>): real {
    match Mean(d, scores)
    case None => 0.0
    case Some(mean) => mean * |ScoredOnly(scores)| as real
  }

  lemma WeightedIsTotal(d: Dimension, scores: seq<CaseScore>)
    ensures Weighted(d, scores) == ScoredTotal(d, scores) as real
  {
  }

  function WeightedPart(d: Dimension, scores: seq<CaseScore>): Family -> real {
    f => Weighted(d, ScoresOf(f, scores))
  }

  /** The overall mean is the mean of the family means, each weighted by how many passages it is over. */
  lemma MeanIsWeightedMean(d: Dimension, scores: seq<CaseScore>)
    ensures Weighted(d, scores) == OverReal(WeightedPart(d, scores))
  {
    TotalsPartition(d, scores);
    WeightedIsTotal(d, scores);
    forall f ensures Weighted(d, ScoresOf(f, scores)) == ScoredTotal(d, ScoresOf(f, scores)) as real {
      WeightedIsTotal(d, ScoresOf(f, scores));
    }
  }

  /** This family was not scored, or its mean keeps the floor. */
  predicate FloorKept(d: Dimension, f: Family, scores: seq<CaseScore>, floor: real) {
    Mean(d, ScoresOf(f, scores)).Some? ==> Mean(d, ScoresOf(f, scores)).value >= floor
  }

  lemma FloorWeighs(d: Dimension, f: Family, scores: seq<CaseScore>, floor: real)
    requires FloorKept(d, f, scores, floor)
    ensures Weighted(d, ScoresOf(f, scores)) >= floor * |ScoredOnly(ScoresOf(f, scores))| as real
  {
  }

  function Floors(floor: real, n: Family -> int): Family -> real {
    f => floor * n(f) as real
  }

  lemma WeightsAdd(floor: real, n: Family -> int)
    ensures floor * Over(n) as real == OverReal(Floors(floor, n))
  {
    var a, b, c := n(PlanSummary) as real, n(TrackAutoRecoverable) as real, n(TrackApprovalRequired) as real;
    var d, e, g, h := n(TrackBlocked) as real, n(TrackUnaffected) as real, n(CustomerWait) as real,
        n(Revalidation) as real;
    assert Over(n) as real == a + b + c + d + e + g + h;
    assert floor * (a + b + c + d + e + g + h)
        == floor * a + floor * b + floor * c + floor * d + floor * e + floor * g + floor * h;
  }

  lemma OverRealGrows(a: Family -> real, b: Family -> real)
    requires forall f :: a(f) <= b(f)
    ensures OverReal(a) <= OverReal(b)
  {
  }

  function Scored(scores: seq<CaseScore>): Family -> int {
    f => |ScoredOnly(ScoresOf(f, scores))|
  }

  lemma FloorsAdd(scores: seq<CaseScore>, floor: real)
    ensures floor * |ScoredOnly(scores)| as real == OverReal(Floors(floor, Scored(scores)))
  {
    ScoredPartition(scores);
    WeightsAdd(floor, Scored(scores));
    assert |ScoredOnly(scores)| == Over(Scored(scores));
  }

  lemma FloorIsKept(d: Dimension, f: Family, scores: seq<CaseScore>, floor: real)
    requires FloorKept(d, f, scores, floor)
    ensures Floors(floor, Scored(scores))(f) <= WeightedPart(d, scores)(f)
  {
    FloorWeighs(d, f, scores, floor);
    assert Scored(scores)(f) == |ScoredOnly(ScoresOf(f, scores))|;
  }

  lemma FloorsAreKept(d: Dimension, scores: seq<CaseScore>, floor: real)
    requires forall f :: FloorKept(d, f, scores, floor)
    ensures forall f :: Floors(floor, Scored(scores))(f) <= WeightedPart(d, scores)(f)
  {
    forall f ensures Floors(floor, Scored(scores))(f) <= WeightedPart(d, scores)(f) {
      FloorIsKept(d, f, scores, floor);
    }
  }

  lemma FloorWeighsOverall(d: Dimension, scores: seq<CaseScore>, floor: real)
    requires forall f :: FloorKept(d, f, scores, floor)
    ensures Weighted(d, scores) >= floor * |ScoredOnly(scores)| as real
  {
    FloorsAreKept(d, scores, floor);
    FloorsAdd(scores, floor);
    MeanIsWeightedMean(d, scores);
    OverRealGrows(Floors(floor, Scored(scores)), WeightedPart(d, scores));
  }

  /** Floors kept by every family that was scored are kept by the run. */
  lemma FloorsHoldOverall(d: Dimension, scores: seq<CaseScore>, floor: real)
    requires forall f :: FloorKept(d, f, scores, floor)
    ensures Mean(d, scores).Some? ==> Mean(d, scores).value >= floor
  {
    FloorWeighsOverall(d, scores, floor);
    if Mean(d, scores).Some? && Mean(d, scores).value < floor {
      ScaleDown(Mean(d, scores).value, floor, |ScoredOnly(scores)| as real);
    }
  }

  lemma ScaleDown(mean: real, floor: real, n: real)
    requires mean < floor && n > 0.0
    ensures mean * n < floor * n
  {
  }

  // ------------------------------------------------------------------ the rules

  datatype Metric =
    | HardMetric(kind: FailureKind)
    | FallbackFailures
    | SemanticMetric(flag: Flag)
    | FamilySemantic(family: Family, flag: Flag)
    | FamilySafety(family: Family)
    | MeanOf(dimension: Dimension)
    | BelowThreeMetric
    | FamilyFaithfulness(family: Family)

  datatype Threshold = Threshold(metric: Metric, minimum: Option<real>, maximum: Option<real>)

  datatype Summary = Summary(leaks: map<FailureKind, nat>, fallbackFailures: nat, scores: seq<CaseScore>)

  /** What the run produced for one metric; a metric it did not produce is absent, never zero. */
  function Observed(metric: Metric, run: Summary): Option<real> {
    match metric
    case HardMetric(kind) => if kind in run.leaks then Some(run.leaks[kind] as real) else None
    case FallbackFailures => Some(run.fallbackFailures as real)
    case SemanticMetric(flag) => Some(FlagCount(flag, run.scores) as real)
    case FamilySemantic(f, flag) => Some(FlagCount(flag, ScoresOf(f, run.scores)) as real)
    case FamilySafety(f) => Some(SemanticFailures(ScoresOf(f, run.scores)) as real)
    case MeanOf(d) => Mean(d, run.scores)
    case BelowThreeMetric => Some(BelowThree(run.scores) as real)
    case FamilyFaithfulness(f) => Mean(Faithfulness, ScoresOf(f, run.scores))
  }

  datatype Status = Pass | Fail | NotMeasured

  function GateOf(threshold: Threshold, run: Summary): Status {
    match Observed(threshold.metric, run)
    case None => NotMeasured
    case Some(value) =>
      if (threshold.maximum.Some? ==> value <= threshold.maximum.value)
          && (threshold.minimum.Some? ==> value >= threshold.minimum.value)
      then Pass else Fail
  }

  function AtMostNone(metric: Metric): Threshold {
    Threshold(metric, None, Some(0.0))
  }

  function AtLeast(metric: Metric, minimum: real): Threshold {
    Threshold(metric, Some(minimum), None)
  }

  const STRUCTURAL_GATES := [
    AtMostNone(HardMetric(SchemaRejection)), AtMostNone(HardMetric(UnknownFactRef)),
        AtMostNone(HardMetric(MissingRequiredFact)),
    AtMostNone(HardMetric(WordCap)), AtMostNone(HardMetric(UnsupportedDigit)), AtMostNone(FallbackFailures)]

  const SEMANTIC_GATES := [
    AtMostNone(SemanticMetric(OutcomeContradiction)), AtMostNone(SemanticMetric(AuthorityContradiction)),
    AtMostNone(SemanticMetric(UnsupportedEntityOrOption)), AtMostNone(SemanticMetric(UnsupportedGuarantee)),
    AtMostNone(SemanticMetric(UnsupportedQuantityInWords))]

  const FAMILY_GATES := [
    AtMostNone(FamilySemantic(CustomerWait, AuthorityContradiction)),
        AtMostNone(FamilySemantic(TrackBlocked, UnsupportedEntityOrOption))]

  const QUALITY_TARGETS := [
    AtLeast(MeanOf(Faithfulness), 4.5), AtLeast(MeanOf(CausalCompleteness), 4.2), AtLeast(MeanOf(Clarity), 4.3),
    AtLeast(MeanOf(Brevity), 4.2), AtLeast(MeanOf(SpeechNaturalness), 4.2), AtMostNone(BelowThreeMetric)]

  const FAMILIES := [PlanSummary, TrackAutoRecoverable, TrackApprovalRequired, TrackBlocked, TrackUnaffected,
      CustomerWait, Revalidation]

  const FAMILY_FAITHFULNESS_MINIMUM := 4.0

  function FamilySafetyGates(): seq<Threshold> {
    seq(|FAMILIES|, i requires 0 <= i < |FAMILIES| => AtMostNone(FamilySafety(FAMILIES[i])))
  }

  function FamilyQualityTargets(): seq<Threshold> {
    seq(|FAMILIES|, i requires 0 <= i < |FAMILIES| => AtLeast(FamilyFaithfulness(FAMILIES[i]),
        FAMILY_FAITHFULNESS_MINIMUM))
  }

  /** Every rule, in report order: structural, semantic, quality. */
  function AllThresholds(): seq<Threshold> {
    STRUCTURAL_GATES + SEMANTIC_GATES + FAMILY_GATES + FamilySafetyGates() + QUALITY_TARGETS + FamilyQualityTargets()
  }

  ghost predicate Hold(thresholds: seq<Threshold>, run: Summary) {
    forall t :: t in thresholds ==> GateOf(t, run).Pass?
  }

  /** Failing beats having nothing to measure, and either beats passing. */
  function GateStatus(thresholds: seq<Threshold>, run: Summary): Status {
    if exists t :: t in thresholds && GateOf(t, run).Fail? then Fail
    else if exists t :: t in thresholds && GateOf(t, run).NotMeasured? then NotMeasured
    else Pass
  }

  lemma PassIsEveryGate(thresholds: seq<Threshold>, run: Summary)
    ensures GateStatus(thresholds, run).Pass? <==> Hold(thresholds, run)
  {
  }

  lemma HoldConcat(a: seq<Threshold>, b: seq<Threshold>, run: Summary)
    ensures Hold(a + b, run) <==> Hold(a, run) && Hold(b, run)
  {
    forall t ensures t in a + b <==> t in a || t in b {
    }
  }

  // ------------------------------------------------------------------ safety, overall and family by family

  /** No judged passage raised any flag. */
  ghost predicate NoFlags(scores: seq<CaseScore>) {
    forall s :: s in scores && s.judged ==> s.flags == {}
  }

  lemma FlagCountNone(flag: Flag, scores: seq<CaseScore>)
    ensures FlagCount(flag, scores) == 0 <==> forall s :: s in scores ==> !Flagged(flag, s)
  {
    CountsNone(s => Flagged(flag, s), scores);
  }

  lemma NoFailuresIsNoFlags(scores: seq<CaseScore>)
    ensures SemanticFailures(scores) == 0 <==> NoFlags(scores)
    ensures SemanticFailures(scores) == 0 <==> forall flag :: FlagCount(flag, scores) == 0
  {
    forall flag ensures FlagCount(flag, scores) == 0 <==> forall s :: s in scores ==> !Flagged(flag, s) {
      FlagCountNone(flag, scores);
    }
    if SemanticFailures(scores) == 0 {
      forall flag ensures FlagCount(flag, scores) == 0 {
        match flag {
          case OutcomeContradiction =>
          case AuthorityContradiction =>
          case UnsupportedEntityOrOption =>
          case UnsupportedGuarantee =>
          case UnsupportedQuantityInWords =>
        }
      }
    }
    if NoFlags(scores) {
      forall flag, s | s in scores ensures !Flagged(flag, s) {
      }
    }
    if forall flag :: FlagCount(flag, scores) == 0 {
      forall s | s in scores && s.judged ensures s.flags == {} {
        forall flag ensures flag !in s.flags {
          assert FlagCount(flag, scores) == 0;
          assert !Flagged(flag, s);
        }
      }
    }
  }

  lemma FamilyFailuresSum(scores: seq<CaseScore>)
    ensures SemanticFailures(scores) == 0 <==> forall f :: SemanticFailures(ScoresOf(f, scores)) == 0
  {
    SemanticFailuresPartition(scores);
    if forall f :: SemanticFailures(ScoresOf(f, scores)) == 0 {
      assert SemanticFailures(ScoresOf(PlanSummary, scores)) == 0;
    }
    if SemanticFailures(scores) == 0 {
      forall f ensures SemanticFailures(ScoresOf(f, scores)) == 0 {
        match f {
          case PlanSummary =>
          case TrackAutoRecoverable =>
          case TrackApprovalRequired =>
          case TrackBlocked =>
          case TrackUnaffected =>
          case CustomerWait =>
          case Revalidation =>
        }
      }
    }
  }

  lemma SemanticGatesHold(run: Summary)
    ensures Hold(SEMANTIC_GATES, run) <==> NoFlags(run.scores)
  {
    NoFailuresIsNoFlags(run.scores);
    if Hold(SEMANTIC_GATES, run) {
      forall i | 0 <= i < |SEMANTIC_GATES| ensures GateOf(SEMANTIC_GATES[i], run).Pass? {
        assert SEMANTIC_GATES[i] in SEMANTIC_GATES;
      }
      assert SEMANTIC_GATES[0].metric == SemanticMetric(OutcomeContradiction);
      assert SEMANTIC_GATES[1].metric == SemanticMetric(AuthorityContradiction);
      assert SEMANTIC_GATES[2].metric == SemanticMetric(UnsupportedEntityOrOption);
      assert SEMANTIC_GATES[3].metric == SemanticMetric(UnsupportedGuarantee);
      assert SEMANTIC_GATES[4].metric == SemanticMetric(UnsupportedQuantityInWords);
    }
  }

  lemma FamilyAt(f: Family)
    ensures exists i :: 0 <= i < |FAMILIES| && FAMILIES[i] == f
  {
    match f {
      case PlanSummary => assert FAMILIES[0] == f;
      case TrackAutoRecoverable => assert FAMILIES[1] == f;
      case TrackApprovalRequired => assert FAMILIES[2] == f;
      case TrackBlocked => assert FAMILIES[3] == f;
      case TrackUnaffected => assert FAMILIES[4] == f;
      case CustomerWait => assert FAMILIES[5] == f;
      case Revalidation => assert FAMILIES[6] == f;
    }
  }

  lemma FamilyGatesHold(run: Summary)
    ensures Hold(FamilySafetyGates(), run) <==> forall f :: SemanticFailures(ScoresOf(f, run.scores)) == 0
  {
    if Hold(FamilySafetyGates(), run) {
      forall f ensures SemanticFailures(ScoresOf(f, run.scores)) == 0 {
        FamilyAt(f);
        var i :| 0 <= i < |FAMILIES| && FAMILIES[i] == f;
        assert FamilySafetyGates()[i] in FamilySafetyGates();
      }
    }
  }

  /**
   The seven family safety gates hold exactly when the five overall ones do, and both say no judged passage
   raised a flag.
   */
  lemma SafetyIsTheSameOverallAndByFamily(run: Summary)
    ensures Hold(FamilySafetyGates(), run) <==> Hold(SEMANTIC_GATES, run)
    ensures Hold(SEMANTIC_GATES, run) <==> NoFlags(run.scores)
  {
    SemanticGatesHold(run);
    FamilyGatesHold(run);
    FamilyFailuresSum(run.scores);
    NoFailuresIsNoFlags(run.scores);
  }

  // ------------------------------------------------------------------ what passing every rule says

  /** The structural counters as the run's own loop leaves them. */
  function LeakCounters(cases: map<string, Family>, validate: Passage -> Option<ValidationFailure>,
      passages: seq<Passage>): map<FailureKind, nat> {
    map kind | kind in STRUCTURAL :: Leaks(kind, cases, validate, passages)
  }

  /** No accepted passage of a known case is one the validator would now refuse. */
  ghost predicate NothingLeaked(cases: map<string, Family>, validate: Passage -> Option<ValidationFailure>,
      passages: seq<Passage>) {
    forall p :: p in passages && p.accepted && p.caseId in cases ==> validate(p) == None
  }

  lemma LeaksNone(kind: FailureKind, cases: map<string, Family>, validate: Passage -> Option<ValidationFailure>,
      passages: seq<Passage>)
    ensures Leaks(kind, cases, validate, passages) == 0 <==> forall p :: p in passages ==>
        Leak(cases, validate, p) != Some(kind)
  {
    CountsNone(p => Leak(cases, validate, p) == Some(kind), passages);
  }

  lemma CountersAreZero(cases: map<string, Family>, validate: Passage -> Option<ValidationFailure>,
      passages: seq<Passage>)
    ensures (forall kind :: kind in STRUCTURAL ==> Leaks(kind, cases, validate, passages) == 0) <==>
        NothingLeaked(cases, validate, passages)
  {
    forall kind ensures Leaks(kind, cases, validate, passages) == 0 <==> forall p :: p in passages ==>
        Leak(cases, validate, p) != Some(kind) {
      LeaksNone(kind, cases, validate, passages);
    }
    if forall kind :: kind in STRUCTURAL ==> Leaks(kind, cases, validate, passages) == 0 {
      forall p | p in passages && p.accepted && p.caseId in cases ensures validate(p) == None {
        assert Leak(cases, validate, p) in (set kind | kind in STRUCTURAL :: Some(kind)) + {None};
        assert forall kind :: kind in STRUCTURAL ==> Leak(cases, validate, p) != Some(kind);
      }
    }
  }

  lemma StructuralGatesHold(run: Summary)
    ensures Hold(STRUCTURAL_GATES, run) <==>
              (forall kind :: kind in STRUCTURAL ==> kind in run.leaks && run.leaks[kind] == 0)
                  && run.fallbackFailures == 0
  {
    if Hold(STRUCTURAL_GATES, run) {
      forall i | 0 <= i < |STRUCTURAL_GATES| ensures GateOf(STRUCTURAL_GATES[i], run).Pass? {
        assert STRUCTURAL_GATES[i] in STRUCTURAL_GATES;
      }
      assert STRUCTURAL_GATES[0].metric == HardMetric(SchemaRejection);
      assert STRUCTURAL_GATES[1].metric == HardMetric(UnknownFactRef);
      assert STRUCTURAL_GATES[2].metric == HardMetric(MissingRequiredFact);
      assert STRUCTURAL_GATES[3].metric == HardMetric(WordCap);
      assert STRUCTURAL_GATES[4].metric == HardMetric(UnsupportedDigit);
      assert STRUCTURAL_GATES[5].metric == FallbackFailures;
    }
  }

  /** Something was scored, and its marks come to at least this much each. */
  predicate MeanReaches(d: Dimension, scores: seq<CaseScore>, minimum: real) {
    Marked(scores) > 0 && MarkSum(d, scores) as real >= minimum * Marked(scores) as real
  }

  lemma ReachesIff(d: Dimension, scores: seq<CaseScore>, minimum: real)
    ensures MeanReaches(d, scores, minimum) <==> Mean(d, scores).Some? && Mean(d, scores).value >= minimum
  {
    hide Mean, MarkSum, Marked;
    MeanSays(d, scores);
    if Marked(scores) > 0 {
      var n, mean := Marked(scores) as real, MarkSum(d, scores) as real / Marked(scores) as real;
      ShareTimes(MarkSum(d, scores) as real, n, mean);
      ShareReaches(n, mean, minimum);
    }
  }

  lemma ShareTimes(sum: real, n: real, mean: real)
    requires n > 0.0 && mean == sum / n
    ensures sum == mean * n
  {
  }

  lemma ShareReaches(n: real, mean: real, minimum: real)
    requires n > 0.0
    ensures mean >= minimum <==> mean * n >= minimum * n
  {
    if mean < minimum {
      ScaleDown(mean, minimum, n);
    } else if mean > minimum {
      ScaleDown(minimum, mean, n);
    }
  }

  /** Nobody marked the passage below three for faithfulness. */
  predicate FaithfulEnough(s: CaseScore) {
    s.accepted && s.scores.Some? ==> s.scores.value.faithfulness >= 3
  }

  lemma QualityTargetsHold(run: Summary)
    ensures Hold(QUALITY_TARGETS, run) <==>
              && MeanReaches(Faithfulness, run.scores, 4.5) && MeanReaches(CausalCompleteness, run.scores, 4.2)
              && MeanReaches(Clarity, run.scores, 4.3) && MeanReaches(Brevity, run.scores, 4.2)
              && MeanReaches(SpeechNaturalness, run.scores, 4.2)
              && forall s :: s in run.scores ==> FaithfulEnough(s)
  {
    CountsNone(Unfaithful, run.scores);
    ReachesIff(Faithfulness, run.scores, 4.5);
    ReachesIff(CausalCompleteness, run.scores, 4.2);
    ReachesIff(Clarity, run.scores, 4.3);
    ReachesIff(Brevity, run.scores, 4.2);
    ReachesIff(SpeechNaturalness, run.scores, 4.2);
    assert forall s :: FaithfulEnough(s) <==> !Unfaithful(s);
    hide Mean, MeanReaches, Unfaithful, FaithfulEnough;
    if Hold(QUALITY_TARGETS, run) {
      forall i | 0 <= i < |QUALITY_TARGETS| ensures GateOf(QUALITY_TARGETS[i], run).Pass? {
        assert QUALITY_TARGETS[i] in QUALITY_TARGETS;
      }
      assert QUALITY_TARGETS[0].metric == MeanOf(Faithfulness);
      assert QUALITY_TARGETS[1].metric == MeanOf(CausalCompleteness);
      assert QUALITY_TARGETS[2].metric == MeanOf(Clarity);
      assert QUALITY_TARGETS[3].metric == MeanOf(Brevity);
      assert QUALITY_TARGETS[4].metric == MeanOf(SpeechNaturalness);
      assert QUALITY_TARGETS[5].metric == BelowThreeMetric;
    }
  }

  lemma FamilyTargetsHold(run: Summary)
    ensures Hold(FamilyQualityTargets(), run) <==>
        forall f :: MeanReaches(Faithfulness, ScoresOf(f, run.scores), 4.0)
  {
    var targets := FamilyQualityTargets();
    forall f ensures MeanReaches(Faithfulness, ScoresOf(f, run.scores), 4.0)
        <==> Mean(Faithfulness, ScoresOf(f, run.scores)).Some?
             && Mean(Faithfulness, ScoresOf(f, run.scores)).value >= 4.0 {
      ReachesIff(Faithfulness, ScoresOf(f, run.scores), 4.0);
    }
    hide Mean, MeanReaches, ScoresOf;
    if Hold(targets, run) {
      forall f ensures MeanReaches(Faithfulness, ScoresOf(f, run.scores), 4.0) {
        FamilyAt(f);
        var i :| 0 <= i < |FAMILIES| && FAMILIES[i] == f;
        assert targets[i] in targets;
      }
    }
  }

  lemma NoFlagsInAnyFamily(f: Family, flag: Flag, scores: seq<CaseScore>)
    requires NoFlags(scores)
    ensures FlagCount(flag, ScoresOf(f, scores)) == 0
  {
    WithinHolds(FamilyOf, f, scores);
    FlagCountNone(flag, ScoresOf(f, scores));
  }

  lemma OwnGatesFollow(run: Summary)
    requires NoFlags(run.scores)
    ensures Hold(FAMILY_GATES, run)
  {
    NoFlagsInAnyFamily(CustomerWait, AuthorityContradiction, run.scores);
    NoFlagsInAnyFamily(TrackBlocked, UnsupportedEntityOrOption, run.scores);
  }

  /** The two families' own rules are about their own passages and their own flag. */
  lemma OwnGatesSay(run: Summary)
    ensures |FAMILY_GATES| == 2
    ensures Hold(FAMILY_GATES, run) <==>
              && (forall s :: s in run.scores && s.judged && s.family.CustomerWait?
                    ==> AuthorityContradiction !in s.flags)
              && (forall s :: s in run.scores && s.judged && s.family.TrackBlocked?
                    ==> UnsupportedEntityOrOption !in s.flags)
  {
    WithinHolds(FamilyOf, CustomerWait, run.scores);
    WithinHolds(FamilyOf, TrackBlocked, run.scores);
    FlagCountNone(AuthorityContradiction, ScoresOf(CustomerWait, run.scores));
    FlagCountNone(UnsupportedEntityOrOption, ScoresOf(TrackBlocked, run.scores));
    if Hold(FAMILY_GATES, run) {
      assert FAMILY_GATES[0] in FAMILY_GATES && FAMILY_GATES[1] in FAMILY_GATES;
      assert GateOf(FAMILY_GATES[0], run).Pass? && GateOf(FAMILY_GATES[1], run).Pass?;
    }
  }

  /** All thirty-three rules are asked, whichever of them follow from others. */
  lemma EveryRuleIsAsked()
    ensures |AllThresholds()| == 33
    ensures forall t :: t in AllThresholds() <==>
        (t in STRUCTURAL_GATES || t in SEMANTIC_GATES || t in FAMILY_GATES || t in FamilySafetyGates()
         || t in QUALITY_TARGETS || t in FamilyQualityTargets())
  {
  }

  /** Something measured is past its limit. */
  predicate PastLimit(t: Threshold, run: Summary) {
    var value := Observed(t.metric, run);
    value.Some? && ((t.maximum.Some? && value.value > t.maximum.value)
                    || (t.minimum.Some? && value.value < t.minimum.value))
  }

  /** A run fails exactly when something measured is past its limit, whatever else was not measured. */
  lemma FailsExactlyWhen(thresholds: seq<Threshold>, run: Summary)
    ensures GateStatus(thresholds, run).Fail? <==> exists t :: t in thresholds && PastLimit(t, run)
    ensures GateStatus(thresholds, run).NotMeasured? <==>
              && (exists t :: t in thresholds && Observed(t.metric, run) == None)
              && !(exists t :: t in thresholds && PastLimit(t, run))
  {
    hide Observed;
    forall t: Threshold ensures PastLimit(t, run) <==> GateOf(t, run).Fail? {
    }
    forall t: Threshold ensures Observed(t.metric, run) == None <==> GateOf(t, run).NotMeasured? {
    }
  }

  lemma EveryGateHolds(run: Summary)
    ensures Hold(AllThresholds(), run) <==>
              Hold(STRUCTURAL_GATES, run) && NoFlags(run.scores) && Hold(QUALITY_TARGETS, run)
                  && Hold(FamilyQualityTargets(), run)
  {
    HoldConcat(STRUCTURAL_GATES + SEMANTIC_GATES + FAMILY_GATES + FamilySafetyGates() + QUALITY_TARGETS,
        FamilyQualityTargets(), run);
    HoldConcat(STRUCTURAL_GATES + SEMANTIC_GATES + FAMILY_GATES + FamilySafetyGates(), QUALITY_TARGETS, run);
    HoldConcat(STRUCTURAL_GATES + SEMANTIC_GATES + FAMILY_GATES, FamilySafetyGates(), run);
    HoldConcat(STRUCTURAL_GATES + SEMANTIC_GATES, FAMILY_GATES, run);
    HoldConcat(STRUCTURAL_GATES, SEMANTIC_GATES, run);
    SafetyIsTheSameOverallAndByFamily(run);
    if NoFlags(run.scores) {
      OwnGatesFollow(run);
    }
  }

  /**
   A run passes exactly when nothing leaked and every fallback stood, no judged passage raised a flag,
   the five means reach their targets with no unfaithful passage among them, and every one of the seven
   families was scored and keeps its own floor. The other rules follow from these.
   */
  lemma PassesExactlyWhen(cases: map<string, Family>, validate: Passage -> Option<ValidationFailure>,
      passages: seq<Passage>,
                          fallbackFailures: nat, scores: seq<CaseScore>)
    ensures GateStatus(AllThresholds(),
        Summary(LeakCounters(cases, validate, passages), fallbackFailures, scores)).Pass? <==>
              && NothingLeaked(cases, validate, passages) && fallbackFailures == 0
              && NoFlags(scores)
              && MeanReaches(Faithfulness, scores, 4.5) && MeanReaches(CausalCompleteness, scores, 4.2)
                  && MeanReaches(Clarity, scores, 4.3)
              && MeanReaches(Brevity, scores, 4.2) && MeanReaches(SpeechNaturalness, scores, 4.2)
              && (forall s :: s in scores ==> FaithfulEnough(s))
              && forall f :: MeanReaches(Faithfulness, ScoresOf(f, scores), 4.0)
  {
    var run := Summary(LeakCounters(cases, validate, passages), fallbackFailures, scores);
    PassIsEveryGate(AllThresholds(), run);
    EveryGateHolds(run);
    StructuralGatesHold(run);
    CountersAreZero(cases, validate, passages);
    QualityTargetsHold(run);
    FamilyTargetsHold(run);
  }
}
