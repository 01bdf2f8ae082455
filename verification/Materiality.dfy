/**
 What the paired readings add up to: outcomes, wins and losses, and whether a first stage earned a
 second. The two joins answer for each other, so what the first stage counts is part of the whole.
 */
module Materiality {
  import opened Common
  import opened Results
  import opened Order
  import opened StageA
  import opened Joins
  import Selection
  import opened Counting

  // ------------------------------------------------------------------ one case

  predicate Comparable(p: PairedCase) {
    !p.outcome.NobodyReached?
  }

  predicate SourceCorrect(p: PairedCase) {
    p.sourcePredicted == Some(p.gold)
  }

  predicate ChallengerCorrect(p: PairedCase) {
    Comparable(p) && p.challengerPredicted == Some(p.gold)
  }

  predicate Outcome(outcome: PairedOutcome, p: PairedCase) {
    p.outcome == outcome
  }

  function Outcomes(outcome: PairedOutcome, paired: seq<PairedCase>): nat {
    Count(p => Outcome(outcome, p), paired)
  }

  /** The two readings agree with the outcome: a failure is what the source misread, a control what it read right. */
  predicate Told(p: PairedCase) {
    && (p.role.ControlRole? <==> SourceCorrect(p))
    && (Comparable(p) ==> match p.outcome
          case Repaired => !SourceCorrect(p) && ChallengerCorrect(p)
          case UnchangedFailure => !SourceCorrect(p) && !ChallengerCorrect(p)
          case ControlPreserved => SourceCorrect(p) && ChallengerCorrect(p)
          case ControlRegression => SourceCorrect(p) && !ChallengerCorrect(p))
  }

  predicate AllTold(paired: seq<PairedCase>) {
    forall p :: p in paired ==> Told(p)
  }

  // ------------------------------------------------------------------ wins and losses

  datatype PairedTotals = PairedTotals(cases: nat, bothCorrect: nat, bothWrong: nat, challengerOnlyCorrect: nat,
      sourceOnlyCorrect: nat)

  /** The four cells, over the comparable cases alone. */
  function Compare(paired: seq<PairedCase>): PairedTotals {
    var comparable := Filter(Comparable, paired);
    PairedTotals(
      |comparable|,
      Count(p => SourceCorrect(p) && ChallengerCorrect(p), comparable),
      Count(p => !SourceCorrect(p) && !ChallengerCorrect(p), comparable),
      Count(p => ChallengerCorrect(p) && !SourceCorrect(p), comparable),
      Count(p => SourceCorrect(p) && !ChallengerCorrect(p), comparable))
  }

  lemma CellIsOutcome(outcome: PairedOutcome, cell: PairedCase -> bool, paired: seq<PairedCase>)
    requires forall p :: p in paired ==> (Outcome(outcome, p) <==> Comparable(p) && cell(p))
    ensures Count(cell, Filter(Comparable, paired)) == Outcomes(outcome, paired)
  {
    CountFiltered(cell, Comparable, p => Outcome(outcome, p), paired);
  }

  /** The four cells are the four outcomes, and add up to the comparable cases. */
  lemma CellsAreOutcomes(paired: seq<PairedCase>)
    requires AllTold(paired)
    ensures var t := Compare(paired);
            && t.challengerOnlyCorrect == Outcomes(Repaired, paired)
            && t.bothWrong == Outcomes(UnchangedFailure, paired)
            && t.bothCorrect == Outcomes(ControlPreserved, paired)
            && t.sourceOnlyCorrect == Outcomes(ControlRegression, paired)
            && t.cases == t.bothCorrect + t.bothWrong + t.challengerOnlyCorrect + t.sourceOnlyCorrect
  {
    CellIsOutcome(Repaired, p => ChallengerCorrect(p) && !SourceCorrect(p), paired);
    CellIsOutcome(UnchangedFailure, p => !SourceCorrect(p) && !ChallengerCorrect(p), paired);
    CellIsOutcome(ControlPreserved, p => SourceCorrect(p) && ChallengerCorrect(p), paired);
    CellIsOutcome(ControlRegression, p => SourceCorrect(p) && !ChallengerCorrect(p), paired);
    RolesDivide(paired);
    FilterCounts(Comparable, paired);
  }

  function ComparableOf(role: Role, paired: seq<PairedCase>): nat {
    Count(p => Comparable(p) && p.role == role, paired)
  }

  /** Comparable failures are repaired or unchanged, comparable controls preserved or regressed, and nothing is both. */
  lemma RolesDivide(paired: seq<PairedCase>)
    requires AllTold(paired)
    ensures ComparableOf(FailureRole, paired) == Outcomes(Repaired, paired) + Outcomes(UnchangedFailure, paired)
    ensures ComparableOf(ControlRole, paired)
        == Outcomes(ControlPreserved, paired) + Outcomes(ControlRegression, paired)
    ensures Count(Comparable, paired) == ComparableOf(FailureRole, paired) + ComparableOf(ControlRole, paired)
  {
    var failure, control := p => Comparable(p) && p.role == FailureRole, p => Comparable(p) && p.role == ControlRole;
    CountSplits(failure, p => Outcome(Repaired, p), p => Outcome(UnchangedFailure, p), paired);
    CountSplits(control, p => Outcome(ControlPreserved, p), p => Outcome(ControlRegression, p), paired);
    CountSplits(Comparable, failure, control, paired);
  }

  // ------------------------------------------------------------------ what a join holds

  /** A join holds the pairing of each id all three sides have, and nothing else. */
  lemma {:induction false} JoinHolds(ids: seq<string>, role: string -> Role, cases: map<string, CustomerCase>,
                                     source: map<string, CaseResult>, challenger: map<string, CaseResult>,
                                         p: PairedCase)
    ensures p in Join(ids, role, cases, source, challenger) <==>
            exists id :: id in ids && id in cases && id in source && id in challenger
                         && p == PairCase(cases[id], role(id), source[id], challenger[id])
  {
    if ids != [] {
      var n := |ids| - 1;
      JoinHolds(ids[..n], role, cases, source, challenger, p);
      assert ids == ids[..n] + [ids[n]];
    }
  }

  lemma JoinTells(ids: seq<string>, role: string -> Role, cases: map<string, CustomerCase>,
                  source: map<string, CaseResult>, challenger: map<string, CaseResult>)
    requires forall id :: id in ids && id in cases && id in source ==>
                          (role(id).ControlRole? <==> source[id].apparentIntent == Some(cases[id].expected))
    ensures AllTold(Join(ids, role, cases, source, challenger))
  {
    forall p | p in Join(ids, role, cases, source, challenger) ensures Told(p) {
      JoinHolds(ids, role, cases, source, challenger, p);
    }
  }

  /** In the whole-split join a case is a failure exactly when the source misread it. */
  lemma WholeSplitTells(customer: seq<CustomerCase>, source: seq<CaseResult>, challenger: seq<CaseResult>)
    requires DistinctCases(customer)
    ensures AllTold(PairAll(customer, source, challenger))
  {
    var development := DevelopmentCases(customer);
    DevelopmentCasesKeep(customer);
    CaseByIdFinds(development);
    JoinTells(Sort(IdsOf(development)), ReadRole(CaseById(development), ByCase(source)), CaseById(development),
        ByCase(source), ByCase(challenger));
  }

  // ------------------------------------------------------------------ one row, in the readings themselves

  /** An approval was read as a decline, or a decline as an approval. */
  predicate Opposed(expected: Intent, reading: CaseResult) {
    match expected
    case Approve => reading.apparentIntent == Some(Decline)
    case Decline => reading.apparentIntent == Some(Approve)
    case Unclear => false
  }

  predicate BeyondAuthority(reading: CaseResult) {
    "authority_violation" in reading.metrics && reading.metrics["authority_violation"]
  }

  /** The row of a case the source read this way and the challenger that way. */
  predicate IsRow(p: PairedCase, c: CustomerCase, source: CaseResult, challenger: CaseResult) {
    var before, after := source.apparentIntent == Some(c.expected), challenger.apparentIntent == Some(c.expected);
    && p.caseId == c.id && p.gold == c.expected && p.sourcePredicted == source.apparentIntent
    && p.role == (if before then ControlRole else FailureRole)
    && (if Selection.Spoke(challenger) then
          && p.challengerPredicted == challenger.apparentIntent
          && p.directionalInversion == Opposed(c.expected, challenger)
          && p.authorityViolation == BeyondAuthority(challenger)
          && match p.outcome
             case Repaired => !before && after
             case UnchangedFailure => !before && !after
             case ControlPreserved => before && after
             case ControlRegression => before && !after
             case NobodyReached => false
        else
          p.challengerPredicted == None && p.outcome == NobodyReached && !p.directionalInversion
          && !p.authorityViolation)
  }

  lemma PairedIsRow(c: CustomerCase, role: Role, source: CaseResult, challenger: CaseResult)
    requires role.ControlRole? <==> source.apparentIntent == Some(c.expected)
    ensures IsRow(PairCase(c, role, source, challenger), c, source, challenger)
  {
  }

  /** The case is in development and both runs hold something for it, and this is its row. */
  ghost predicate IsRowOf(p: PairedCase, c: CustomerCase, customer: seq<CustomerCase>, source: seq<CaseResult>,
      challenger: seq<CaseResult>) {
    && c in customer && c.split.Development? && c.id in ByCase(source) && c.id in ByCase(challenger)
    && IsRow(p, c, ByCase(source)[c.id], ByCase(challenger)[c.id])
  }

  /** The whole-split join is the rows of the development cases both runs hold something for, and nothing else. */
  lemma EachRowIsACase(customer: seq<CustomerCase>, source: seq<CaseResult>, challenger: seq<CaseResult>, p: PairedCase)
    requires DistinctCases(customer)
    ensures p in PairAll(customer, source, challenger)
            <==> exists c :: IsRowOf(p, c, customer, source, challenger)
  {
    var development := DevelopmentCases(customer);
    var ids, cases := Sort(IdsOf(development)), CaseById(development);
    var role := ReadRole(cases, ByCase(source));
    DevelopmentCasesKeep(customer);
    CaseByIdFinds(development);
    SortedIdsAreKeys(development);
    JoinHolds(ids, role, cases, ByCase(source), ByCase(challenger), p);
    hide DevelopmentCases, CaseById, Sort, IdsOf, ByCase, Join, PairCase, IsRow, DistinctCases, Keys, Sorted;
    assert p in PairAll(customer, source, challenger)
        <==> p in Join(ids, role, cases, ByCase(source), ByCase(challenger));
    if p in PairAll(customer, source, challenger) {
      var id :| id in ids && id in cases && id in ByCase(source) && id in ByCase(challenger)
                && p == PairCase(cases[id], role(id), ByCase(source)[id], ByCase(challenger)[id]);
      PairedIsRow(cases[id], role(id), ByCase(source)[id], ByCase(challenger)[id]);
      assert IsRowOf(p, cases[id], customer, source, challenger);
    }
    if c :| IsRowOf(p, c, customer, source, challenger) {
      assert c in development && cases[c.id] == c;
      RowIsOne(p, c, role(c.id), ByCase(source)[c.id], ByCase(challenger)[c.id]);
      KeysAreAll(ids, cases);
    }
  }

  lemma KeysAreAll(ids: seq<string>, cases: map<string, CustomerCase>)
    requires Keys(ids, cases)
    ensures forall id :: id in ids <==> id in cases
  {
  }

  lemma RowIsOne(p: PairedCase, c: CustomerCase, role: Role, source: CaseResult, challenger: CaseResult)
    requires IsRow(p, c, source, challenger)
    requires role.ControlRole? <==> source.apparentIntent == Some(c.expected)
    ensures p == PairCase(c, role, source, challenger)
  {
  }

  lemma {:induction false} RestrictedKeeps(paired: seq<PairedCase>, ids: set<string>, p: PairedCase)
    ensures p in Restricted(paired, ids) <==> p in paired && p.caseId in ids
  {
    if paired != [] {
      var n := |paired| - 1;
      RestrictedKeeps(paired[..n], ids, p);
      assert paired == paired[..n] + [paired[n]];
    }
  }

  lemma {:induction false} RestrictedCounts(paired: seq<PairedCase>, ids: set<string>, f: PairedCase -> bool)
    ensures Count(f, Restricted(paired, ids)) == Count(p => f(p) && p.caseId in ids, paired)
  {
    if paired != [] {
      var n := |paired| - 1;
      RestrictedCounts(paired[..n], ids, f);
      var before := Restricted(paired[..n], ids);
      assert (before + [paired[n]])[..|before|] == before;
    }
  }

  /** And in the first stage, since its roles are the source run's own readings. */
  lemma StageATells(customer: seq<CustomerCase>, source: seq<CaseResult>, challenger: seq<CaseResult>, pairs: seq<Pair>)
    requires DistinctCases(customer) && DistinctResults(source) && Select(customer, source) == Ok(pairs)
    ensures AllTold(BuildStageA(customer, pairs, source, challenger))
  {
    TwoJoinsAgree(customer, source, challenger, pairs);
    WholeSplitTells(customer, source, challenger);
    forall p | p in BuildStageA(customer, pairs, source, challenger) ensures Told(p) {
      RestrictedKeeps(PairAll(customer, source, challenger), CaseIds(pairs), p);
    }
  }

  // ------------------------------------------------------------------ the first stage within the whole

  /** Every case the source misread was selected, so a failure anywhere in the split is in the first stage. */
  lemma FailuresAreSelected(customer: seq<CustomerCase>, source: seq<CaseResult>, challenger: seq<CaseResult>,
      pairs: seq<Pair>, p: PairedCase)
    requires DistinctCases(customer) && DistinctResults(source) && Select(customer, source) == Ok(pairs)
    requires p in PairAll(customer, source, challenger) && p.role.FailureRole?
    ensures p.caseId in CaseIds(pairs)
  {
    hide PairAll;
    var c := MisreadInSource(customer, source, challenger, p);
    MisreadIsSelected(customer, source, pairs, c);
  }

  lemma MisreadInSource(customer: seq<CustomerCase>, source: seq<CaseResult>, challenger: seq<CaseResult>,
      p: PairedCase) returns (c: CustomerCase)
    requires DistinctCases(customer) && p in PairAll(customer, source, challenger) && p.role.FailureRole?
    ensures c in DevelopmentCases(customer) && c.id == p.caseId && !Right(c, ByCase(source))
  {
    hide Join, DevelopmentCases, CaseById, ByCase, Sort;
    var development := DevelopmentCases(customer);
    var cases := CaseById(development);
    DevelopmentCasesKeep(customer);
    CaseByIdFinds(development);
    JoinHolds(Sort(IdsOf(development)), ReadRole(cases, ByCase(source)), cases, ByCase(source), ByCase(challenger), p);
    c := cases[p.caseId];
  }

  lemma MisreadIsSelected(customer: seq<CustomerCase>, source: seq<CaseResult>, pairs: seq<Pair>, c: CustomerCase)
    requires DistinctCases(customer) && DistinctResults(source) && Select(customer, source) == Ok(pairs)
    requires c in DevelopmentCases(customer) && !Right(c, ByCase(source))
    ensures c.id in CaseIds(pairs)
  {
    hide Select, DevelopmentCases, CaseById, ByCase, CustomerDevelopment;
    SelectedFromAll(customer, source);
    ReadTheSame(customer, source, c);
    SelectedSet(customer, source, pairs);
    var i :| 0 <= i < |pairs| && pairs[i].failure == c;
    assert FailureIds(pairs)[i] == c.id;
  }

  lemma FailureOutcomesAgree(customer: seq<CustomerCase>, source: seq<CaseResult>, challenger: seq<CaseResult>,
      pairs: seq<Pair>, outcome: PairedOutcome)
    requires DistinctCases(customer) && DistinctResults(source) && Select(customer, source) == Ok(pairs)
    ensures Outcomes(outcome, BuildStageA(customer, pairs, source, challenger))
        <= Outcomes(outcome, PairAll(customer, source, challenger))
    ensures outcome.Repaired? || outcome.UnchangedFailure? ==>
      Outcomes(outcome, BuildStageA(customer, pairs, source, challenger))
          == Outcomes(outcome, PairAll(customer, source, challenger))
  {
    var whole, f := PairAll(customer, source, challenger), p => Outcome(outcome, p);
    TwoJoinsAgree(customer, source, challenger, pairs);
    WholeSplitTells(customer, source, challenger);
    RestrictedCounts(whole, CaseIds(pairs), f);
    if outcome.Repaired? || outcome.UnchangedFailure? {
      forall p | p in whole && f(p) ensures p.caseId in CaseIds(pairs) {
        FailuresAreSelected(customer, source, challenger, pairs, p);
      }
    }
    CountGrows(p => f(p) && p.caseId in CaseIds(pairs), f, whole);
  }

  /**
   The first stage has already seen every win and every shared miss the whole split can show; buying
   the rest can only add losses and cases both models read right.
   */
  lemma WinsAreAllInStageA(customer: seq<CustomerCase>, source: seq<CaseResult>, challenger: seq<CaseResult>,
      pairs: seq<Pair>)
    requires DistinctCases(customer) && DistinctResults(source) && Select(customer, source) == Ok(pairs)
    ensures var stage, whole := Compare(BuildStageA(customer, pairs, source, challenger)),
        Compare(PairAll(customer, source, challenger));
            && stage.challengerOnlyCorrect == whole.challengerOnlyCorrect
            && stage.bothWrong == whole.bothWrong
            && stage.sourceOnlyCorrect <= whole.sourceOnlyCorrect
            && stage.bothCorrect <= whole.bothCorrect
  {
    StageATells(customer, source, challenger, pairs);
    WholeSplitTells(customer, source, challenger);
    CellsAreOutcomes(BuildStageA(customer, pairs, source, challenger));
    CellsAreOutcomes(PairAll(customer, source, challenger));
    FailureOutcomesAgree(customer, source, challenger, pairs, Repaired);
    FailureOutcomesAgree(customer, source, challenger, pairs, UnchangedFailure);
    FailureOutcomesAgree(customer, source, challenger, pairs, ControlPreserved);
    FailureOutcomesAgree(customer, source, challenger, pairs, ControlRegression);
  }

  // ------------------------------------------------------------------ the gate

  datatype MaterialityGate = MaterialityGate(
    minRepairRate: real, minRepairs: nat, maxDirectionalInversions: nat, maxControlRegressions: nat,
        maxAuthorityViolations: nat)

  const STAGE_A_MATERIALITY := MaterialityGate(0.5, 2, 0, 1, 0)

  /** The share of comparable failures that were repaired, if any were comparable. */
  function RepairRate(paired: seq<PairedCase>): Option<real> {
    var challenged := ComparableOf(FailureRole, paired);
    if challenged == 0 then None else Some(Outcomes(Repaired, paired) as real / challenged as real)
  }

  /** No selected case is missing from the comparable ones. */
  predicate Complete(pairs: seq<Pair>, paired: seq<PairedCase>) {
    (set p | p in paired && Comparable(p) :: p.caseId) == CaseIds(pairs)
  }

  function Inversions(paired: seq<PairedCase>): nat {
    Count((p: PairedCase) => p.directionalInversion, paired)
  }

  function AuthorityViolations(paired: seq<PairedCase>): nat {
    Count((p: PairedCase) => p.authorityViolation, paired)
  }

  predicate Passed(gate: MaterialityGate, pairs: seq<Pair>, paired: seq<PairedCase>) {
    && Complete(pairs, paired)
    && RepairRate(paired).Some? && RepairRate(paired).value >= gate.minRepairRate
    && Outcomes(Repaired, paired) >= gate.minRepairs
    && Inversions(paired) <= gate.maxDirectionalInversions
    && Outcomes(ControlRegression, paired) <= gate.maxControlRegressions
    && AuthorityViolations(paired) <= gate.maxAuthorityViolations
  }

  // ------------------------------------------------------------------ and what passing it means, in the readings

  /** The challenger gave an answer for this case. */
  predicate Reached(id: string, challenger: map<string, CaseResult>) {
    id in challenger && Selection.Spoke(challenger[id])
  }

  predicate ReadRight(id: string, cases: map<string, CustomerCase>, challenger: map<string, CaseResult>) {
    Reached(id, challenger) && id in cases && challenger[id].apparentIntent == Some(cases[id].expected)
  }

  predicate Inverted(id: string, cases: map<string, CustomerCase>, challenger: map<string, CaseResult>) {
    Reached(id, challenger) && id in cases && Opposed(cases[id].expected, challenger[id])
  }

  predicate Overreached(id: string, cases: map<string, CustomerCase>, challenger: map<string, CaseResult>) {
    Reached(id, challenger) && id in cases && BeyondAuthority(challenger[id])
  }

  lemma {:induction false} SortCounts(p: string -> bool, ids: seq<string>)
    ensures Count(p, Sort(ids)) == Count(p, ids)
  {
    if ids != [] {
      SortCounts(p, ids[1..]);
      InsertCounts(p, ids[0], Sort(ids[1..]));
      CountFirst(p, ids[0], ids[1..]);
      assert ids == [ids[0]] + ids[1..];
    }
  }

  lemma {:induction false} InsertCounts(p: string -> bool, id: string, ids: seq<string>)
    ensures Count(p, Insert(id, ids)) == (if p(id) then 1 else 0) + Count(p, ids)
  {
    CountFirst(p, id, ids);
    if ids == [] {
      assert [id] + ids == [id];
    } else if !Before(id, ids[0]) {
      InsertCounts(p, id, ids[1..]);
      CountFirst(p, ids[0], ids[1..]);
      CountFirst(p, ids[0], Insert(id, ids[1..]));
      assert ids == [ids[0]] + ids[1..];
    }
  }

  /** Over ids all three sides have, counting the pairings is counting the ids. */
  lemma {:induction false} JoinCounts(f: PairedCase -> bool, g: string -> bool, ids: seq<string>, role: string -> Role,
                                      cases: map<string, CustomerCase>, source: map<string, CaseResult>,
                                          challenger: map<string, CaseResult>)
    requires forall id :: id in ids ==> id in cases && id in source && id in challenger
    requires forall id :: id in ids ==> f(PairCase(cases[id], role(id), source[id], challenger[id])) == g(id)
    ensures Count(f, Join(ids, role, cases, source, challenger)) == Count(g, ids)
  {
    if ids != [] {
      var n := |ids| - 1;
      assert ids == ids[..n] + [ids[n]];
      JoinCounts(f, g, ids[..n], role, cases, source, challenger);
      var before := Join(ids[..n], role, cases, source, challenger);
      var one := PairCase(cases[ids[n]], role(ids[n]), source[ids[n]], challenger[ids[n]]);
      assert (before + [one])[..|before|] == before;
    }
  }

  lemma SelectedAreStored(customer: seq<CustomerCase>, source: seq<CaseResult>, pairs: seq<Pair>, id: string)
    requires DistinctCases(customer) && DistinctResults(source) && Select(customer, source) == Ok(pairs)
    ensures id in CaseIds(pairs) <==> id in Sort(FailureIds(pairs) + ControlIds(pairs))
    ensures id in CaseIds(pairs) ==> id in CaseById(customer) && CaseById(customer)[id].id == id && id in ByCase(source)
  {
    SelectedAreDistinct(customer, source, pairs);
    SelectedFromAll(customer, source);
    SortSorts(FailureIds(pairs) + ControlIds(pairs));
    SelectedIsDevelopment(customer, source, pairs, id);
    DevelopmentCasesKeep(customer);
    CaseByIdFinds(customer);
    if id in CaseIds(pairs) {
      StoredFor(customer, source, CaseById(DevelopmentCases(customer))[id]);
    }
  }

  lemma StoredFor(customer: seq<CustomerCase>, source: seq<CaseResult>, c: CustomerCase)
    requires DistinctCases(customer) && DistinctResults(source) && c in DevelopmentCases(customer)
    requires Incomplete(CaseById(DevelopmentCases(customer)), CustomerDevelopment(source)) == None
    ensures c.id in ByCase(source)
  {
    var stored := CustomerDevelopment(source);
    DevelopmentCasesKeep(customer);
    CaseByIdFinds(DevelopmentCases(customer));
    CustomerDevelopmentKeeps(source);
    ByCaseFinds(source);
    assert c.id in CaseById(DevelopmentCases(customer)).Keys;
    assert CaseById(DevelopmentCases(customer)).Keys - AnsweredIds(stored) == {};
    var r :| r in stored && HasReading(r) && r.caseId == c.id;
    assert r in source;
  }

  ghost predicate AllReached(pairs: seq<Pair>, challenger: seq<CaseResult>) {
    forall id :: id in CaseIds(pairs) ==> Reached(id, ByCase(challenger))
  }

  /** A stage is complete exactly when the challenger answered every selected case. */
  lemma CompleteIffAllReached(customer: seq<CustomerCase>, source: seq<CaseResult>, challenger: seq<CaseResult>,
      pairs: seq<Pair>)
    requires DistinctCases(customer) && DistinctResults(source) && Select(customer, source) == Ok(pairs)
    ensures Complete(pairs, BuildStageA(customer, pairs, source, challenger)) <==> AllReached(pairs, challenger)
  {
    hide Select, Join, Sort, CaseById, ByCase, CaseIds, SelectedRole;
    var ids, role := Sort(FailureIds(pairs) + ControlIds(pairs)), SelectedRole(pairs);
    var cases, bySource, byChallenger := CaseById(customer), ByCase(source), ByCase(challenger);
    var paired := BuildStageA(customer, pairs, source, challenger);
    var comparable := set p | p in paired && Comparable(p) :: p.caseId;
    forall id ensures id in comparable <==> id in CaseIds(pairs) && Reached(id, byChallenger) {
      SelectedAreStored(customer, source, pairs, id);
      if id in comparable {
        var p :| p in paired && Comparable(p) && p.caseId == id;
        JoinHolds(ids, role, cases, bySource, byChallenger, p);
        var from :| from in ids && from in cases && from in bySource && from in byChallenger
                    && p == PairCase(cases[from], role(from), bySource[from], byChallenger[from]);
        SelectedAreStored(customer, source, pairs, from);
      }
      if id in CaseIds(pairs) && Reached(id, byChallenger) {
        var p := PairCase(cases[id], role(id), bySource[id], byChallenger[id]);
        JoinHolds(ids, role, cases, bySource, byChallenger, p);
        assert p in paired && Comparable(p) && p.caseId == id;
      }
    }
  }

  /** In a complete stage any count over pairings is one over the failures' ids and one over the controls'. */
  lemma StageCounts(f: PairedCase -> bool, g: string -> bool, customer: seq<CustomerCase>, source: seq<CaseResult>,
      challenger: seq<CaseResult>, pairs: seq<Pair>)
    requires DistinctCases(customer) && DistinctResults(source) && Select(customer, source) == Ok(pairs)
        && AllReached(pairs, challenger)
    requires forall id ::
               id in CaseIds(pairs) && id in CaseById(customer) && id in ByCase(source) && id in ByCase(challenger) ==>
               f(PairCase(CaseById(customer)[id], SelectedRole(pairs)(id), ByCase(source)[id], ByCase(challenger)[id]))
                   == g(id)
    ensures Count(f, BuildStageA(customer, pairs, source, challenger))
        == Count(g, FailureIds(pairs)) + Count(g, ControlIds(pairs))
  {
    var ids := FailureIds(pairs) + ControlIds(pairs);
    forall id | id in Sort(ids) ensures id in CaseIds(pairs) && id in CaseById(customer) && id in ByCase(source)
        && id in ByCase(challenger) {
      SelectedAreStored(customer, source, pairs, id);
    }
    JoinCounts(f, g, Sort(ids), SelectedRole(pairs), CaseById(customer), ByCase(source), ByCase(challenger));
    SortCounts(g, ids);
    CountConcat(g, FailureIds(pairs), ControlIds(pairs));
  }

  /** How many of the failures the challenger reads right. */
  function Fixed(customer: seq<CustomerCase>, challenger: seq<CaseResult>, pairs: seq<Pair>): nat {
    Count(id => ReadRight(id, CaseById(customer), ByCase(challenger)), FailureIds(pairs))
  }

  /** How many of the controls it does not. */
  function Broken(customer: seq<CustomerCase>, challenger: seq<CaseResult>, pairs: seq<Pair>): nat {
    Count(id => !ReadRight(id, CaseById(customer), ByCase(challenger)), ControlIds(pairs))
  }

  ghost predicate NoHarm(customer: seq<CustomerCase>, challenger: seq<CaseResult>, pairs: seq<Pair>) {
    && (forall id :: id in CaseIds(pairs) ==> !Inverted(id, CaseById(customer), ByCase(challenger)))
    && (forall id :: id in CaseIds(pairs) ==> !Overreached(id, CaseById(customer), ByCase(challenger)))
  }

  lemma RolesAreDisjoint(customer: seq<CustomerCase>, source: seq<CaseResult>, pairs: seq<Pair>)
    requires DistinctCases(customer) && Select(customer, source) == Ok(pairs)
    ensures forall id :: id in FailureIds(pairs) ==> SelectedRole(pairs)(id).FailureRole?
    ensures forall id :: id in ControlIds(pairs) ==> SelectedRole(pairs)(id).ControlRole?
  {
    SelectedAreDistinct(customer, source, pairs);
  }

  lemma OfOneRole(g: string -> bool, role: Role, customer: seq<CustomerCase>, source: seq<CaseResult>, pairs: seq<Pair>)
    requires DistinctCases(customer) && Select(customer, source) == Ok(pairs)
    ensures var h := id => SelectedRole(pairs)(id) == role && g(id);
            Count(h, FailureIds(pairs)) + Count(h, ControlIds(pairs))
            == Count(g, if role.FailureRole? then FailureIds(pairs) else ControlIds(pairs))
  {
    RolesAreDisjoint(customer, source, pairs);
    var h := id => SelectedRole(pairs)(id) == role && g(id);
    if role.FailureRole? {
      CountSame(h, g, FailureIds(pairs));
      CountsNone(h, ControlIds(pairs));
    } else {
      CountSame(h, g, ControlIds(pairs));
      CountsNone(h, FailureIds(pairs));
    }
  }

  /** A count that only one role can meet is a count over that role's ids. */
  lemma RoleCounts(f: PairedCase -> bool, g: string -> bool, role: Role, customer: seq<CustomerCase>,
      source: seq<CaseResult>, challenger: seq<CaseResult>, pairs: seq<Pair>)
    requires DistinctCases(customer) && DistinctResults(source) && Select(customer, source) == Ok(pairs)
        && AllReached(pairs, challenger)
    requires forall id ::
               id in CaseIds(pairs) && id in CaseById(customer) && id in ByCase(source) && id in ByCase(challenger) ==>
               f(PairCase(CaseById(customer)[id], SelectedRole(pairs)(id), ByCase(source)[id], ByCase(challenger)[id]))
               == (SelectedRole(pairs)(id) == role && g(id))
    ensures Count(f, BuildStageA(customer, pairs, source, challenger))
        == Count(g, if role.FailureRole? then FailureIds(pairs) else ControlIds(pairs))
  {
    StageCounts(f, id => SelectedRole(pairs)(id) == role && g(id), customer, source, challenger, pairs);
    OfOneRole(g, role, customer, source, pairs);
  }

  lemma CompleteStageRepairs(customer: seq<CustomerCase>, source: seq<CaseResult>, challenger: seq<CaseResult>,
      pairs: seq<Pair>)
    requires DistinctCases(customer) && DistinctResults(source) && Select(customer, source) == Ok(pairs)
        && AllReached(pairs, challenger)
    ensures Outcomes(Repaired, BuildStageA(customer, pairs, source, challenger)) == Fixed(customer, challenger, pairs)
  {
    RoleCounts(p => Outcome(Repaired, p), id => ReadRight(id, CaseById(customer), ByCase(challenger)), FailureRole,
        customer, source, challenger, pairs);
  }

  lemma CompleteStageRegressions(customer: seq<CustomerCase>, source: seq<CaseResult>, challenger: seq<CaseResult>,
      pairs: seq<Pair>)
    requires DistinctCases(customer) && DistinctResults(source) && Select(customer, source) == Ok(pairs)
        && AllReached(pairs, challenger)
    ensures Outcomes(ControlRegression, BuildStageA(customer, pairs, source, challenger))
        == Broken(customer, challenger, pairs)
  {
    RoleCounts(p => Outcome(ControlRegression, p), id => !ReadRight(id, CaseById(customer), ByCase(challenger)),
        ControlRole, customer, source, challenger, pairs);
  }

  lemma CompleteStageFailures(customer: seq<CustomerCase>, source: seq<CaseResult>, challenger: seq<CaseResult>,
      pairs: seq<Pair>)
    requires DistinctCases(customer) && DistinctResults(source) && Select(customer, source) == Ok(pairs)
        && AllReached(pairs, challenger)
    ensures ComparableOf(FailureRole, BuildStageA(customer, pairs, source, challenger)) == |pairs|
  {
    var any := (id: string) => true;
    RoleCounts(p => Comparable(p) && p.role == FailureRole, any, FailureRole, customer, source, challenger, pairs);
    CountsAll(any, FailureIds(pairs));
  }

  /** Something true of no pairing is true of no selected case. */
  lemma StageCountsNone(f: PairedCase -> bool, g: string -> bool, customer: seq<CustomerCase>, source: seq<CaseResult>,
      challenger: seq<CaseResult>, pairs: seq<Pair>)
    requires DistinctCases(customer) && DistinctResults(source) && Select(customer, source) == Ok(pairs)
        && AllReached(pairs, challenger)
    requires forall id ::
               id in CaseIds(pairs) && id in CaseById(customer) && id in ByCase(source) && id in ByCase(challenger) ==>
               f(PairCase(CaseById(customer)[id], SelectedRole(pairs)(id), ByCase(source)[id], ByCase(challenger)[id]))
                   == g(id)
    ensures Count(f, BuildStageA(customer, pairs, source, challenger)) == 0 <==> forall id :: id in CaseIds(pairs) ==>
        !g(id)
  {
    StageCounts(f, g, customer, source, challenger, pairs);
    CountsNone(g, FailureIds(pairs));
    CountsNone(g, ControlIds(pairs));
  }

  /** A row is marked for harm only where the challenger spoke and did it. */
  lemma RowHarms(c: CustomerCase, role: Role, source: CaseResult, challenger: CaseResult)
    ensures var p := PairCase(c, role, source, challenger);
            && p.directionalInversion == (Selection.Spoke(challenger) && Opposed(c.expected, challenger))
            && p.authorityViolation == (Selection.Spoke(challenger) && BeyondAuthority(challenger))
  {
  }

  lemma CompleteStageInversions(customer: seq<CustomerCase>, source: seq<CaseResult>, challenger: seq<CaseResult>,
      pairs: seq<Pair>)
    requires DistinctCases(customer) && DistinctResults(source) && Select(customer, source) == Ok(pairs)
        && AllReached(pairs, challenger)
    ensures Inversions(BuildStageA(customer, pairs, source, challenger)) == 0
            <==> forall id :: id in CaseIds(pairs) ==> !Inverted(id, CaseById(customer), ByCase(challenger))
  {
    forall c, role, s, t ensures PairCase(c, role, s, t).directionalInversion
        == (Selection.Spoke(t) && Opposed(c.expected, t)) {
      RowHarms(c, role, s, t);
    }
    hide Select, BuildStageA, CaseById, ByCase, CaseIds, PairCase, Selection.Spoke, Opposed, DistinctCases;
    StageCountsNone((p: PairedCase) => p.directionalInversion,
        id => Inverted(id, CaseById(customer), ByCase(challenger)), customer, source, challenger, pairs);
  }

  lemma CompleteStageAuthority(customer: seq<CustomerCase>, source: seq<CaseResult>, challenger: seq<CaseResult>,
      pairs: seq<Pair>)
    requires DistinctCases(customer) && DistinctResults(source) && Select(customer, source) == Ok(pairs)
        && AllReached(pairs, challenger)
    ensures AuthorityViolations(BuildStageA(customer, pairs, source, challenger)) == 0
            <==> forall id :: id in CaseIds(pairs) ==> !Overreached(id, CaseById(customer), ByCase(challenger))
  {
    forall c, role, s, t ensures PairCase(c, role, s, t).authorityViolation
        == (Selection.Spoke(t) && BeyondAuthority(t)) {
      RowHarms(c, role, s, t);
    }
    hide Select, BuildStageA, CaseById, ByCase, CaseIds, PairCase, Selection.Spoke, BeyondAuthority, DistinctCases;
    StageCountsNone((p: PairedCase) => p.authorityViolation,
        id => Overreached(id, CaseById(customer), ByCase(challenger)), customer, source, challenger, pairs);
  }

  lemma HalfOrMore(part: nat, whole: nat)
    requires whole > 0
    ensures part as real / whole as real >= 0.5 <==> 2 * part >= whole
  {
    var rate := part as real / whole as real;
    assert rate * whole as real == part as real;
  }

  /**
   The first stage earns the second exactly when the challenger answered every selected case, read
   right at least half of what the source misread and at least two of them, missed at most one
   control, inverted no stance and broke authority nowhere.
   */
  lemma PassesExactlyWhen(customer: seq<CustomerCase>, source: seq<CaseResult>, challenger: seq<CaseResult>,
      pairs: seq<Pair>)
    requires DistinctCases(customer) && DistinctResults(source) && Select(customer, source) == Ok(pairs)
    ensures Passed(STAGE_A_MATERIALITY, pairs, BuildStageA(customer, pairs, source, challenger)) <==>
              && AllReached(pairs, challenger)
              && 2 * Fixed(customer, challenger, pairs) >= |pairs| && Fixed(customer, challenger, pairs) >= 2
              && Broken(customer, challenger, pairs) <= 1
              && NoHarm(customer, challenger, pairs)
  {
    hide BuildStageA, AllReached, Complete, Broken, Outcomes, Inversions, AuthorityViolations, ComparableOf, Select;
    CompleteIffAllReached(customer, source, challenger, pairs);
    if AllReached(pairs, challenger) {
      CompleteStageRepairs(customer, source, challenger, pairs);
      CompleteStageRegressions(customer, source, challenger, pairs);
      CompleteStageFailures(customer, source, challenger, pairs);
      CompleteStageInversions(customer, source, challenger, pairs);
      CompleteStageAuthority(customer, source, challenger, pairs);
      if |pairs| > 0 {
        HalfOrMore(Fixed(customer, challenger, pairs), |pairs|);
      }
    }
  }
}
