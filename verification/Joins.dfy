/**
 Two models' readings of the same cases joined: over the selected set, over the whole split, and
 what the counts of the one say about the counts of the other.
 */
module Joins {
  import opened Common
  import opened Results
  import opened Order
  import opened StageA

  datatype Role = FailureRole | ControlRole

  datatype PairedOutcome = Repaired | UnchangedFailure | ControlPreserved | ControlRegression | NobodyReached

  datatype PairedCase = PairedCase(
    caseId: string, role: Role, gold: Intent, sourcePredicted: Option<Intent>, challengerPredicted: Option<Intent>,
    outcome: PairedOutcome, directionalInversion: bool, authorityViolation: bool)

  /** The reading is the opposite stance to the one expected. */
  predicate IsInversion(gold: Intent, predicted: Option<Intent>) {
    (gold.Approve? && predicted == Some(Decline)) || (gold.Decline? && predicted == Some(Approve))
  }

  predicate BrokeAuthority(result: CaseResult) {
    "authority_violation" in result.metrics && result.metrics["authority_violation"]
  }

  /** One case classified from the two readings of it; with no reading nothing is said about quality. */
  function PairCase(c: CustomerCase, role: Role, source: CaseResult, challenger: CaseResult): PairedCase {
    if !HasReading(challenger) then
      PairedCase(c.id, role, c.expected, source.apparentIntent, None, NobodyReached, false, false)
    else
      var correct := challenger.apparentIntent == Some(c.expected);
      var outcome :=
        if role.FailureRole? then (if correct then Repaired else UnchangedFailure)
        else (if correct then ControlPreserved else ControlRegression);
      PairedCase(c.id, role, c.expected, source.apparentIntent, challenger.apparentIntent, outcome,
                 IsInversion(c.expected, challenger.apparentIntent), BrokeAuthority(challenger))
  }

  // ------------------------------------------------------------------ the two joins

  /** The paired readings of these cases in order, where the challenger has a result. */
  function Join(ids: seq<string>, role: string -> Role, cases: map<string, CustomerCase>,
                source: map<string, CaseResult>, challenger: map<string, CaseResult>): seq<PairedCase>
  {
    if ids == [] then []
    else
      var before, id := Join(ids[..|ids| - 1], role, cases, source, challenger), ids[|ids| - 1];
      if id in cases && id in source && id in challenger
      then before + [PairCase(cases[id], role(id), source[id], challenger[id])]
      else before
  }

  function SelectedRole(pairs: seq<Pair>): string -> Role {
    id => if id in ControlIds(pairs) then ControlRole else FailureRole
  }

  /** The role a case has by how the source read it. */
  function ReadRole(cases: map<string, CustomerCase>, source: map<string, CaseResult>): string -> Role {
    id => if id in cases && Right(cases[id], source) then ControlRole else FailureRole
  }

  /** The join over the selected failures and controls, in id order. */
  function BuildStageA(customer: seq<CustomerCase>, pairs: seq<Pair>, source: seq<CaseResult>,
      challenger: seq<CaseResult>): seq<PairedCase> {
    Join(Sort(FailureIds(pairs) + ControlIds(pairs)), SelectedRole(pairs), CaseById(customer), ByCase(source),
        ByCase(challenger))
  }

  /** Over every customer development case both runs hold. */
  function PairAll(customer: seq<CustomerCase>, source: seq<CaseResult>, challenger: seq<CaseResult>): seq<PairedCase> {
    var development := DevelopmentCases(customer);
    Join(Sort(IdsOf(development)), ReadRole(CaseById(development), ByCase(source)), CaseById(development),
        ByCase(source), ByCase(challenger))
  }

  function Restricted(paired: seq<PairedCase>, ids: set<string>): seq<PairedCase> {
    if paired == [] then []
    else
      var before, last := Restricted(paired[..|paired| - 1], ids), paired[|paired| - 1];
      if last.caseId in ids then before + [last] else before
  }

  function Kept(all: seq<string>, ids: set<string>): seq<string> {
    if all == [] then []
    else
      var before, last := Kept(all[..|all| - 1], ids), all[|all| - 1];
      if last in ids then before + [last] else before
  }

  lemma {:induction false} KeptKeepsOrder(all: seq<string>, ids: set<string>)
    requires Sorted(all)
    ensures Sorted(Kept(all, ids))
    ensures forall id :: id in Kept(all, ids) <==> id in all && id in ids
  {
    if all != [] {
      var n := |all| - 1;
      KeptKeepsOrder(all[..n], ids);
      assert all == all[..n] + [all[n]];
      var before := Kept(all[..n], ids);
      forall i | 0 <= i < |before| ensures Before(before[i], all[n]) {
        assert before[i] in all[..n];
        var k :| 0 <= k < n && all[..n][k] == before[i];
        assert all[k] == before[i];
      }
    }
  }

  /** Restricting a join is joining the restricted list. */
  lemma {:induction false} RestrictedJoin(all: seq<string>, ids: set<string>, role: string -> Role,
      cases: map<string, CustomerCase>,
                                          source: map<string, CaseResult>, challenger: map<string, CaseResult>)
    requires forall id :: id in cases ==> cases[id].id == id
    ensures Restricted(Join(all, role, cases, source, challenger), ids)
        == Join(Kept(all, ids), role, cases, source, challenger)
  {
    if all != [] {
      var n := |all| - 1;
      RestrictedJoin(all[..n], ids, role, cases, source, challenger);
      var before := Join(all[..n], role, cases, source, challenger);
      var id := all[n];
      if id in cases && id in source && id in challenger {
        var one := PairCase(cases[id], role(id), source[id], challenger[id]);
        assert (before + [one])[..|before|] == before;
      }
      if id in ids {
        assert (Kept(all[..n], ids) + [id])[..|Kept(all[..n], ids)|] == Kept(all[..n], ids);
      }
    }
  }

  /** A join depends only on the roles and cases of the ids it is over. */
  lemma {:induction false} SameOverTheIds(ids: seq<string>, role: string -> Role, role': string -> Role,
                                          cases: map<string, CustomerCase>, cases': map<string, CustomerCase>,
                                          source: map<string, CaseResult>, challenger: map<string, CaseResult>)
    requires forall id :: id in ids ==> role(id) == role'(id) && id in cases && id in cases' && cases[id] == cases'[id]
    ensures Join(ids, role, cases, source, challenger) == Join(ids, role', cases', source, challenger)
  {
    if ids != [] {
      var n := |ids| - 1;
      assert ids == ids[..n] + [ids[n]];
      SameOverTheIds(ids[..n], role, role', cases, cases', source, challenger);
    }
  }

  /** What the source run holds for a development case is the same read whole or narrowed to customer development. */
  lemma ReadTheSame(customer: seq<CustomerCase>, source: seq<CaseResult>, c: CustomerCase)
    requires DistinctCases(customer) && DistinctResults(source) && c in DevelopmentCases(customer)
    requires Incomplete(CaseById(DevelopmentCases(customer)), CustomerDevelopment(source)) == None
    ensures Right(c, ByCase(source)) == Right(c, ByCase(CustomerDevelopment(source)))
  {
    var stored := CustomerDevelopment(source);
    DevelopmentCasesKeep(customer);
    CaseByIdFinds(DevelopmentCases(customer));
    CustomerDevelopmentKeeps(source);
    ByCaseFinds(source);
    ByCaseFinds(stored);
    assert c.id in CaseById(DevelopmentCases(customer)).Keys;
    assert CaseById(DevelopmentCases(customer)).Keys - AnsweredIds(stored) == {};
    var r :| r in stored && HasReading(r) && r.caseId == c.id;
    assert r in source;
  }

  lemma SelectedFromAll(customer: seq<CustomerCase>, source: seq<CaseResult>)
    requires DistinctCases(customer) && Select(customer, source).Ok?
    ensures Incomplete(CaseById(DevelopmentCases(customer)), CustomerDevelopment(source)) == None
  {
  }

  lemma SelectedIds(customer: seq<CustomerCase>, source: seq<CaseResult>, pairs: seq<Pair>)
    requires DistinctCases(customer) && Select(customer, source) == Ok(pairs)
    ensures forall id :: id in FailureIds(pairs) ==>
      exists c :: c in DevelopmentCases(customer) && c.id == id && !Right(c, ByCase(CustomerDevelopment(source)))
    ensures forall id :: id in ControlIds(pairs) ==>
      exists c :: c in DevelopmentCases(customer) && c.id == id && Right(c, ByCase(CustomerDevelopment(source)))
  {
    SelectedSet(customer, source, pairs);
    hide Select, DevelopmentCases, ByCase, CustomerDevelopment, Right;
    var development, byCase := DevelopmentCases(customer), ByCase(CustomerDevelopment(source));
    forall id | id in FailureIds(pairs) ensures exists c :: c in development && c.id == id && !Right(c, byCase) {
      var i :| 0 <= i < |pairs| && FailureIds(pairs)[i] == id;
      assert pairs[i].failure in development;
    }
    forall id | id in ControlIds(pairs) ensures exists c :: c in development && c.id == id && Right(c, byCase) {
      var i :| 0 <= i < |pairs| && ControlIds(pairs)[i] == id;
      assert pairs[i].control in development;
    }
  }

  lemma SelectedAreDistinct(customer: seq<CustomerCase>, source: seq<CaseResult>, pairs: seq<Pair>)
    requires DistinctCases(customer) && Select(customer, source) == Ok(pairs)
    ensures Distinct(FailureIds(pairs) + ControlIds(pairs))
    ensures forall id :: id in FailureIds(pairs) ==> id !in ControlIds(pairs)
  {
    SelectedSet(customer, source, pairs);
    SelectedIds(customer, source, pairs);
    DevelopmentCasesKeep(customer);
    hide Select, DevelopmentCases, ByCase, CustomerDevelopment, Right;
    SortedIsDistinct(FailureIds(pairs));
    var development, byCase := DevelopmentCases(customer), ByCase(CustomerDevelopment(source));
    forall id | id in FailureIds(pairs) ensures id !in ControlIds(pairs) {
      var c :| c in development && c.id == id && !Right(c, byCase);
      forall c' | c' in development && c'.id == id ensures c' == c {
        SameIdSameCase(development, c', c);
      }
    }
    ConcatDistinct(FailureIds(pairs), ControlIds(pairs));
  }

  lemma SameIdSameCase(cases: seq<CustomerCase>, a: CustomerCase, b: CustomerCase)
    requires DistinctCases(cases) && a in cases && b in cases && a.id == b.id
    ensures a == b
  {
    var i :| 0 <= i < |cases| && cases[i] == a;
    var j :| 0 <= j < |cases| && cases[j] == b;
  }

  lemma ConcatDistinct(a: seq<string>, b: seq<string>)
    requires Distinct(a) && Distinct(b) && forall id :: id in a ==> id !in b
    ensures Distinct(a + b)
  {
    forall i, j | 0 <= i < j < |a + b| ensures (a + b)[i] != (a + b)[j] {
      if i < |a| <= j {
        assert a[i] in a && b[j - |a|] in b;
      }
    }
  }

  /**
   One answer from two joins: for a selection made from this dataset and this source, the whole-split
   join restricted to the selected cases is the Stage-A join, case for case and role for role.
   */
  lemma TwoJoinsAgree(customer: seq<CustomerCase>, source: seq<CaseResult>, challenger: seq<CaseResult>,
      pairs: seq<Pair>)
    requires DistinctCases(customer) && DistinctResults(source) && Select(customer, source) == Ok(pairs)
    ensures Restricted(PairAll(customer, source, challenger), CaseIds(pairs))
        == BuildStageA(customer, pairs, source, challenger)
  {
    var development := DevelopmentCases(customer);
    var cases, all := CaseById(development), Sort(IdsOf(development));
    var selected := FailureIds(pairs) + ControlIds(pairs);
    DevelopmentCasesKeep(customer);
    CaseByIdFinds(development);
    CaseByIdFinds(customer);
    SortedIdsAreKeys(development);
    SelectedAreDistinct(customer, source, pairs);
    SelectedFromAll(customer, source);
    SortSorts(selected);
    RestrictedJoin(all, CaseIds(pairs), ReadRole(cases, ByCase(source)), cases, ByCase(source), ByCase(challenger));
    KeptKeepsOrder(all, CaseIds(pairs));
    forall id ensures id in Kept(all, CaseIds(pairs)) <==> id in Sort(selected) {
      SelectedIsDevelopment(customer, source, pairs, id);
    }
    SortedIsUnique(Kept(all, CaseIds(pairs)), Sort(selected));
    forall id | id in Sort(selected)
      ensures ReadRole(cases, ByCase(source))(id) == SelectedRole(pairs)(id)
      ensures id in cases && id in CaseById(customer) && cases[id] == CaseById(customer)[id]
    {
      SelectedIsDevelopment(customer, source, pairs, id);
      ReadTheSame(customer, source, cases[id]);
    }
    SameOverTheIds(Sort(selected), ReadRole(cases, ByCase(source)), SelectedRole(pairs), cases, CaseById(customer),
        ByCase(source), ByCase(challenger));
  }

  lemma SelectedIsDevelopment(customer: seq<CustomerCase>, source: seq<CaseResult>, pairs: seq<Pair>, id: string)
    requires DistinctCases(customer) && Select(customer, source) == Ok(pairs)
    ensures id in CaseIds(pairs) <==> id in FailureIds(pairs) + ControlIds(pairs)
    ensures id in CaseIds(pairs) ==>
      var development := DevelopmentCases(customer);
      && id in CaseById(development) && CaseById(development)[id] in development && CaseById(development)[id].id == id
      && (id in ControlIds(pairs) <==> Right(CaseById(development)[id], ByCase(CustomerDevelopment(source))))
  {
    SelectedIds(customer, source, pairs);
    var development, byCase := DevelopmentCases(customer), ByCase(CustomerDevelopment(source));
    DevelopmentCasesKeep(customer);
    CaseByIdFinds(development);
    if id in FailureIds(pairs) {
      var c :| c in development && c.id == id && !Right(c, byCase);
    }
    if id in ControlIds(pairs) {
      var c :| c in development && c.id == id && Right(c, byCase);
    }
  }
}
