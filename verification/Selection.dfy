/**
 What the challenger set is, said of the dataset and the stored results themselves.
 */
module Selection {
  import opened Common
  import opened Results
  import opened Order
  import opened StageA

  /** The provider was asked about the case and answered. */
  predicate Spoke(r: CaseResult) {
    !r.providerError && ("asked" in r.metrics ==> r.metrics["asked"])
  }

  /** The case is one the set is drawn from, and this is what the run stored for it. */
  predicate InPlay(c: CustomerCase, customer: seq<CustomerCase>) {
    c in customer && c.split.Development?
  }

  predicate StoredFor(r: CaseResult, results: seq<CaseResult>, id: string) {
    r in results && r.job.CustomerIntent? && r.split.Development? && r.caseId == id
  }

  /** Cases nothing was read for. */
  ghost function Unread(customer: seq<CustomerCase>, results: seq<CaseResult>): set<string> {
    set c | c in customer && c.split.Development? && !(exists r :: StoredFor(r, results, c.id) && Spoke(r)) :: c.id
  }

  /** Stored customer development results of no case of the dataset. */
  ghost function Strangers(customer: seq<CustomerCase>, results: seq<CaseResult>): set<string> {
    set r | r in results && StoredFor(r, results, r.caseId) && !(exists c :: InPlay(c, customer) && c.id == r.caseId)
      :: r.caseId
  }

  ghost predicate ReadRight(c: CustomerCase, results: seq<CaseResult>) {
    exists r :: StoredFor(r, results, c.id) && r.apparentIntent == Some(c.expected)
  }

  ghost function ReadAsExpected(customer: seq<CustomerCase>, results: seq<CaseResult>): set<CustomerCase> {
    set c | c in customer && c.split.Development? && ReadRight(c, results)
  }

  ghost function Misread(customer: seq<CustomerCase>, results: seq<CaseResult>): set<CustomerCase> {
    set c | c in customer && c.split.Development? && !ReadRight(c, results)
  }

  /** Every misread case in the order of its identifier, each beside a case of its own read as expected. */
  ghost predicate PairsUp(customer: seq<CustomerCase>, results: seq<CaseResult>, pairs: seq<Pair>) {
    && (forall c :: c in Misread(customer, results) <==> exists i :: 0 <= i < |pairs| && pairs[i].failure == c)
    && (forall i, j :: 0 <= i < j < |pairs| ==> Before(pairs[i].failure.id, pairs[j].failure.id))
    && (forall i :: 0 <= i < |pairs| ==> pairs[i].control in ReadAsExpected(customer, results))
    && (forall i, j :: 0 <= i < j < |pairs| ==> pairs[i].control.id != pairs[j].control.id)
  }

  /** No two of these reasons hold of the same numbers. */
  predicate IsReason(r: Result<seq<Pair>, SelectError>, unread: set<string>, strangers: set<string>, wrong: nat,
      right: nat) {
    match r
    case Err(NoReading(missing)) => missing == unread != {}
    case Err(UnknownCases(unknown)) => unread == {} && unknown == strangers != {}
    case Err(NothingToChallenge) => unread == strangers == {} && wrong == 0
    case Err(TooFewControls(failures, controls)) =>
      unread == strangers == {} && failures == wrong && controls == right < wrong
    case Err(TooManyCases(n)) => unread == strangers == {} && 0 < wrong <= right && n == 2 * wrong > 18
    case Ok(_) => unread == strangers == {} && 0 < wrong <= right && 2 * wrong <= 18
  }

  // ------------------------------------------------------------------ reading by reading

  lemma StoredIsFound(results: seq<CaseResult>, id: string)
    requires DistinctResults(results)
    ensures var byCase := ByCase(CustomerDevelopment(results));
            && (id in byCase <==> exists r :: StoredFor(r, results, id))
            && (id in byCase ==> forall r :: StoredFor(r, results, id) <==> r == byCase[id])
  {
    var stored := CustomerDevelopment(results);
    CustomerDevelopmentKeeps(results);
    ByCaseFinds(stored);
    hide DistinctResults, ByCase, CustomerDevelopment;
    forall r ensures StoredFor(r, results, id) <==> r in stored && r.caseId == id {
    }
  }

  lemma RightIsReadRight(results: seq<CaseResult>, c: CustomerCase)
    requires DistinctResults(results)
    ensures Right(c, ByCase(CustomerDevelopment(results))) <==> ReadRight(c, results)
  {
    StoredIsFound(results, c.id);
    hide ByCase, CustomerDevelopment, StoredFor, DistinctResults;
  }

  lemma MissingAreUnread(customer: seq<CustomerCase>, results: seq<CaseResult>)
    requires DistinctCases(customer) && DistinctResults(results)
    ensures CaseById(DevelopmentCases(customer)).Keys - AnsweredIds(CustomerDevelopment(results))
         == Unread(customer, results)
    ensures StoredIds(CustomerDevelopment(results)) - CaseById(DevelopmentCases(customer)).Keys
         == Strangers(customer, results)
  {
    var development, stored := DevelopmentCases(customer), CustomerDevelopment(results);
    DevelopmentCasesKeep(customer);
    CaseByIdFinds(development);
    CustomerDevelopmentKeeps(results);
    hide DistinctCases, DistinctResults, DevelopmentCases, CustomerDevelopment, CaseById;
    forall id ensures id in CaseById(development).Keys <==> exists c :: InPlay(c, customer) && c.id == id {
      if id in CaseById(development) { assert InPlay(CaseById(development)[id], customer); }
    }
    forall id ensures id in AnsweredIds(stored) <==> exists r :: StoredFor(r, results, id) && Spoke(r) {
      if id in AnsweredIds(stored) {
        var r :| r in stored && HasReading(r) && r.caseId == id;
        assert StoredFor(r, results, id) && Spoke(r);
      }
    }
    UnreadAre(customer, results);
    StrangersAre(customer, results);
    forall id ensures id in StoredIds(stored) <==> exists r :: StoredFor(r, results, id) {
      if id in StoredIds(stored) {
        var r :| r in stored && r.caseId == id;
        assert StoredFor(r, results, id);
      }
    }
  }

  lemma UnreadAre(customer: seq<CustomerCase>, results: seq<CaseResult>)
    ensures forall id :: id in Unread(customer, results)
              <==> ((exists c :: InPlay(c, customer) && c.id == id)
                    && !(exists r :: StoredFor(r, results, id) && Spoke(r)))
  {
  }

  lemma StrangersAre(customer: seq<CustomerCase>, results: seq<CaseResult>)
    ensures forall id :: id in Strangers(customer, results)
              <==> ((exists r :: StoredFor(r, results, id)) && !(exists c :: InPlay(c, customer) && c.id == id))
  {
  }

  lemma {:induction false} EachOnce(cases: seq<CustomerCase>)
    requires DistinctCases(cases)
    ensures |set c | c in cases| == |cases|
  {
    if cases != [] {
      var n := |cases| - 1;
      EachOnce(cases[..n]);
      assert cases[n] !in cases[..n];
      assert cases == cases[..n] + [cases[n]];
      assert (set c | c in cases) == (set c | c in cases[..n]) + {cases[n]};
    }
  }

  /** The cases read wrong and read right, whichever way they are listed. */
  lemma ReadsAre(customer: seq<CustomerCase>, results: seq<CaseResult>)
    requires DistinctCases(customer) && DistinctResults(results)
    ensures var development, byCase := DevelopmentCases(customer), ByCase(CustomerDevelopment(results));
            var ids, cases := Sort(IdsOf(development)), CaseById(development);
            && (set c | c in ReadAs(false, ids, cases, byCase)) == Misread(customer, results)
            && |ReadAs(false, ids, cases, byCase)| == |Misread(customer, results)|
            && (set c | c in ReadAs(true, ids, cases, byCase)) == ReadAsExpected(customer, results)
            && |ReadAs(true, ids, cases, byCase)| == |ReadAsExpected(customer, results)|
  {
    var development, byCase := DevelopmentCases(customer), ByCase(CustomerDevelopment(results));
    var ids, cases := Sort(IdsOf(development)), CaseById(development);
    DevelopmentCasesKeep(customer);
    SortedIdsAreKeys(development);
    ReadsOf(false, development, byCase);
    ReadsOf(true, development, byCase);
    ReadAsKeeps(false, ids, cases, byCase);
    ReadAsKeeps(true, ids, cases, byCase);
    hide DistinctCases, DistinctResults, DevelopmentCases, CustomerDevelopment, CaseById, Sort, ByCase, ReadAs, Right;
    EachOnce(ReadAs(false, ids, cases, byCase));
    EachOnce(ReadAs(true, ids, cases, byCase));
    forall c ensures Right(c, byCase) <==> ReadRight(c, results) {
      RightIsReadRight(results, c);
    }
    hide ReadRight;
    assert (set c | c in ReadAs(false, ids, cases, byCase)) == Misread(customer, results);
    assert (set c | c in ReadAs(true, ids, cases, byCase)) == ReadAsExpected(customer, results);
  }

  // ------------------------------------------------------------------ the selection

  lemma ReadingIs(customer: seq<CustomerCase>, results: seq<CaseResult>, c: CustomerCase)
    requires DistinctCases(customer) && DistinctResults(results)
    ensures var development, byCase := DevelopmentCases(customer), ByCase(CustomerDevelopment(results));
            && (c in Misread(customer, results) <==> c in development && !Right(c, byCase))
            && (c in ReadAsExpected(customer, results) <==> c in development && Right(c, byCase))
  {
    DevelopmentCasesKeep(customer);
    RightIsReadRight(results, c);
    hide DistinctCases, DistinctResults, DevelopmentCases, CustomerDevelopment, ByCase, Right, ReadRight;
  }

  lemma SelectedPairUp(customer: seq<CustomerCase>, results: seq<CaseResult>, pairs: seq<Pair>)
    requires DistinctCases(customer) && DistinctResults(results) && Select(customer, results) == Ok(pairs)
    ensures PairsUp(customer, results, pairs)
  {
    hide Select, DistinctCases, DistinctResults, DevelopmentCases, CustomerDevelopment, ByCase, Right, CaseIds, Misread,
        ReadAsExpected, Before, FailureIds, ControlIds, Sorted, Distinct;
    SelectedSet(customer, results, pairs);
    forall c ensures c in Misread(customer, results) <==> exists i :: 0 <= i < |pairs| && pairs[i].failure == c {
      ReadingIs(customer, results, c);
    }
    forall i | 0 <= i < |pairs| ensures pairs[i].control in ReadAsExpected(customer, results) {
      ReadingIs(customer, results, pairs[i].control);
    }
    InOrderAndDistinct(pairs);
  }

  lemma InOrderAndDistinct(pairs: seq<Pair>)
    requires Sorted(FailureIds(pairs)) && Distinct(ControlIds(pairs))
    ensures forall i, j :: 0 <= i < j < |pairs| ==> Before(pairs[i].failure.id, pairs[j].failure.id)
    ensures forall i, j :: 0 <= i < j < |pairs| ==> pairs[i].control.id != pairs[j].control.id
  {
    hide Before;
    forall i, j | 0 <= i < j < |pairs|
        ensures Before(pairs[i].failure.id, pairs[j].failure.id) && pairs[i].control.id != pairs[j].control.id {
      assert FailureIds(pairs)[i] == pairs[i].failure.id && FailureIds(pairs)[j] == pairs[j].failure.id;
      assert ControlIds(pairs)[i] == pairs[i].control.id && ControlIds(pairs)[j] == pairs[j].control.id;
    }
  }

  lemma PairsCount(customer: seq<CustomerCase>, results: seq<CaseResult>)
    requires DistinctCases(customer)
    ensures var development, byCase := DevelopmentCases(customer), ByCase(CustomerDevelopment(results));
            var ids, cases := Sort(IdsOf(development)), CaseById(development);
            var failures, controls := ReadAs(false, ids, cases, byCase), ReadAs(true, ids, cases, byCase);
            && DistinctCases(controls)
            && (|failures| <= |controls| ==> |CaseIds(Pairs(failures, controls))| == 2 * |failures|)
  {
    var development, byCase := DevelopmentCases(customer), ByCase(CustomerDevelopment(results));
    var ids, cases := Sort(IdsOf(development)), CaseById(development);
    DevelopmentCasesKeep(customer);
    SortedIdsAreKeys(development);
    ReadAsKeeps(false, ids, cases, byCase);
    ReadAsKeeps(true, ids, cases, byCase);
    ReadAsKeepsOrder(false, ids, cases, byCase);
    var failures, controls := ReadAs(false, ids, cases, byCase), ReadAs(true, ids, cases, byCase);
    hide DevelopmentCases, CustomerDevelopment, CaseById, Sort, ByCase, ReadAs, CaseIds, Pairs;
    if |failures| <= |controls| {
      PairsAreDisjoint(failures, controls);
    }
  }

  lemma SelectFromIs(ids: seq<string>, cases: map<string, CustomerCase>, stored: seq<CaseResult>)
    requires Keys(ids, cases)
    requires var byCase := ByCase(stored);
             var failures, controls := ReadAs(false, ids, cases, byCase), ReadAs(true, ids, cases, byCase);
             DistinctCases(controls)
             && (|failures| <= |controls| ==> |CaseIds(Pairs(failures, controls))| == 2 * |failures|)
    ensures IsReason(SelectFrom(ids, cases, stored), cases.Keys - AnsweredIds(stored), StoredIds(stored) - cases.Keys,
                     |ReadAs(false, ids, cases, ByCase(stored))|, |ReadAs(true, ids, cases, ByCase(stored))|)
  {
    hide AnsweredIds, StoredIds, ReadAs, ByCase, CaseIds, Pairs, DistinctCases, Keys;
  }

  lemma SelectIs(customer: seq<CustomerCase>, results: seq<CaseResult>)
    requires DistinctCases(customer)
    ensures var development, stored := DevelopmentCases(customer), CustomerDevelopment(results);
            var ids, cases := Sort(IdsOf(development)), CaseById(development);
            Keys(ids, cases) && Select(customer, results) == SelectFrom(ids, cases, stored)
  {
    DevelopmentCasesKeep(customer);
    SortedIdsAreKeys(DevelopmentCases(customer));
    hide SelectFrom, DevelopmentCases, CustomerDevelopment, CaseById, Sort, IdsOf, Keys, DistinctCases, Sorted;
  }

  /**
   What a selection comes to, on every dataset and every stored run: the first reason it has no set, with the
   cases or the numbers that are the reason, or the set itself.
   */
  lemma SelectionDecides(customer: seq<CustomerCase>, results: seq<CaseResult>)
    requires DistinctCases(customer) && DistinctResults(results)
    ensures IsReason(Select(customer, results), Unread(customer, results), Strangers(customer, results),
                     |Misread(customer, results)|, |ReadAsExpected(customer, results)|)
    ensures Select(customer, results).Ok? ==> PairsUp(customer, results, Select(customer, results).value)
  {
    hide *;
    SelectIs(customer, results);
    MissingAreUnread(customer, results);
    ReadsAre(customer, results);
    PairsCount(customer, results);
    SelectFromIs(Sort(IdsOf(DevelopmentCases(customer))), CaseById(DevelopmentCases(customer)),
        CustomerDevelopment(results));
    if Select(customer, results).Ok? {
      SelectedPairUp(customer, results, Select(customer, results).value);
    }
  }
}
