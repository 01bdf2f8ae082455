/**
 The challenger set: every case the challenged model got wrong, each paired with a case it got
 right. The pairing is greedy over a pool that shrinks as controls are used.
 */
module StageA {
  import opened Common
  import opened Results
  import opened Order

  datatype CustomerCase = CustomerCase(id: string, split: Split, tags: seq<string>, expected: Intent)

  datatype Pair = Pair(failure: CustomerCase, control: CustomerCase, sameClass: bool)

  const MAX_STAGE_A_CASES := 18

  // ------------------------------------------------------------------ the control for one failure

  function TagSet(c: CustomerCase): set<string> {
    set tag | tag in c.tags
  }

  function Overlap(failure: CustomerCase, c: CustomerCase): nat {
    |TagSet(c) * TagSet(failure)|
  }

  /** `a` is the nearer control: more tags in common, then the lower id. */
  predicate Nearer(failure: CustomerCase, a: CustomerCase, b: CustomerCase) {
    Overlap(failure, a) > Overlap(failure, b) || (Overlap(failure, a) == Overlap(failure, b) && Before(a.id, b.id))
  }

  function Nearest(failure: CustomerCase, pool: seq<CustomerCase>): (c: CustomerCase)
    requires pool != []
    ensures c in pool
  {
    if |pool| == 1 then pool[0]
    else
      var rest := Nearest(failure, pool[1..]);
      if Nearer(failure, rest, pool[0]) then rest else pool[0]
  }

  function OfClass(intent: Intent, cases: seq<CustomerCase>): seq<CustomerCase> {
    if cases == [] then []
    else if cases[0].expected == intent then [cases[0]] + OfClass(intent, cases[1..])
    else OfClass(intent, cases[1..])
  }

  lemma {:induction false} OfClassKeeps(intent: Intent, cases: seq<CustomerCase>)
    ensures forall c :: c in OfClass(intent, cases) <==> c in cases && c.expected == intent
  {
    if cases != [] {
      OfClassKeeps(intent, cases[1..]);
      assert cases == [cases[0]] + cases[1..];
    }
  }

  /** The same class if any is left, the nearest by tags, then by id. */
  function Match(failure: CustomerCase, available: seq<CustomerCase>): (m: (CustomerCase, bool))
    requires available != []
    ensures m.0 in available
  {
    var sameClass := OfClass(failure.expected, available);
    OfClassKeeps(failure.expected, available);
    if sameClass != [] then (Nearest(failure, sameClass), true) else (Nearest(failure, available), false)
  }

  lemma NearerIsTotal(failure: CustomerCase, a: CustomerCase, b: CustomerCase)
    requires a.id != b.id
    ensures Nearer(failure, a, b) || Nearer(failure, b, a)
  {
    BeforeIsTotal(a.id, b.id);
  }

  lemma NearerIsTransitive(failure: CustomerCase, a: CustomerCase, b: CustomerCase, c: CustomerCase)
    requires Nearer(failure, a, b) && Nearer(failure, b, c)
    ensures Nearer(failure, a, c)
  {
    if Before(a.id, b.id) && Before(b.id, c.id) {
      BeforeIsTransitive(a.id, b.id, c.id);
    }
  }

  predicate DistinctCases(cases: seq<CustomerCase>) {
    forall i, j :: 0 <= i < j < |cases| ==> cases[i].id != cases[j].id
  }

  /** The tags the two have in common. */
  function Shared(a: CustomerCase, b: CustomerCase): set<string> {
    set tag | tag in a.tags && tag in b.tags
  }

  /** `a` has more tags in common with the failure than `b`, or as many and the lower identifier. */
  predicate Better(failure: CustomerCase, a: CustomerCase, b: CustomerCase) {
    var more, fewer := |Shared(failure, a)|, |Shared(failure, b)|;
    more > fewer || (more == fewer && Before(a.id, b.id))
  }

  lemma NearerIsBetter(failure: CustomerCase, a: CustomerCase, b: CustomerCase)
    ensures Nearer(failure, a, b) <==> Better(failure, a, b)
  {
    assert TagSet(a) * TagSet(failure) == Shared(failure, a);
    assert TagSet(b) * TagSet(failure) == Shared(failure, b);
  }

  /** The chosen control is better than every other in its pool. */
  lemma NearestIsNearest(failure: CustomerCase, pool: seq<CustomerCase>)
    requires pool != [] && DistinctCases(pool)
    ensures forall c :: c in pool ==> c == Nearest(failure, pool) || Better(failure, Nearest(failure, pool), c)
  {
    NearestBeatsTheRest(failure, pool);
    hide Nearest, Nearer, Better;
    forall c | c in pool ensures c == Nearest(failure, pool) || Better(failure, Nearest(failure, pool), c) {
      NearerIsBetter(failure, Nearest(failure, pool), c);
    }
  }

  lemma {:induction false} NearestBeatsTheRest(failure: CustomerCase, pool: seq<CustomerCase>)
    requires pool != [] && DistinctCases(pool)
    ensures forall c :: c in pool ==> c == Nearest(failure, pool) || Nearer(failure, Nearest(failure, pool), c)
  {
    if |pool| > 1 {
      var rest, best := Nearest(failure, pool[1..]), Nearest(failure, pool);
      assert pool == [pool[0]] + pool[1..];
      NearestBeatsTheRest(failure, pool[1..]);
      var k :| 0 <= k < |pool[1..]| && pool[1..][k] == rest;
      assert pool[k + 1] == rest;
      NearerIsTotal(failure, rest, pool[0]);
      forall c | c in pool[1..] ensures c == best || Nearer(failure, best, c) {
        if best == pool[0] && c != rest {
          NearerIsTransitive(failure, pool[0], rest, c);
        }
      }
    }
  }

  // ------------------------------------------------------------------ the greedy pairing

  /** The pool without one control. */
  function Without(pool: seq<CustomerCase>, id: string): seq<CustomerCase> {
    if pool == [] then []
    else if pool[0].id == id then pool[1..]
    else [pool[0]] + Without(pool[1..], id)
  }

  lemma {:induction false} WithoutOne(pool: seq<CustomerCase>, c: CustomerCase)
    requires DistinctCases(pool) && c in pool
    ensures DistinctCases(Without(pool, c.id))
    ensures |Without(pool, c.id)| == |pool| - 1
    ensures forall x :: x in Without(pool, c.id) <==> x in pool && x != c
    ensures forall x :: x in Without(pool, c.id) ==> x.id != c.id
  {
    assert pool == [pool[0]] + pool[1..];
    if pool[0].id == c.id {
      forall x | x in pool[1..] ensures x.id != c.id && x != c {
        var i :| 0 <= i < |pool[1..]| && pool[1..][i] == x;
        assert pool[i + 1] == x;
      }
      var k :| 0 <= k < |pool| && pool[k] == c;
    } else {
      assert c in pool[1..];
      WithoutOne(pool[1..], c);
      var rest := Without(pool[1..], c.id);
      forall i | 0 <= i < |rest| ensures rest[i].id != pool[0].id {
        assert rest[i] in pool[1..];
        var j :| 0 <= j < |pool[1..]| && pool[1..][j] == rest[i];
        assert pool[j + 1] == rest[i];
      }
      forall x | x in rest ensures x != pool[0] {
        var i :| 0 <= i < |rest| && rest[i] == x;
      }
    }
  }

  function Pairs(failures: seq<CustomerCase>, available: seq<CustomerCase>): seq<Pair>
    requires |failures| <= |available| && DistinctCases(available)
  {
    if failures == [] then []
    else
      var (control, sameClass) := Match(failures[0], available);
      WithoutOne(available, control);
      [Pair(failures[0], control, sameClass)] + Pairs(failures[1..], Without(available, control.id))
  }

  /** The pairing never gets stuck: each failure in order, each with its own control from the pool. */
  lemma {:induction false} EachFailureGetsItsOwnControl(failures: seq<CustomerCase>, available: seq<CustomerCase>)
    requires |failures| <= |available| && DistinctCases(available)
    ensures var pairs := Pairs(failures, available);
            && |pairs| == |failures|
            && (forall i :: 0 <= i < |pairs| ==> pairs[i].failure == failures[i] && pairs[i].control in available)
            && (forall i :: 0 <= i < |pairs| ==>
                (pairs[i].sameClass <==> pairs[i].control.expected == failures[i].expected))
            && (forall i, j :: 0 <= i < j < |pairs| ==> pairs[i].control.id != pairs[j].control.id)
  {
    if failures != [] {
      var (control, sameClass) := Match(failures[0], available);
      var rest := Without(available, control.id);
      WithoutOne(available, control);
      OfClassKeeps(failures[0].expected, available);
      EachFailureGetsItsOwnControl(failures[1..], rest);
    }
  }

  /** `a` is the failure's own class and `b` is not, or both are or neither is and `a` is better. */
  predicate Preferred(failure: CustomerCase, a: CustomerCase, b: CustomerCase) {
    if (a.expected == failure.expected) == (b.expected == failure.expected) then Better(failure, a, b)
    else a.expected == failure.expected
  }

  lemma {:induction false} OfClassStaysDistinct(intent: Intent, cases: seq<CustomerCase>)
    requires DistinctCases(cases)
    ensures DistinctCases(OfClass(intent, cases))
  {
    if cases != [] {
      OfClassStaysDistinct(intent, cases[1..]);
      OfClassKeeps(intent, cases[1..]);
    }
  }

  lemma MatchIsPreferred(failure: CustomerCase, available: seq<CustomerCase>, c: CustomerCase)
    requires DistinctCases(available) && c in available
    ensures c == Match(failure, available).0 || Preferred(failure, Match(failure, available).0, c)
  {
    OfClassKeeps(failure.expected, available);
    OfClassStaysDistinct(failure.expected, available);
    hide Better, Nearest, DistinctCases;
    if OfClass(failure.expected, available) != [] {
      NearestIsNearest(failure, OfClass(failure.expected, available));
    } else {
      NearestIsNearest(failure, available);
    }
  }

  /** None of the first pairs has this control. */
  predicate Untaken(pairs: seq<Pair>, k: nat, c: CustomerCase) {
    forall j :: 0 <= j < |pairs| && j < k ==> pairs[j].control.id != c.id
  }

  lemma UntakenLater(pairs: seq<Pair>, k: nat, c: CustomerCase)
    requires 0 < k < |pairs| && Untaken(pairs, k, c)
    ensures pairs[0].control.id != c.id && Untaken(pairs[1..], k - 1, c)
  {
    assert forall j :: 0 <= j < |pairs[1..]| ==> pairs[1..][j] == pairs[j + 1];
  }

  /** Each failure in its turn gets the control it prefers to every other no earlier failure has taken. */
  lemma {:induction false} EachGetsTheBestLeft(failures: seq<CustomerCase>, available: seq<CustomerCase>, k: nat,
      c: CustomerCase)
    requires k < |failures| <= |available| && DistinctCases(available) && c in available
    requires Untaken(Pairs(failures, available), k, c)
    ensures |Pairs(failures, available)| == |failures|
    ensures var control := Pairs(failures, available)[k].control;
            c == control || Preferred(failures[k], control, c)
  {
    var (control, sameClass) := Match(failures[0], available);
    var rest := Without(available, control.id);
    EachFailureGetsItsOwnControl(failures, available);
    WithoutOne(available, control);
    PairsNext(failures, available);
    hide Preferred, Match, DistinctCases, Pairs, Without, Untaken;
    if k == 0 {
      MatchIsPreferred(failures[0], available, c);
    } else {
      var pairs := Pairs(failures, available);
      assert pairs[1..] == Pairs(failures[1..], rest);
      UntakenLater(pairs, k, c);
      EachGetsTheBestLeft(failures[1..], rest, k - 1, c);
    }
  }

  // ------------------------------------------------------------------ when every pair is of one class

  function ClassCount(intent: Intent, cases: seq<CustomerCase>): nat {
    if cases == [] then 0 else (if cases[0].expected == intent then 1 else 0) + ClassCount(intent, cases[1..])
  }

  lemma {:induction false} CountWithout(intent: Intent, pool: seq<CustomerCase>, c: CustomerCase)
    requires DistinctCases(pool) && c in pool
    ensures ClassCount(intent, Without(pool, c.id)) == ClassCount(intent, pool) - if c.expected == intent then 1 else 0
  {
    assert pool == [pool[0]] + pool[1..];
    if pool[0].id == c.id {
      var k :| 0 <= k < |pool| && pool[k] == c;
    } else {
      CountWithout(intent, pool[1..], c);
    }
  }

  lemma {:induction false} CountedIsThere(intent: Intent, cases: seq<CustomerCase>)
    ensures ClassCount(intent, cases) > 0 <==> OfClass(intent, cases) != []
  {
    if cases != [] {
      CountedIsThere(intent, cases[1..]);
    }
  }

  predicate EnoughOfEach(failures: seq<CustomerCase>, available: seq<CustomerCase>) {
    forall intent: Intent :: ClassCount(intent, failures) <= ClassCount(intent, available)
  }

  predicate AllSameClass(pairs: seq<Pair>) {
    forall i :: 0 <= i < |pairs| ==> pairs[i].sameClass
  }

  lemma SameClassNext(pairs: seq<Pair>, later: seq<Pair>)
    requires pairs != [] && pairs[1..] == later
    ensures AllSameClass(pairs) <==> pairs[0].sameClass && AllSameClass(later)
  {
    assert forall i :: 0 <= i < |later| ==> pairs[i + 1] == later[i];
    if pairs[0].sameClass && AllSameClass(later) {
      forall i | 0 <= i < |pairs| ensures pairs[i].sameClass {
        if i > 0 { assert later[i - 1].sameClass; }
      }
    }
  }

  /** Every pair is of its failure's own class exactly when every class has a control for each of its failures. */
  lemma {:induction false} SameClassIffEnoughOfEach(failures: seq<CustomerCase>, available: seq<CustomerCase>)
    requires |failures| <= |available| && DistinctCases(available)
    ensures AllSameClass(Pairs(failures, available)) <==> EnoughOfEach(failures, available)
  {
    if failures == [] {
      assert EnoughOfEach(failures, available);
    } else {
      var (control, sameClass) := Match(failures[0], available);
      var rest := Without(available, control.id);
      WithoutOne(available, control);
      OfClassKeeps(failures[0].expected, available);
      CountedIsThere(failures[0].expected, available);
      SameClassIffEnoughOfEach(failures[1..], rest);
      forall intent: Intent ensures ClassCount(intent, rest) == ClassCount(intent, available) - if control.expected
          == intent then 1 else 0 {
        CountWithout(intent, available, control);
      }
      var pairs, later := Pairs(failures, available), Pairs(failures[1..], rest);
      assert pairs == [Pair(failures[0], control, sameClass)] + later;
      SameClassNext(pairs, later);
      assert sameClass <==> control.expected == failures[0].expected;
      if sameClass {
        assert EnoughOfEach(failures, available) <==> EnoughOfEach(failures[1..], rest) by {
          assert forall intent: Intent ::
              ClassCount(intent, failures) - ClassCount(intent, failures[1..])
              == ClassCount(intent, available) - ClassCount(intent, rest);
        }
      }
    }
  }

  // ------------------------------------------------------------------ building the set from a finished run

  function DevelopmentCases(customer: seq<CustomerCase>): seq<CustomerCase> {
    if customer == [] then []
    else
      var before, last := DevelopmentCases(customer[..|customer| - 1]), customer[|customer| - 1];
      if last.split.Development? then before + [last] else before
  }

  /** The customer development results of a run, and only those. */
  function CustomerDevelopment(results: seq<CaseResult>): seq<CaseResult> {
    if results == [] then []
    else
      var before, last := CustomerDevelopment(results[..|results| - 1]), results[|results| - 1];
      if last.job.CustomerIntent? && last.split.Development? then before + [last] else before
  }

  lemma {:induction false} DevelopmentCasesKeep(customer: seq<CustomerCase>)
    requires DistinctCases(customer)
    ensures DistinctCases(DevelopmentCases(customer))
    ensures forall c :: c in DevelopmentCases(customer) <==> c in customer && c.split.Development?
  {
    if customer != [] {
      var n := |customer| - 1;
      DevelopmentCasesKeep(customer[..n]);
      assert customer == customer[..n] + [customer[n]];
      var before := DevelopmentCases(customer[..n]);
      forall i | 0 <= i < |before| ensures before[i].id != customer[n].id {
        assert before[i] in customer[..n];
      }
    }
  }

  lemma {:induction false} CustomerDevelopmentKeeps(results: seq<CaseResult>)
    requires DistinctResults(results)
    ensures DistinctResults(CustomerDevelopment(results))
    ensures forall r :: r in CustomerDevelopment(results) <==>
        r in results && r.job.CustomerIntent? && r.split.Development?
  {
    if results != [] {
      var n := |results| - 1;
      CustomerDevelopmentKeeps(results[..n]);
      assert results == results[..n] + [results[n]];
      var before := CustomerDevelopment(results[..n]);
      forall i | 0 <= i < |before| ensures before[i].caseId != results[n].caseId {
        assert before[i] in results[..n];
      }
    }
  }

  function IdsOf(cases: seq<CustomerCase>): seq<string> {
    seq(|cases|, i requires 0 <= i < |cases| => cases[i].id)
  }

  function CaseById(cases: seq<CustomerCase>): map<string, CustomerCase> {
    if cases == [] then map[]
    else CaseById(cases[..|cases| - 1])[cases[|cases| - 1].id := cases[|cases| - 1]]
  }

  lemma {:induction false} CaseByIdFinds(cases: seq<CustomerCase>)
    requires DistinctCases(cases)
    ensures forall c :: c in cases ==> c.id in CaseById(cases) && CaseById(cases)[c.id] == c
    ensures forall id :: id in CaseById(cases) ==> CaseById(cases)[id] in cases && CaseById(cases)[id].id == id
  {
    if cases != [] {
      var n := |cases| - 1;
      CaseByIdFinds(cases[..n]);
      assert cases == cases[..n] + [cases[n]];
    }
  }

  datatype SelectError =
    | NoReading(missing: set<string>)
    | UnknownCases(unknown: set<string>)
    | NothingToChallenge
    | TooFewControls(failures: nat, controls: nat)
    | TooManyCases(cases: nat)

  function AnsweredIds(stored: seq<CaseResult>): set<string> {
    set r | r in stored && HasReading(r) :: r.caseId
  }

  function StoredIds(stored: seq<CaseResult>): set<string> {
    set r | r in stored :: r.caseId
  }

  /** The first reason the stored readings do not cover exactly the cases, if there is one. */
  function Incomplete(cases: map<string, CustomerCase>, stored: seq<CaseResult>): Option<SelectError> {
    var missing := cases.Keys - AnsweredIds(stored);
    var unknown := StoredIds(stored) - cases.Keys;
    if missing != {} then Some(NoReading(missing))
    else if unknown != {} then Some(UnknownCases(unknown))
    else None
  }

  predicate Right(c: CustomerCase, byCase: map<string, CaseResult>) {
    c.id in byCase && byCase[c.id].apparentIntent == Some(c.expected)
  }

  /** The cases under these ids that were read right, or wrong, in the order of the ids. */
  function ReadAs(right: bool, ids: seq<string>, cases: map<string, CustomerCase>,
      byCase: map<string, CaseResult>): seq<CustomerCase> {
    if ids == [] then []
    else
      var before, last := ReadAs(right, ids[..|ids| - 1], cases, byCase), ids[|ids| - 1];
      if last in cases && Right(cases[last], byCase) == right then before + [cases[last]] else before
  }

  function FailureIds(pairs: seq<Pair>): seq<string> {
    seq(|pairs|, i requires 0 <= i < |pairs| => pairs[i].failure.id)
  }

  function ControlIds(pairs: seq<Pair>): seq<string> {
    seq(|pairs|, i requires 0 <= i < |pairs| => pairs[i].control.id)
  }

  function CaseIds(pairs: seq<Pair>): set<string> {
    Members(FailureIds(pairs)) + Members(ControlIds(pairs))
  }

  /** The identifiers of these cases, each once. */
  ghost predicate Keys(ids: seq<string>, cases: map<string, CustomerCase>) {
    Distinct(ids) && (forall id :: id in ids <==> id in cases) && (forall id :: id in cases ==> cases[id].id == id)
  }

  lemma {:induction false} ReadAsKeeps(right: bool, ids: seq<string>, cases: map<string, CustomerCase>,
      byCase: map<string, CaseResult>)
    requires Distinct(ids) && forall id :: id in ids ==> id in cases && cases[id].id == id
    ensures DistinctCases(ReadAs(right, ids, cases, byCase))
    ensures forall c :: c in ReadAs(right, ids, cases, byCase) <==>
        c.id in ids && cases[c.id] == c && Right(c, byCase) == right
  {
    if ids != [] {
      var n := |ids| - 1;
      ReadAsKeeps(right, ids[..n], cases, byCase);
      assert ids == ids[..n] + [ids[n]];
      var before := ReadAs(right, ids[..n], cases, byCase);
      forall i | 0 <= i < |before| ensures before[i].id != ids[n] {
        assert before[i] in before;
      }
    }
  }

  function SelectFrom(ids: seq<string>, cases: map<string, CustomerCase>, stored: seq<CaseResult>): Result<seq<Pair>,
      SelectError>
    requires Keys(ids, cases)
  {
    if Incomplete(cases, stored).Some? then Err(Incomplete(cases, stored).value)
    else
      var byCase := ByCase(stored);
      var failures, controls := ReadAs(false, ids, cases, byCase), ReadAs(true, ids, cases, byCase);
      ReadAsKeeps(true, ids, cases, byCase);
      if failures == [] then Err(NothingToChallenge)
      else if |controls| < |failures| then Err(TooFewControls(|failures|, |controls|))
      else
        var pairs := Pairs(failures, controls);
        if |CaseIds(pairs)| > MAX_STAGE_A_CASES then Err(TooManyCases(|CaseIds(pairs)|)) else Ok(pairs)
  }

  lemma SortedIdsAreKeys(customer: seq<CustomerCase>)
    requires DistinctCases(customer)
    ensures Keys(Sort(IdsOf(customer)), CaseById(customer))
    ensures Sorted(Sort(IdsOf(customer)))
  {
    var ids := IdsOf(customer);
    SortSorts(ids);
    CaseByIdFinds(customer);
    SortedIsDistinct(Sort(ids));
    forall id ensures id in ids <==> id in CaseById(customer) {
      if id in ids {
        var i :| 0 <= i < |ids| && ids[i] == id;
        assert customer[i] in customer;
      }
      if id in CaseById(customer) {
        var i :| 0 <= i < |customer| && customer[i] == CaseById(customer)[id];
        assert ids[i] == id;
      }
    }
  }

  /** The challenger set of a finished run. Case ids are unique in a dataset that loads. */
  function Select(customer: seq<CustomerCase>, results: seq<CaseResult>): Result<seq<Pair>, SelectError>
    requires DistinctCases(customer)
  {
    var development := DevelopmentCases(customer);
    DevelopmentCasesKeep(customer);
    SortedIdsAreKeys(development);
    SelectFrom(Sort(IdsOf(development)), CaseById(development), CustomerDevelopment(results))
  }

  // ------------------------------------------------------------------ the selection as it is made

  lemma NoMorePairs(available: seq<CustomerCase>)
    requires DistinctCases(available)
    ensures Pairs([], available) == []
  {
  }

  lemma PairsNext(failures: seq<CustomerCase>, available: seq<CustomerCase>)
    requires 0 < |failures| <= |available| && DistinctCases(available)
    ensures var (control, sameClass) := Match(failures[0], available);
            && |failures[1..]| <= |Without(available, control.id)| && DistinctCases(Without(available, control.id))
            && Pairs(failures, available)
                == [Pair(failures[0], control, sameClass)] + Pairs(failures[1..], Without(available, control.id))
  {
    var (control, sameClass) := Match(failures[0], available);
    WithoutOne(available, control);
  }

  /** Take the failures in order, each time removing the chosen control from the pool. */
  method PairUp(failures: seq<CustomerCase>, controls: seq<CustomerCase>) returns (pairs: seq<Pair>)
    requires |failures| <= |controls| && DistinctCases(controls)
    ensures pairs == Pairs(failures, controls)
  {
    hide Match, Without, Pairs, DistinctCases;
    pairs := [];
    var available := controls;
    assert failures[0..] == failures;
    for k := 0 to |failures|
      invariant |failures| - k <= |available| && DistinctCases(available)
      invariant pairs + Pairs(failures[k..], available) == Pairs(failures, controls)
    {
      var (control, sameClass) := Match(failures[k], available);
      WithoutOne(available, control);
      PairsNext(failures[k..], available);
      assert failures[k..][1..] == failures[k + 1..];
      ghost var rest := Pairs(failures[k + 1..], Without(available, control.id));
      assert pairs + ([Pair(failures[k], control, sameClass)] + rest)
          == (pairs + [Pair(failures[k], control, sameClass)]) + rest;
      available := Without(available, control.id);
      pairs := pairs + [Pair(failures[k], control, sameClass)];
    }
    NoMorePairs(available);
    assert failures[|failures|..] == [];
  }

  method SelectStageA(customer: seq<CustomerCase>, results: seq<CaseResult>) returns (r: Result<seq<Pair>, SelectError>)
    requires DistinctCases(customer)
    ensures r == Select(customer, results)
  {
    hide DevelopmentCases, CustomerDevelopment, CaseById, Sort, ByCase, Pairs, CaseIds, Incomplete, DistinctCases;
    var development := DevelopmentCases(customer);
    DevelopmentCasesKeep(customer);
    SortedIdsAreKeys(development);
    var cases, ids := CaseById(development), Sort(IdsOf(development));
    var stored := CustomerDevelopment(results);
    var incomplete := Incomplete(cases, stored);
    if incomplete.Some? {
      return Err(incomplete.value);
    }
    var byCase := ByCase(stored);
    var failures: seq<CustomerCase> := [];
    var controls: seq<CustomerCase> := [];
    for k := 0 to |ids|
      invariant failures == ReadAs(false, ids[..k], cases, byCase)
      invariant controls == ReadAs(true, ids[..k], cases, byCase)
    {
      assert ids[..k + 1][..k] == ids[..k];
      assert ids[k] in ids;
      var c := cases[ids[k]];
      if c.id in byCase && byCase[c.id].apparentIntent == Some(c.expected) {
        controls := controls + [c];
      } else {
        failures := failures + [c];
      }
    }
    assert ids[..|ids|] == ids;
    ReadAsKeeps(true, ids, cases, byCase);
    if failures == [] {
      return Err(NothingToChallenge);
    }
    if |controls| < |failures| {
      return Err(TooFewControls(|failures|, |controls|));
    }
    var pairs := PairUp(failures, controls);
    if |CaseIds(pairs)| > MAX_STAGE_A_CASES {
      return Err(TooManyCases(|CaseIds(pairs)|));
    }
    return Ok(pairs);
  }

  // ------------------------------------------------------------------ what is selected

  lemma DisjointPairsCount(pairs: seq<Pair>)
    requires Distinct(FailureIds(pairs)) && Distinct(ControlIds(pairs))
    requires forall id :: id in FailureIds(pairs) ==> id !in ControlIds(pairs)
    ensures |CaseIds(pairs)| == 2 * |pairs|
  {
    DistinctMembers(FailureIds(pairs));
    DistinctMembers(ControlIds(pairs));
    assert Members(FailureIds(pairs)) !! Members(ControlIds(pairs));
  }

  lemma {:induction false} ReadAsKeepsOrder(right: bool, ids: seq<string>, cases: map<string, CustomerCase>,
      byCase: map<string, CaseResult>)
    requires Sorted(ids) && forall id :: id in ids ==> id in cases && cases[id].id == id
    ensures Sorted(IdsOf(ReadAs(right, ids, cases, byCase)))
    ensures forall id :: id in IdsOf(ReadAs(right, ids, cases, byCase)) ==> id in ids
  {
    if ids != [] {
      var n := |ids| - 1;
      assert forall id :: id in ids[..n] ==> id in ids;
      ReadAsKeepsOrder(right, ids[..n], cases, byCase);
      var before := IdsOf(ReadAs(right, ids[..n], cases, byCase));
      forall i | 0 <= i < |before| ensures Before(before[i], ids[n]) {
        assert before[i] in before;
        var k :| 0 <= k < n && ids[..n][k] == before[i];
        assert ids[k] == before[i];
      }
      assert ids[n] in ids && cases[ids[n]].id == ids[n];
      var read := ReadAs(right, ids, cases, byCase);
      assert IdsOf(read) == before || IdsOf(read) == before + [ids[n]];
    }
  }

  /** The wrong cases in order, each beside its own right case. */
  ghost predicate WrongBesideRight(failures: seq<CustomerCase>, controls: seq<CustomerCase>, pairs: seq<Pair>) {
    && |pairs| == |failures|
    && (forall i :: 0 <= i < |pairs| ==> pairs[i].failure == failures[i] && pairs[i].control in controls)
    && Sorted(FailureIds(pairs)) && Distinct(ControlIds(pairs))
    && |CaseIds(pairs)| == 2 * |pairs|
  }

  lemma PairsAreDisjoint(failures: seq<CustomerCase>, controls: seq<CustomerCase>)
    requires |failures| <= |controls| && DistinctCases(controls) && Sorted(IdsOf(failures))
    requires forall f, c :: f in failures && c in controls ==> f.id != c.id
    ensures WrongBesideRight(failures, controls, Pairs(failures, controls))
  {
    hide Pairs, DistinctCases;
    var pairs := Pairs(failures, controls);
    EachFailureGetsItsOwnControl(failures, controls);
    assert FailureIds(pairs) == IdsOf(failures);
    SortedIsDistinct(FailureIds(pairs));
    forall id | id in FailureIds(pairs) ensures id !in ControlIds(pairs) {
      var i :| 0 <= i < |pairs| && FailureIds(pairs)[i] == id;
      assert failures[i] in failures;
    }
    DisjointPairsCount(pairs);
  }

  lemma SelectedFrom(ids: seq<string>, cases: map<string, CustomerCase>, stored: seq<CaseResult>, pairs: seq<Pair>)
    requires Keys(ids, cases) && Sorted(ids) && SelectFrom(ids, cases, stored) == Ok(pairs)
    ensures WrongBesideRight(ReadAs(false, ids, cases, ByCase(stored)), ReadAs(true, ids, cases, ByCase(stored)), pairs)
    ensures |CaseIds(pairs)| <= MAX_STAGE_A_CASES
  {
    var byCase := ByCase(stored);
    ReadAsKeeps(false, ids, cases, byCase);
    ReadAsKeeps(true, ids, cases, byCase);
    ReadAsKeepsOrder(false, ids, cases, byCase);
    PairsAreDisjoint(ReadAs(false, ids, cases, byCase), ReadAs(true, ids, cases, byCase));
  }

  /**
   A set is built exactly when every case has a reading, something was wrong, enough was right, and it fits
   the bound.
   */
  lemma SelectionIsBuiltIff(ids: seq<string>, cases: map<string, CustomerCase>, stored: seq<CaseResult>)
    requires Keys(ids, cases) && Sorted(ids)
    ensures var failures, controls := ReadAs(false, ids, cases, ByCase(stored)),
        ReadAs(true, ids, cases, ByCase(stored));
            SelectFrom(ids, cases, stored).Ok? <==>
              Incomplete(cases, stored) == None && 0 < |failures| <= |controls| && 2 * |failures| <= MAX_STAGE_A_CASES
  {
    var byCase := ByCase(stored);
    var failures, controls := ReadAs(false, ids, cases, byCase), ReadAs(true, ids, cases, byCase);
    ReadAsKeeps(false, ids, cases, byCase);
    ReadAsKeeps(true, ids, cases, byCase);
    ReadAsKeepsOrder(false, ids, cases, byCase);
    if |failures| <= |controls| {
      PairsAreDisjoint(failures, controls);
    }
  }

  lemma ReadsOf(right: bool, customer: seq<CustomerCase>, byCase: map<string, CaseResult>)
    requires DistinctCases(customer)
    ensures forall c :: c in ReadAs(right, Sort(IdsOf(customer)), CaseById(customer), byCase) <==>
        c in customer && Right(c, byCase) == right
  {
    SortedIdsAreKeys(customer);
    CaseByIdFinds(customer);
    ReadAsKeeps(right, Sort(IdsOf(customer)), CaseById(customer), byCase);
  }

  /**
   The selection holds every case the run read wrong, in order, each beside its own case read right, and
   nothing else.
   */
  lemma SelectedSet(customer: seq<CustomerCase>, results: seq<CaseResult>, pairs: seq<Pair>)
    requires DistinctCases(customer) && Select(customer, results) == Ok(pairs)
    ensures var development, byCase := DevelopmentCases(customer), ByCase(CustomerDevelopment(results));
            && (forall c :: c in development && !Right(c, byCase) <==>
                exists i :: 0 <= i < |pairs| && pairs[i].failure == c)
            && (forall i :: 0 <= i < |pairs| ==> pairs[i].control in development && Right(pairs[i].control, byCase))
    ensures Sorted(FailureIds(pairs)) && Distinct(ControlIds(pairs))
    ensures |CaseIds(pairs)| == 2 * |pairs| <= MAX_STAGE_A_CASES
  {
    var development := DevelopmentCases(customer);
    var byCase := ByCase(CustomerDevelopment(results));
    DevelopmentCasesKeep(customer);
    SortedIdsAreKeys(development);
    SelectedFrom(Sort(IdsOf(development)), CaseById(development), CustomerDevelopment(results), pairs);
    var failures := ReadAs(false, Sort(IdsOf(development)), CaseById(development), byCase);
    ReadsOf(false, development, byCase);
    ReadsOf(true, development, byCase);
    forall c ensures c in failures <==> exists i :: 0 <= i < |pairs| && pairs[i].failure == c {
      if c in failures {
        var i :| 0 <= i < |failures| && failures[i] == c;
        assert pairs[i].failure == c;
      }
    }
  }

  // ------------------------------------------------------------------ order of the inputs

  lemma SameKeysSameCases(a: seq<CustomerCase>, b: seq<CustomerCase>)
    requires DistinctCases(a) && DistinctCases(b) && forall c :: c in a <==> c in b
    ensures CaseById(a) == CaseById(b) && Sort(IdsOf(a)) == Sort(IdsOf(b))
    ensures Keys(Sort(IdsOf(a)), CaseById(a))
  {
    CaseByIdFinds(a);
    CaseByIdFinds(b);
    assert CaseById(a) == CaseById(b);
    SortedIdsAreKeys(a);
    SortedIdsAreKeys(b);
    SortedIsUnique(Sort(IdsOf(a)), Sort(IdsOf(b)));
  }

  lemma SameStoredSameSelection(ids: seq<string>, cases: map<string, CustomerCase>, stored: seq<CaseResult>,
      stored': seq<CaseResult>)
    requires Keys(ids, cases) && ByCase(stored) == ByCase(stored')
    requires forall r :: r in stored <==> r in stored'
    ensures SelectFrom(ids, cases, stored) == SelectFrom(ids, cases, stored')
  {
    assert AnsweredIds(stored) == AnsweredIds(stored') && StoredIds(stored) == StoredIds(stored');
  }

  /**
   The selection depends on which cases and which results there are, and not on the order either
   was stored in.
   */
  lemma SelectionIgnoresOrder(customer: seq<CustomerCase>, customer': seq<CustomerCase>, results: seq<CaseResult>,
      results': seq<CaseResult>)
    requires DistinctCases(customer) && DistinctCases(customer') && DistinctResults(results)
        && DistinctResults(results')
    requires forall c :: c in customer <==> c in customer'
    requires forall r :: r in results <==> r in results'
    ensures Select(customer, results) == Select(customer', results')
  {
    var a, b := DevelopmentCases(customer), DevelopmentCases(customer');
    var stored, stored' := CustomerDevelopment(results), CustomerDevelopment(results');
    DevelopmentCasesKeep(customer);
    DevelopmentCasesKeep(customer');
    CustomerDevelopmentKeeps(results);
    CustomerDevelopmentKeeps(results');
    ByCaseIgnoresOrder(stored, stored');
    SameKeysSameCases(a, b);
    SameStoredSameSelection(Sort(IdsOf(a)), CaseById(a), stored, stored');
  }
}
