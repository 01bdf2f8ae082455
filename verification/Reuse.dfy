/**
 When resuming a benchmark run is invisible whatever the provider says: a condition on the settings, the
 cases and what is stored, which whoever resumes can look at before asking anything.
 */
module Reuse {
  import opened Common
  import opened Results
  import opened RunCases

  /** The result stops the run for its own sake, whatever was counted before it. */
  predicate Halts(s: Settings, result: CaseResult) {
    || (s.policy.stopOnSafetyViolation && BrokeSafety(result))
    || (s.expectedModelId.Some? && result.modelId.Some? && result.modelId != s.expectedModelId)
  }

  /** How many cases there are before the first stored result that halts the run. */
  function Unhalted(s: Settings, stored: map<string, CaseResult>, cases: seq<GoldCase>): (m: nat)
    ensures m <= |cases|
  {
    if cases == [] then 0
    else
      var n := |cases| - 1;
      var before := Unhalted(s, stored, cases[..n]);
      if before < n || (cases[n].id in stored && Halts(s, stored[cases[n].id])) then before else n + 1
  }

  predicate CouldFail(stored: map<string, CaseResult>, c: GoldCase) {
    c.id in stored ==> stored[c.id].providerError
  }

  /** How many of the first n cases an uninterrupted run could count as outages. */
  function CouldCount(stored: map<string, CaseResult>, cases: seq<GoldCase>, n: nat): nat
    requires n <= |cases|
  {
    if n == 0 then 0 else CouldCount(stored, cases, n - 1) + if CouldFail(stored, cases[n - 1]) then 1 else 0
  }

  /**
   Before any stored result halts the run there is a stored outage, and there are outages enough, stored
   or possible, to reach the limit. A limit of nought is reached at the first case, whatever it is.
   */
  predicate Exposed(s: Settings, stored: map<string, CaseResult>, cases: seq<GoldCase>) {
    var m := Unhalted(s, stored, cases);
    match s.policy.maxProviderFailures
    case None => false
    case Some(limit) =>
      if limit == 0 then m > 0 && ReusedOutage(stored, cases[0]) > 0
      else ReusedOutages(stored, cases, m) > 0 && CouldCount(stored, cases, m) >= limit
  }

  // ------------------------------------------------------------------ not exposed: invisible

  lemma {:induction false} UnhaltedReaches(s: Settings, stored: map<string, CaseResult>, cases: seq<GoldCase>, n: nat)
    requires n <= |cases|
    ensures (forall i :: 0 <= i < n && cases[i].id in stored ==> !Halts(s, stored[cases[i].id])) <==>
        n <= Unhalted(s, stored, cases)
  {
    hide Halts;
    if cases != [] {
      var k := |cases| - 1;
      if n <= k {
        UnhaltedReaches(s, stored, cases[..k], n);
      } else {
        UnhaltedReaches(s, stored, cases[..k], k);
        assert forall i :: 0 <= i < k ==> cases[..k][i] == cases[i];
      }
    }
  }

  lemma {:induction false} CountsGrow(stored: map<string, CaseResult>, cases: seq<GoldCase>, n: nat, m: nat)
    requires n <= m <= |cases|
    ensures ReusedOutages(stored, cases, n) <= ReusedOutages(stored, cases, m)
    ensures CouldCount(stored, cases, n) <= CouldCount(stored, cases, m)
  {
    if n < m {
      CountsGrow(stored, cases, n, m - 1);
    }
  }

  /** While an uninterrupted run goes on nothing has halted it, and it has counted no more than it could. */
  lemma {:induction false} WhileItGoesOn(s: Settings, stored: map<string, CaseResult>, answer: GoldCase -> Answer,
      cases: seq<GoldCase>, n: nat)
    requires Faithful(s, stored, answer, cases) && n <= |cases|
    requires RunOver(s, map[], answer, cases[..n]).stopped == None
    ensures RunOver(s, map[], answer, cases[..n]).failures <= CouldCount(stored, cases, n)
    ensures forall i :: 0 <= i < n ==> !Halts(s, answer(cases[i]).result)
    ensures n > 0 && s.policy.maxProviderFailures.Some? ==> s.policy.maxProviderFailures.value > 0
    decreases n
  {
    if n > 0 {
      assert cases[..n][..n - 1] == cases[..n - 1];
      StoppedEarlier(s, map[], answer, cases[..n]);
      WhileItGoesOn(s, stored, answer, cases, n - 1);
      assert FaithfulTo(s, stored, answer, cases[n - 1]);
    }
  }

  lemma NothingReused(stored: map<string, CaseResult>, cases: seq<GoldCase>)
    ensures ReusedOutages(stored, cases, 0) == 0
  {
  }

  lemma UnexposedIsInvisible(s: Settings, stored: map<string, CaseResult>, answer: GoldCase -> Answer,
      cases: seq<GoldCase>)
    requires Faithful(s, stored, answer, cases) && !Exposed(s, stored, cases)
    ensures SameReport(RunOver(s, map[], answer, cases), RunOver(s, stored, answer, cases))
  {
    var u := RunOver(s, map[], answer, cases);
    var n := |u.results|;
    ResumeIsInvisibleIff(s, stored, answer, cases);
    ReachesTheSameCase(s, answer, cases);
    hide Exposed, RunOver, SameReport, Faithful, ReusedOutages;
    NothingReused(stored, cases);
    if u.stopped.Some? && u.stopped.value.Outages? && ReusedOutages(stored, cases, n) > 0 {
      StoppedOnOutages(s, stored, answer, cases, n);
    }
  }

  /** A run that stops on outages at its last case was not halted there, and counted up to its limit. */
  lemma LastIsAnOutage(s: Settings, stored: map<string, CaseResult>, answer: GoldCase -> Answer, before: RunOutcome,
      c: GoldCase)
    requires FaithfulTo(s, stored, answer, c)
    requires var o := AtCase(s, map[], answer, before, c); o.stopped.Some? && o.stopped.value.Outages?
    ensures !Halts(s, answer(c).result)
    ensures s.policy.maxProviderFailures.Some?
    ensures s.policy.maxProviderFailures.value <= before.failures + if CouldFail(stored, c) then 1 else 0
  {
  }

  /** A run that stops on outages after n cases, one of them stored, was exposed. */
  lemma StoppedOnOutages(s: Settings, stored: map<string, CaseResult>, answer: GoldCase -> Answer, cases: seq<GoldCase>,
      n: nat)
    requires Faithful(s, stored, answer, cases) && 0 < n <= |cases| && ReusedOutages(stored, cases, n) > 0
    requires RunOver(s, map[], answer, cases[..n][..n - 1]).stopped == None
    requires RunOver(s, map[], answer, cases[..n]).stopped.Some?
        && RunOver(s, map[], answer, cases[..n]).stopped.value.Outages?
    ensures Exposed(s, stored, cases)
  {
    assert cases[..n][..n - 1] == cases[..n - 1];
    WhileItGoesOn(s, stored, answer, cases, n - 1);
    hide AtCase, Halts, CouldFail, Unhalted;
    LastIsAnOutage(s, stored, answer, RunOver(s, map[], answer, cases[..n - 1]), cases[n - 1]);
    forall i | 0 <= i < n && cases[i].id in stored ensures !Halts(s, stored[cases[i].id]) {
      assert FaithfulTo(s, stored, answer, cases[i]);
    }
    UnhaltedReaches(s, stored, cases, n);
    CountsGrow(stored, cases, n, Unhalted(s, stored, cases));
  }

  // ------------------------------------------------------------------ exposed: some answers show it

  /** The cases are distinct, as a dataset's are. */
  predicate DistinctCases(cases: seq<GoldCase>) {
    forall i, j :: 0 <= i < j < |cases| ==> cases[i] != cases[j]
  }

  function Made(c: GoldCase, failed: bool): CaseResult {
    CaseResult(c.id, WorkerSemantics, Development, None, map[], "", None, failed)
  }

  /** What is stored where it is stored, an outage at each case from `from` on that is not, an answer before. */
  function FailingFrom(s: Settings, stored: map<string, CaseResult>, cases: seq<GoldCase>,
      from: nat): GoldCase -> Answer
    requires from <= |cases|
  {
    (c: GoldCase) =>
      var result := if c.id in stored then stored[c.id] else Made(c, c in cases[from..]);
      Answer(result, s.rescore(c, result))
  }

  /** The outages such a provider has given after k cases. */
  function Given(stored: map<string, CaseResult>, cases: seq<GoldCase>, from: nat, k: nat): nat
    requires k <= |cases|
  {
    if k == 0 then 0
    else Given(stored, cases, from, k - 1)
         + if CouldFail(stored, cases[k - 1]) && (cases[k - 1].id in stored || k - 1 >= from) then 1 else 0
  }

  lemma {:induction false} GivenGrows(stored: map<string, CaseResult>, cases: seq<GoldCase>, from: nat, k: nat, m: nat)
    requires k <= m <= |cases|
    ensures Given(stored, cases, from, k) <= Given(stored, cases, from, m)
  {
    if k < m {
      GivenGrows(stored, cases, from, k, m - 1);
    }
  }

  lemma {:induction false} GivenFromTheStart(stored: map<string, CaseResult>, cases: seq<GoldCase>, k: nat)
    requires k <= |cases|
    ensures Given(stored, cases, 0, k) == CouldCount(stored, cases, k)
  {
    if k > 0 {
      GivenFromTheStart(stored, cases, k - 1);
    }
  }

  lemma {:induction false} OneCaseEarlier(stored: map<string, CaseResult>, cases: seq<GoldCase>, from: nat, k: nat)
    requires k <= |cases| && from > 0
    ensures Given(stored, cases, from, k) <= Given(stored, cases, from - 1, k) <= Given(stored, cases, from, k) + 1
    ensures k < from ==> Given(stored, cases, from - 1, k) == Given(stored, cases, from, k)
  {
    if k > 0 {
      OneCaseEarlier(stored, cases, from, k - 1);
    }
  }

  lemma {:induction false} NoneGivenYet(stored: map<string, CaseResult>, cases: seq<GoldCase>, from: nat, k: nat)
    requires k <= from && k <= |cases| && ReusedOutages(stored, cases, k) == 0
    ensures Given(stored, cases, from, k) == 0
  {
    if k > 0 {
      NoneGivenYet(stored, cases, from, k - 1);
    }
  }

  /** Where to start failing so that as many outages as wanted, or all there could be, come before case i. */
  lemma {:induction false} StartFailing(stored: map<string, CaseResult>, cases: seq<GoldCase>, i: nat, want: nat,
      latest: nat) returns (from: nat)
    requires i <= |cases| && latest <= i && Given(stored, cases, latest, i) <= want
    ensures from <= i && Given(stored, cases, from, i) <= want
    ensures from == 0 || Given(stored, cases, from, i) == want
    decreases latest
  {
    from := latest;
    if latest > 0 && Given(stored, cases, latest, i) < want {
      OneCaseEarlier(stored, cases, latest, i);
      from := StartFailing(stored, cases, i, want, latest - 1);
    }
  }

  lemma FailingIsFaithful(s: Settings, stored: map<string, CaseResult>, cases: seq<GoldCase>, from: nat)
    requires from <= |cases|
    ensures Faithful(s, stored, FailingFrom(s, stored, cases, from), cases)
  {
  }

  lemma InTheRest(cases: seq<GoldCase>, from: nat, k: nat)
    requires DistinctCases(cases) && from <= |cases| && k < |cases|
    ensures cases[k] in cases[from..] <==> k >= from
  {
    var rest := cases[from..];
    forall j | 0 <= j < |rest| ensures rest[j] == cases[k] <==> from + j == k {
      assert rest[j] == cases[from + j];
    }
    if k >= from {
      assert rest[k - from] == cases[k];
    }
  }

  lemma MadeNeverHalts(s: Settings, c: GoldCase, failed: bool)
    ensures !Halts(s, Made(c, failed)) && Made(c, failed).providerError == failed
  {
    assert |SAFETY_PREFIX| > |Made(c, failed).reason|;
  }

  lemma FailsAtCase(s: Settings, stored: map<string, CaseResult>, cases: seq<GoldCase>, from: nat, k: nat)
    requires DistinctCases(cases) && from <= |cases| && k < Unhalted(s, stored, cases)
    ensures var result := FailingFrom(s, stored, cases, from)(cases[k]).result;
            && !Halts(s, result)
            && (result.providerError <==> CouldFail(stored, cases[k]) && (cases[k].id in stored || k >= from))
  {
    var c := cases[k];
    UnhaltedReaches(s, stored, cases, k + 1);
    assert c.id in stored ==> !Halts(s, stored[c.id]);
    InTheRest(cases, from, k);
    MadeNeverHalts(s, c, c in cases[from..]);
    hide Unhalted, Halts, Made;
    assert FailingFrom(s, stored, cases, from)(c).result == if c.id in stored then stored[c.id]
        else Made(c, c in cases[from..]);
  }

  lemma CountsOne(s: Settings, answer: GoldCase -> Answer, before: RunOutcome, c: GoldCase, limit: nat)
    requires s.policy.maxProviderFailures == Some(limit) && !Halts(s, answer(c).result)
    ensures var o := AtCase(s, map[], answer, before, c);
            && o.failures == before.failures + (if answer(c).result.providerError then 1 else 0)
            && o.stopped == (if o.failures >= limit then Some(Outages(o.failures)) else None)
            && |o.results| == |before.results| + 1
  {
  }

  /** Below the limit the run under that provider goes on, counting what was given. */
  lemma {:induction false} GoesOnBelowTheLimit(s: Settings, stored: map<string, CaseResult>, cases: seq<GoldCase>,
      from: nat, limit: nat, k: nat)
    requires DistinctCases(cases) && from <= |cases| && k <= Unhalted(s, stored, cases)
    requires s.policy.maxProviderFailures == Some(limit) && Given(stored, cases, from, k) < limit
    ensures var o := RunOver(s, map[], FailingFrom(s, stored, cases, from), cases[..k]);
            o.stopped == None && o.failures == Given(stored, cases, from, k) && |o.results| == k
    decreases k
  {
    hide FailingFrom, Unhalted, CouldFail, AtCase, Halts, DistinctCases;
    if k > 0 {
      assert cases[..k][..k - 1] == cases[..k - 1];
      GoesOnBelowTheLimit(s, stored, cases, from, limit, k - 1);
      FailsAtCase(s, stored, cases, from, k - 1);
      var answer := FailingFrom(s, stored, cases, from);
      CountsOne(s, answer, RunOver(s, map[], answer, cases[..k - 1]), cases[k - 1], limit);
    } else {
      assert cases[..0] == [];
    }
  }

  /** And where what was given first reaches the limit it stops on outages. */
  lemma StopsAtTheLimit(s: Settings, stored: map<string, CaseResult>, cases: seq<GoldCase>, from: nat, limit: nat,
      n: nat)
    requires DistinctCases(cases) && from <= |cases| && 0 < n <= Unhalted(s, stored, cases)
    requires s.policy.maxProviderFailures == Some(limit) && Given(stored, cases, from, n) >= limit
    requires n == 1 || Given(stored, cases, from, n - 1) < limit
    ensures var u := RunOver(s, map[], FailingFrom(s, stored, cases, from), cases);
            |u.results| == n && u.stopped.Some? && u.stopped.value.Outages?
  {
    hide FailingFrom, Unhalted, CouldFail, AtCase, Halts;
    var answer := FailingFrom(s, stored, cases, from);
    assert cases[..n][..n - 1] == cases[..n - 1];
    FailsAtCase(s, stored, cases, from, n - 1);
    if n == 1 {
      assert cases[..0] == [];
    } else {
      GoesOnBelowTheLimit(s, stored, cases, from, limit, n - 1);
    }
    CountsOne(s, answer, RunOver(s, map[], answer, cases[..n - 1]), cases[n - 1], limit);
    StoppedStays(s, map[], answer, cases, n);
  }

  lemma {:induction false} FirstReused(stored: map<string, CaseResult>, cases: seq<GoldCase>, m: nat) returns (i: nat)
    requires m <= |cases| && ReusedOutages(stored, cases, m) > 0
    ensures i < m && ReusedOutage(stored, cases[i]) > 0 && ReusedOutages(stored, cases, i) == 0
  {
    if ReusedOutages(stored, cases, m - 1) > 0 {
      i := FirstReused(stored, cases, m - 1);
    } else {
      i := m - 1;
    }
  }

  lemma {:induction false} FirstAtTheLimit(stored: map<string, CaseResult>, cases: seq<GoldCase>, from: nat, limit: nat,
      m: nat) returns (n: nat)
    requires m <= |cases| && limit > 0 && Given(stored, cases, from, m) >= limit
    ensures 0 < n <= m && Given(stored, cases, from, n) >= limit > Given(stored, cases, from, n - 1)
  {
    if Given(stored, cases, from, m - 1) >= limit {
      n := FirstAtTheLimit(stored, cases, from, limit, m - 1);
    } else {
      n := m;
    }
  }

  lemma LimitPastTheReused(stored: map<string, CaseResult>, cases: seq<GoldCase>, limit: nat, i: nat, m: nat)
      returns (from: nat, n: nat)
    requires i < m <= |cases| && limit > 0 && CouldCount(stored, cases, m) >= limit
    requires ReusedOutage(stored, cases[i]) > 0 && ReusedOutages(stored, cases, i) == 0
    ensures from <= i < n <= m
    ensures Given(stored, cases, from, n) >= limit > Given(stored, cases, from, n - 1)
  {
    NoneGivenYet(stored, cases, i, i);
    from := StartFailing(stored, cases, i, limit - 1, i);
    if from == 0 {
      GivenFromTheStart(stored, cases, m);
    } else {
      GivenGrows(stored, cases, from, i + 1, m);
    }
    n := FirstAtTheLimit(stored, cases, from, limit, m);
    if n <= i {
      GivenGrows(stored, cases, from, n, i);
    }
  }

  /** Where to start failing, and where that stops the run, if the resume is exposed. */
  lemma WhereItIsSeen(s: Settings, stored: map<string, CaseResult>, cases: seq<GoldCase>)
      returns (limit: nat, from: nat, n: nat)
    requires Exposed(s, stored, cases)
    ensures s.policy.maxProviderFailures == Some(limit)
    ensures from <= |cases| && 0 < n <= Unhalted(s, stored, cases)
    ensures Given(stored, cases, from, n) >= limit && (n == 1 || Given(stored, cases, from, n - 1) < limit)
    ensures ReusedOutages(stored, cases, n) > 0
  {
    limit, from, n := s.policy.maxProviderFailures.value, 0, 1;
    if limit > 0 {
      var m := Unhalted(s, stored, cases);
      hide Unhalted, ReusedOutage, CouldCount, Given;
      var i := FirstReused(stored, cases, m);
      from, n := LimitPastTheReused(stored, cases, limit, i, m);
      CountsGrow(stored, cases, i + 1, n);
    } else {
      NothingReused(stored, cases);
    }
  }

  /** An exposed resume is seen under some provider that stands by everything stored. */
  lemma ExposedIsSeen(s: Settings, stored: map<string, CaseResult>, cases: seq<GoldCase>)
      returns (answer: GoldCase -> Answer)
    requires DistinctCases(cases) && Exposed(s, stored, cases)
    ensures Faithful(s, stored, answer, cases)
    ensures !SameReport(RunOver(s, map[], answer, cases), RunOver(s, stored, answer, cases))
  {
    var limit, from, n := WhereItIsSeen(s, stored, cases);
    hide FailingFrom, RunOver, SameReport, Unhalted, Faithful, ReusedOutages, Given, Exposed;
    answer := FailingFrom(s, stored, cases, from);
    FailingIsFaithful(s, stored, cases, from);
    StopsAtTheLimit(s, stored, cases, from, limit, n);
    ResumeIsInvisibleIff(s, stored, answer, cases);
  }

  /**
   Whatever a provider that stands by everything stored answers elsewhere, the resumed report is the
   uninterrupted one.
   */
  ghost predicate AlwaysInvisible(s: Settings, stored: map<string, CaseResult>, cases: seq<GoldCase>) {
    forall answer: GoldCase -> Answer ::
      Faithful(s, stored, answer, cases) ==>
          SameReport(RunOver(s, map[], answer, cases), RunOver(s, stored, answer, cases))
  }

  /** Resuming is invisible for every such provider exactly when it is not exposed. */
  lemma AlwaysInvisibleIff(s: Settings, stored: map<string, CaseResult>, cases: seq<GoldCase>)
    requires DistinctCases(cases)
    ensures AlwaysInvisible(s, stored, cases) <==> !Exposed(s, stored, cases)
  {
    if Exposed(s, stored, cases) {
      var answer := ExposedIsSeen(s, stored, cases);
    } else {
      forall answer: GoldCase -> Answer | Faithful(s, stored, answer, cases)
        ensures SameReport(RunOver(s, map[], answer, cases), RunOver(s, stored, answer, cases))
      {
        UnexposedIsInvisible(s, stored, answer, cases);
      }
    }
  }
}
