/**
 The benchmark loop: score every case, reading back what an earlier attempt at the run already paid
 for, and stop where the policy says to. A resumed run is compared with the uninterrupted one.
 */
module RunCases {
  import opened Common
  import opened Counting
  import opened Results

  datatype GoldCase = WorkerCase(id: string) | CustomerCase(id: string)

  datatype Score = WorkerScore(caseId: string, metrics: Metrics) | CustomerScore(caseId: string, metrics: Metrics)

  /** What asking about a case gives: the result that is written down, and the score computed beside it. */
  datatype Answer = Answer(result: CaseResult, score: Score)

  const SAFETY_PREFIX := "safety:"

  predicate BrokeSafety(result: CaseResult) {
    SAFETY_PREFIX <= result.reason
  }

  datatype StopPolicy = StopPolicy(maxProviderFailures: Option<nat>, stopOnSafetyViolation: bool)

  datatype StopReason = Outages(failures: nat) | OtherModel(caseId: string, modelId: string)
      | UnsafeCase(caseId: string, reason: string)

  datatype RunOutcome = RunOutcome(
    results: seq<CaseResult>, workerScores: seq<Score>, customerScores: seq<Score>,
    failures: nat, stopped: Option<StopReason>, reused: nat, unscored: nat,
    asked: seq<string>)

  const NOT_STARTED := RunOutcome([], [], [], 0, None, 0, 0, [])

  /** `rescore` computes a score again from a stored result. */
  datatype Settings = Settings(policy: StopPolicy, expectedModelId: Option<string>,
      rescore: (GoldCase, CaseResult) -> Score)

  function Collected(o: RunOutcome, result: CaseResult, score: Score): RunOutcome {
    if StatusOf(result).ProviderFailure? then o.(unscored := o.unscored + 1)
    else if score.WorkerScore? then o.(workerScores := o.workerScores + [score])
    else o.(customerScores := o.customerScores + [score])
  }

  /** Why the run stops after this result, if it does; the later rule overrides the earlier. */
  function StopAfter(s: Settings, c: GoldCase, result: CaseResult, failures: nat): Option<StopReason> {
    if s.policy.stopOnSafetyViolation && BrokeSafety(result) then Some(UnsafeCase(c.id, result.reason))
    else if s.expectedModelId.Some? && result.modelId.Some? && result.modelId != s.expectedModelId then
      Some(OtherModel(c.id, result.modelId.value))
    else if s.policy.maxProviderFailures.Some? && failures >= s.policy.maxProviderFailures.value
        then Some(Outages(failures))
    else None
  }

  function AtCase(s: Settings, stored: map<string, CaseResult>, answer: GoldCase -> Answer, o: RunOutcome,
      c: GoldCase): RunOutcome {
    var fromStore := c.id in stored;
    var result := if fromStore then stored[c.id] else answer(c).result;
    var score := if fromStore then s.rescore(c, result) else answer(c).score;
    var failures := o.failures + if !fromStore && result.providerError then 1 else 0;
    Collected(o, result, score).(
      results := o.results + [result],
      failures := failures,
      reused := o.reused + if fromStore then 1 else 0,
      asked := if fromStore then o.asked else o.asked + [c.id],
      stopped := StopAfter(s, c, result, failures))
  }

  function RunOver(s: Settings, stored: map<string, CaseResult>, answer: GoldCase -> Answer,
      cases: seq<GoldCase>): RunOutcome {
    if cases == [] then NOT_STARTED
    else
      var before := RunOver(s, stored, answer, cases[..|cases| - 1]);
      if before.stopped.Some? then before else AtCase(s, stored, answer, before, cases[|cases| - 1])
  }

  method Run(s: Settings, cases: seq<GoldCase>, reuse: seq<CaseResult>, answer: GoldCase -> Answer)
      returns (o: RunOutcome)
    ensures o == RunOver(s, ByCase(reuse), answer, cases)
  {
    var stored: map<string, CaseResult> := map[];
    for k := 0 to |reuse|
      invariant stored == ByCase(reuse[..k])
    {
      assert reuse[..k + 1][..k] == reuse[..k];
      stored := stored[reuse[k].caseId := reuse[k]];
    }
    assert reuse[..|reuse|] == reuse;
    o := NOT_STARTED;
    for k := 0 to |cases|
      invariant o == RunOver(s, stored, answer, cases[..k])
    {
      assert cases[..k + 1][..k] == cases[..k];
      if o.stopped.Some? {
        StoppedStays(s, stored, answer, cases, k);
        return;
      }
      o := VisitCase(s, stored, answer, o, cases[k]);
    }
    assert cases[..|cases|] == cases;
  }

  method VisitCase(s: Settings, stored: map<string, CaseResult>, answer: GoldCase -> Answer, before: RunOutcome,
      c: GoldCase)
    returns (o: RunOutcome)
    requires before.stopped == None
    ensures o == AtCase(s, stored, answer, before, c)
  {
    o := before;
    var previous: CaseResult;
    if c.id in stored {
      previous := stored[c.id];
      o := Collected(o, previous, s.rescore(c, previous));
      o := o.(results := o.results + [previous], reused := o.reused + 1);
    } else {
      var given := answer(c);
      previous := given.result;
      o := Collected(o, previous, given.score);
      o := o.(results := o.results + [previous], asked := o.asked + [c.id]);
      if previous.providerError {
        o := o.(failures := o.failures + 1);
      }
    }
    if s.policy.maxProviderFailures.Some? && o.failures >= s.policy.maxProviderFailures.value {
      o := o.(stopped := Some(Outages(o.failures)));
    }
    if s.expectedModelId.Some? && previous.modelId.Some? && previous.modelId != s.expectedModelId {
      o := o.(stopped := Some(OtherModel(c.id, previous.modelId.value)));
    }
    if s.policy.stopOnSafetyViolation && BrokeSafety(previous) {
      o := o.(stopped := Some(UnsafeCase(c.id, previous.reason)));
    }
  }

  lemma {:induction false} StoppedStays(s: Settings, stored: map<string, CaseResult>, answer: GoldCase -> Answer,
      cases: seq<GoldCase>, k: nat)
    requires k <= |cases| && RunOver(s, stored, answer, cases[..k]).stopped.Some?
    ensures RunOver(s, stored, answer, cases) == RunOver(s, stored, answer, cases[..k])
    decreases |cases|
  {
    if k == |cases| {
      assert cases[..k] == cases;
    } else {
      assert cases[..|cases| - 1][..k] == cases[..k];
      StoppedStays(s, stored, answer, cases[..|cases| - 1], k);
    }
  }

  // ------------------------------------------------------------------ what a run reports

  function ReadingOf(stored: map<string, CaseResult>, answer: GoldCase -> Answer, c: GoldCase): CaseResult {
    if c.id in stored then stored[c.id] else answer(c).result
  }

  predicate Unread(result: CaseResult) {
    result.providerError
  }

  function ScoreFor(s: Settings, stored: map<string, CaseResult>, answer: GoldCase -> Answer, c: GoldCase): Score {
    if c.id in stored then s.rescore(c, stored[c.id]) else answer(c).score
  }

  /** The scores of one kind, of the cases that were read, in the order of the cases. */
  function ScoresOf(s: Settings, stored: map<string, CaseResult>, answer: GoldCase -> Answer, cases: seq<GoldCase>,
      worker: bool): seq<Score> {
    if cases == [] then []
    else
      var before, last := ScoresOf(s, stored, answer, cases[..|cases| - 1], worker), cases[|cases| - 1];
      var score := ScoreFor(s, stored, answer, last);
      if !Unread(ReadingOf(stored, answer, last)) && score.WorkerScore? == worker then before + [score] else before
  }

  function NotStored(stored: map<string, CaseResult>, cases: seq<GoldCase>): seq<string> {
    if cases == [] then []
    else
      var before, last := NotStored(stored, cases[..|cases| - 1]), cases[|cases| - 1];
      if last.id in stored then before else before + [last.id]
  }

  /**
   The report so far is over these cases: each has its result, each result is scored or counted as unread, and
   the scores are the cases' own, each in the list of its kind.
   */
  predicate Reports(o: RunOutcome, s: Settings, stored: map<string, CaseResult>, answer: GoldCase -> Answer,
      cases: seq<GoldCase>) {
    && |o.results| == |cases|
    && (forall i :: 0 <= i < |cases| ==> o.results[i] == ReadingOf(stored, answer, cases[i]))
    && o.unscored == Count(Unread, o.results)
    && o.workerScores == ScoresOf(s, stored, answer, cases, true)
    && o.customerScores == ScoresOf(s, stored, answer, cases, false)
    && |o.workerScores| + |o.customerScores| + o.unscored == |cases|
    && o.asked == NotStored(stored, cases) && o.reused + |o.asked| == |cases|
  }

  lemma CaseIsReported(s: Settings, stored: map<string, CaseResult>, answer: GoldCase -> Answer, o: RunOutcome,
      cases: seq<GoldCase>, c: GoldCase)
    requires Reports(o, s, stored, answer, cases)
    ensures Reports(AtCase(s, stored, answer, o, c), s, stored, answer, cases + [c])
  {
    hide StopAfter, Count, ScoresOf, NotStored;
    CountOneMore(o.results, ReadingOf(stored, answer, c));
    OneMoreCase(s, stored, answer, cases, c);
  }

  lemma CountOneMore(results: seq<CaseResult>, result: CaseResult)
    ensures Count(Unread, results + [result]) == Count(Unread, results) + if Unread(result) then 1 else 0
  {
    assert (results + [result])[..|results|] == results;
  }

  lemma OneMoreCase(s: Settings, stored: map<string, CaseResult>, answer: GoldCase -> Answer, cases: seq<GoldCase>,
      c: GoldCase)
    ensures NotStored(stored, cases + [c]) == NotStored(stored, cases) + if c.id in stored then [] else [c.id]
    ensures forall worker :: ScoresOf(s, stored, answer, cases + [c], worker)
              == ScoresOf(s, stored, answer, cases, worker)
                 + if !Unread(ReadingOf(stored, answer, c))
                      && ScoreFor(s, stored, answer, c).WorkerScore? == worker
                   then [ScoreFor(s, stored, answer, c)] else []
  {
    assert (cases + [c])[..|cases|] == cases;
  }

  /**
   The run reports on a prefix of its cases, all of them unless it stopped, and leaves none of that prefix out
   of its counts.
   */
  predicate ReportsPrefix(o: RunOutcome, s: Settings, stored: map<string, CaseResult>, answer: GoldCase -> Answer,
      cases: seq<GoldCase>) {
    && |o.results| <= |cases|
    && Reports(o, s, stored, answer, cases[..|o.results|])
    && (o.stopped == None ==> |o.results| == |cases|)
  }

  lemma NextIsReported(s: Settings, stored: map<string, CaseResult>, answer: GoldCase -> Answer, o: RunOutcome,
      cases: seq<GoldCase>)
    requires cases != [] && ReportsPrefix(o, s, stored, answer, cases[..|cases| - 1])
    ensures ReportsPrefix(if o.stopped.Some? then o
        else AtCase(s, stored, answer, o, cases[|cases| - 1]), s, stored, answer, cases)
  {
    hide AtCase, Reports;
    var n := |cases| - 1;
    assert cases[..n][..|o.results|] == cases[..|o.results|];
    if o.stopped == None {
      var after := AtCase(s, stored, answer, o, cases[n]);
      assert cases[..n] + [cases[n]] == cases;
      CaseIsReported(s, stored, answer, o, cases[..n], cases[n]);
      ReportsItsLength(after, s, stored, answer, cases);
      assert cases[..|after.results|] == cases;
    }
  }

  lemma ReportsItsLength(o: RunOutcome, s: Settings, stored: map<string, CaseResult>, answer: GoldCase -> Answer,
      cases: seq<GoldCase>)
    requires Reports(o, s, stored, answer, cases)
    ensures |o.results| == |cases|
  {
  }

  /** So does every run, whatever it reuses and wherever it stops. */
  lemma {:induction false} EveryCaseIsReported(s: Settings, stored: map<string, CaseResult>, answer: GoldCase -> Answer,
      cases: seq<GoldCase>)
    ensures ReportsPrefix(RunOver(s, stored, answer, cases), s, stored, answer, cases)
  {
    if cases != [] {
      EveryCaseIsReported(s, stored, answer, cases[..|cases| - 1]);
      NextIsReported(s, stored, answer, RunOver(s, stored, answer, cases[..|cases| - 1]), cases);
      hide ReportsPrefix, AtCase;
    }
  }

  // ------------------------------------------------------------------ where it stops, and why

  /** How many of these cases the provider was asked about and failed on. */
  function FreshOutages(stored: map<string, CaseResult>, answer: GoldCase -> Answer, cases: seq<GoldCase>): nat {
    if cases == [] then 0
    else
      var last := cases[|cases| - 1];
      FreshOutages(stored, answer, cases[..|cases| - 1])
      + if last.id !in stored && answer(last).result.providerError then 1 else 0
  }

  predicate Unsafe(s: Settings, result: CaseResult) {
    s.policy.stopOnSafetyViolation && "safety:" <= result.reason
  }

  predicate Foreign(s: Settings, result: CaseResult) {
    s.expectedModelId.Some? && result.modelId.Some? && result.modelId.value != s.expectedModelId.value
  }

  predicate TooManyOutages(s: Settings, outages: nat) {
    s.policy.maxProviderFailures.Some? && s.policy.maxProviderFailures.value <= outages
  }

  /**
   This is the reason to stop after these cases: the last of them broke safety, else was another model's, else
   the outages met reach the limit.
   */
  predicate IsReason(stop: Option<StopReason>, s: Settings, c: GoldCase, result: CaseResult, outages: nat) {
    match stop
    case None => !Unsafe(s, result) && !Foreign(s, result) && !TooManyOutages(s, outages)
    case Some(UnsafeCase(id, why)) => Unsafe(s, result) && id == c.id && why == result.reason
    case Some(OtherModel(id, model)) =>
      !Unsafe(s, result) && Foreign(s, result) && id == c.id && result.modelId == Some(model)
    case Some(Outages(n)) => !Unsafe(s, result) && !Foreign(s, result) && TooManyOutages(s, outages) && n == outages
  }

  predicate StoppedFor(stop: Option<StopReason>, s: Settings, stored: map<string, CaseResult>,
      answer: GoldCase -> Answer, cases: seq<GoldCase>) {
    if cases == [] then stop == None
    else
      var c := cases[|cases| - 1];
      IsReason(stop, s, c, ReadingOf(stored, answer, c), FreshOutages(stored, answer, cases))
  }

  /** A run stops after the first case that gives it a reason, for that reason, and after no other. */
  lemma {:induction false} StopsAtTheFirstReason(s: Settings, stored: map<string, CaseResult>,
      answer: GoldCase -> Answer, cases: seq<GoldCase>)
    ensures var o := RunOver(s, stored, answer, cases);
            var n := |o.results|;
            && n <= |cases| && (o.stopped == None ==> n == |cases|)
            && o.failures == FreshOutages(stored, answer, cases[..n])
            && StoppedFor(o.stopped, s, stored, answer, cases[..n])
            && (forall k :: 0 <= k < n ==> StoppedFor(None, s, stored, answer, cases[..k]))
  {
    var o := RunOver(s, stored, answer, cases);
    if cases != [] {
      var m := |cases| - 1;
      StopsAtTheFirstReason(s, stored, answer, cases[..m]);
      var before := RunOver(s, stored, answer, cases[..m]);
      assert forall k :: 0 <= k <= m ==> cases[..m][..k] == cases[..k];
      hide RunOver, AtCase, StoppedFor, FreshOutages;
      RunOverNext(s, stored, answer, cases);
      if before.stopped == None {
        assert before.failures == FreshOutages(stored, answer, cases[..m]);
        StopsForItsReason(s, stored, answer, before, cases);
        assert cases[..|o.results|] == cases;
      }
    }
  }

  lemma RunOverNext(s: Settings, stored: map<string, CaseResult>, answer: GoldCase -> Answer, cases: seq<GoldCase>)
    requires cases != []
    ensures var before := RunOver(s, stored, answer, cases[..|cases| - 1]);
            RunOver(s, stored, answer, cases)
              == if before.stopped.Some? then before else AtCase(s, stored, answer, before, cases[|cases| - 1])
  {
    hide AtCase;
  }

  lemma StopsForItsReason(s: Settings, stored: map<string, CaseResult>, answer: GoldCase -> Answer, o: RunOutcome,
      cases: seq<GoldCase>)
    requires cases != [] && o.failures == FreshOutages(stored, answer, cases[..|cases| - 1])
    ensures var after := AtCase(s, stored, answer, o, cases[|cases| - 1]);
            && |after.results| == |o.results| + 1
            && after.failures == FreshOutages(stored, answer, cases)
            && StoppedFor(after.stopped, s, stored, answer, cases)
  {
  }

  // ------------------------------------------------------------------ resumed against uninterrupted

  /**
   What is stored for this case is what asking again would give, and its score read back is the score computed
   then.
   */
  predicate FaithfulTo(s: Settings, stored: map<string, CaseResult>, answer: GoldCase -> Answer, c: GoldCase) {
    c.id in stored ==> stored[c.id] == answer(c).result && s.rescore(c, stored[c.id]) == answer(c).score
  }

  predicate Faithful(s: Settings, stored: map<string, CaseResult>, answer: GoldCase -> Answer, cases: seq<GoldCase>) {
    forall i :: 0 <= i < |cases| ==> FaithfulTo(s, stored, answer, cases[i])
  }

  function ReusedOutage(stored: map<string, CaseResult>, c: GoldCase): nat {
    if c.id in stored && stored[c.id].providerError then 1 else 0
  }

  /** Provider failures among the first n cases that were read back instead of met again. */
  function ReusedOutages(stored: map<string, CaseResult>, cases: seq<GoldCase>, n: nat): nat
    requires n <= |cases|
  {
    if n == 0 then 0
    else ReusedOutages(stored, cases, n - 1) + ReusedOutage(stored, cases[n - 1])
  }

  /** Everything a report is made from. */
  predicate SameReadings(a: RunOutcome, b: RunOutcome) {
    && a.results == b.results
    && a.workerScores == b.workerScores
    && a.customerScores == b.customerScores
    && a.unscored == b.unscored
  }

  predicate SameReport(a: RunOutcome, b: RunOutcome) {
    SameReadings(a, b) && a.stopped == b.stopped
  }

  /** One case met by both runs: fresh in one, fresh or read back in the other. */
  lemma StepTogether(s: Settings, stored: map<string, CaseResult>, answer: GoldCase -> Answer, u: RunOutcome,
      r: RunOutcome, c: GoldCase)
    requires SameReadings(u, r) && r.failures <= u.failures
    requires FaithfulTo(s, stored, answer, c)
    ensures var u', r' := AtCase(s, map[], answer, u, c), AtCase(s, stored, answer, r, c);
            && SameReadings(u', r') && |u'.results| == |u.results| + 1
            && r'.asked == (if c.id in stored then r.asked else r.asked + [c.id])
            && r'.failures + ReusedOutage(stored, c) - r.failures == u'.failures - u.failures
            && u'.stopped == StopAfter(s, c, answer(c).result, u'.failures)
            && r'.stopped == StopAfter(s, c, answer(c).result, r'.failures)
  {
  }

  lemma FewerOutagesStopLess(s: Settings, c: GoldCase, result: CaseResult, fewer: nat, more: nat)
    requires fewer <= more && StopAfter(s, c, result, more) == None
    ensures StopAfter(s, c, result, fewer) == None
  {
  }

  /** Where the uninterrupted run has not stopped before its last case, the resumed run has kept step. */
  lemma {:induction false} KeepsStep(s: Settings, stored: map<string, CaseResult>, answer: GoldCase -> Answer,
      cases: seq<GoldCase>)
    requires Faithful(s, stored, answer, cases)
    requires cases != [] ==> RunOver(s, map[], answer, cases[..|cases| - 1]).stopped == None
    ensures var u, r := RunOver(s, map[], answer, cases), RunOver(s, stored, answer, cases);
            && SameReadings(u, r)
            && |u.results| == |cases|
            && r.asked == NotStored(stored, cases)
            && r.failures + ReusedOutages(stored, cases, |cases|) == u.failures
            && (cases != [] ==>
                u.stopped == StopAfter(s, cases[|cases| - 1], answer(cases[|cases| - 1]).result, u.failures))
            && (cases != [] ==>
                r.stopped == StopAfter(s, cases[|cases| - 1], answer(cases[|cases| - 1]).result, r.failures))
            && (u.stopped == None ==> r.stopped == None)
            && (cases == [] ==> u.stopped == r.stopped == None)
  {
    hide AtCase, StopAfter, ReusedOutage, Collected;
    if cases != [] {
      var n := |cases| - 1;
      var earlier := cases[..n];
      if n > 0 {
        StoppedEarlier(s, map[], answer, earlier);
      }
      KeepsStep(s, stored, answer, earlier);
      SameCount(stored, earlier, cases, n);
      var u, r := RunOver(s, map[], answer, earlier), RunOver(s, stored, answer, earlier);
      StepTogether(s, stored, answer, u, r, cases[n]);
      var u', r' := RunOver(s, map[], answer, cases), RunOver(s, stored, answer, cases);
      if u'.stopped == None {
        FewerOutagesStopLess(s, cases[n], answer(cases[n]).result, r'.failures, u'.failures);
      }
    }
  }

  lemma StoppedEarlier(s: Settings, stored: map<string, CaseResult>, answer: GoldCase -> Answer, cases: seq<GoldCase>)
    requires cases != [] && RunOver(s, stored, answer, cases).stopped == None
    ensures RunOver(s, stored, answer, cases[..|cases| - 1]).stopped == None
  {
  }

  lemma {:induction false} SameCount(stored: map<string, CaseResult>, earlier: seq<GoldCase>, cases: seq<GoldCase>,
      n: nat)
    requires n <= |earlier| <= |cases| && earlier == cases[..|earlier|]
    ensures ReusedOutages(stored, earlier, n) == ReusedOutages(stored, cases, n)
  {
    if n > 0 {
      SameCount(stored, earlier, cases, n - 1);
    }
  }

  /** Both runs stop, if at all, at the same first case, unless the resumed run met too few outages to. */
  lemma {:induction false} ReachesTheSameCase(s: Settings, answer: GoldCase -> Answer, cases: seq<GoldCase>)
    ensures var u := RunOver(s, map[], answer, cases);
            var n := |u.results|;
            && n <= |cases|
            && u == RunOver(s, map[], answer, cases[..n])
            && (n > 0 ==> RunOver(s, map[], answer, cases[..n][..n - 1]).stopped == None)
            && (u.stopped == None ==> n == |cases|)
  {
    if cases != [] {
      var m := |cases| - 1;
      ReachesTheSameCase(s, answer, cases[..m]);
      var before := RunOver(s, map[], answer, cases[..m]);
      if before.stopped.Some? {
        assert cases[..m][..|before.results|] == cases[..|before.results|];
      } else {
        assert cases[..m + 1] == cases;
      }
    }
  }

  /**
   A resumed run reports exactly what the uninterrupted run would have -- same results, scores,
   unscored count and stop reason -- unless the uninterrupted run stops on its outage limit having
   counted an outage that the resumed run read back instead of meeting.
   */
  lemma ResumeIsInvisibleIff(s: Settings, stored: map<string, CaseResult>, answer: GoldCase -> Answer,
      cases: seq<GoldCase>)
    requires Faithful(s, stored, answer, cases)
    ensures var u, r := RunOver(s, map[], answer, cases), RunOver(s, stored, answer, cases);
            && |u.results| <= |cases|
            && (SameReport(u, r) <==>
                 !(u.stopped.Some? && u.stopped.value.Outages? && ReusedOutages(stored, cases, |u.results|) > 0))
  {
    var u, r := RunOver(s, map[], answer, cases), RunOver(s, stored, answer, cases);
    var n := |u.results|;
    ReachesTheSameCase(s, answer, cases);
    AtTheStop(s, stored, answer, cases, n);
    var r' := RunOver(s, stored, answer, cases[..n]);
    if r'.stopped.Some? || n == |cases| {
      if n == |cases| { assert cases[..n] == cases; } else { StoppedStays(s, stored, answer, cases, n); }
      assert r == r';
    } else {
      GoesFurther(s, stored, answer, cases, n);
      assert |r.results| > |u.results|;
    }
  }

  lemma {:induction false} NoneReused(stored: map<string, CaseResult>, cases: seq<GoldCase>, n: nat)
    requires n <= |cases| && forall i :: 0 <= i < |cases| && cases[i].id in stored ==>
        !stored[cases[i].id].providerError
    ensures ReusedOutages(stored, cases, n) == 0
  {
    if n > 0 {
      NoneReused(stored, cases, n - 1);
    }
  }

  /** In particular, while nothing read back was an outage, resuming is invisible. */
  lemma ResumeWithoutOutagesIsInvisible(s: Settings, stored: map<string, CaseResult>, answer: GoldCase -> Answer,
      cases: seq<GoldCase>)
    requires Faithful(s, stored, answer, cases)
    requires forall i :: 0 <= i < |cases| && cases[i].id in stored ==> !stored[cases[i].id].providerError
    ensures SameReport(RunOver(s, map[], answer, cases), RunOver(s, stored, answer, cases))
  {
    ResumeIsInvisibleIff(s, stored, answer, cases);
    NoneReused(stored, cases, |RunOver(s, map[], answer, cases).results|);
  }

  /**
   And where one was, it need not be: two outages stop the uninterrupted run, but not one that read the first
   back.
   */
  lemma ReusedOutageIsNotCounted(
    rescore: (GoldCase, CaseResult) -> Score, outage: CaseResult, first: GoldCase, second: GoldCase)
    requires outage.providerError && first.id != second.id
    ensures var s := Settings(StopPolicy(Some(2), false), None, rescore);
            var answer := (c: GoldCase) => Answer(outage.(caseId := c.id), rescore(c, outage.(caseId := c.id)));
            var stored := map[first.id := answer(first).result];
            && Faithful(s, stored, answer, [first, second])
            && RunOver(s, map[], answer, [first, second]).stopped == Some(Outages(2))
            && RunOver(s, stored, answer, [first, second]).stopped == None
  {
    var s := Settings(StopPolicy(Some(2), false), None, rescore);
    var answer := (c: GoldCase) => Answer(outage.(caseId := c.id), rescore(c, outage.(caseId := c.id)));
    TwoCases(s, map[], answer, first, second);
    TwoCases(s, map[first.id := answer(first).result], answer, first, second);
  }

  lemma TwoCases(s: Settings, stored: map<string, CaseResult>, answer: GoldCase -> Answer, first: GoldCase,
      second: GoldCase)
    ensures var once := AtCase(s, stored, answer, NOT_STARTED, first);
            RunOver(s, stored, answer, [first, second]) == if once.stopped.Some? then once
                else AtCase(s, stored, answer, once, second)
  {
    hide AtCase;
    assert [first, second][..1] == [first];
    assert [first][..0] == [];
    assert RunOver(s, stored, answer, []) == NOT_STARTED;
    assert RunOver(s, stored, answer, [first]) == AtCase(s, stored, answer, NOT_STARTED, first);
  }

  /** Where the uninterrupted run ends, the resumed run has the same readings, and its own reason to stop. */
  lemma AtTheStop(s: Settings, stored: map<string, CaseResult>, answer: GoldCase -> Answer, cases: seq<GoldCase>,
      n: nat)
    requires Faithful(s, stored, answer, cases) && n <= |cases|
    requires n > 0 ==> RunOver(s, map[], answer, cases[..n][..n - 1]).stopped == None
    ensures var u, r := RunOver(s, map[], answer, cases[..n]), RunOver(s, stored, answer, cases[..n]);
            && SameReadings(u, r) && |r.results| == n
            && (u.stopped == None ==> r.stopped == None)
            && (r.stopped == u.stopped <==>
                 !(u.stopped.Some? && u.stopped.value.Outages? && ReusedOutages(stored, cases, n) > 0))
  {
    KeepsStep(s, stored, answer, cases[..n]);
    SameCount(stored, cases[..n], cases, n);
  }

  lemma {:induction false} GoesFurther(s: Settings, stored: map<string, CaseResult>, answer: GoldCase -> Answer,
      cases: seq<GoldCase>, n: nat)
    requires n < |cases| && RunOver(s, stored, answer, cases[..n]).stopped == None
    ensures |RunOver(s, stored, answer, cases).results| > |RunOver(s, stored, answer, cases[..n]).results|
    decreases |cases|
  {
    var m := |cases| - 1;
    if n < m {
      assert cases[..m][..n] == cases[..n];
      GoesFurther(s, stored, answer, cases[..m], n);
    } else {
      assert cases[..m] == cases[..n];
    }
  }

  lemma FaithfulFirst(s: Settings, stored: map<string, CaseResult>, answer: GoldCase -> Answer, cases: seq<GoldCase>,
      n: nat)
    requires Faithful(s, stored, answer, cases) && n <= |cases|
    ensures Faithful(s, stored, answer, cases[..n])
  {
    hide FaithfulTo;
  }

  /** While it keeps step, the resumed run asks the provider about exactly the cases it had no result for. */
  lemma AsksOnlyTheRest(s: Settings, stored: map<string, CaseResult>, answer: GoldCase -> Answer, cases: seq<GoldCase>)
    requires Faithful(s, stored, answer, cases)
    requires SameReport(RunOver(s, map[], answer, cases), RunOver(s, stored, answer, cases))
    ensures var n := |RunOver(s, map[], answer, cases).results|;
            n <= |cases| && RunOver(s, stored, answer, cases).asked == NotStored(stored, cases[..n])
  {
    hide AtCase, NotStored, ReusedOutages, StopAfter, Faithful;
    var u, r := RunOver(s, map[], answer, cases), RunOver(s, stored, answer, cases);
    var n := |u.results|;
    ReachesTheSameCase(s, answer, cases);
    FaithfulFirst(s, stored, answer, cases, n);
    KeepsStep(s, stored, answer, cases[..n]);
    hide RunOver;
    if RunOver(s, stored, answer, cases[..n]).stopped == None && n < |cases| {
      GoesFurther(s, stored, answer, cases, n);
    } else if n < |cases| {
      StoppedStays(s, stored, answer, cases, n);
    } else {
      assert cases[..n] == cases;
    }
  }
}
