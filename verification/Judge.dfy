/**
 Judging accepted passages: one question and at most one correction per passage, a counted judge no
 caller can route around, and a pass that stops at the third outage.
 */
module Judge {
  import opened Common
  import Store

  // ------------------------------------------------------------------ usage

  /** What calls spent, as published. Absent counts stay absent. */
  datatype Usage = Usage(
    logicalCalls: nat, attempts: nat, inputTokens: Option<nat>, outputTokens: Option<nat>, latencyMs: Option<nat>)

  const NO_USAGE := Usage(0, 0, None, None, None)

  function AddCounts(left: Option<nat>, right: Option<nat>): Option<nat> {
    if left == None && right == None then None
    else Some((if left.Some? then left.value else 0) + (if right.Some? then right.value else 0))
  }

  function Plus(a: Usage, b: Usage): Usage {
    Usage(a.logicalCalls + b.logicalCalls, a.attempts + b.attempts, AddCounts(a.inputTokens, b.inputTokens),
          AddCounts(a.outputTokens, b.outputTokens), AddCounts(a.latencyMs, b.latencyMs))
  }

  // ------------------------------------------------------------------ one question

  /** One round trip: nobody reached, or an answer the verdict contract accepts or rejects. */
  datatype Attempt = Unreachable(detail: string) | Answer(verdict: Option<Verdict>, rejection: string, usage: Usage)

  /** A verdict that satisfied the contract. */
  datatype Verdict = Verdict(flags: seq<string>, scores: seq<nat>, rationale: string)

  datatype JudgeOutcome = Scored | ProviderFailure | ResultInvalid

  datatype Judgement = Judgement(outcome: JudgeOutcome, verdict: Option<Verdict>, usage: Usage, detail: Option<string>)

  /** What the provider would answer to the question, and to its one correction. */
  datatype Exchange = Exchange(first: Attempt, second: Attempt)

  const CORRECTIVE_RETRIES := 1

  function AttemptNumber(e: Exchange, n: nat): Attempt {
    if n <= 1 then e.first else e.second
  }

  function AttemptUsage(a: Attempt): Usage {
    match a
    case Unreachable(_) => Usage(0, 1, None, None, None)
    case Answer(_, _, u) => Usage(0, 1, u.inputTokens, u.outputTokens, u.latencyMs)
  }

  /** The judgement an exchange comes to, said case by case. */
  function Judged(e: Exchange): Judgement {
    var asked := Plus(Usage(1, 0, None, None, None), AttemptUsage(e.first));
    match e.first
    case Unreachable(detail) => Judgement(ProviderFailure, None, asked, Some(detail))
    case Answer(Some(verdict), _, _) => Judgement(Scored, Some(verdict), asked, None)
    case Answer(None, _, _) =>
      var corrected := Plus(asked, AttemptUsage(e.second));
      match e.second
      case Unreachable(detail) => Judgement(ProviderFailure, None, corrected, Some(detail))
      case Answer(Some(verdict), _, _) => Judgement(Scored, Some(verdict), corrected, None)
      case Answer(None, rejection, _) => Judgement(ResultInvalid, None, corrected, Some(rejection))
  }

  /** One question and at most one correction; any verdict is one of the two answers, as given. */
  method AskOnce(e: Exchange) returns (j: Judgement)
    ensures j == Judged(e)
    ensures j.usage.logicalCalls == 1 && 1 <= j.usage.attempts <= 2
    ensures j.outcome.Scored? <==> j.verdict.Some?
    ensures j.verdict.Some? ==>
      (e.first.Answer? && e.first.verdict == j.verdict)
      || (e.first.Answer? && e.first.verdict == None && e.second.Answer? && e.second.verdict == j.verdict)
  {
    var usage := Usage(1, 0, None, None, None);
    var detail: Option<string> := None;
    var attemptNumber := 1;
    while attemptNumber <= CORRECTIVE_RETRIES + 1
      invariant 1 <= attemptNumber <= 3
      invariant attemptNumber == 1 ==> usage == Usage(1, 0, None, None, None)
      invariant attemptNumber == 2 ==> e.first.Answer? && e.first.verdict == None
      invariant attemptNumber == 2 ==> usage == Plus(Usage(1, 0, None, None, None), AttemptUsage(e.first))
      invariant attemptNumber <= 2
    {
      var attempt := AttemptNumber(e, attemptNumber);
      usage := Plus(usage, AttemptUsage(attempt));
      match attempt {
        case Unreachable(unreachable) =>
          return Judgement(ProviderFailure, None, usage, Some(unreachable));
        case Answer(verdict, rejection, _) =>
          if verdict.Some? {
            return Judgement(Scored, verdict, usage, None);
          }
          detail := Some(rejection);
          if attemptNumber > CORRECTIVE_RETRIES {
            break;
          }
      }
      attemptNumber := attemptNumber + 1;
    }
    j := Judgement(ResultInvalid, None, usage, detail);
  }

  // ------------------------------------------------------------------ one question, try by try

  /** The tries one question came to: a second only where the first answered and was not accepted. */
  function Tries(e: Exchange): seq<Attempt> {
    if e.first.Answer? && e.first.verdict == None then [e.first, e.second] else [e.first]
  }

  /** The last try decides: its verdict stands, or its rejection or its outage is what is reported. */
  predicate Decided(j: Judgement, last: Attempt) {
    match last
    case Unreachable(why) => j.outcome.ProviderFailure? && j.verdict == None && j.detail == Some(why)
    case Answer(Some(verdict), _, _) => j.outcome.Scored? && j.verdict == Some(verdict) && j.detail == None
    case Answer(None, rejection, _) => j.outcome.ResultInvalid? && j.verdict == None && j.detail == Some(rejection)
  }

  datatype Figure = InputTokens | OutputTokens | Latency

  function FigureOf(figure: Figure, usage: Usage): Option<nat> {
    match figure
    case InputTokens => usage.inputTokens
    case OutputTokens => usage.outputTokens
    case Latency => usage.latencyMs
  }

  /** The sum of what these tries published, unknown if none published any. */
  function Published(figure: Figure, tries: seq<Attempt>): Option<nat> {
    if tries == [] then None
    else
      var before, last := Published(figure, tries[..|tries| - 1]), tries[|tries| - 1];
      match if last.Answer? then FigureOf(figure, last.usage) else None
      case None => before
      case Some(n) => Some(n + if before.Some? then before.value else 0)
  }

  /** Every one of these tries is paid for, and nothing else is. */
  predicate PaysFor(figure: Figure, usage: Usage, calls: nat, tries: seq<Attempt>) {
    usage.logicalCalls == calls && usage.attempts == |tries| && FigureOf(figure, usage) == Published(figure, tries)
  }

  lemma LastTryDecides(e: Exchange)
    ensures Decided(Judged(e), Tries(e)[|Tries(e)| - 1])
  {
    hide Plus, AttemptUsage;
  }

  lemma PublishedNext(figure: Figure, tries: seq<Attempt>, t: Attempt)
    ensures Published(figure, tries + [t]) == AddCounts(Published(figure, tries), FigureOf(figure, AttemptUsage(t)))
  {
    assert (tries + [t])[..|tries|] == tries;
  }

  lemma FiguresAdd(figure: Figure, a: Usage, b: Usage)
    ensures FigureOf(figure, Plus(a, b)) == AddCounts(FigureOf(figure, a), FigureOf(figure, b))
  {
  }

  lemma OneMoreIsPaid(figure: Figure, usage: Usage, calls: nat, tries: seq<Attempt>, t: Attempt)
    requires PaysFor(figure, usage, calls, tries)
    ensures PaysFor(figure, Plus(usage, AttemptUsage(t)), calls, tries + [t])
  {
    PublishedNext(figure, tries, t);
    FiguresAdd(figure, usage, AttemptUsage(t));
    hide Published, AddCounts, FigureOf;
  }

  lemma AskingIsOneCall(figure: Figure, usage: Usage)
    requires usage == Usage(1, 0, None, None, None)
    ensures PaysFor(figure, usage, 1, [])
  {
  }

  lemma EveryTryIsPaid(figure: Figure, e: Exchange)
    ensures PaysFor(figure, Judged(e).usage, 1, Tries(e))
  {
    var asked := JudgedUsage(e);
    hide Judged, PaysFor, Plus, AttemptUsage;
    AskingIsOneCall(figure, asked);
    OneMoreIsPaid(figure, asked, 1, [], e.first);
    assert [] + [e.first] == [e.first];
    if |Tries(e)| == 2 {
      OneMoreIsPaid(figure, Plus(asked, AttemptUsage(e.first)), 1, [e.first], e.second);
      assert [e.first] + [e.second] == [e.first, e.second];
    }
  }

  lemma JudgedUsage(e: Exchange) returns (asked: Usage)
    ensures asked == Usage(1, 0, None, None, None)
    ensures var once := Plus(asked, AttemptUsage(e.first));
            Judged(e).usage == if |Tries(e)| == 2 then Plus(once, AttemptUsage(e.second)) else once
  {
    asked := Usage(1, 0, None, None, None);
    hide Plus, AttemptUsage;
  }

  lemma {:induction false} PublishedAdds(figure: Figure, a: seq<Attempt>, b: seq<Attempt>)
    ensures Published(figure, a + b) == AddCounts(Published(figure, a), Published(figure, b))
  {
    hide FigureOf;
    if b == [] {
      assert a + b == a;
    } else {
      var n := |b| - 1;
      PublishedAdds(figure, a, b[..n]);
      assert (a + b)[..|a + b| - 1] == a + b[..n];
    }
  }

  // ------------------------------------------------------------------ the counted judge

  datatype CeilingError = CeilingReached(used: nat)

  class CountedJudge {
    const maxLogicalCalls: Option<nat>
    var usage: Usage
    var providerFailures: nat

    constructor (maxLogicalCalls: Option<nat>)
      ensures this.maxLogicalCalls == maxLogicalCalls && usage == NO_USAGE && providerFailures == 0
    {
      this.maxLogicalCalls := maxLogicalCalls;
      usage, providerFailures := NO_USAGE, 0;
    }

    method Judge(e: Exchange) returns (r: Result<Judgement, CeilingError>)
      modifies this
      ensures r.Err? <==> maxLogicalCalls.Some? && old(usage.logicalCalls) >= maxLogicalCalls.value
      ensures r.Err? ==> usage == old(usage) && providerFailures == old(providerFailures)
      ensures r.Ok? ==> r.value == Judged(e) && usage == Plus(old(usage), r.value.usage)
      ensures r.Ok? ==> providerFailures == old(providerFailures) + if r.value.outcome.ProviderFailure? then 1 else 0
    {
      if maxLogicalCalls.Some? && usage.logicalCalls >= maxLogicalCalls.value {
        return Err(CeilingReached(usage.logicalCalls));
      }
      var judgement := AskOnce(e);
      usage := Plus(usage, judgement.usage);
      if judgement.outcome.ProviderFailure? {
        providerFailures := providerFailures + 1;
      }
      return Ok(judgement);
    }
  }

  // ------------------------------------------------------------------ the judging pass

  const MAX_PROVIDER_FAILURES := 3

  datatype Scoring = Scoring(caseId: string, judgement: Judgement)

  /** The passages a verdict may be asked for: accepted, and about a case of the loaded split. */
  function Judgeable(results: seq<Store.Generation>, cases: set<string>): seq<string> {
    if results == [] then []
    else
      var before, last := Judgeable(results[..|results| - 1], cases), results[|results| - 1];
      if last.accepted && last.caseId in cases then before + [last.caseId] else before
  }

  function Failures(ids: seq<string>, provider: string -> Exchange): nat {
    if ids == [] then 0
    else
      Failures(ids[..|ids| - 1], provider)
      + if Judged(provider(ids[|ids| - 1])).outcome.ProviderFailure? then 1 else 0
  }

  function Scorings(ids: seq<string>, provider: string -> Exchange): seq<Scoring> {
    seq(|ids|, i requires 0 <= i < |ids| => Scoring(ids[i], Judged(provider(ids[i]))))
  }

  function UsageOf(ids: seq<string>, provider: string -> Exchange): Usage {
    if ids == [] then NO_USAGE
    else Plus(UsageOf(ids[..|ids| - 1], provider), Judged(provider(ids[|ids| - 1])).usage)
  }

  /** How many of these passages a pass judges: up to and including the third outage. */
  function Judgements(ids: seq<string>, provider: string -> Exchange): (n: nat)
    ensures n <= |ids|
  {
    if ids == [] then 0
    else
      var before := Judgements(ids[..|ids| - 1], provider);
      if before < |ids| - 1 || Failures(ids[..|ids| - 1], provider) >= MAX_PROVIDER_FAILURES then before else |ids|
  }

  /** The cut is the first prefix with three outages, or everything when there are fewer. */
  lemma {:induction false} CutAtTheThirdOutage(ids: seq<string>, provider: string -> Exchange)
    ensures var n := Judgements(ids, provider);
            && Failures(ids[..n], provider) <= 3
            && (n < |ids| ==> Failures(ids[..n], provider) == 3)
            && (forall k :: 0 <= k < n ==> Failures(ids[..k], provider) < 3)
  {
    if ids != [] {
      var m := |ids| - 1;
      CutAtTheThirdOutage(ids[..m], provider);
      var before, n := Judgements(ids[..m], provider), Judgements(ids, provider);
      assert forall k :: 0 <= k <= m ==> ids[..m][..k] == ids[..k];
      if n == |ids| {
        assert ids[..n] == ids && before == m;
        assert ids[..m][..before] == ids[..m];
      }
    } else {
      assert ids[..0] == [];
    }
  }

  /** Every try of every one of these passages. */
  function AllTries(ids: seq<string>, provider: string -> Exchange): seq<Attempt> {
    if ids == [] then [] else AllTries(ids[..|ids| - 1], provider) + Tries(provider(ids[|ids| - 1]))
  }

  /** What judging them costs is every one of their tries, once. */
  lemma {:induction false} UsagePaysForEveryTry(figure: Figure, ids: seq<string>, provider: string -> Exchange)
    ensures PaysFor(figure, UsageOf(ids, provider), |ids|, AllTries(ids, provider))
  {
    if ids != [] {
      var n := |ids| - 1;
      var before, tries := AllTries(ids[..n], provider), Tries(provider(ids[n]));
      UsagePaysForEveryTry(figure, ids[..n], provider);
      EveryTryIsPaid(figure, provider(ids[n]));
      hide Published, Judged, Tries, AddCounts, FigureOf;
      PublishedAdds(figure, before, tries);
      FiguresAdd(figure, UsageOf(ids[..n], provider), Judged(provider(ids[n])).usage);
    }
  }

  lemma JudgedCosts(e: Exchange)
    ensures Judged(e).usage.logicalCalls == 1 && 1 <= Judged(e).usage.attempts <= 2
  {
  }

  /** Each verdict costs one logical call and one or two attempts. */
  lemma {:induction false} UsageCounts(ids: seq<string>, provider: string -> Exchange)
    ensures UsageOf(ids, provider).logicalCalls == |ids|
    ensures |ids| <= UsageOf(ids, provider).attempts <= 2 * |ids|
  {
    if ids != [] {
      var n := |ids| - 1;
      UsageCounts(ids[..n], provider);
      hide Judged;
      JudgedCosts(provider(ids[n]));
    }
  }

  datatype Judging = Judging(results: seq<Scoring>, stopped: Option<nat>, refused: bool)

  /** How many passages a pass under this ceiling judges. */
  function Cut(ids: seq<string>, ceiling: Option<nat>, provider: string -> Exchange): (m: nat)
    ensures m <= |ids|
  {
    var n := Judgements(ids, provider);
    if ceiling.Some? && ceiling.value < n then ceiling.value else n
  }

  /** The verdicts and the judge's own counts are those of exactly these passages. */
  ghost predicate Accounts(verdicts: seq<Scoring>, usage: Usage, failures: nat, ids: seq<string>,
      provider: string -> Exchange) {
    && verdicts == Scorings(ids, provider)
    && usage == UsageOf(ids, provider)
    && failures == Failures(ids, provider)
  }

  lemma AccountsNext(verdicts: seq<Scoring>, usage: Usage, failures: nat, ids: seq<string>, id: string,
      provider: string -> Exchange)
    requires Accounts(verdicts, usage, failures, ids, provider)
    ensures var j := Judged(provider(id));
            Accounts(verdicts + [Scoring(id, j)], Plus(usage, j.usage),
                     failures + (if j.outcome.ProviderFailure? then 1 else 0), ids + [id], provider)
  {
    assert (ids + [id])[..|ids|] == ids;
    ScoringsNext(ids, id, provider);
  }

  /** Everything before this passage was judged and fewer than three outages were seen. */
  predicate Underway(done: seq<string>, provider: string -> Exchange) {
    Judgements(done, provider) == |done| && Failures(done, provider) < MAX_PROVIDER_FAILURES
  }

  lemma UnderwayNext(done: seq<string>, id: string, provider: string -> Exchange)
    requires Underway(done, provider)
    ensures Judgements(done + [id], provider) == |done| + 1
  {
    assert (done + [id])[..|done|] == done;
  }

  lemma NothingJudgedYet(results: seq<Store.Generation>, cases: set<string>, provider: string -> Exchange)
    ensures Judgeable(results[..0], cases) == [] && Underway([], provider) && Accounts([], NO_USAGE, 0, [], provider)
  {
  }

  lemma JudgeableNext(results: seq<Store.Generation>, cases: set<string>, k: nat)
    requires k < |results|
    ensures Judgeable(results[..k + 1], cases)
         == Judgeable(results[..k], cases)
             + if results[k].accepted && results[k].caseId in cases then [results[k].caseId] else []
  {
    assert results[..k + 1][..k] == results[..k];
  }

  /** One verdict as it is written down, an outage or a rejected answer included. */
  function Recorded(scoring: Scoring, now: string): Store.Judgement {
    Store.Judgement(scoring.caseId, scoring.judgement.outcome.Scored?, Some(now))
  }

  function Records(verdicts: seq<Scoring>, now: string): seq<Store.Judgement> {
    seq(|verdicts|, i requires 0 <= i < |verdicts| => Recorded(verdicts[i], now))
  }

  /** The run with these verdicts written after what it held. */
  function WithVerdicts(run: Store.StoredRun, verdicts: seq<Scoring>, now: string): Store.StoredRun {
    run.(judgements := run.judgements + Records(verdicts, now))
  }

  lemma NothingRecordedYet(run: Store.StoredRun, now: string)
    ensures WithVerdicts(run, [], now) == run
  {
    assert run.judgements + Records([], now) == run.judgements;
  }

  lemma RecordNext(run: Store.StoredRun, verdicts: seq<Scoring>, scoring: Scoring, now: string)
    ensures WithVerdicts(run, verdicts + [scoring], now)
         == Store.WithLine(WithVerdicts(run, verdicts, now), Store.JudgeLine(Recorded(scoring, now)))
  {
    assert Records(verdicts + [scoring], now) == Records(verdicts, now) + [Recorded(scoring, now)];
    assert run.judgements + Records(verdicts + [scoring], now)
        == run.judgements + Records(verdicts, now) + [Recorded(scoring, now)];
  }

  /**
   One verdict per accepted passage, in order, in the store before the next is asked for: exactly those
   of the passages up to and including the third outage, or up to the judge's own ceiling, which then
   refuses.
   */
  method JudgeExplanations(results: seq<Store.Generation>, cases: set<string>, judge: CountedJudge,
      provider: string -> Exchange,
                           store: Store.ExplanationResultStore, now: string)
    returns (judging: Judging)
    requires judge.usage == NO_USAGE && judge.providerFailures == 0 && store.Valid()
    modifies judge, store
    ensures store.Valid() && store.Memory() == WithVerdicts(old(store.Memory()), judging.results, now)
    ensures var ids := Judgeable(results, cases);
            && Accounts(judging.results, judge.usage, judge.providerFailures,
                ids[..Cut(ids, judge.maxLogicalCalls, provider)], provider)
            && (judging.refused <==>
                judge.maxLogicalCalls.Some? && judge.maxLogicalCalls.value < Judgements(ids, provider))
            && judging.stopped == (if judge.providerFailures >= MAX_PROVIDER_FAILURES then Some(judge.providerFailures)
                else None)
  {
    hide Judged, Judgements, Failures, UsageOf, Judgeable, WithVerdicts, Store.ReadLines;
    var verdicts: seq<Scoring> := [];
    ghost var run := store.Memory();
    NothingRecordedYet(run, now);
    ghost var all := Judgeable(results, cases);
    ghost var done: seq<string> := [];
    NothingJudgedYet(results, cases, provider);
    for k := 0 to |results|
      invariant done == Judgeable(results[..k], cases)
      invariant Underway(done, provider)
      invariant Accounts(verdicts, judge.usage, judge.providerFailures, done, provider)
      invariant judge.maxLogicalCalls.Some? ==> |done| <= judge.maxLogicalCalls.value
      invariant store.Valid() && store.Memory() == WithVerdicts(run, verdicts, now)
    {
      JudgeableNext(results, cases, k);
      if !results[k].accepted || results[k].caseId !in cases {
        continue;
      }
      var id := results[k].caseId;
      UsageCounts(done, provider);
      UnderwayNext(done, id, provider);
      JudgeableGrows(results, cases, k + 1);
      JudgementsGrow(all, |done| + 1, provider);
      assert all[..|done| + 1] == done + [id];
      assert all[..|done|] == all[..|done| + 1][..|done|] == done;
      var judgement := judge.Judge(provider(id));
      if judgement.Err? {
        assert Cut(all, judge.maxLogicalCalls, provider) == |done|;
        return Judging(verdicts, None, true);
      }
      AccountsNext(verdicts, UsageOf(done, provider), Failures(done, provider), done, id, provider);
      var scoring := Scoring(id, judgement.value);
      RecordNext(run, verdicts, scoring, now);
      var written := store.RecordJudgement(Store.Judgement(id, judgement.value.outcome.Scored?, None), now);
      verdicts := verdicts + [scoring];
      done := done + [id];
      if judge.providerFailures >= MAX_PROVIDER_FAILURES {
        CutStays(all, |done|, provider);
        assert Cut(all, judge.maxLogicalCalls, provider) == |done|;
        return Judging(verdicts, Some(judge.providerFailures), false);
      }
    }
    assert results[..|results|] == results && done[..|done|] == done;
    return Judging(verdicts, None, false);
  }

  lemma {:induction false} JudgementsGrow(ids: seq<string>, k: nat, provider: string -> Exchange)
    requires k <= |ids|
    ensures Judgements(ids[..k], provider) <= Judgements(ids, provider)
    decreases |ids|
  {
    if k == |ids| {
      assert ids[..k] == ids;
    } else {
      var n := |ids| - 1;
      assert ids[..n][..k] == ids[..k];
      JudgementsGrow(ids[..n], k, provider);
    }
  }

  lemma ScoringsNext(ids: seq<string>, id: string, provider: string -> Exchange)
    ensures Scorings(ids + [id], provider) == Scorings(ids, provider) + [Scoring(id, Judged(provider(id)))]
  {
  }

  lemma {:induction false} JudgeableGrows(results: seq<Store.Generation>, cases: set<string>, k: nat)
    requires k <= |results|
    ensures |Judgeable(results[..k], cases)| <= |Judgeable(results, cases)|
    ensures Judgeable(results, cases)[..|Judgeable(results[..k], cases)|] == Judgeable(results[..k], cases)
    decreases |results|
  {
    if k == |results| {
      assert results[..k] == results;
    } else {
      var n := |results| - 1;
      assert results[..n][..k] == results[..k];
      JudgeableGrows(results[..n], cases, k);
    }
  }

  /** Once three outages are in a prefix, later passages change nothing. */
  lemma {:induction false} CutStays(ids: seq<string>, m: nat, provider: string -> Exchange)
    requires m <= |ids| && Judgements(ids[..m], provider) == m && Failures(ids[..m], provider) >= MAX_PROVIDER_FAILURES
    ensures Judgements(ids, provider) == m
    decreases |ids|
  {
    if m == |ids| {
      assert ids[..m] == ids;
    } else {
      var n := |ids| - 1;
      assert ids[..n][..m] == ids[..m];
      CutStays(ids[..n], m, provider);
      if m == n { assert ids[..n] == ids[..m]; }
    }
  }

  // ------------------------------------------------------------------ the command's ceiling

  predicate DistinctAccepted(results: seq<Store.Generation>) {
    forall i, j :: 0 <= i < j < |results| && results[i].accepted && results[j].accepted ==>
        results[i].caseId != results[j].caseId
  }

  lemma {:induction false} JudgeableAreDistinct(results: seq<Store.Generation>, cases: set<string>)
    requires DistinctAccepted(results)
    ensures var ids := Judgeable(results, cases);
            && |ids| == |set id | id in ids|
            && (forall id :: id in ids ==>
                id in cases && exists i :: 0 <= i < |results| && results[i].accepted && results[i].caseId == id)
  {
    if results != [] {
      var n := |results| - 1;
      JudgeableAreDistinct(results[..n], cases);
      var before, ids := Judgeable(results[..n], cases), Judgeable(results, cases);
      forall id | id in before
        ensures exists i :: 0 <= i < n && results[i].accepted && results[i].caseId == id
      {
        var i :| 0 <= i < n && results[..n][i].accepted && results[..n][i].caseId == id;
        assert results[i].caseId == id;
      }
      if ids != before {
        assert (set id | id in ids) == (set id | id in before) + {results[n].caseId};
        assert results[n].caseId !in before;
      }
    }
  }

  /**
   The judging command's own ceiling -- the smaller of its outstanding passages and the split's
   case count -- always covers what it judges, so that ceiling is never the thing that refuses.
   */
  lemma JudgingCeilingCovers(outstanding: seq<Store.Generation>, cases: set<string>)
    requires DistinctAccepted(outstanding)
    ensures |Judgeable(outstanding, cases)| <= (if |outstanding| <= |cases| then |outstanding| else |cases|)
  {
    JudgeableAreDistinct(outstanding, cases);
    var ids := Judgeable(outstanding, cases);
    var named := set id | id in ids;
    assert named <= cases;
    assert cases == named + (cases - named);
    JudgeableIsShorter(outstanding, cases);
  }

  lemma {:induction false} JudgeableIsShorter(results: seq<Store.Generation>, cases: set<string>)
    ensures |Judgeable(results, cases)| <= |results|
  {
    if results != [] {
      JudgeableIsShorter(results[..|results| - 1], cases);
    }
  }

  /** The accepted passages nothing is recorded about yet. */
  function OutstandingPassages(generations: seq<Store.Generation>, judged: set<string>): seq<Store.Generation> {
    if generations == [] then []
    else
      var before, last := OutstandingPassages(generations[..|generations| - 1], judged), generations[|generations| - 1];
      if last.accepted && last.caseId !in judged then before + [last] else before
  }

  lemma {:induction false} OutstandingPassagesAreUnjudged(generations: seq<Store.Generation>, judged: set<string>)
    requires DistinctAccepted(generations)
    ensures var rest := OutstandingPassages(generations, judged);
            && DistinctAccepted(rest)
            && (forall p :: p in rest <==> p in generations && p.accepted && p.caseId !in judged)
  {
    if generations != [] {
      var n := |generations| - 1;
      OutstandingPassagesAreUnjudged(generations[..n], judged);
      var rest := OutstandingPassages(generations[..n], judged);
      assert generations == generations[..n] + [generations[n]];
      forall i | 0 <= i < |rest| && generations[n].accepted ensures rest[i].caseId != generations[n].caseId {
        assert rest[i] in rest;
        var j :| 0 <= j < n && generations[..n][j] == rest[i];
        assert generations[j] == rest[i];
      }
    }
  }

  function JudgedIds(judgements: seq<Store.Judgement>): set<string> {
    set j | j in judgements :: j.caseId
  }

  /** What a judging command over these records asks about. */
  function ToJudge(run: Store.StoredRun, cases: set<string>): seq<string> {
    Judgeable(OutstandingPassages(run.generations, JudgedIds(run.judgements)), cases)
  }

  /** The run's records after one whole judging command. */
  function JudgePass(run: Store.StoredRun, cases: set<string>, provider: string -> Exchange,
      now: string): Store.StoredRun {
    var ids := ToJudge(run, cases);
    WithVerdicts(run, Scorings(ids[..Judgements(ids, provider)], provider), now)
  }

  /** The judging command on one run file, with the ceiling it derives for itself. */
  method RunJudging(store: Store.ExplanationResultStore, cases: set<string>, provider: string -> Exchange, now: string)
    returns (judging: Judging, usage: Usage)
    requires store.Valid() && DistinctAccepted(store.generations)
    modifies store
    ensures store.Valid() && store.Memory() == JudgePass(old(store.Memory()), cases, provider, now)
    ensures var ids := ToJudge(old(store.Memory()), cases);
            var n := Judgements(ids, provider);
            && !judging.refused
            && judging.results == Scorings(ids[..n], provider)
            && usage == UsageOf(ids[..n], provider)
            && (judging.stopped == None <==> Failures(ids, provider) < MAX_PROVIDER_FAILURES)
            && (judging.stopped == None ==> n == |ids|)
  {
    var outstanding := OutstandingPassages(store.generations, JudgedIds(store.judgements));
    OutstandingPassagesAreUnjudged(store.generations, JudgedIds(store.judgements));
    ghost var ids := Judgeable(outstanding, cases);
    if outstanding == [] {
      NothingRecordedYet(store.Memory(), now);
      return Judging([], None, false), NO_USAGE;
    }
    var ceiling := if |outstanding| <= |cases| then |outstanding| else |cases|;
    JudgingCeilingCovers(outstanding, cases);
    var judge := new CountedJudge(Some(ceiling));
    judging := JudgeExplanations(outstanding, cases, judge, provider, store, now);
    usage := judge.usage;
    CutAtTheThirdOutage(ids, provider);
    FailuresGrow(ids, Judgements(ids, provider), provider);
    assert ids[..|ids|] == ids;
  }

  lemma {:induction false} FailuresGrow(ids: seq<string>, k: nat, provider: string -> Exchange)
    requires k <= |ids|
    ensures Failures(ids[..k], provider) <= Failures(ids, provider)
    decreases |ids|
  {
    if k == |ids| {
      assert ids[..k] == ids;
    } else {
      var n := |ids| - 1;
      assert ids[..n][..k] == ids[..k];
      FailuresGrow(ids[..n], k, provider);
    }
  }

  // ------------------------------------------------------------------ any number of passes on one run

  /**
   What may happen to a run's records: passages are added, or judged, the whole way or until something cut it
   short.
   */
  datatype Activity =
    | Generated(passages: seq<Store.Generation>)
    | JudgedSome(cases: set<string>, provider: string -> Exchange, now: string, atMost: Option<nat>)

  function Asked(run: Store.StoredRun, a: Activity): (n: nat)
    requires a.JudgedSome?
    ensures n <= |ToJudge(run, a.cases)|
  {
    Cut(ToJudge(run, a.cases), a.atMost, a.provider)
  }

  function After(run: Store.StoredRun, a: Activity): Store.StoredRun {
    match a
    case Generated(passages) => run.(generations := run.generations + passages)
    case JudgedSome(cases, provider, now, _) => WithVerdicts(run,
        Scorings(ToJudge(run, cases)[..Asked(run, a)], provider), now)
  }

  function AfterAll(run: Store.StoredRun, activities: seq<Activity>): Store.StoredRun {
    if activities == [] then run
    else After(AfterAll(run, activities[..|activities| - 1]), activities[|activities| - 1])
  }

  predicate Shown(generations: seq<Store.Generation>, id: string) {
    exists g :: g in generations && g.accepted && g.caseId == id
  }

  /** Each record of a verdict is about a passage that is shown, and no passage has two. */
  ghost predicate OneVerdictEach(run: Store.StoredRun) {
    && (forall i, j :: 0 <= i < j < |run.judgements| ==> run.judgements[i].caseId != run.judgements[j].caseId)
    && (forall j :: j in run.judgements ==> Shown(run.generations, j.caseId))
  }

  lemma {:induction false} JudgeableInOrder(results: seq<Store.Generation>, cases: set<string>)
    requires DistinctAccepted(results)
    ensures var ids := Judgeable(results, cases);
            && (forall i, j :: 0 <= i < j < |ids| ==> ids[i] != ids[j])
            && (forall id :: id in ids <==> id in cases && Shown(results, id))
  {
    if results != [] {
      var n := |results| - 1;
      JudgeableInOrder(results[..n], cases);
      OneMoreJudgeable(results, cases, Judgeable(results[..n], cases));
    }
  }

  lemma OneMoreJudgeable(results: seq<Store.Generation>, cases: set<string>, before: seq<string>)
    requires results != [] && DistinctAccepted(results)
    requires forall i, j :: 0 <= i < j < |before| ==> before[i] != before[j]
    requires forall id :: id in before <==> id in cases && Shown(results[..|results| - 1], id)
    ensures var last := results[|results| - 1];
            var ids := if last.accepted && last.caseId in cases then before + [last.caseId] else before;
            && (forall i, j :: 0 <= i < j < |ids| ==> ids[i] != ids[j])
            && (forall id :: id in ids <==> id in cases && Shown(results, id))
  {
    var n := |results| - 1;
    assert results == results[..n] + [results[n]];
    forall id | id in before ensures Shown(results, id) && (results[n].accepted ==> id != results[n].caseId) {
      assert Shown(results[..n], id);
      var g :| g in results[..n] && g.accepted && g.caseId == id;
      var k :| 0 <= k < n && results[..n][k] == g;
      assert results[k] == g && g in results;
    }
    assert results[n].accepted ==> Shown(results, results[n].caseId);
  }

  lemma ToJudgeIsNew(run: Store.StoredRun, cases: set<string>)
    requires DistinctAccepted(run.generations)
    ensures var ids := ToJudge(run, cases);
            && (forall i, j :: 0 <= i < j < |ids| ==> ids[i] != ids[j])
            && (forall id :: id in ids <==>
                  id in cases && Shown(run.generations, id) && !exists j :: j in run.judgements && j.caseId == id)
  {
    var judged := JudgedIds(run.judgements);
    var rest := OutstandingPassages(run.generations, judged);
    OutstandingPassagesAreUnjudged(run.generations, judged);
    JudgeableInOrder(rest, cases);
    hide OutstandingPassages, Judgeable;
    forall id | id in ToJudge(run, cases) ensures Shown(run.generations, id) && id !in judged {
      var g :| g in rest && g.accepted && g.caseId == id;
    }
  }

  /** What a pass writes: one more record for each passage it judged, saying whether its last try was accepted. */
  lemma PassWritesVerdicts(run: Store.StoredRun, cases: set<string>, provider: string -> Exchange, now: string)
    ensures var ids, after := ToJudge(run, cases), JudgePass(run, cases, provider, now);
            var n, k := Judgements(ids, provider), |run.judgements|;
            && after.header == run.header && after.generations == run.generations
            && |after.judgements| == k + n && after.judgements[..k] == run.judgements
            && forall i :: 0 <= i < n ==>
                 var tries, j := Tries(provider(ids[i])), after.judgements[k + i];
                 && j.caseId == ids[i] && j.recordedAt == Some(now)
                 && (j.scored <==> tries[|tries| - 1].Answer? && tries[|tries| - 1].verdict.Some?)
  {
    var ids, after := ToJudge(run, cases), JudgePass(run, cases, provider, now);
    var n, k := Judgements(ids, provider), |run.judgements|;
    hide ToJudge, Judgements;
    forall i | 0 <= i < n
        ensures var tries, j := Tries(provider(ids[i])), after.judgements[k + i];
                && j.caseId == ids[i] && j.recordedAt == Some(now)
                && (j.scored <==> tries[|tries| - 1].Answer? && tries[|tries| - 1].verdict.Some?) {
      LastTryDecides(provider(ids[i]));
      assert after.judgements[k + i] == Recorded(Scorings(ids[..n], provider)[i], now);
    }
  }

  lemma JudgingKeepsOneEach(run: Store.StoredRun, a: Activity)
    requires a.JudgedSome? && DistinctAccepted(run.generations) && OneVerdictEach(run)
    ensures OneVerdictEach(After(run, a))
  {
    ToJudgeIsNew(run, a.cases);
    var ids := ToJudge(run, a.cases)[..Asked(run, a)];
    var added := Records(Scorings(ids, a.provider), a.now);
    hide ToJudge, Judged, Shown, Asked;
    assert forall i :: 0 <= i < |added| ==> added[i].caseId == ids[i] && ids[i] in ToJudge(run, a.cases);
    assert forall j :: j in run.judgements ==> j.caseId in JudgedIds(run.judgements);
    var all := run.judgements + added;
    forall i, j | 0 <= i < j < |all| ensures all[i].caseId != all[j].caseId {
      if i < |run.judgements| <= j {
        assert all[i] in run.judgements && all[j] == added[j - |run.judgements|];
      }
    }
  }

  lemma GeneratingKeepsOneEach(run: Store.StoredRun, passages: seq<Store.Generation>)
    requires OneVerdictEach(run)
    ensures OneVerdictEach(After(run, Generated(passages)))
  {
    forall j | j in run.judgements ensures Shown(run.generations + passages, j.caseId) {
      assert Shown(run.generations, j.caseId);
      var g :| g in run.generations && g.accepted && g.caseId == j.caseId;
      assert g in run.generations + passages;
    }
  }

  lemma OnlyGenerationsGrow(run: Store.StoredRun, a: Activity)
    ensures run.generations <= After(run, a).generations && run.judgements <= After(run, a).judgements
  {
  }

  /**
   However a run's passages are added and judged, by whatever passes and however each is cut short, no
   passage is ever judged twice, and what was once written about one stands.
   */
  lemma {:induction false} NothingIsJudgedTwice(run: Store.StoredRun, activities: seq<Activity>)
    requires OneVerdictEach(run) && DistinctAccepted(AfterAll(run, activities).generations)
    ensures OneVerdictEach(AfterAll(run, activities))
    ensures run.judgements <= AfterAll(run, activities).judgements
  {
    if activities != [] {
      var n := |activities| - 1;
      var before, a := AfterAll(run, activities[..n]), activities[n];
      OnlyGenerationsGrow(before, a);
      EarlierIsDistinct(before.generations, After(before, a).generations);
      NothingIsJudgedTwice(run, activities[..n]);
      hide OneVerdictEach, After, DistinctAccepted;
      if a.Generated? {
        GeneratingKeepsOneEach(before, a.passages);
      } else {
        JudgingKeepsOneEach(before, a);
      }
    }
  }

  lemma EarlierIsDistinct(earlier: seq<Store.Generation>, later: seq<Store.Generation>)
    requires earlier <= later && DistinctAccepted(later)
    ensures DistinctAccepted(earlier)
  {
  }

  /** So an outage that is written down is the last word on its passage: no later pass asks about it again. */
  lemma AnOutageStands(run: Store.StoredRun, activities: seq<Activity>, i: nat, k: nat)
    requires OneVerdictEach(run) && DistinctAccepted(AfterAll(run, activities).generations)
    requires i < |run.judgements| && !run.judgements[i].scored && k < |AfterAll(run, activities).judgements|
    requires AfterAll(run, activities).judgements[k].caseId == run.judgements[i].caseId
    ensures k == i && !AfterAll(run, activities).judgements[k].scored
  {
    NothingIsJudgedTwice(run, activities);
    hide AfterAll;
  }

  lemma QuietPassRecordsAll(run: Store.StoredRun, cases: set<string>, provider: string -> Exchange, now: string)
    requires Failures(ToJudge(run, cases), provider) < MAX_PROVIDER_FAILURES
    ensures var judged := JudgedIds(JudgePass(run, cases, provider, now).judgements);
            JudgedIds(run.judgements) <= judged && forall id :: id in ToJudge(run, cases) ==> id in judged
  {
    var ids := ToJudge(run, cases);
    CutAtTheThirdOutage(ids, provider);
    FailuresGrow(ids, Judgements(ids, provider), provider);
    assert ids[..|ids|] == ids;
    RecordedIds(run.judgements, ids, provider, now);
    hide ToJudge, Judgements, Failures, Judged, JudgedIds;
  }

  lemma RecordedIds(before: seq<Store.Judgement>, ids: seq<string>, provider: string -> Exchange, now: string)
    ensures var judged := JudgedIds(before + Records(Scorings(ids, provider), now));
            JudgedIds(before) <= judged && forall id :: id in ids ==> id in judged
  {
    hide Judged;
    var after := before + Records(Scorings(ids, provider), now);
    forall i | 0 <= i < |ids| ensures ids[i] in JudgedIds(after) {
      assert after[|before| + i].caseId == ids[i] && after[|before| + i] in after;
    }
    forall j | j in before ensures j in after {
    }
  }

  lemma NoneLeft(ids: seq<string>)
    ensures ids == [] <==> forall id :: id !in ids
  {
    if ids != [] {
      assert ids[0] in ids;
    }
  }

  /** A whole pass that meets fewer than three outages leaves nothing of its split to judge. */
  lemma QuietPassJudgesTheRest(run: Store.StoredRun, cases: set<string>, provider: string -> Exchange, now: string)
    requires DistinctAccepted(run.generations) && Failures(ToJudge(run, cases), provider) < MAX_PROVIDER_FAILURES
    ensures ToJudge(JudgePass(run, cases, provider, now), cases) == []
  {
    var after := JudgePass(run, cases, provider, now);
    assert after.generations == run.generations;
    QuietPassRecordsAll(run, cases, provider, now);
    MoreJudgedLessLeft(run.generations, JudgedIds(run.judgements), JudgedIds(after.judgements), cases);
    ToJudgeIsNew(after, cases);
    NoneLeft(ToJudge(after, cases));
    hide JudgePass, Failures, OutstandingPassages, Judgeable, Shown, JudgedIds;
  }

  lemma {:induction false} MoreJudgedLessLeft(generations: seq<Store.Generation>, judged: set<string>,
      more: set<string>, cases: set<string>)
    requires judged <= more
    ensures forall id :: id in Judgeable(OutstandingPassages(generations, more), cases)
              ==> id in Judgeable(OutstandingPassages(generations, judged), cases)
  {
    if generations != [] {
      var n := |generations| - 1;
      MoreJudgedLessLeft(generations[..n], judged, more, cases);
      LeftNext(generations, judged, cases);
      LeftNext(generations, more, cases);
      hide OutstandingPassages, Judgeable;
    }
  }

  lemma LeftNext(generations: seq<Store.Generation>, judged: set<string>, cases: set<string>)
    requires generations != []
    ensures var n := |generations| - 1;
            Judgeable(OutstandingPassages(generations, judged), cases)
            == Judgeable(OutstandingPassages(generations[..n], judged), cases)
               + if generations[n].accepted && generations[n].caseId !in judged && generations[n].caseId in cases
                 then [generations[n].caseId] else []
  {
    var n := |generations| - 1;
    var before := OutstandingPassages(generations[..n], judged);
    assert (before + [generations[n]])[..|before|] == before;
  }
}
