/**
 What one run is recognised as having spent, from the ledger and from its run file, and the
 budget a pass is given from that. Then: what a run's account looks like after any passes.
 */
module Recognition {
  import opened Common
  import opened Budget
  import opened Store
  import opened DerivedCeiling
  import opened Pass

  /** What a run file's records add up to. A record that never reached a provider is only unsent. */
  function RecordedTotals(gs: seq<Generation>, price: Option<Price>): Totals {
    var input, output := InputTotal(gs), OutputTotal(gs);
    Totals(if TerminalCount(gs) > 0 then 1 else 0,
           TerminalCount(gs), AttemptTotal(gs), input, output,
           if price.Some? then Cost(price.value, input, output) else 0,
           0, 0, |gs| - TerminalCount(gs))
  }

  datatype RecognisedRun = RecognisedRun(runId: string, ledgered: Totals, recorded: Option<Totals>, splits: seq<string>)

  /** In each field the greater of ledger and run file, once the file's unsent records are taken off the ledger. */
  function Recognised(run: RecognisedRun): Totals {
    match run.recorded
    case None => run.ledgered
    case Some(recorded) =>
      var unsent := recorded.unsentCalls;
      Totals(if Max(run.ledgered.calls - unsent, recorded.calls) != 0 then 1 else 0,
             Max(Max(run.ledgered.calls - unsent, recorded.calls), 0),
             Max(Max(run.ledgered.attempts - unsent, recorded.attempts), 0),
             Max(run.ledgered.inputTokens, recorded.inputTokens),
             Max(run.ledgered.outputTokens, recorded.outputTokens),
             Max(run.ledgered.usd, recorded.usd),
             0, 0, unsent)
  }

  predicate Bought(run: RecognisedRun) {
    Recognised(run).calls > 0
  }

  function Total(runs: seq<RecognisedRun>): Totals {
    if runs == [] then NOTHING
    else AddTotals(Total(runs[..|runs| - 1]), Recognised(runs[|runs| - 1]))
  }

  function BoughtIds(runs: seq<RecognisedRun>): set<string> {
    set run | run in runs && Bought(run) :: run.runId
  }

  function ForRun(runs: seq<RecognisedRun>, runId: string): Totals {
    if runs == [] then NOTHING
    else if runs[0].runId == runId then Recognised(runs[0])
    else ForRun(runs[1..], runId)
  }

  function TimesBound(bound: Option<int>, factor: int): Option<int> {
    if bound.Some? then Some(bound.value * factor) else None
  }

  function Times(budget: EvalBudget, factor: int): EvalBudget {
    EvalBudget(TimesBound(budget.calls, factor), TimesBound(budget.inputTokens, factor),
               TimesBound(budget.outputTokens, factor), TimesBound(budget.usd, factor))
  }

  /** The derived ceiling per run, per gate, and whatever the operator typed: the tightest of the three. */
  function GenerationBudget(cases: seq<Case>, allowed: nat, runs: seq<RecognisedRun>, runId: string,
      typed: EvalBudget): EvalBudget {
    var derived := AsBudget(NovaCeiling(cases));
    var perRun := Remaining(derived, ForRun(runs, runId));
    var perGate := Remaining(Times(derived, allowed), Total(runs));
    Tightest([perRun, perGate, typed])
  }

  // ------------------------------------------------------------------ one run's account

  /** One run: what the ledger sums to for it, what its file holds, and what truly happened. */
  datatype Account = Account(ledgered: Totals, generations: seq<Generation>, tally: Tally)

  const NO_ACCOUNT := Account(NOTHING, [], NO_TALLY)

  function Unsent(a: Account): nat {
    |a.generations| - TerminalCount(a.generations)
  }

  function RecognisedCalls(a: Account): int {
    Max(Max(a.ledgered.calls - Unsent(a), TerminalCount(a.generations)), 0)
  }

  function Ids(cases: seq<Case>): set<string> {
    set c | c in cases :: c.id
  }

  predicate DistinctIds(cases: seq<Case>) {
    forall i, j :: 0 <= i < j < |cases| ==> cases[i].id != cases[j].id
  }

  /** No case is answered twice, and only the split's own cases are answered. */
  predicate AnsweredOnce(gs: seq<Generation>, cases: seq<Case>) {
    && (forall i, j :: 0 <= i < j < |gs| && Terminal(gs[i]) && Terminal(gs[j]) ==> gs[i].caseId != gs[j].caseId)
    && (forall i :: 0 <= i < |gs| && Terminal(gs[i]) ==> gs[i].caseId in Ids(cases))
  }

  /** The run's two records and the truth agree on how many calls there were, and the ledger is within the ceiling. */
  predicate Counted(ceiling: nat, a: Account) {
    && a.tally.interrupted <= a.tally.sent
    && TerminalCount(a.generations) == a.tally.sent - a.tally.interrupted
    && Unsent(a) == a.tally.discarded + a.tally.legacy
    && a.ledgered.calls == a.tally.sent + a.tally.legacy - a.tally.lost
    && a.ledgered.calls - Unsent(a) <= ceiling
  }

  /** The invariant of one run over every history of its passes. */
  predicate Sound(cases: seq<Case>, a: Account) {
    AnsweredOnce(a.generations, cases) && Counted(|cases|, a)
  }

  /** What a pass's own ledger line adds: nothing when the process died or nothing was charged. */
  function PassLine(p: Progress): Totals {
    Totals(1, p.spend.calls, p.spend.attempts,
           if p.spend.tokensReported then p.spend.inputTokens else 0,
           if p.spend.tokensReported then p.spend.outputTokens else 0,
           if p.spend.usd.Some? then p.spend.usd.value else 0, 0, 0, 0)
  }

  predicate LeavesLine(p: Progress) {
    p.ending != Dead && p.spend.calls != 0
  }

  /** What happened in a pass once it is over: a dead process's charges are in no ledger. */
  function WithLost(p: Progress): Tally {
    if p.ending == Dead && p.spend.calls > 0 then p.tally.(lost := p.spend.calls) else p.tally
  }

  function AfterPass(a: Account, p: Progress): Account {
    Account(if LeavesLine(p) then AddTotals(a.ledgered, PassLine(p)) else a.ledgered,
            a.generations + p.written, AddTally(a.tally, WithLost(p)))
  }

  /** The cases of the split a run has not answered, in dataset order. */
  function Outstanding(cases: seq<Case>, done: set<string>): seq<Case> {
    if cases == [] then []
    else
      var rest, last := Outstanding(cases[..|cases| - 1], done), cases[|cases| - 1];
      if last.id in done then rest else rest + [last]
  }

  lemma {:induction false} OutstandingIsTheRest(cases: seq<Case>, done: set<string>)
    requires DistinctIds(cases)
    ensures var rest := Outstanding(cases, done);
            && DistinctIds(rest)
            && (forall c :: c in rest <==> c in cases && c.id !in done)
  {
    if cases != [] {
      var n := |cases| - 1;
      OutstandingIsTheRest(cases[..n], done);
      var rest := Outstanding(cases[..n], done);
      assert cases == cases[..n] + [cases[n]];
      if cases[n].id !in done {
        forall i | 0 <= i < |rest| ensures rest[i].id != cases[n].id {
          assert rest[i] in cases[..n];
        }
      }
    }
  }

  /** And in their own order: what is left of the first cases comes first. */
  lemma {:induction false} OutstandingInOrder(cases: seq<Case>, done: set<string>, k: nat)
    requires k <= |cases|
    ensures Outstanding(cases[..k], done) <= Outstanding(cases, done)
  {
    if k < |cases| {
      var n := |cases| - 1;
      assert cases[..n][..k] == cases[..k];
      OutstandingInOrder(cases[..n], done, k);
    } else {
      assert cases[..k] == cases;
    }
  }

  lemma {:induction false} IdsCount(cases: seq<Case>)
    requires DistinctIds(cases)
    ensures |Ids(cases)| == |cases|
  {
    if cases != [] {
      var n := |cases| - 1;
      IdsCount(cases[..n]);
      assert cases == cases[..n] + [cases[n]];
      assert Ids(cases) == Ids(cases[..n]) + {cases[n].id};
      assert cases[n].id !in Ids(cases[..n]);
    }
  }

  lemma {:induction false} OutstandingCount(cases: seq<Case>, done: set<string>)
    requires DistinctIds(cases) && done <= Ids(cases)
    ensures |Outstanding(cases, done)| == |cases| - |done|
  {
    var rest := Outstanding(cases, done);
    OutstandingIsTheRest(cases, done);
    IdsCount(cases);
    IdsCount(rest);
    assert Ids(rest) == Ids(cases) - done;
  }

  lemma CompletedNext(gs: seq<Generation>)
    requires gs != []
    ensures Completed(gs) == Completed(gs[..|gs| - 1]) + if Terminal(gs[|gs| - 1]) then {gs[|gs| - 1].caseId} else {}
  {
    hide Terminal;
    assert gs == gs[..|gs| - 1] + [gs[|gs| - 1]];
  }

  lemma LastIsNew(gs: seq<Generation>, cases: seq<Case>)
    requires gs != [] && AnsweredOnce(gs, cases)
    ensures AnsweredOnce(gs[..|gs| - 1], cases)
    ensures Terminal(gs[|gs| - 1]) ==>
        gs[|gs| - 1].caseId in Ids(cases) && gs[|gs| - 1].caseId !in Completed(gs[..|gs| - 1])
  {
    hide Terminal, Ids;
  }

  /** Answered once: as many terminal records as completed cases, and so never more than cases. */
  lemma {:induction false} TerminalsAreCompleted(gs: seq<Generation>, cases: seq<Case>)
    requires AnsweredOnce(gs, cases)
    ensures TerminalCount(gs) == |Completed(gs)|
    ensures Completed(gs) <= Ids(cases)
  {
    if gs == [] {
      assert Completed(gs) == {};
    } else {
      var n := |gs| - 1;
      LastIsNew(gs, cases);
      TerminalsAreCompleted(gs[..n], cases);
      hide Terminal, Ids, AnsweredOnce, Completed;
      CompletedNext(gs);
    }
  }

  lemma AtMostOnePerCase(gs: seq<Generation>, cases: seq<Case>)
    requires AnsweredOnce(gs, cases) && DistinctIds(cases)
    ensures TerminalCount(gs) <= |cases|
    ensures |Outstanding(cases, Completed(gs))| == |cases| - TerminalCount(gs)
  {
    TerminalsAreCompleted(gs, cases);
    OutstandingCount(cases, Completed(gs));
  }

  /** New records are about cases with no answer yet, each once, so no case is answered twice. */
  lemma StillAnsweredOnce(gs: seq<Generation>, written: seq<Generation>, cases: seq<Case>)
    requires DistinctIds(cases) && AnsweredOnce(gs, cases)
    requires Follows(written, Outstanding(cases, Completed(gs)))
    ensures AnsweredOnce(gs + written, cases)
  {
    var rest := Outstanding(cases, Completed(gs));
    OutstandingIsTheRest(cases, Completed(gs));
    assert forall i :: 0 <= i < |written| ==> rest[i] in cases && rest[i].id !in Completed(gs);
  }

  lemma PassKeepsCounted(ceiling: nat, a: Account, budget: EvalBudget, p: Progress)
    requires Counted(ceiling, a) && Accounted(budget, p) && TerminalCount(a.generations) <= ceiling
    requires TerminalCount(a.generations + p.written) == TerminalCount(a.generations) + TerminalCount(p.written)
    requires budget.calls.Some? && budget.calls.value <= ceiling - RecognisedCalls(a)
    ensures Counted(ceiling, AfterPass(a, p))
  {
    hide TerminalCount, InputTotal, OutputTotal;
  }

  /**
   One pass keeps a run's account sound, provided its call allowance is no more than the derived
   ceiling less what the run is recognised as having spent.
   */
  lemma PassKeepsSound(cases: seq<Case>, a: Account, budget: EvalBudget, p: Progress)
    requires DistinctIds(cases) && Sound(cases, a)
    requires Accounted(budget, p) && Follows(p.written, Outstanding(cases, Completed(a.generations)))
    requires budget.calls.Some? && budget.calls.value <= |cases| - RecognisedCalls(a)
    ensures Sound(cases, AfterPass(a, p))
  {
    hide Counted, Accounted, AnsweredOnce, Follows, TerminalCount, RecognisedCalls;
    StillAnsweredOnce(a.generations, p.written, cases);
    TotalsAdd(a.generations, p.written);
    AtMostOnePerCase(a.generations, cases);
    PassKeepsCounted(|cases|, a, budget, p);
  }

  // ------------------------------------------------------------------ what soundness gives

  /** A run is never recognised as having spent more calls than its split has cases. */
  lemma RecognisedWithinCeiling(cases: seq<Case>, a: Account)
    requires DistinctIds(cases) && Sound(cases, a)
    ensures 0 <= RecognisedCalls(a) <= |cases|
  {
    AtMostOnePerCase(a.generations, cases);
  }

  /** The requests sent that neither record shows: each took an answer that was lost and a discount to hide it. */
  function Unseen(t: Tally): nat {
    Min(t.interrupted, t.discarded + t.lost)
  }

  /** A run is recognised as having made exactly the requests it sent, less the unseen ones. */
  lemma RecognisedIsSeen(cases: seq<Case>, a: Account)
    requires Sound(cases, a)
    ensures RecognisedCalls(a) == a.tally.sent - Unseen(a.tally)
  {
  }

  /**
   The recognised calls cover the requests really sent exactly when no answer was lost, or when no
   permission was ever given back and no charge died unledgered.
   */
  lemma RecognisedCoversSentIff(cases: seq<Case>, a: Account)
    requires Sound(cases, a)
    ensures RecognisedCalls(a) >= a.tally.sent
       <==> a.tally.interrupted == 0 || (a.tally.discarded == 0 && a.tally.lost == 0)
  {
  }

  /** Every request sent went unrecorded, and as many discounts hide them all. */
  predicate Hidden(t: Tally) {
    t.sent > 0 && t.interrupted == t.sent && t.discarded + t.lost >= t.sent
  }

  /** A run is recognised as having bought exactly when it sent anything, unless all it sent is hidden. */
  lemma BoughtIsSentIff(cases: seq<Case>, a: Account)
    requires Sound(cases, a)
    ensures (RecognisedCalls(a) > 0 <==> a.tally.sent > 0) <==> !Hidden(a.tally)
  {
  }

  /** What a run sent passes the ceiling by no more than is unseen. */
  lemma SentWithinCeilingAndUnseen(cases: seq<Case>, a: Account)
    requires DistinctIds(cases) && Sound(cases, a)
    ensures a.tally.sent <= |cases| + Unseen(a.tally)
  {
    RecognisedWithinCeiling(cases, a);
    RecognisedIsSeen(cases, a);
  }

  /** And is within it exactly while the answers the run lost fit in what it has still to ask. */
  lemma SentWithinCeilingIff(cases: seq<Case>, a: Account)
    requires DistinctIds(cases) && Sound(cases, a)
    ensures a.tally.sent <= |cases| <==> a.tally.interrupted <= |Outstanding(cases, Completed(a.generations))|
  {
    AtMostOnePerCase(a.generations, cases);
  }

  /** A run that lost more answers than its discounts hide has a case its allowance does not reach. */
  lemma StarvedIsUnfinished(cases: seq<Case>, a: Account)
    requires DistinctIds(cases) && Sound(cases, a)
    requires a.tally.interrupted > a.tally.discarded + a.tally.lost
    ensures Outstanding(cases, Completed(a.generations)) != []
    ensures RecognisedCalls(a) > |cases| - |Outstanding(cases, Completed(a.generations))|
  {
    AtMostOnePerCase(a.generations, cases);
  }

  /**
   A resumed run is given exactly its outstanding cases' calls, by the per-run ceiling, unless more
   answers went unrecorded than the discounts hide; then it is given fewer.
   */
  lemma AllowanceIsOutstandingIff(cases: seq<Case>, a: Account)
    requires DistinctIds(cases) && Sound(cases, a)
    ensures |cases| - RecognisedCalls(a) <= |Outstanding(cases, Completed(a.generations))|
    ensures |cases| - RecognisedCalls(a) == |Outstanding(cases, Completed(a.generations))|
       <==> a.tally.interrupted <= a.tally.discarded + a.tally.lost
  {
    AtMostOnePerCase(a.generations, cases);
  }

  // ------------------------------------------------------------------ all the runs of one gate

  predicate DistinctRuns(runs: seq<RecognisedRun>) {
    forall i, j :: 0 <= i < j < |runs| ==> runs[i].runId != runs[j].runId
  }

  /** Every run is recognised within its own ceiling. */
  predicate EachWithin(runs: seq<RecognisedRun>, n: nat) {
    forall i :: 0 <= i < |runs| ==> 0 <= Recognised(runs[i]).calls <= n
  }

  lemma {:induction false} ForRunFinds(runs: seq<RecognisedRun>, at: nat)
    requires DistinctRuns(runs) && at < |runs|
    ensures ForRun(runs, runs[at].runId) == Recognised(runs[at])
  {
    if at > 0 {
      assert runs[1..][at - 1] == runs[at];
      ForRunFinds(runs[1..], at - 1);
    }
  }

  lemma {:induction false} ForRunAbsent(runs: seq<RecognisedRun>, runId: string)
    requires forall i :: 0 <= i < |runs| ==> runs[i].runId != runId
    ensures ForRun(runs, runId) == NOTHING
  {
    if runs != [] {
      ForRunAbsent(runs[1..], runId);
    }
  }

  lemma BoughtIdsNext(runs: seq<RecognisedRun>)
    requires runs != [] && DistinctRuns(runs)
    ensures var before, last := BoughtIds(runs[..|runs| - 1]), runs[|runs| - 1];
            BoughtIds(runs) == (if Bought(last) then before + {last.runId} else before)
    ensures runs[|runs| - 1].runId !in BoughtIds(runs[..|runs| - 1])
  {
    var n := |runs| - 1;
    assert runs == runs[..n] + [runs[n]];
  }

  lemma Scale(n: int, a: int, b: int)
    requires n >= 0 && a <= b
    ensures n * a <= n * b
    ensures n * (a + 1) == n * a + n
  {
  }

  lemma BoughtIdsWithoutNext(runs: seq<RecognisedRun>, runId: string)
    requires runs != [] && DistinctRuns(runs)
    ensures var before, last := BoughtIds(runs[..|runs| - 1]), runs[|runs| - 1];
            && |BoughtIds(runs)| == |before| + (if Bought(last) then 1 else 0)
            && |BoughtIds(runs) - {runId}|
                == |before - {runId}| + (if Bought(last) && last.runId != runId then 1 else 0)
    ensures runId in BoughtIds(runs) <==>
        runId in BoughtIds(runs[..|runs| - 1]) || (Bought(runs[|runs| - 1]) && runs[|runs| - 1].runId == runId)
  {
    BoughtIdsNext(runs);
    var before, last := BoughtIds(runs[..|runs| - 1]), runs[|runs| - 1];
    if Bought(last) {
      if last.runId == runId {
        assert BoughtIds(runs) - {runId} == before - {runId};
      } else {
        assert BoughtIds(runs) - {runId} == (before - {runId}) + {last.runId};
      }
    }
  }

  lemma LastIsWithin(runs: seq<RecognisedRun>, n: nat)
    requires runs != [] && DistinctRuns(runs) && EachWithin(runs, n)
    ensures DistinctRuns(runs[..|runs| - 1]) && EachWithin(runs[..|runs| - 1], n)
    ensures 0 <= Recognised(runs[|runs| - 1]).calls <= n
  {
    hide Recognised;
  }

  lemma ScaledNext(n: nat, sum: int, before: nat, after: nat, added: int)
    requires sum <= n * before && after >= before && added <= if after == before then 0 else n
    ensures sum + added <= n * after
  {
    if after > before {
      Scale(n, before + 1, after);
      Scale(n, before, before);
    }
  }

  /** What the other runs of the gate spent is at most the ceiling for each of them that bought anything. */
  lemma {:induction false} OthersWithinTheirCeilings(runs: seq<RecognisedRun>, n: nat, runId: string)
    requires DistinctRuns(runs) && EachWithin(runs, n)
    ensures Total(runs).calls - ForRun(runs, runId).calls <= n * |BoughtIds(runs) - {runId}|
    ensures Total(runs).calls <= n * |BoughtIds(runs)|
    ensures ForRun(runs, runId).calls >= 0
    ensures runId !in BoughtIds(runs) ==> ForRun(runs, runId).calls == 0
  {
    if runs != [] {
      var k := |runs| - 1;
      var before, last := runs[..k], runs[k];
      LastIsWithin(runs, n);
      OthersWithinTheirCeilings(before, n, runId);
      hide BoughtIds, ForRun, Recognised, EachWithin, DistinctRuns;
      BoughtIdsWithoutNext(runs, runId);
      ForRunOfNext(runs, runId);
      assert Total(runs).calls == Total(before).calls + Recognised(last).calls;
      var calls := Recognised(last).calls;
      ScaledNext(n, Total(before).calls, |BoughtIds(before)|, |BoughtIds(runs)|, calls);
      ScaledNext(n, Total(before).calls - ForRun(before, runId).calls, |BoughtIds(before) - {runId}|,
          |BoughtIds(runs) - {runId}|,
                 if last.runId == runId then 0 else calls);
    }
  }

  /** No run is recognised past `n` in this field, nor for anything in it unless it bought something. */
  predicate EachSpendsWithin(runs: seq<RecognisedRun>, field: Field, n: int) {
    forall i :: 0 <= i < |runs| ==> Spent(Recognised(runs[i]), field) <= if Bought(runs[i]) then n else 0
  }

  /** The same in any field: what the other runs spent is at most that much for each of them that bought anything. */
  lemma {:induction false} OthersSpendWithin(runs: seq<RecognisedRun>, field: Field, n: nat, runId: string)
    requires DistinctRuns(runs) && EachSpendsWithin(runs, field, n)
    ensures Spent(Total(runs), field) - Spent(ForRun(runs, runId), field) <= n * |BoughtIds(runs) - {runId}|
  {
    if runs != [] {
      var k := |runs| - 1;
      var before, last := runs[..k], runs[k];
      assert DistinctRuns(before) && EachSpendsWithin(before, field, n);
      OthersSpendWithin(before, field, n, runId);
      var spent := Spent(Recognised(last), field);
      assert spent <= if Bought(last) then n else 0;
      hide BoughtIds, ForRun, Recognised, EachSpendsWithin, DistinctRuns, Bought;
      BoughtIdsWithoutNext(runs, runId);
      ForRunOfNext(runs, runId);
      assert Spent(Total(runs), field) == Spent(Total(before), field) + spent;
      ScaledNext(n, Spent(Total(before), field) - Spent(ForRun(before, runId), field), |BoughtIds(before) - {runId}|,
                 |BoughtIds(runs) - {runId}|, if last.runId == runId then 0 else spent);
    }
  }

  /** So is what all of them spent. */
  lemma {:induction false} AllSpendWithin(runs: seq<RecognisedRun>, field: Field, n: nat)
    requires DistinctRuns(runs) && EachSpendsWithin(runs, field, n)
    ensures Spent(Total(runs), field) <= n * |BoughtIds(runs)|
  {
    if runs != [] {
      var k := |runs| - 1;
      var before, spent := runs[..k], Spent(Recognised(runs[k]), field);
      assert DistinctRuns(before) && EachSpendsWithin(before, field, n);
      AllSpendWithin(before, field, n);
      assert spent <= if Bought(runs[k]) then n else 0;
      BoughtIdsWithoutNext(runs, "");
      assert Spent(Total(runs), field) == Spent(Total(before), field) + spent;
      hide BoughtIds, Recognised, EachSpendsWithin, DistinctRuns, Bought, Spent, Total;
      ScaledNext(n, Spent(Total(before), field), |BoughtIds(before)|, |BoughtIds(runs)|, spent);
    }
  }

  lemma ForRunOfNext(runs: seq<RecognisedRun>, runId: string)
    requires runs != [] && DistinctRuns(runs)
    ensures var before, last := runs[..|runs| - 1], runs[|runs| - 1];
            ForRun(runs, runId) == if last.runId == runId then Recognised(last) else ForRun(before, runId)
    ensures runs[|runs| - 1].runId == runId ==> ForRun(runs[..|runs| - 1], runId) == NOTHING
  {
    var k := |runs| - 1;
    var before := runs[..k];
    if runs[k].runId == runId {
      ForRunFinds(runs, k);
      ForRunAbsent(before, runId);
    } else if i :| 0 <= i < k && runs[i].runId == runId {
      ForRunFinds(runs, i);
      assert before[i] == runs[i];
      ForRunFinds(before, i);
    } else {
      ForRunAbsent(runs, runId);
      ForRunAbsent(before, runId);
    }
  }

  /** Each of these has a run file, whose records count at least nothing. */
  predicate AllRecorded(runs: seq<RecognisedRun>) {
    forall i :: 0 <= i < |runs| ==> runs[i].recorded.Some? && runs[i].recorded.value.calls >= 0
  }

  /** How many unsent records their files hold. */
  function UnsentOf(runs: seq<RecognisedRun>): int {
    if runs == [] then 0
    else
      var last := runs[|runs| - 1];
      UnsentOf(runs[..|runs| - 1]) + if last.recorded.Some? then last.recorded.value.unsentCalls else 0
  }

  /** The total's run count is how many identities bought anything. */
  lemma {:induction false} TotalCountsTheBought(runs: seq<RecognisedRun>)
    requires DistinctRuns(runs) && AllRecorded(runs)
    ensures Total(runs).runs == |BoughtIds(runs)| && Total(runs).unsentCalls == UnsentOf(runs)
  {
    if runs != [] {
      var n := |runs| - 1;
      assert DistinctRuns(runs[..n]) && AllRecorded(runs[..n]);
      TotalCountsTheBought(runs[..n]);
      BoughtIdsWithoutNext(runs, "");
      assert runs[n].recorded.Some? && runs[n].recorded.value.calls >= 0;
      hide BoughtIds, DistinctRuns, AllRecorded;
    }
  }

  /** A run that may go on: it has bought before, or the split may still buy one more identity. */
  predicate MayRun(runs: seq<RecognisedRun>, runId: string, allowed: nat) {
    runId in BoughtIds(runs) || |BoughtIds(runs)| < allowed
  }

  lemma OthersAllowed(runs: seq<RecognisedRun>, runId: string, allowed: nat)
    requires |BoughtIds(runs)| <= allowed && MayRun(runs, runId, allowed)
    ensures |BoughtIds(runs) - {runId}| <= allowed - 1
  {
    if runId in BoughtIds(runs) {
      assert BoughtIds(runs) == (BoughtIds(runs) - {runId}) + {runId};
    } else {
      assert BoughtIds(runs) - {runId} == BoughtIds(runs);
    }
  }

  function Narrowed(own: int, typed: Option<int>): int {
    if typed.Some? && typed.value < own then typed.value else own
  }

  /**
   In every field the budget is the least of what the run has left, what the gate has left in all, and what was
   typed: so what a pass is given and what was already recognised stay inside both ceilings.
   */
  lemma BudgetIsTheLeast(cases: seq<Case>, allowed: nat, runs: seq<RecognisedRun>, runId: string, typed: EvalBudget,
      field: Field)
    ensures var b, ceiling := Bound(GenerationBudget(cases, allowed, runs, runId, typed), field),
        Bound(AsBudget(NovaCeiling(cases)), field);
            && b.Some? && ceiling.Some?
            && b.value == Narrowed(Min(Max(0, ceiling.value - Spent(ForRun(runs, runId), field)),
                                       Max(0, ceiling.value * allowed - Spent(Total(runs), field))),
                                   Bound(typed, field))
  {
    var derived := AsBudget(NovaCeiling(cases));
    var perRun, perGate := Remaining(derived, ForRun(runs, runId)), Remaining(Times(derived, allowed), Total(runs));
    hide NovaCeiling, ForRun, Total, Stricter;
    var column := Column([perRun, perGate, typed], field);
    assert column == [Bound(perRun, field), Bound(perGate, field), Bound(typed, field)];
    LeastOfThree(Bound(perRun, field), Bound(perGate, field), Bound(typed, field));
  }

  lemma LeastOfThree(own: Option<int>, gate: Option<int>, typed: Option<int>)
    requires own.Some? && gate.Some?
    ensures Stricter([own, gate, typed]) == Some(Narrowed(Min(own.value, gate.value), typed))
  {
    assert [own, gate, typed][1..] == [gate, typed];
    assert [gate, typed][1..] == [typed];
    assert [typed][1..] == [];
    assert Stricter([typed]) == typed;
  }

  /**
   The gate ceiling never bites before the run's own: with no typed cap, a pass is given exactly
   the derived calls less what its run is recognised as having spent. A typed cap only narrows it.
   */
  lemma CallAllowance(cases: seq<Case>, allowed: nat, runs: seq<RecognisedRun>, runId: string, typed: EvalBudget)
    requires DistinctRuns(runs) && EachWithin(runs, |cases|)
    requires |BoughtIds(runs)| <= allowed && MayRun(runs, runId, allowed)
    ensures GenerationBudget(cases, allowed, runs, runId, typed).calls ==
              Some(Narrowed(Max(0, |cases| - ForRun(runs, runId).calls), typed.calls))
  {
    OthersWithinTheirCeilings(runs, |cases|, runId);
    OthersAllowed(runs, runId, allowed);
    Scale(|cases|, |BoughtIds(runs) - {runId}|, allowed - 1);
    Scale(|cases|, allowed - 1, allowed - 1);
    BudgetIsTheLeast(cases, allowed, runs, runId, typed, Field.Calls);
    assert NovaCeiling(cases).logicalCalls == |cases|;
    hide GenerationBudget, NovaCeiling, ForRun, Total, BoughtIds, EachWithin, DistinctRuns;
  }
}
