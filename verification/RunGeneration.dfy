/**
 The generation command itself, step by step on a real guard and a real store: read what was
 spent, refuse or derive a budget, open the run's file, and buy the outstanding cases one by one.
 Its effect on the directory is proved to be the specification the gate's results are about.
 */
module RunGeneration {
  import opened Common
  import opened Budget
  import opened Guard
  import opened Store
  import opened DerivedCeiling
  import opened Pass
  import opened Recognition
  import opened SpendGate
  import Ledger

  /** Every live run file of the provider, one per identity; two claiming one identity refuse. */
  method ReadRunFiles(suite: Suite, files: seq<RunFile>) returns (r: Result<seq<Found>, GateError>)
    ensures r == RunFiles(suite, files)
  {
    var found: seq<Found> := [];
    var seen: set<string> := {};
    for k := 0 to |files|
      invariant RunFiles(suite, files[..k]) == Ok(found)
      invariant seen == Identities(found)
    {
      assert files[..k + 1][..k] == files[..k];
      var read := ReadLines(files[k].lines);
      if read.Err? || read.value.header.identity.mode != LIVE || read.value.header.identity.provider != BEDROCK {
        continue;
      }
      var header := read.value.header;
      if header.runId in seen {
        StopsAt(suite, files, k);
        return Err(TwoFilesOneRun(header.runId));
      }
      var recorded := RecordedTotals(read.value.generations, PriceFor(suite, header.identity.modelId));
      seen := seen + {header.runId};
      IdentitiesNext(found, Found(header, recorded));
      found := found + [Found(header, recorded)];
    }
    assert files[..|files|] == files;
    r := Ok(found);
  }

  lemma IdentitiesNext(found: seq<Found>, f: Found)
    ensures Identities(found + [f]) == Identities(found) + {f.header.runId}
  {
  }

  /** A refusal over the first files is the refusal over all of them. */
  lemma {:induction false} StopsAt(suite: Suite, files: seq<RunFile>, k: nat)
    requires k < |files| && RunFiles(suite, files[..k + 1]).Err?
    ensures RunFiles(suite, files) == RunFiles(suite, files[..k + 1])
    decreases |files|
  {
    if k + 1 == |files| {
      assert files[..k + 1] == files;
    } else {
      assert files[..|files| - 1][..k + 1] == files[..k + 1];
      StopsAt(suite, files[..|files| - 1], k);
    }
  }

  method LedgeredRuns(groups: seq<Ledger.Run>, found: seq<Found>, model: string) returns (runs: seq<RecognisedRun>)
    ensures runs == Ledgered(groups, found, model)
  {
    runs := [];
    for k := 0 to |groups|
      invariant |runs| == k && forall i :: 0 <= i < k ==> runs[i] == FromLedger(groups[i], found, model)
    {
      runs := runs + [FromLedger(groups[k], found, model)];
    }
  }

  method UnledgeredRuns(groups: seq<Ledger.Run>, found: seq<Found>, model: string) returns (runs: seq<RecognisedRun>)
    ensures runs == Unledgered(groups, found, model)
  {
    runs := [];
    for k := 0 to |found|
      invariant runs == Unledgered(groups, found[..k], model)
    {
      assert found[..k + 1][..k] == found[..k];
      var f := found[k];
      if (exists g :: g in groups && g.runId == f.header.runId) || f.header.identity.modelId != Some(model) {
        continue;
      }
      runs := runs + [RecognisedRun(f.header.runId, NOTHING, Some(f.recorded), f.header.identity.splits)];
    }
    assert found[..|found|] == found;
  }

  method KeepSplit(runs: seq<RecognisedRun>, split: string) returns (kept: seq<RecognisedRun>)
    ensures kept == OfSplit(runs, split)
  {
    kept := [];
    for k := 0 to |runs|
      invariant kept == OfSplit(runs[..k], split)
    {
      assert runs[..k + 1][..k] == runs[..k];
      if runs[k].splits == [] || split in runs[k].splits {
        kept := kept + [runs[k]];
      }
    }
    assert runs[..|runs|] == runs;
  }

  method GateSpend(suite: Suite, disk: Disk, split: Split, model: string)
      returns (r: Result<seq<RecognisedRun>, GateError>)
    ensures r == SpendOn(suite, disk, split, model)
  {
    var files := ReadRunFiles(suite, disk.files);
    if files.Err? {
      return Err(files.error);
    }
    var groups := Ledger.LedgerRuns(disk.ledger, ScopeOf(model));
    var ledgered := LedgeredRuns(groups, files.value, model);
    var unledgered := UnledgeredRuns(groups, files.value, model);
    var kept := KeepSplit(ledgered + unledgered, NameOf(split));
    r := Ok(kept);
  }

  // ------------------------------------------------------------------ buying the outstanding cases

  lemma {:induction false} EndsThere(budget: EvalBudget, price: Option<Price>, cases: seq<Case>,
      events: map<string, Event>, now: string, k: nat)
    requires k <= |cases| && Generate(budget, price, cases[..k], events, now).ending != Running
    ensures Generate(budget, price, cases, events, now) == Generate(budget, price, cases[..k], events, now)
    decreases |cases|
  {
    if k == |cases| {
      assert cases[..k] == cases;
    } else {
      assert cases[..|cases| - 1][..k] == cases[..k];
      EndsThere(budget, price, cases[..|cases| - 1], events, now, k);
    }
  }

  lemma NothingYet(budget: EvalBudget, price: Option<Price>, cases: seq<Case>, events: map<string, Event>, now: string)
    ensures Generate(budget, price, cases[..0], events, now) == START
    ensures AsLines(START.written) == []
  {
  }

  lemma OneMoreCase(budget: EvalBudget, price: Option<Price>, cases: seq<Case>, events: map<string, Event>, now: string,
      k: nat)
    requires k < |cases| && Generate(budget, price, cases[..k], events, now).ending == Running
    ensures Generate(budget, price, cases[..k + 1], events, now)
         == Visit(budget, price, Generate(budget, price, cases[..k], events, now), cases[k].id,
             EventFor(events, cases[k].id), now)
  {
    assert cases[..k + 1][..k] == cases[..k];
  }

  lemma RecordsAreStamped(id: string, event: Event, now: string)
    ensures event.Put? ==> Stamped(RecordOf(id, event.reply, now), now) == RecordOf(id, event.reply, now)
  {
  }

  /**
   Reach one case: ask through the guard, and write the answer down before anything else can happen.
   */
  method VisitCase(guard: BudgetGuard, store: ExplanationResultStore, id: string, event: Event, now: string,
      ghost p: Progress)
    returns (ending: Ending)
    requires store.Valid() && p.ending == Running && guard.spend == p.spend
    modifies guard, store
    ensures store.Valid()
    ensures var after := Visit(guard.budget, guard.price, p, id, event, now);
            && ending == after.ending
            && guard.spend == after.spend
            && store.Memory() == old(store.Memory()).(generations :=
                old(store.generations) + after.written[|p.written|..])
            && store.file == old(store.file) + AsLines(after.written[|p.written|..])
            && |after.written| >= |p.written| && after.written[..|p.written|] == p.written
  {
    hide Charge, RecordOf, Stamped, ReadLines, LegacyUnprepared;
    RecordsAreStamped(id, event, now);
    ending := Running;
    match event {
      case Killed(inFlight) =>
        if inFlight {
          var asked := guard.Authorise();
          ending := if asked.Refused? then Stopped(asked.ceiling) else Dead;
        } else {
          ending := Dead;
        }
      case LostAfterAnswer(telemetry) =>
        var provider := new BudgetedProvider(guard);
        var asked := provider.Run(Answered(telemetry));
        ending := if asked.Refused? then Stopped(asked.ceiling) else Broken;
      case Put(reply) =>
        var provider := new BudgetedProvider(guard);
        var asked := provider.Run(reply);
        if asked.Refused? {
          ending := Stopped(asked.ceiling);
        } else if reply.Interrupted? {
          ending := Broken;
        } else {
          var record := store.RecordGeneration(RecordOf(id, reply, now), now);
        }
    }
  }

  /** The written records of a pass so far are in the store, after what the file held before. */
  ghost predicate Mirrors(store: ExplanationResultStore, guard: BudgetGuard, lines: seq<Line>, run: StoredRun,
      p: Progress)
    reads store, guard
  {
    && store.Valid()
    && guard.spend == p.spend
    && store.file == lines + AsLines(p.written)
    && store.Memory() == run.(generations := run.generations + p.written)
  }

  lemma WrittenSoFar(before: seq<Generation>, after: seq<Generation>)
    requires |after| >= |before| && after[..|before|] == before
    ensures before + after[|before|..] == after
    ensures AsLines(before) + AsLines(after[|before|..]) == AsLines(after)
  {
    assert before + after[|before|..] == after;
  }

  /** Buy the cases in order until one ends the pass. */
  method GenerateCases(guard: BudgetGuard, store: ExplanationResultStore, cases: seq<Case>, events: map<string, Event>,
      now: string)
    returns (ending: Ending)
    requires store.Valid() && guard.spend == FRESH
    modifies guard, store
    ensures var p := Generate(guard.budget, guard.price, cases, events, now);
            && ending == p.ending
            && Mirrors(store, guard, old(store.file), old(store.Memory()), p)
  {
    hide Visit, Generate, AsLines, ReadLines, EventFor;
    ghost var lines, run := store.file, store.Memory();
    ghost var p := START;
    NothingYet(guard.budget, guard.price, cases, events, now);
    ending := Running;
    assert lines + AsLines([]) == lines && run.generations + [] == run.generations;
    for k := 0 to |cases|
      invariant p == Generate(guard.budget, guard.price, cases[..k], events, now)
      invariant ending == p.ending == Running
      invariant Mirrors(store, guard, lines, run, p)
    {
      OneMoreCase(guard.budget, guard.price, cases, events, now, k);
      ending := VisitCase(guard, store, cases[k].id, EventFor(events, cases[k].id), now, p);
      ghost var after := Visit(guard.budget, guard.price, p, cases[k].id, EventFor(events, cases[k].id), now);
      WrittenSoFar(p.written, after.written);
      assert run.generations + p.written + after.written[|p.written|..] == run.generations + after.written;
      assert lines + AsLines(p.written) + AsLines(after.written[|p.written|..]) == lines + AsLines(after.written);
      p := after;
      if ending != Running {
        EndsThere(guard.budget, guard.price, cases, events, now, k + 1);
        return;
      }
    }
    assert cases[..|cases|] == cases;
  }

  /** The results directory: the ledger and the run files that commands append to. */
  class ResultsDirectory {
    var disk: Disk

    constructor ()
      ensures disk == Disk([], [])
    {
      disk := Disk([], []);
    }

    /** Put what the store's file now holds back into the directory, and the pass's ledger line with it. */
    method Close(store: ExplanationResultStore, guard: BudgetGuard, c: Command, ending: Ending)
      modifies this
      ensures disk == Disk(
        if ending != Dead && guard.spend.calls != 0
        then old(disk.ledger) + [LedgerLine(store.header, c.model, Progress(guard.spend, [], NO_TALLY, ending))]
            else old(disk.ledger),
        PutFile(old(disk.files), c.runId, store.file))
    {
      disk := disk.(files := PutFile(disk.files, c.runId, store.file));
      if ending != Dead && guard.spend.calls != 0 {
        var line := LedgerLine(store.header, c.model, Progress(guard.spend, [], NO_TALLY, ending));
        disk := disk.(ledger := disk.ledger + [line]);
      }
    }

    /** One generation command. */
    method RunGeneration(suite: Suite, c: Command) returns (ran: bool)
      modifies this
      ensures disk == RunCommand(suite, old(disk), c).disk
      ensures ran == RunCommand(suite, old(disk), c).outcome.Ran?
    {
      var cases := CasesOf(suite, c.split);
      if cases == [] {
        return false;
      }
      var effective := EffectiveRunId(disk, c);
      if effective.Err? {
        return false;
      }
      var runId := effective.value;
      var spend := GateSpend(suite, disk, c.split, c.model);
      if spend.Err? {
        return false;
      }
      var bought := BoughtIds(spend.value);
      if runId !in bought && |bought| >= MaxRuns(c.split) {
        return false;
      }
      if !c.authorised {
        return false;
      }
      var budget := GenerationBudget(cases, MaxRuns(c.split), spend.value, runId, c.typed);
      var store := ExplanationResultStore.Open(LinesOf(disk.files, c.runId),
          Header(runId, c.now, None, IdentityOf(suite, c)));
      if store.Err? {
        return false;
      }
      ran := Buy(suite, c, runId, budget, store.value);
    }

    method Buy(suite: Suite, c: Command, runId: string, budget: EvalBudget, store: ExplanationResultStore)
        returns (ran: bool)
      requires store.Valid()
      modifies this, store
      ensures var passed := Opened(suite, old(disk), c, runId, budget, old(store.file), old(store.Memory()));
              disk == passed.disk && ran == passed.outcome.Ran?
    {
      var outstanding := Outstanding(CasesOf(suite, c.split), Completed(store.generations));
      if outstanding == [] {
        disk := disk.(files := PutFile(disk.files, c.runId, store.file));
        return false;
      }
      var guard := BudgetGuard.Open(budget, PriceFor(suite, Some(c.model)), true);
      if guard.Err? {
        disk := disk.(files := PutFile(disk.files, c.runId, store.file));
        return false;
      }
      var ending := GenerateCases(guard.value, store, outstanding, c.events, c.now);
      if c.died {
        ending := Dead;
      }
      Close(store, guard.value, c, ending);
      return true;
    }
  }
}
