/**
 What the gate reads off a results directory its own commands wrote: one recognised run per run
 file of the split and model, each from its own ledger lines and its own records.
 */
module Listing {
  import opened Common
  import opened Budget
  import opened Store
  import opened Recognition
  import opened SpendGate
  import Ledger

  predicate Readable(f: RunFile) {
    ReadLines(f.lines).Ok?
  }

  function RunOf(f: RunFile): StoredRun
    requires Readable(f)
  {
    ReadLines(f.lines).value
  }

  /** The header of one run over one split of one model. */
  predicate OneSplit(i: Identity) {
    && i.mode == LIVE
    && i.provider == BEDROCK
    && i.modelId.Some?
    && (i.splits == [NameOf(Development)] || i.splits == [NameOf(Holdout)])
  }

  /** A run file as this gate leaves it: named after its run, over one split of one model. */
  predicate Live(f: RunFile) {
    && f.name != ""
    && Readable(f)
    && RunOf(f).header.runId == f.name
    && OneSplit(RunOf(f).header.identity)
  }

  predicate Over(f: RunFile, split: Split, model: string) {
    && Live(f)
    && RunOf(f).header.identity.splits == [NameOf(split)]
    && RunOf(f).header.identity.modelId == Some(model)
  }

  /** The ledger line is one of this file's run. */
  predicate LineFor(line: Ledger.Line, f: RunFile) {
    && Live(f)
    && line.runId == Some(f.name)
    && line.mode == LIVE
    && line.provider == BEDROCK
    && line.modelId == RunOf(f).header.identity.modelId
    && line.splits == RunOf(f).header.identity.splits
  }

  predicate DistinctNames(files: seq<RunFile>) {
    forall i, j :: 0 <= i < j < |files| ==> files[i].name != files[j].name
  }

  predicate LedgerOf(ledger: seq<Ledger.Line>, files: seq<RunFile>) {
    forall k :: 0 <= k < |ledger| ==> exists f :: f in files && LineFor(ledger[k], f)
  }

  predicate Tidy(disk: Disk) {
    && DistinctNames(disk.files)
    && (forall f :: f in disk.files ==> Live(f))
    && LedgerOf(disk.ledger, disk.files)
  }

  function LedgeredTotals(ledger: seq<Ledger.Line>, f: RunFile): Totals
    requires Live(f)
  {
    Ledger.RunTotals(ledger, ScopeOf(RunOf(f).header.identity.modelId.value), f.name)
  }

  /** One run as the gate recognises it. */
  function View(suite: Suite, ledger: seq<Ledger.Line>, f: RunFile): RecognisedRun
    requires Live(f)
  {
    var run := RunOf(f);
    RecognisedRun(f.name, LedgeredTotals(ledger, f),
                  Some(RecordedTotals(run.generations, PriceFor(suite, run.header.identity.modelId))),
                  run.header.identity.splits)
  }

  function FoundFor(suite: Suite, f: RunFile): Found
    requires Live(f)
  {
    var run := RunOf(f);
    Found(run.header, RecordedTotals(run.generations, PriceFor(suite, run.header.identity.modelId)))
  }

  // ------------------------------------------------------------------ the run files

  predicate FoundAll(suite: Suite, files: seq<RunFile>, found: seq<Found>) {
    |found| == |files| && forall i :: 0 <= i < |files| ==> Live(files[i]) && found[i] == FoundFor(suite, files[i])
  }

  lemma ReadsAsFound(suite: Suite, f: RunFile)
    requires Live(f)
    ensures Read(suite, f) == Some(FoundFor(suite, f)) && FoundFor(suite, f).header.runId == f.name
  {
    hide RecordedTotals, ReadLines;
  }

  lemma NotYetSeen(suite: Suite, files: seq<RunFile>, before: seq<Found>)
    requires files != [] && DistinctNames(files) && FoundAll(suite, files[..|files| - 1], before)
    ensures files[|files| - 1].name !in Identities(before)
  {
    hide Live, FoundFor;
    var n := |files| - 1;
    forall i | 0 <= i < n ensures before[i].header.runId == files[i].name {
      assert files[..n][i] == files[i];
      ReadsAsFound(suite, files[i]);
    }
  }

  lemma FoundNext(suite: Suite, files: seq<RunFile>, before: seq<Found>)
    requires files != [] && DistinctNames(files) && Live(files[|files| - 1])
    requires RunFiles(suite, files[..|files| - 1]) == Ok(before) && FoundAll(suite, files[..|files| - 1], before)
    ensures RunFiles(suite, files) == Ok(before + [FoundFor(suite, files[|files| - 1])])
  {
    hide Read, FoundAll, Identities;
    NotYetSeen(suite, files, before);
    ReadsAsFound(suite, files[|files| - 1]);
  }

  lemma FoundAllNext(suite: Suite, files: seq<RunFile>, before: seq<Found>)
    requires files != [] && Live(files[|files| - 1]) && FoundAll(suite, files[..|files| - 1], before)
    ensures FoundAll(suite, files, before + [FoundFor(suite, files[|files| - 1])])
  {
    hide Live, FoundFor;
    assert forall i :: 0 <= i < |files| - 1 ==> files[..|files| - 1][i] == files[i];
  }

  lemma {:induction false} EveryFileIsFound(suite: Suite, files: seq<RunFile>)
    requires DistinctNames(files) && forall f :: f in files ==> Live(f)
    ensures RunFiles(suite, files).Ok? && FoundAll(suite, files, RunFiles(suite, files).value)
  {
    if files != [] {
      var n := |files| - 1;
      assert forall f :: f in files[..n] ==> f in files;
      EveryFileIsFound(suite, files[..n]);
      hide RunFiles, FoundAll, Live;
      var before := RunFiles(suite, files[..n]).value;
      FoundNext(suite, files, before);
      FoundAllNext(suite, files, before);
    }
  }

  lemma FoundEach(suite: Suite, files: seq<RunFile>, found: seq<Found>)
    requires FoundAll(suite, files, found)
    ensures |found| == |files| && forall i :: 0 <= i < |files| ==> found[i].header.runId == files[i].name
    ensures forall k :: 0 <= k <= |files| ==> FoundAll(suite, files[..k], found[..k])
  {
    forall i | 0 <= i < |files| ensures found[i].header.runId == files[i].name {
      ReadsAsFound(suite, files[i]);
    }
    hide Live, FoundFor;
  }

  lemma {:induction false} FileOfFinds(suite: Suite, files: seq<RunFile>, found: seq<Found>, name: string)
    requires DistinctNames(files) && FoundAll(suite, files, found)
    ensures forall i :: 0 <= i < |files| && files[i].name == name ==> FileOf(found, name) == Some(found[i])
    ensures FileOf(found, name).Some? ==> exists i :: 0 <= i < |files| && files[i].name == name
  {
    if files != [] {
      var n := |files| - 1;
      FoundEach(suite, files, found);
      hide Live, FoundFor, FoundAll;
      FileOfFinds(suite, files[..n], found[..n], name);
      if FileOf(found[..n], name).Some? {
        var i :| 0 <= i < n && files[..n][i].name == name;
        assert files[i].name == name;
      }
    }
  }

  // ------------------------------------------------------------------ the ledgered runs

  lemma {:induction false} SplitsOfOneRun(lines: seq<Ledger.Line>, scope: Ledger.Scope, id: string, splits: seq<string>)
    requires |splits| == 1
    requires forall k :: 0 <= k < |lines| && Ledger.OfRun(lines[k], scope, id) ==> lines[k].splits == splits
    ensures Ledger.RunSplits(lines, scope, id) == if id in Ledger.FirstAppearances(lines, scope) then splits else []
  {
    if lines != [] {
      var n := |lines| - 1;
      SplitsOfOneRun(lines[..n], scope, id, splits);
      if Ledger.OfRun(lines[n], scope, id) {
        assert splits == [splits[0]];
        assert Ledger.NewNames([], splits) == splits;
        assert Ledger.NewNames(splits, splits) == [];
      }
    }
  }

  lemma LinesOfOneRunAgree(disk: Disk, f: RunFile, k: nat, scope: Ledger.Scope)
    requires Tidy(disk) && f in disk.files && k < |disk.ledger| && Ledger.OfRun(disk.ledger[k], scope, f.name)
    ensures LineFor(disk.ledger[k], f)
  {
    var g :| g in disk.files && LineFor(disk.ledger[k], g);
    var i :| 0 <= i < |disk.files| && disk.files[i] == f;
    var j :| 0 <= j < |disk.files| && disk.files[j] == g;
    assert i == j;
  }

  /** Every ledgered identity of the model has its run file. */
  lemma LedgeredRunHasFile(disk: Disk, model: string, group: Ledger.Run) returns (f: RunFile)
    requires Tidy(disk) && group in Ledger.Groups(disk.ledger, ScopeOf(model))
    ensures f in disk.files && f.name == group.runId && RunOf(f).header.identity.modelId == Some(model)
    ensures f.name in Ledger.FirstAppearances(disk.ledger, ScopeOf(model))
    ensures group == Ledger.Run(f.name, LedgeredTotals(disk.ledger, f),
        Ledger.RunSplits(disk.ledger, ScopeOf(model), f.name))
  {
    var scope := ScopeOf(model);
    var ids := Ledger.FirstAppearances(disk.ledger, scope);
    var at :| 0 <= at < |ids| && Ledger.Groups(disk.ledger, scope)[at] == group;
    assert group.runId == ids[at];
    var k := LineOfRun(disk.ledger, scope, ids[at]);
    f :| f in disk.files && LineFor(disk.ledger[k], f);
  }

  lemma LineOfRun(lines: seq<Ledger.Line>, scope: Ledger.Scope, id: string) returns (k: nat)
    requires id in Ledger.FirstAppearances(lines, scope)
    ensures k < |lines| && Ledger.OfRun(lines[k], scope, id)
  {
    Ledger.FirstAppearancesAreTheRuns(lines, scope);
    k :| 0 <= k < |lines| && Ledger.OfRun(lines[k], scope, id);
  }

  lemma FileSplits(disk: Disk, f: RunFile, scope: Ledger.Scope)
    requires Tidy(disk) && f in disk.files && f.name in Ledger.FirstAppearances(disk.ledger, scope)
    ensures Ledger.RunSplits(disk.ledger, scope, f.name) == RunOf(f).header.identity.splits
  {
    forall k | 0 <= k < |disk.ledger| && Ledger.OfRun(disk.ledger[k], scope, f.name)
      ensures disk.ledger[k].splits == RunOf(f).header.identity.splits
    {
      LinesOfOneRunAgree(disk, f, k, scope);
    }
    SplitsOfOneRun(disk.ledger, scope, f.name, RunOf(f).header.identity.splits);
  }

  lemma LedgeredRunIsView(suite: Suite, disk: Disk, found: seq<Found>, model: string, group: Ledger.Run)
      returns (f: RunFile)
    requires Tidy(disk) && FoundAll(suite, disk.files, found)
    requires group in Ledger.Groups(disk.ledger, ScopeOf(model))
    ensures f in disk.files && f.name == group.runId && RunOf(f).header.identity.modelId == Some(model)
    ensures FromLedger(group, found, model) == View(suite, disk.ledger, f)
  {
    f := LedgeredRunHasFile(disk, model, group);
    FileSplits(disk, f, ScopeOf(model));
    var i :| 0 <= i < |disk.files| && disk.files[i] == f;
    FileOfFinds(suite, disk.files, found, f.name);
    assert FileOf(found, group.runId) == Some(FoundFor(suite, f));
  }

  // ------------------------------------------------------------------ the whole listing

  lemma LedgeredLists(suite: Suite, disk: Disk, found: seq<Found>, model: string)
    requires Tidy(disk) && FoundAll(suite, disk.files, found)
    ensures var groups := Ledger.Groups(disk.ledger, ScopeOf(model));
            && DistinctRuns(Ledgered(groups, found, model))
            && forall f :: f in disk.files && Live(f) && InGroups(groups, f.name)
                 ==> View(suite, disk.ledger, f) in Ledgered(groups, found, model)
  {
    var groups := Ledger.Groups(disk.ledger, ScopeOf(model));
    var runs := Ledgered(groups, found, model);
    Ledger.FirstAppearancesAreTheRuns(disk.ledger, ScopeOf(model));
    forall f | f in disk.files && Live(f) && InGroups(groups, f.name)
      ensures View(suite, disk.ledger, f) in runs
    {
      var i :| 0 <= i < |groups| && groups[i].runId == f.name;
      var g := LedgeredRunIsView(suite, disk, found, model, groups[i]);
      SameNameSameFile(disk.files, f, g);
      assert runs[i] == View(suite, disk.ledger, f);
    }
  }

  predicate InGroups(groups: seq<Ledger.Run>, name: string) {
    exists i :: 0 <= i < |groups| && groups[i].runId == name
  }

  lemma SameNameSameFile(files: seq<RunFile>, f: RunFile, g: RunFile)
    requires DistinctNames(files) && f in files && g in files && f.name == g.name
    ensures f == g
  {
    var i :| 0 <= i < |files| && files[i] == f;
    var j :| 0 <= j < |files| && files[j] == g;
  }

  predicate OfModelOnly(groups: seq<Ledger.Run>, model: string, f: RunFile) {
    Live(f) && RunOf(f).header.identity.modelId == Some(model) && !InGroups(groups, f.name)
  }

  /** A run file's own evidence, with no ledger line beside it. */
  function Bare(suite: Suite, f: RunFile): RecognisedRun
    requires Live(f)
  {
    RecognisedRun(f.name, NOTHING, Some(FoundFor(suite, f).recorded), FoundFor(suite, f).header.identity.splits)
  }

  predicate IsBare(suite: Suite, files: seq<RunFile>, groups: seq<Ledger.Run>, model: string, run: RecognisedRun) {
    exists f :: f in files && OfModelOnly(groups, model, f) && run == Bare(suite, f)
  }

  lemma {:induction false} UnledgeredLists(suite: Suite, files: seq<RunFile>, found: seq<Found>,
      groups: seq<Ledger.Run>, model: string)
    requires DistinctNames(files) && FoundAll(suite, files, found)
    ensures var runs := Unledgered(groups, found, model);
            && (forall run :: run in runs ==> IsBare(suite, files, groups, model, run))
            && (forall f :: f in files && OfModelOnly(groups, model, f) ==> Bare(suite, f) in runs)
            && DistinctRuns(runs)
  {
    if files != [] {
      var n := |files| - 1;
      UnledgeredLists(suite, files[..n], found[..n], groups, model);
      hide Live, FoundFor;
      assert forall f :: f in files <==> f in files[..n] || f == files[n];
      var before := Unledgered(groups, found[..n], model);
      assert InGroups(groups, files[n].name) <==> exists g :: g in groups && g.runId == files[n].name;
      forall run | run in before
        ensures run.runId != files[n].name && IsBare(suite, files, groups, model, run)
      {
        assert IsBare(suite, files[..n], groups, model, run);
        var f :| f in files[..n] && OfModelOnly(groups, model, f) && run == Bare(suite, f);
        assert f in files;
      }
      if OfModelOnly(groups, model, files[n]) {
        assert files[n] in files;
        assert IsBare(suite, files, groups, model, Bare(suite, files[n]));
      }
    }
  }

  lemma NoLinesNoTotals(disk: Disk, model: string, f: RunFile)
    requires Live(f) && RunOf(f).header.identity.modelId == Some(model)
    requires !InGroups(Ledger.Groups(disk.ledger, ScopeOf(model)), f.name)
    ensures LedgeredTotals(disk.ledger, f) == NOTHING
  {
    var ids := Ledger.FirstAppearances(disk.ledger, ScopeOf(model));
    forall i | 0 <= i < |ids| ensures ids[i] != f.name {
      assert Ledger.Groups(disk.ledger, ScopeOf(model))[i].runId == ids[i];
    }
    Ledger.NewRunStartsEmpty(disk.ledger, ScopeOf(model), f.name);
  }

  lemma {:induction false} OfSplitFilters(runs: seq<RecognisedRun>, split: string)
    ensures forall run :: run in OfSplit(runs, split) <==> run in runs && (run.splits == [] || split in run.splits)
    ensures DistinctRuns(runs) ==> DistinctRuns(OfSplit(runs, split))
  {
    if runs != [] {
      var n := |runs| - 1;
      OfSplitFilters(runs[..n], split);
      assert forall run :: run in runs <==> run in runs[..n] || run == runs[n];
      var before := OfSplit(runs[..n], split);
      if DistinctRuns(runs) {
        forall i | 0 <= i < |before| ensures before[i].runId != runs[n].runId {
          assert before[i] in runs[..n];
        }
      }
    }
  }

  /** The run is some file's view. */
  predicate IsView(suite: Suite, disk: Disk, model: string, run: RecognisedRun) {
    exists f :: f in disk.files && Live(f) && RunOf(f).header.identity.modelId == Some(model)
        && run == View(suite, disk.ledger, f)
  }

  lemma AllRunsAreViews(suite: Suite, disk: Disk, found: seq<Found>, model: string)
    requires Tidy(disk) && FoundAll(suite, disk.files, found)
    ensures var groups := Ledger.Groups(disk.ledger, ScopeOf(model));
            var runs := Ledgered(groups, found, model) + Unledgered(groups, found, model);
            && DistinctRuns(runs)
            && (forall run :: run in runs ==> IsView(suite, disk, model, run))
            && (forall f :: f in disk.files && Live(f) && RunOf(f).header.identity.modelId == Some(model)
                            ==> View(suite, disk.ledger, f) in runs)
  {
    var groups := Ledger.Groups(disk.ledger, ScopeOf(model));
    var ledgered, unledgered := Ledgered(groups, found, model), Unledgered(groups, found, model);
    LedgeredLists(suite, disk, found, model);
    UnledgeredLists(suite, disk.files, found, groups, model);
    forall f | f in disk.files && OfModelOnly(groups, model, f) ensures Bare(suite, f) == View(suite, disk.ledger, f) {
      NoLinesNoTotals(disk, model, f);
    }
    forall i | 0 <= i < |ledgered| ensures InGroups(groups, ledgered[i].runId)
        && IsView(suite, disk, model, ledgered[i]) {
      var f := LedgeredRunIsView(suite, disk, found, model, groups[i]);
      assert groups[i].runId == ledgered[i].runId;
    }
    forall i | 0 <= i < |unledgered| ensures !InGroups(groups, unledgered[i].runId)
        && IsView(suite, disk, model, unledgered[i]) {
      assert IsBare(suite, disk.files, groups, model, unledgered[i]);
      var f :| f in disk.files && OfModelOnly(groups, model, f) && unledgered[i] == Bare(suite, f);
    }
    forall f | f in disk.files && Live(f) && RunOf(f).header.identity.modelId == Some(model)
      ensures View(suite, disk.ledger, f) in ledgered + unledgered
    {
      if !InGroups(groups, f.name) {
        assert OfModelOnly(groups, model, f);
      }
    }
  }

  predicate IsViewOver(suite: Suite, disk: Disk, split: Split, model: string, run: RecognisedRun) {
    exists f :: f in disk.files && Over(f, split, model) && run == View(suite, disk.ledger, f)
  }

  /** Exactly the views of the split's files of the model, each once. */
  predicate ListsSplit(suite: Suite, disk: Disk, split: Split, model: string, runs: seq<RecognisedRun>) {
    && DistinctRuns(runs)
    && (forall run :: run in runs ==> IsViewOver(suite, disk, split, model, run))
    && (forall f :: f in disk.files && Over(f, split, model) ==> View(suite, disk.ledger, f) in runs)
  }

  lemma ViewIsOverItsSplit(suite: Suite, disk: Disk, split: Split, model: string, run: RecognisedRun)
    requires IsView(suite, disk, model, run) && (run.splits == [] || NameOf(split) in run.splits)
    ensures IsViewOver(suite, disk, split, model, run)
  {
    var f :| f in disk.files && Live(f) && RunOf(f).header.identity.modelId == Some(model)
        && run == View(suite, disk.ledger, f);
    assert Over(f, split, model);
  }

  /**
   Over a directory its own commands wrote, the gate recognises exactly the run files of the split
   and model, each once, each from all its own ledger lines and records and no others.
   */
  lemma SpendOnLists(suite: Suite, disk: Disk, split: Split, model: string)
    requires Tidy(disk)
    ensures SpendOn(suite, disk, split, model).Ok?
    ensures ListsSplit(suite, disk, split, model, SpendOn(suite, disk, split, model).value)
  {
    EveryFileIsFound(suite, disk.files);
    var found := RunFiles(suite, disk.files).value;
    AllRunsAreViews(suite, disk, found, model);
    var groups := Ledger.Groups(disk.ledger, ScopeOf(model));
    FilteredViews(suite, disk, split, model, Ledgered(groups, found, model) + Unledgered(groups, found, model));
  }

  lemma FilteredViews(suite: Suite, disk: Disk, split: Split, model: string, all: seq<RecognisedRun>)
    requires DistinctRuns(all)
    requires forall run :: run in all ==> IsView(suite, disk, model, run)
    requires forall f :: f in disk.files && Live(f) && RunOf(f).header.identity.modelId == Some(model) ==>
        View(suite, disk.ledger, f) in all
    ensures ListsSplit(suite, disk, split, model, OfSplit(all, NameOf(split)))
  {
    var runs := OfSplit(all, NameOf(split));
    OfSplitFilters(all, NameOf(split));
    forall run | run in runs ensures IsViewOver(suite, disk, split, model, run) {
      ViewIsOverItsSplit(suite, disk, split, model, run);
    }
    forall f | f in disk.files && Over(f, split, model) ensures View(suite, disk.ledger, f) in runs {
      assert View(suite, disk.ledger, f).splits == [NameOf(split)];
    }
  }
}
