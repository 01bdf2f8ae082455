/**
 Over any directory at all: the commands that buy nothing (unauthorised, on a model without a verified price,
 with no case left, under an identity of another evaluation, or one run too many), and the ledger lines and run
 files that are somebody else's and are not read.
 */
module Refusals {
  import opened Common
  import opened Budget
  import opened Guard
  import opened Store
  import opened DerivedCeiling
  import opened Pass
  import opened Recognition
  import opened SpendGate
  import opened Listing
  import opened History
  import Ledger

  /** The command neither sent anything nor changed the directory. */
  predicate LeavesAlone(suite: Suite, disk: Disk, c: Command) {
    RunCommand(suite, disk, c).disk == disk && !RunCommand(suite, disk, c).outcome.Ran?
  }

  // ------------------------------------------------------------------ nobody said it may spend

  lemma UnauthorisedBuysNothing(suite: Suite, disk: Disk, c: Command)
    requires !c.authorised
    ensures LeavesAlone(suite, disk, c)
  {
  }

  function Authorised(commands: seq<Command>): seq<Command> {
    if commands == [] then []
    else
      var before, last := Authorised(commands[..|commands| - 1]), commands[|commands| - 1];
      if last.authorised then before + [last] else before
  }

  lemma LeftAloneIsNoStep(suite: Suite, s: State, c: Command)
    requires LeavesAlone(suite, s.disk, c)
    ensures Step(suite, s, c) == s
  {
    hide RunCommand;
  }

  /** A history is what its authorised commands alone make of the directory, and of everything that happened. */
  lemma {:induction false} OnlyTheAuthorisedCount(suite: Suite, commands: seq<Command>)
    ensures Run(suite, commands) == Run(suite, Authorised(commands))
  {
    if commands != [] {
      var n := |commands| - 1;
      OnlyTheAuthorisedCount(suite, commands[..n]);
      var before := Authorised(commands[..n]);
      hide Step;
      if commands[n].authorised {
        assert (before + [commands[n]])[..|before|] == before;
      } else {
        UnauthorisedBuysNothing(suite, Run(suite, commands[..n]).disk, commands[n]);
        LeftAloneIsNoStep(suite, Run(suite, commands[..n]), commands[n]);
      }
    }
  }

  // ------------------------------------------------------------------ nobody knows what it costs

  lemma DollarsAreCapped(cases: seq<Case>, allowed: nat, runs: seq<RecognisedRun>, id: string, typed: EvalBudget)
    ensures GenerationBudget(cases, allowed, runs, id, typed).usd.Some?
  {
    var derived := AsBudget(NovaCeiling(cases));
    var perRun, perGate := Remaining(derived, ForRun(runs, id)), Remaining(Times(derived, allowed), Total(runs));
    hide NovaCeiling, ForRun, Total;
    assert [perRun, perGate, typed][0] == perRun;
    assert Column([perRun, perGate, typed], Dollars)[0].Some?;
  }

  /** Every budget of the gate caps the dollars, so a model nobody has a verified price for is never run. */
  lemma UnpricedBuysNothing(suite: Suite, disk: Disk, c: Command)
    requires PriceFor(suite, Some(c.model)) == None
    ensures !RunCommand(suite, disk, c).outcome.Ran? && RunCommand(suite, disk, c).disk.ledger == disk.ledger
  {
    hide GenerationBudget, SpendOn, OpenFile, LinesOf, Outstanding, PutFile, EffectiveRunId;
    match SpendOn(suite, disk, c.split, c.model)
    case Err(_) =>
    case Ok(runs) =>
      match EffectiveRunId(disk, c)
      case Err(_) =>
      case Ok(id) => DollarsAreCapped(CasesOf(suite, c.split), MaxRuns(c.split), runs, id, c.typed);
  }

  /** What is left of it is a file begun for this evaluation, where there was none. */
  lemma UnpricedLeavesItsFile(suite: Suite, disk: Disk, c: Command)
    requires RunCommand(suite, disk, c).outcome.Unpriced? && LinesOf(disk.files, c.runId) == None
    ensures RunCommand(suite, disk, c).disk.files == [RunFile(c.runId, Begun(suite, c))] + disk.files
  {
    assert EffectiveRunId(disk, c) == Ok(c.runId);
    hide SpendOn, EffectiveRunId, Gated, LinesOf, PutFile, Begun;
    match SpendOn(suite, disk, c.split, c.model)
    case Err(_) =>
    case Ok(runs) =>
      UnpricedAtTheGate(suite, disk, c, runs);
      PutNewFile(disk.files, c.runId, Begun(suite, c));
  }

  function Begun(suite: Suite, c: Command): seq<Line> {
    [HeaderLine(Header(c.runId, c.now, None, IdentityOf(suite, c)))]
  }

  lemma UnpricedAtTheGate(suite: Suite, disk: Disk, c: Command, runs: seq<RecognisedRun>)
    requires LinesOf(disk.files, c.runId) == None
    ensures var passed := Gated(suite, disk, c, c.runId, runs);
            passed.outcome.Unpriced? ==> passed.disk.files == PutFile(disk.files, c.runId, Begun(suite, c))
  {
    var header := Header(c.runId, c.now, None, IdentityOf(suite, c));
    FreshFileIsBegun(header);
    hide GenerationBudget, IdentityOf, BoughtIds, PutFile, LinesOf, OpenFile, Outstanding, Generate;
  }

  lemma FreshFileIsBegun(header: Header)
    ensures OpenFile(None, header) == Ok(([HeaderLine(header)], StoredRun(header, [], [])))
  {
    assert [] + [HeaderLine(header)] == [HeaderLine(header)];
  }

  lemma {:induction false} PutNewFile(files: seq<RunFile>, name: string, lines: seq<Line>)
    requires LinesOf(files, name) == None
    ensures PutFile(files, name, lines) == [RunFile(name, lines)] + files
  {
    if files != [] {
      PutNewFile(files[..|files| - 1], name, lines);
    }
  }

  // ------------------------------------------------------------------ a run with nothing left

  /** A run with every case answered buys nothing more, and is never told its model has no price. */
  lemma FinishedBuysNothing(suite: Suite, disk: Disk, c: Command, lines: seq<Line>, run: StoredRun)
    requires LinesOf(disk.files, c.runId) == Some(lines) && ReadLines(lines) == Ok(run)
    requires Ids(CasesOf(suite, c.split)) <= Completed(run.generations)
    ensures var after := RunCommand(suite, disk, c);
            after.outcome.Declined? || after.outcome.NothingOutstanding?
    ensures RunCommand(suite, disk, c).disk.ledger == disk.ledger
  {
    AllAnsweredNoneLeft(CasesOf(suite, c.split), Completed(run.generations));
    hide GenerationBudget, SpendOn, LinesOf, Generations, Judgements, Generate, Outstanding, PutFile, Completed, Ids;
  }

  lemma {:induction false} AllAnsweredNoneLeft(cases: seq<Case>, done: set<string>)
    requires Ids(cases) <= done
    ensures Outstanding(cases, done) == []
  {
    if cases != [] {
      var n := |cases| - 1;
      assert cases[n].id in Ids(cases) && Ids(cases[..n]) <= Ids(cases);
      AllAnsweredNoneLeft(cases[..n], done);
    }
  }

  // ------------------------------------------------------------------ a run of another evaluation

  /** One of the things that make a run file's evaluation what it is differs from the command's. */
  predicate AnotherEvaluation(suite: Suite, c: Command, i: Identity) {
    || i.gitSha != c.gitSha
    || i.datasetName != suite.datasetName || i.datasetVersion != suite.datasetVersion
    || i.datasetHash != suite.datasetHash
    || i.provider != "bedrock" || i.modelId != Some(c.model) || i.mode != "live"
    || i.splits != [if c.split.Development? then "development" else "holdout"]
    || i.promptSystemHash != c.promptSystemHash || i.schemaHash != c.schemaHash
  }

  /** A run file is never continued by a command that differs from it in any part of its identity. */
  lemma AnotherEvaluationIsRefused(suite: Suite, disk: Disk, c: Command, lines: seq<Line>, run: StoredRun)
    requires LinesOf(disk.files, c.runId) == Some(lines) && ReadLines(lines) == Ok(run)
    requires AnotherEvaluation(suite, c, run.header.identity)
    ensures LeavesAlone(suite, disk, c)
  {
    hide GenerationBudget, SpendOn, LinesOf, Written, Generations, Judgements;
  }

  /** A command on a readable run file runs under the identity the file was begun with, whatever it was typed as. */
  lemma ContinuesTheFilesOwnRun(suite: Suite, disk: Disk, c: Command, lines: seq<Line>, run: StoredRun)
    requires LinesOf(disk.files, c.runId) == Some(lines) && ReadLines(lines) == Ok(run)
    ensures RunCommand(suite, disk, c).outcome.Ran? ==> RunCommand(suite, disk, c).runId == run.header.runId
  {
    hide GenerationBudget, SpendOn, LinesOf, Generations, Judgements, Generate, Outstanding, PutFile;
  }

  // ------------------------------------------------------------------ one run too many

  /** Two development runs or one holdout run bought: no other identity of that split and model may start. */
  lemma OneTooManyIsRefused(suite: Suite, disk: Disk, c: Command, runs: seq<RecognisedRun>)
    requires SpendOn(suite, disk, c.split, c.model) == Ok(runs)
    requires EffectiveRunId(disk, c).Ok? && EffectiveRunId(disk, c).value !in BoughtIds(runs)
    requires |BoughtIds(runs)| >= if c.split.Development? then 2 else 1
    ensures LeavesAlone(suite, disk, c)
  {
    hide GenerationBudget, SpendOn, LinesOf, EffectiveRunId, BoughtIds;
  }

  /** And the second development run may: an authorised, priced command with a case to ask comes to its pass. */
  lemma OneMoreMayRun(suite: Suite, disk: Disk, c: Command, runs: seq<RecognisedRun>)
    requires SpendOn(suite, disk, c.split, c.model) == Ok(runs) && CasesOf(suite, c.split) != []
    requires LinesOf(disk.files, c.runId) == None && c.authorised && PriceFor(suite, Some(c.model)).Some?
    requires |BoughtIds(runs)| < if c.split.Development? then 2 else 1
    ensures RunCommand(suite, disk, c).outcome.Ran?
  {
    NothingDoneIsLeft(CasesOf(suite, c.split));
    hide GenerationBudget, SpendOn, LinesOf, BoughtIds, Generate, PutFile;
  }

  lemma NothingDoneIsLeft(cases: seq<Case>)
    ensures cases != [] ==> Outstanding(cases, Completed([])) != []
  {
    assert Completed([]) == {};
  }

  // ------------------------------------------------------------------ two files of one run, and no cases

  /** Readable live files of this provider under one identity are conflicting evidence, in any directory. */
  lemma {:induction false} ConflictIsRefused(suite: Suite, files: seq<RunFile>, i: nat, j: nat)
    requires i < j < |files| && Read(suite, files[i]).Some? && Read(suite, files[j]).Some?
    requires Read(suite, files[i]).value.header.runId == Read(suite, files[j]).value.header.runId
    ensures RunFiles(suite, files).Err?
  {
    var n := |files| - 1;
    if j < n {
      ConflictIsRefused(suite, files[..n], i, j);
    } else {
      IsFound(suite, files[..n], i);
    }
  }

  lemma {:induction false} IsFound(suite: Suite, files: seq<RunFile>, i: nat)
    requires i < |files| && Read(suite, files[i]).Some?
    ensures RunFiles(suite, files).Ok? ==>
        Read(suite, files[i]).value.header.runId in Identities(RunFiles(suite, files).value)
  {
    hide Read;
    var n := |files| - 1;
    if i < n {
      IsFound(suite, files[..n], i);
    }
  }

  /** So is a split with no cases. */
  lemma NoCasesBuyNothing(suite: Suite, disk: Disk, c: Command)
    requires CasesOf(suite, c.split) == [] || SpendOn(suite, disk, c.split, c.model).Err?
    ensures LeavesAlone(suite, disk, c)
  {
    hide SpendOn, EffectiveRunId;
  }

  // ------------------------------------------------------------------ files of anybody else's runs

  /** The file cannot be read back, or is no live run of this provider. */
  predicate NoRunOfOurs(file: RunFile) {
    match ReadLines(file.lines)
    case Err(_) => true
    case Ok(run) => run.header.identity.mode != "live" || run.header.identity.provider != "bedrock"
  }

  /** Wherever such a file is listed, the gate reads what it would without it, in any directory. */
  lemma NoRunOfOursIsNotRead(suite: Suite, ledger: seq<Ledger.Line>, before: seq<RunFile>, file: RunFile,
      after: seq<RunFile>, split: Split, model: string)
    requires NoRunOfOurs(file)
    ensures SpendOn(suite, Disk(ledger, before + [file] + after), split, model)
         == SpendOn(suite, Disk(ledger, before + after), split, model)
  {
    NoRunOfOursIsNotFound(suite, before, file, after);
    hide RunFiles, Ledgered, Unledgered, OfSplit;
  }

  lemma {:induction false} NoRunOfOursIsNotFound(suite: Suite, before: seq<RunFile>, file: RunFile,
      after: seq<RunFile>)
    requires NoRunOfOurs(file)
    ensures RunFiles(suite, before + [file] + after) == RunFiles(suite, before + after)
  {
    var with, without := before + [file] + after, before + after;
    NoRunOfOursReadsAsNone(suite, file);
    hide Read, NoRunOfOurs;
    if after == [] {
      assert with[..|before|] == before && without == before;
    } else {
      var n := |after| - 1;
      NoRunOfOursIsNotFound(suite, before, file, after[..n]);
      assert with[..|with| - 1] == before + [file] + after[..n];
      assert without[..|without| - 1] == before + after[..n];
    }
  }

  lemma NoRunOfOursReadsAsNone(suite: Suite, file: RunFile)
    requires NoRunOfOurs(file)
    ensures Read(suite, file) == None
  {
    hide ReadLines, RecordedTotals;
  }

  // ------------------------------------------------------------------ what the ledger says without a file

  /** Some run of this identity is read, and charged this much. */
  ghost predicate ChargedTo(runs: seq<RecognisedRun>, runId: string, totals: Totals) {
    exists run :: run in runs && run.runId == runId && Recognised(run) == totals
  }

  predicate NoFileOf(found: seq<Found>, runId: string, model: string) {
    forall f :: f in found && f.header.runId == runId ==> f.header.identity.modelId != Some(model)
  }

  /**
   A ledgered identity is charged by its ledger lines alone when no file of it for this model is found, in any
   directory: to the splits those lines name, and to every split when they name none.
   */
  lemma LedgerAloneIsCharged(suite: Suite, disk: Disk, split: Split, model: string, found: seq<Found>, k: nat)
    requires RunFiles(suite, disk.files) == Ok(found)
    requires var groups := Ledger.Groups(disk.ledger, ScopeOf(model));
             k < |groups| && NoFileOf(found, groups[k].runId, model)
             && (groups[k].splits == []
                 || (if split.Development? then "development" else "holdout") in groups[k].splits)
    ensures SpendOn(suite, disk, split, model).Ok?
    ensures var group := Ledger.Groups(disk.ledger, ScopeOf(model))[k];
            ChargedTo(SpendOn(suite, disk, split, model).value, group.runId, group.totals)
  {
    var groups := Ledger.Groups(disk.ledger, ScopeOf(model));
    FileOfIsOne(found, groups[k].runId);
    hide RunFiles, Ledger.Groups, FileOf, Unledgered;
    var all := Ledgered(groups, found, model) + Unledgered(groups, found, model);
    assert all[k] == RecognisedRun(groups[k].runId, groups[k].totals, None, groups[k].splits);
    OfSplitFilters(all, NameOf(split));
    assert all[k] in OfSplit(all, NameOf(split));
  }

  lemma {:induction false} FileOfIsOne(found: seq<Found>, runId: string)
    ensures FileOf(found, runId).Some? ==>
        FileOf(found, runId).value in found && FileOf(found, runId).value.header.runId == runId
  {
    if found != [] {
      FileOfIsOne(found[..|found| - 1], runId);
    }
  }

  /** Where the lines of an identity name splits, those are the splits it is charged to, whatever its file says. */
  lemma LedgerNamesTheSplits(suite: Suite, disk: Disk, split: Split, model: string, found: seq<Found>, k: nat)
    requires RunFiles(suite, disk.files) == Ok(found)
    requires var groups := Ledger.Groups(disk.ledger, ScopeOf(model)); k < |groups| && groups[k].splits != []
    ensures SpendOn(suite, disk, split, model).Ok?
    ensures var group := Ledger.Groups(disk.ledger, ScopeOf(model))[k];
            (exists run :: run in SpendOn(suite, disk, split, model).value && run.runId == group.runId)
            <==> (if split.Development? then "development" else "holdout") in group.splits
  {
    var groups := Ledger.Groups(disk.ledger, ScopeOf(model));
    var ledgered, bare := Ledgered(groups, found, model), Unledgered(groups, found, model);
    GroupsAreDistinct(disk.ledger, ScopeOf(model));
    UnledgeredIsNoGroup(groups, found, model, groups[k]);
    hide RunFiles, Ledger.Groups, FileOf, Unledgered;
    OfSplitFilters(ledgered + bare, NameOf(split));
    assert (ledgered + bare)[k] == ledgered[k] && ledgered[k].splits == groups[k].splits;
    forall run | run in ledgered + bare && run.runId == groups[k].runId ensures run == ledgered[k] {
      assert run in ledgered;
    }
    assert ledgered[k] in ledgered + bare;
  }

  lemma GroupsAreDistinct(lines: seq<Ledger.Line>, scope: Ledger.Scope)
    ensures var groups := Ledger.Groups(lines, scope);
            forall i, j :: 0 <= i < j < |groups| ==> groups[i].runId != groups[j].runId
  {
    Ledger.FirstAppearancesAreTheRuns(lines, scope);
  }

  lemma {:induction false} UnledgeredIsNoGroup(groups: seq<Ledger.Run>, found: seq<Found>, model: string,
      group: Ledger.Run)
    requires group in groups
    ensures forall run :: run in Unledgered(groups, found, model) ==> run.runId != group.runId
  {
    if found != [] {
      UnledgeredIsNoGroup(groups, found[..|found| - 1], model, group);
    }
  }

  // ------------------------------------------------------------------ lines of anybody else's runs

  /** The ledger line is another mode's, provider's or model's, or no run's: somebody else's spend. */
  predicate SomebodyElses(line: Ledger.Line, model: string) {
    line.mode != "live" || line.provider != "bedrock" || line.modelId != Some(model)
    || line.runId == None || line.runId == Some("")
  }

  /** Wherever such a line stands, the gate reads what it would without it, in any directory. */
  lemma SomebodyElsesIsNotRead(suite: Suite, before: seq<Ledger.Line>, line: Ledger.Line, after: seq<Ledger.Line>,
      files: seq<RunFile>, split: Split, model: string)
    requires SomebodyElses(line, model)
    ensures SpendOn(suite, Disk(before + [line] + after, files), split, model)
         == SpendOn(suite, Disk(before + after, files), split, model)
  {
    Ledger.GroupsAreTheModels(before, line, after, ScopeOf(model));
    hide RunFiles, Ledgered, Unledgered, OfSplit;
  }

  /** Two passes alike but for the ledgers they began with. */
  predicate SameOnTop(a: Passed, b: Passed, under: seq<Ledger.Line>, below: seq<Ledger.Line>,
      added: seq<Ledger.Line>) {
    && a.outcome == b.outcome && a.runId == b.runId && a.disk.files == b.disk.files
    && a.disk.ledger == under + added && b.disk.ledger == below + added
  }

  lemma OpenedOnTop(suite: Suite, under: seq<Ledger.Line>, below: seq<Ledger.Line>, files: seq<RunFile>, c: Command,
      runId: string, budget: EvalBudget, lines: seq<Line>, run: StoredRun) returns (added: seq<Ledger.Line>)
    ensures SameOnTop(Opened(suite, Disk(under, files), c, runId, budget, lines, run),
                      Opened(suite, Disk(below, files), c, runId, budget, lines, run), under, below, added)
  {
    hide Generate, Outstanding, PutFile, LedgerLine;
    var passed := Opened(suite, Disk(under, files), c, runId, budget, lines, run);
    added := if passed.outcome.Ran? && LeavesLine(passed.outcome.progress)
             then [LedgerLine(run.header, c.model, passed.outcome.progress)] else [];
  }

  lemma GatedOnTop(suite: Suite, under: seq<Ledger.Line>, below: seq<Ledger.Line>, files: seq<RunFile>, c: Command,
      runId: string, runs: seq<RecognisedRun>) returns (added: seq<Ledger.Line>)
    ensures SameOnTop(Gated(suite, Disk(under, files), c, runId, runs),
                      Gated(suite, Disk(below, files), c, runId, runs), under, below, added)
  {
    hide Opened, GenerationBudget, BoughtIds, OpenFile, LinesOf;
    added := [];
    assert under + [] == under && below + [] == below;
    var budget := GenerationBudget(CasesOf(suite, c.split), MaxRuns(c.split), runs, runId, c.typed);
    match OpenFile(LinesOf(files, c.runId), Header(runId, c.now, None, IdentityOf(suite, c)))
    case Err(_) =>
    case Ok((lines, run)) =>
      if c.authorised && !(runId !in BoughtIds(runs) && |BoughtIds(runs)| >= MaxRuns(c.split)) {
        added := OpenedOnTop(suite, under, below, files, c, runId, budget, lines, run);
      }
  }

  /** So every command ends as it would, and adds the same lines and files, with that line still in its place. */
  lemma SomebodyElsesStays(suite: Suite, before: seq<Ledger.Line>, line: Ledger.Line, after: seq<Ledger.Line>,
      files: seq<RunFile>, c: Command) returns (added: seq<Ledger.Line>)
    requires SomebodyElses(line, c.model)
    ensures SameOnTop(RunCommand(suite, Disk(before + [line] + after, files), c),
                      RunCommand(suite, Disk(before + after, files), c),
                      before + [line] + after, before + after, added)
  {
    var under, below := before + [line] + after, before + after;
    SomebodyElsesIsNotRead(suite, before, line, after, files, c.split, c.model);
    SameEffective(suite, under, below, files, c);
    hide SpendOn, Gated, EffectiveRunId;
    added := [];
    assert under + [] == under && below + [] == below;
    match SpendOn(suite, Disk(below, files), c.split, c.model)
    case Err(_) =>
    case Ok(runs) =>
      match EffectiveRunId(Disk(below, files), c)
      case Err(_) =>
      case Ok(id) =>
        if CasesOf(suite, c.split) != [] {
          added := GatedOnTop(suite, under, below, files, c, id, runs);
        }
  }

  lemma SameEffective(suite: Suite, a: seq<Ledger.Line>, b: seq<Ledger.Line>, files: seq<RunFile>, c: Command)
    ensures EffectiveRunId(Disk(a, files), c) == EffectiveRunId(Disk(b, files), c)
  {
  }
}
