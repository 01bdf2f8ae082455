/**
 The gate in front of paid generation: what the records on disk say was bought, the pass they
 allow, and what that pass leaves on disk.
 */
module SpendGate {
  import opened Common
  import opened Budget
  import opened Store
  import opened DerivedCeiling
  import opened Pass
  import opened Recognition
  import Ledger

  const LIVE := "live"
  const BEDROCK := "bedrock"

  function NameOf(split: Split): string {
    match split
    case Development => "development"
    case Holdout => "holdout"
  }

  /** How many run identities a split may ever buy. */
  function MaxRuns(split: Split): nat {
    match split
    case Development => 2
    case Holdout => 1
  }

  /** The frozen dataset, and the verified prices of the provider's models. */
  datatype Suite = Suite(
    development: seq<Case>, holdout: seq<Case>,
    datasetName: string, datasetVersion: string, datasetHash: string,
    prices: map<string, Price>)

  function CasesOf(suite: Suite, split: Split): seq<Case> {
    match split
    case Development => suite.development
    case Holdout => suite.holdout
  }

  predicate ValidSuite(suite: Suite) {
    DistinctIds(suite.development) && DistinctIds(suite.holdout)
  }

  function PriceFor(suite: Suite, modelId: Option<string>): Option<Price> {
    if modelId.Some? && modelId.value in suite.prices then Some(suite.prices[modelId.value]) else None
  }

  datatype RunFile = RunFile(name: string, lines: seq<Line>)

  /** The results directory: the cost ledger and the run files, in listing order. */
  datatype Disk = Disk(ledger: seq<Ledger.Line>, files: seq<RunFile>)

  /**
   One command: continue or start `runId` on a split, under a code revision, with typed caps. What the
   command met is in it too: whether its spend was authorised, what happened at each case, and whether
   the process died after its last case and before its ledger line.
   */
  datatype Command = Command(
    split: Split, model: string, runId: string,
    gitSha: Option<string>, promptSystemHash: string, schemaHash: string,
    now: string, typed: EvalBudget, authorised: bool, events: map<string, Event>, died: bool)

  function IdentityOf(suite: Suite, c: Command): Identity {
    Identity(c.gitSha, suite.datasetName, suite.datasetVersion, suite.datasetHash,
             BEDROCK, Some(c.model), LIVE, [NameOf(c.split)], c.promptSystemHash, c.schemaHash)
  }

  // ------------------------------------------------------------------ reading what was spent

  datatype GateError = NoCases | TwoFilesOneRun(runId: string) | TooManyRuns | Unauthorised
      | Unreadable(error: StoreError)

  datatype Found = Found(header: Header, recorded: Totals)

  function Identities(found: seq<Found>): set<string> {
    set f | f in found :: f.header.runId
  }

  /** The run file's header and what it recorded, or `None` for a file that is not a live run of the provider. */
  function Read(suite: Suite, file: RunFile): Option<Found> {
    match ReadLines(file.lines)
    case Err(_) => None
    case Ok(run) =>
      if run.header.identity.mode != LIVE || run.header.identity.provider != BEDROCK then None
      else Some(Found(run.header, RecordedTotals(run.generations, PriceFor(suite, run.header.identity.modelId))))
  }

  function RunFiles(suite: Suite, files: seq<RunFile>): Result<seq<Found>, GateError> {
    if files == [] then Ok([])
    else
      match RunFiles(suite, files[..|files| - 1])
      case Err(e) => Err(e)
      case Ok(before) =>
        (match Read(suite, files[|files| - 1])
         case None => Ok(before)
         case Some(f) =>
           if f.header.runId in Identities(before) then Err(TwoFilesOneRun(f.header.runId)) else Ok(before + [f]))
  }

  function FileOf(found: seq<Found>, runId: string): Option<Found> {
    if found == [] then None
    else if found[|found| - 1].header.runId == runId then Some(found[|found| - 1])
    else FileOf(found[..|found| - 1], runId)
  }

  /** One ledgered identity beside its run file, unless that file is another model's evidence. */
  function FromLedger(group: Ledger.Run, found: seq<Found>, model: string): RecognisedRun {
    var file := FileOf(found, group.runId);
    if file.Some? && file.value.header.identity.modelId == Some(model) then
      RecognisedRun(group.runId, group.totals, Some(file.value.recorded),
                    if group.splits != [] then group.splits else file.value.header.identity.splits)
    else RecognisedRun(group.runId, group.totals, None, group.splits)
  }

  function Ledgered(groups: seq<Ledger.Run>, found: seq<Found>, model: string): seq<RecognisedRun> {
    seq(|groups|, i requires 0 <= i < |groups| => FromLedger(groups[i], found, model))
  }

  /** Run files of the model with no ledger line at all: still a spend. */
  function Unledgered(groups: seq<Ledger.Run>, found: seq<Found>, model: string): seq<RecognisedRun> {
    if found == [] then []
    else
      var before, f := Unledgered(groups, found[..|found| - 1], model), found[|found| - 1];
      if f.header.identity.modelId != Some(model) || (exists g :: g in groups && g.runId == f.header.runId) then before
      else before + [RecognisedRun(f.header.runId, NOTHING, Some(f.recorded), f.header.identity.splits)]
  }

  /** Runs of this split, and runs nobody named a split for. */
  function OfSplit(runs: seq<RecognisedRun>, split: string): seq<RecognisedRun> {
    if runs == [] then []
    else
      var before, run := OfSplit(runs[..|runs| - 1], split), runs[|runs| - 1];
      if run.splits == [] || split in run.splits then before + [run] else before
  }

  function ScopeOf(model: string): Ledger.Scope {
    Ledger.Scope(LIVE, Some(BEDROCK), Some(model))
  }

  function SpendOn(suite: Suite, disk: Disk, split: Split, model: string): Result<seq<RecognisedRun>, GateError> {
    match RunFiles(suite, disk.files)
    case Err(e) => Err(e)
    case Ok(found) =>
      var groups := Ledger.Groups(disk.ledger, ScopeOf(model));
      Ok(OfSplit(Ledgered(groups, found, model) + Unledgered(groups, found, model), NameOf(split)))
  }

  // ------------------------------------------------------------------ one command

  function LinesOf(files: seq<RunFile>, name: string): Option<seq<Line>> {
    if files == [] then None
    else if files[|files| - 1].name == name then Some(files[|files| - 1].lines)
    else LinesOf(files[..|files| - 1], name)
  }

  function PutFile(files: seq<RunFile>, name: string, lines: seq<Line>): seq<RunFile> {
    if files == [] then [RunFile(name, lines)]
    else if files[|files| - 1].name == name then files[..|files| - 1] + [RunFile(name, lines)]
    else PutFile(files[..|files| - 1], name, lines) + [files[|files| - 1]]
  }

  /** The file's own identity when continuing one, else the typed one. */
  function EffectiveRunId(disk: Disk, c: Command): Result<string, GateError> {
    match LinesOf(disk.files, c.runId)
    case None => Ok(c.runId)
    case Some(lines) =>
      if Written(lines) == [] then Ok(c.runId)
      else
        match ReadLines(lines)
        case Err(e) => Err(Unreadable(e))
        case Ok(run) => Ok(run.header.runId)
  }

  function AsLines(gs: seq<Generation>): seq<Line> {
    seq(|gs|, i requires 0 <= i < |gs| => GenerationLine(gs[i]))
  }

  function LedgerLine(header: Header, model: string, p: Progress): Ledger.Line {
    Ledger.Line(Some(header.runId), header.identity.mode, header.identity.provider, Some(model),
                Some(p.spend.calls), Some(p.spend.attempts),
                if p.spend.tokensReported then Some(p.spend.inputTokens) else None,
                if p.spend.tokensReported then Some(p.spend.outputTokens) else None,
                p.spend.usd, header.identity.splits)
  }

  datatype Outcome =
    | Declined(error: GateError)
    | NothingOutstanding
    | Unpriced
    | Ran(progress: Progress)

  /** Disk after, how it ended, and under which identity. */
  datatype Passed = Passed(disk: Disk, outcome: Outcome, runId: string)

  function Opened(suite: Suite, disk: Disk, c: Command, runId: string, budget: EvalBudget, lines: seq<Line>,
      run: StoredRun): Passed {
    var cases := CasesOf(suite, c.split);
    var outstanding := Outstanding(cases, Completed(run.generations));
    var begun := disk.(files := PutFile(disk.files, c.runId, lines));
    if outstanding == [] then Passed(begun, NothingOutstanding, runId)
    else if PriceFor(suite, Some(c.model)) == None && budget.usd.Some? then Passed(begun, Unpriced, runId)
    else
      var p := Ended(Generate(budget, PriceFor(suite, Some(c.model)), outstanding, c.events, c.now), c.died);
      Passed(Disk(if LeavesLine(p) then disk.ledger + [LedgerLine(run.header, c.model, p)] else disk.ledger,
                  PutFile(disk.files, c.runId, lines + AsLines(p.written))),
             Ran(p), runId)
  }

  /** Once the spend is read: the identity gate, the budget, and the run's own file. */
  function Gated(suite: Suite, disk: Disk, c: Command, runId: string, runs: seq<RecognisedRun>): Passed {
    if runId !in BoughtIds(runs) && |BoughtIds(runs)| >= MaxRuns(c.split) then
      Passed(disk, Declined(TooManyRuns), runId)
    else if !c.authorised then Passed(disk, Declined(Unauthorised), runId)
    else
      var budget := GenerationBudget(CasesOf(suite, c.split), MaxRuns(c.split), runs, runId, c.typed);
      match OpenFile(LinesOf(disk.files, c.runId), Header(runId, c.now, None, IdentityOf(suite, c)))
      case Err(e) => Passed(disk, Declined(Unreadable(e)), runId)
      case Ok((lines, run)) => Opened(suite, disk, c, runId, budget, lines, run)
  }

  function RunCommand(suite: Suite, disk: Disk, c: Command): Passed {
    var cases := CasesOf(suite, c.split);
    if cases == [] then Passed(disk, Declined(NoCases), c.runId)
    else
      match EffectiveRunId(disk, c)
      case Err(e) => Passed(disk, Declined(e), c.runId)
      case Ok(runId) =>
        (match SpendOn(suite, disk, c.split, c.model)
         case Err(e) => Passed(disk, Declined(e), runId)
         case Ok(runs) => Gated(suite, disk, c, runId, runs))
  }
}
