/**
 The run file: a header line, then one line per passage and one per verdict, only ever appended.
 The store keeps what it read and wrote in memory beside the file.
 */
module Store {
  import opened Common

  datatype Failure =
    | ProviderNotPrepared
    | ProviderFailure
    | SchemaRejection
    | GroundingRejection

  /** One generation record. `accepted`: a model's words are shown. */
  datatype Generation = Generation(
    caseId: string,
    accepted: bool,
    failure: Option<Failure>,
    detail: Option<string>,
    attempts: nat,
    inputTokens: Option<nat>,
    outputTokens: Option<nat>,
    recordedAt: Option<string>)

  datatype Judgement = Judgement(caseId: string, scored: bool, recordedAt: Option<string>)

  /** How a detail begins when no client was built, in records older than the failure kind. */
  const NOT_PREPARED_PREFIX := "the AWS SDK could not be prepared for Bedrock:"

  /** The record answers its case's question; a resume skips only these. */
  predicate Terminal(g: Generation) {
    && g.failure != Some(ProviderNotPrepared)
    && !(g.failure == Some(ProviderFailure) && g.detail.Some? && NOT_PREPARED_PREFIX <= g.detail.value)
  }

  /** Everything that must match for a file to be continued. The run id is deliberately absent. */
  datatype Identity = Identity(
    gitSha: Option<string>,
    datasetName: string,
    datasetVersion: string,
    datasetHash: string,
    provider: string,
    modelId: Option<string>,
    mode: string,
    splits: seq<string>,
    promptSystemHash: string,
    schemaHash: string)

  datatype Header = Header(runId: string, startedAt: string, region: Option<string>, identity: Identity)

  datatype Line =
    | Blank
    | HeaderLine(header: Header)
    | GenerationLine(generation: Generation)
    | JudgeLine(judgement: Judgement)
    | OtherLine

  datatype StoredRun = StoredRun(header: Header, generations: seq<Generation>, judgements: seq<Judgement>)

  datatype StoreError = NoFile | Empty | NoHeader | DifferentRun

  // ------------------------------------------------------------------ reading a file back

  function Written(lines: seq<Line>): seq<Line> {
    if lines == [] then []
    else
      var before, last := Written(lines[..|lines| - 1]), lines[|lines| - 1];
      if last.Blank? then before else before + [last]
  }

  function Generations(lines: seq<Line>): seq<Generation> {
    if lines == [] then []
    else
      var before, last := Generations(lines[..|lines| - 1]), lines[|lines| - 1];
      if last.GenerationLine? then before + [last.generation] else before
  }

  function Judgements(lines: seq<Line>): seq<Judgement> {
    if lines == [] then []
    else
      var before, last := Judgements(lines[..|lines| - 1]), lines[|lines| - 1];
      if last.JudgeLine? then before + [last.judgement] else before
  }

  function ReadLines(lines: seq<Line>): Result<StoredRun, StoreError> {
    var written := Written(lines);
    if written == [] then Err(Empty)
    else if !written[0].HeaderLine? then Err(NoHeader)
    else Ok(StoredRun(written[0].header, Generations(written[1..]), Judgements(written[1..])))
  }

  function ReadRun(file: Option<seq<Line>>): Result<StoredRun, StoreError> {
    if file == None then Err(NoFile) else ReadLines(file.value)
  }

  lemma WrittenNext(lines: seq<Line>, line: Line)
    ensures Written(lines + [line]) == if line.Blank? then Written(lines) else Written(lines) + [line]
  {
    assert (lines + [line])[..|lines|] == lines;
  }

  lemma RecordsNext(lines: seq<Line>, line: Line)
    ensures Generations(lines + [line]) == Generations(lines) + if line.GenerationLine? then [line.generation] else []
    ensures Judgements(lines + [line]) == Judgements(lines) + if line.JudgeLine? then [line.judgement] else []
  {
    assert (lines + [line])[..|lines|] == lines;
  }

  /** What one appended line does to the run read back. */
  function WithLine(run: StoredRun, line: Line): StoredRun {
    match line
    case GenerationLine(g) => run.(generations := run.generations + [g])
    case JudgeLine(j) => run.(judgements := run.judgements + [j])
    case _ => run
  }

  /** Reading after an append is reading before it, plus that line. No other record moves. */
  lemma ReadAfterAppend(lines: seq<Line>, line: Line)
    requires ReadLines(lines).Ok?
    ensures ReadLines(lines + [line]) == Ok(WithLine(ReadLines(lines).value, line))
  {
    WrittenNext(lines, line);
    var written := Written(lines);
    if !line.Blank? {
      assert (written + [line])[1..] == written[1..] + [line];
      RecordsNext(written[1..], line);
    }
  }

  /** A blank line anywhere changes nothing that is read. */
  lemma {:induction false} BlankLinesAreNothing(before: seq<Line>, after: seq<Line>)
    ensures ReadLines(before + [Blank] + after) == ReadLines(before + after)
  {
    BlankIsNotWritten(before, after);
  }

  lemma {:induction false} BlankIsNotWritten(before: seq<Line>, after: seq<Line>)
    ensures Written(before + [Blank] + after) == Written(before + after)
  {
    if after == [] {
      assert before + [Blank] + after == before + [Blank] && before + after == before;
      WrittenNext(before, Blank);
    } else {
      var n := |after| - 1;
      BlankIsNotWritten(before, after[..n]);
      WrittenNext(before + [Blank] + after[..n], after[n]);
      WrittenNext(before + after[..n], after[n]);
      assert before + [Blank] + after == before + [Blank] + after[..n] + [after[n]];
      assert before + after == before + after[..n] + [after[n]];
    }
  }

  /** Nor does a second header or a line of no known kind, once the file has its header. */
  lemma {:induction false} OnlyRecordsAreRead(before: seq<Line>, line: Line, after: seq<Line>)
    requires ReadLines(before).Ok? && (line.HeaderLine? || line.OtherLine?)
    ensures ReadLines(before + after).Ok? && ReadLines(before + [line] + after) == ReadLines(before + after)
  {
    if after == [] {
      assert before + [line] + after == before + [line] && before + after == before;
      ReadAfterAppend(before, line);
    } else {
      var n := |after| - 1;
      OnlyRecordsAreRead(before, line, after[..n]);
      ReadAfterAppend(before + [line] + after[..n], after[n]);
      ReadAfterAppend(before + after[..n], after[n]);
      assert before + [line] + after == before + [line] + after[..n] + [after[n]];
      assert before + after == before + after[..n] + [after[n]];
    }
  }

  lemma ReadFreshFile(lines: seq<Line>, header: Header)
    requires Written(lines) == []
    ensures ReadLines(lines + [HeaderLine(header)]) == Ok(StoredRun(header, [], []))
  {
    WrittenNext(lines, HeaderLine(header));
  }

  // ------------------------------------------------------------------ the store

  function Completed(generations: seq<Generation>): set<string> {
    set g | g in generations && Terminal(g) :: g.caseId
  }

  function StillOutstanding(generations: seq<Generation>): set<string> {
    set g | g in generations && !Terminal(g) && g.caseId !in Completed(generations) :: g.caseId
  }

  /** Cases already answered and cases still outstanding never overlap, and cover every record. */
  lemma CompletedOrOutstanding(generations: seq<Generation>)
    ensures Completed(generations) !! StillOutstanding(generations)
    ensures forall g :: g in generations ==>
        g.caseId in Completed(generations) || g.caseId in StillOutstanding(generations)
  {
  }

  function OpenFile(file: Option<seq<Line>>, header: Header): Result<(seq<Line>, StoredRun), StoreError> {
    var lines := if file == None then [] else file.value;
    if Written(lines) == [] then Ok((lines + [HeaderLine(header)], StoredRun(header, [], [])))
    else
      match ReadLines(lines)
      case Err(e) => Err(e)
      case Ok(run) => if run.header.identity != header.identity then Err(DifferentRun) else Ok((lines, run))
  }

  function Stamped(g: Generation, now: string): Generation {
    if g.recordedAt.Some? then g else g.(recordedAt := Some(now))
  }

  function StampedJudgement(j: Judgement, now: string): Judgement {
    if j.recordedAt.Some? then j else j.(recordedAt := Some(now))
  }

  class ExplanationResultStore {
    /** What the file at the store's path holds. */
    var file: seq<Line>
    var header: Header
    var generations: seq<Generation>
    var judgements: seq<Judgement>

    function Memory(): StoredRun
      reads this
    {
      StoredRun(header, generations, judgements)
    }

    /** The store's memory is what reading its file back would give. */
    predicate Valid()
      reads this
    {
      ReadLines(file) == Ok(Memory())
    }

    constructor (file: seq<Line>, run: StoredRun)
      ensures this.file == file && Memory() == run
    {
      this.file := file;
      header, generations, judgements := run.header, run.generations, run.judgements;
    }

    /** Start a file, or continue one this header's run may continue. A refusal writes nothing. */
    static method Open(file: Option<seq<Line>>, header: Header) returns (r: Result<ExplanationResultStore, StoreError>)
      ensures match OpenFile(file, header)
              case Err(e) => r == Err(e)
              case Ok((lines, run)) => r.Ok? && fresh(r.value) && r.value.Valid()
                                       && r.value.file == lines && r.value.Memory() == run
    {
      var lines := if file == None then [] else file.value;
      if Written(lines) == [] {
        ReadFreshFile(lines, header);
        var started := new ExplanationResultStore(lines + [HeaderLine(header)], StoredRun(header, [], []));
        return Ok(started);
      }
      var stored := ReadRun(file);
      if stored.Err? {
        return Err(stored.error);
      }
      if stored.value.header.identity != header.identity {
        return Err(DifferentRun);
      }
      var continued := new ExplanationResultStore(lines, stored.value);
      return Ok(continued);
    }

    method Append(line: Line)
      modifies this`file
      ensures file == old(file) + [line]
    {
      file := file + [line];
    }

    method RecordGeneration(result: Generation, now: string) returns (stamped: Generation)
      requires Valid()
      modifies this
      ensures Valid()
      ensures stamped == Stamped(result, now)
      ensures file == old(file) + [GenerationLine(stamped)]
      ensures Memory() == WithLine(old(Memory()), GenerationLine(stamped))
    {
      stamped := if result.recordedAt.Some? then result else result.(recordedAt := Some(now));
      ReadAfterAppend(file, GenerationLine(stamped));
      Append(GenerationLine(stamped));
      generations := generations + [stamped];
    }

    method RecordJudgement(result: Judgement, now: string) returns (stamped: Judgement)
      requires Valid()
      modifies this
      ensures Valid()
      ensures stamped == StampedJudgement(result, now)
      ensures file == old(file) + [JudgeLine(stamped)]
      ensures Memory() == WithLine(old(Memory()), JudgeLine(stamped))
    {
      stamped := if result.recordedAt.Some? then result else result.(recordedAt := Some(now));
      ReadAfterAppend(file, JudgeLine(stamped));
      Append(JudgeLine(stamped));
      judgements := judgements + [stamped];
    }
  }

  // ------------------------------------------------------------------ every history of one file

  datatype Use = Generated(generation: Generation, now: string) | Judged(judgement: Judgement, now: string)
      | Reopened(header: Header)

  /** The file, and what the open store holds; `None` while no store is open. */
  datatype Session = Session(file: Option<seq<Line>>, memory: Option<StoredRun>)

  function Apply(s: Session, use: Use): Session {
    match use
    case Reopened(header) =>
      (match OpenFile(s.file, header)
       case Err(_) => Session(s.file, None)
       case Ok((lines, run)) => Session(Some(lines), Some(run)))
    case Generated(g, now) => Put(s, GenerationLine(Stamped(g, now)))
    case Judged(j, now) => Put(s, JudgeLine(StampedJudgement(j, now)))
  }

  /** A record goes to the file and to memory; with no store open there is nothing to record with. */
  function Put(s: Session, line: Line): Session {
    if s.memory == None || s.file == None then s
    else Session(Some(s.file.value + [line]), Some(WithLine(s.memory.value, line)))
  }

  function ApplyAll(uses: seq<Use>): Session {
    if uses == [] then Session(None, None)
    else Apply(ApplyAll(uses[..|uses| - 1]), uses[|uses| - 1])
  }

  /** Memory is the file read back, and a file once there reads back. */
  predicate Replays(s: Session) {
    && (s.memory.Some? ==> ReadRun(s.file) == Ok(s.memory.value))
    && (s.file.Some? ==> ReadRun(s.file).Ok?)
  }

  /** Whatever passes share a file, in whatever order, memory is always the file read back. */
  lemma {:induction false} MemoryIsReplay(uses: seq<Use>)
    ensures Replays(ApplyAll(uses))
  {
    if uses != [] {
      MemoryIsReplay(uses[..|uses| - 1]);
      StepKeepsReplay(ApplyAll(uses[..|uses| - 1]), uses[|uses| - 1]);
    }
  }

  lemma StepKeepsReplay(s: Session, use: Use)
    requires Replays(s)
    ensures Replays(Apply(s, use))
    ensures s.file.Some? ==> Apply(s, use).file.Some? && s.file.value <= Apply(s, use).file.value
    ensures s.file.Some? ==> ReadRun(Apply(s, use).file).value.header == ReadRun(s.file).value.header
  {
    match use {
      case Reopened(header) =>
        var lines := if s.file == None then [] else s.file.value;
        if Written(lines) == [] {
          ReadFreshFile(lines, header);
        }
      case Generated(g, now) =>
        if s.memory.Some? && s.file.Some? { ReadAfterAppend(s.file.value, GenerationLine(Stamped(g, now))); }
      case Judged(j, now) =>
        if s.memory.Some? && s.file.Some? { ReadAfterAppend(s.file.value, JudgeLine(StampedJudgement(j, now))); }
    }
  }

  /** The later file begins with the whole of the earlier one and reads back under the same header. */
  predicate Grew(earlier: Session, later: Session) {
    && earlier.file.Some? && later.file.Some?
    && earlier.file.value <= later.file.value
    && ReadRun(earlier.file).Ok? && ReadRun(later.file).Ok?
    && ReadRun(later.file).value.header == ReadRun(earlier.file).value.header
  }

  /** Once started, a file keeps its first header and every line it held; nothing is rewritten. */
  lemma {:induction false} FirstHeaderPersists(uses: seq<Use>, k: nat)
    requires k <= |uses| && ApplyAll(uses[..k]).file.Some?
    ensures Grew(ApplyAll(uses[..k]), ApplyAll(uses))
    decreases |uses|
  {
    MemoryIsReplay(uses[..k]);
    if k < |uses| {
      var n := |uses| - 1;
      assert uses[..n][..k] == uses[..k];
      FirstHeaderPersists(uses[..n], k);
      MemoryIsReplay(uses[..n]);
      hide Apply, ReadRun;
      StepKeepsReplay(ApplyAll(uses[..n]), uses[n]);
    } else {
      assert uses[..k] == uses;
    }
  }

  /** What a use gives an open store to record: its own time if it has one, and otherwise the time of the use. */
  function Recorded(use: Use): Option<Line> {
    match use
    case Generated(g, now) =>
      var at := match g.recordedAt case Some(at) => at case None => now;
      Some(GenerationLine(g.(recordedAt := Some(at))))
    case Judged(j, now) =>
      var at := match j.recordedAt case Some(at) => at case None => now;
      Some(JudgeLine(j.(recordedAt := Some(at))))
    case Reopened(_) => None
  }

  /** Everything given to an open store is on file for good, under a time, and nothing else ever is. */
  lemma WhatIsRecordedStays(uses: seq<Use>, k: nat)
    requires k < |uses| && ApplyAll(uses[..k]).memory.Some? && Recorded(uses[k]).Some?
    ensures ApplyAll(uses[..k]).file.Some? && ApplyAll(uses).file.Some?
    ensures ApplyAll(uses[..k]).file.value + [Recorded(uses[k]).value] <= ApplyAll(uses).file.value
  {
    var s := ApplyAll(uses[..k]);
    MemoryIsReplay(uses[..k]);
    assert s.file.Some?;
    hide ReadRun;
    AppliedOnce(uses, k);
    RecordedIsAppended(s, uses[k]);
    hide Apply, Recorded, ApplyAll, Replays;
    FirstHeaderPersists(uses, k + 1);
  }

  lemma AppliedOnce(uses: seq<Use>, k: nat)
    requires k < |uses|
    ensures ApplyAll(uses[..k + 1]) == Apply(ApplyAll(uses[..k]), uses[k])
  {
    assert uses[..k + 1][..k] == uses[..k];
    hide Apply;
  }

  lemma RecordedIsAppended(s: Session, use: Use)
    requires s.memory.Some? && s.file.Some? && Recorded(use).Some?
    ensures Apply(s, use).file == Some(s.file.value + [Recorded(use).value])
  {
    hide OpenFile, WithLine;
  }

  /** A reopen is refused exactly when the file's identity differs, and then leaves the file alone. */
  lemma ReopenRefusedIffIdentityDiffers(s: Session, header: Header)
    requires Replays(s) && s.file.Some?
    ensures var after := Apply(s, Reopened(header));
            && after.file == s.file
            && (after.memory == None <==> ReadRun(s.file).value.header.identity != header.identity)
            && (after.memory.Some? ==> after.memory.value.header.runId == ReadRun(s.file).value.header.runId)
  {
  }
}
