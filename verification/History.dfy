/**
 Every history of generation commands on one results directory: fresh runs, resumed runs, passes
 a ceiling stopped, interrupted passes, killed processes, and providers that were never built.
 */
module History {
  import opened Common
  import opened Budget
  import opened Store
  import opened Pass
  import opened Recognition
  import opened SpendGate
  import opened Listing
  import Ledger

  /** The directory, and what truly happened under each run identity. */
  datatype State = State(disk: Disk, tallies: map<string, Tally>)

  const EMPTY := State(Disk([], []), map[])

  function TallyOf(s: State, runId: string): Tally {
    if runId in s.tallies then s.tallies[runId] else NO_TALLY
  }

  function Step(suite: Suite, s: State, c: Command): State {
    var passed := RunCommand(suite, s.disk, c);
    State(passed.disk,
          if passed.outcome.Ran?
          then s.tallies[passed.runId := AddTally(TallyOf(s, passed.runId), WithLost(passed.outcome.progress))]
          else s.tallies)
  }

  function Run(suite: Suite, commands: seq<Command>): State {
    if commands == [] then EMPTY
    else Step(suite, Run(suite, commands[..|commands| - 1]), commands[|commands| - 1])
  }

  // ------------------------------------------------------------------ one file's account

  function SplitOf(f: RunFile): Split
    requires Live(f)
  {
    if RunOf(f).header.identity.splits == [NameOf(Development)] then Development else Holdout
  }

  function ModelOf(f: RunFile): string
    requires Live(f)
  {
    RunOf(f).header.identity.modelId.value
  }

  function AccountOf(s: State, f: RunFile): Account
    requires Live(f)
  {
    Account(LedgeredTotals(s.disk.ledger, f), RunOf(f).generations, TallyOf(s, f.name))
  }

  lemma SplitNamesDiffer()
    ensures NameOf(Development) != NameOf(Holdout)
  {
    assert |NameOf(Development)| != |NameOf(Holdout)|;
  }

  lemma OverMeansItsSplit(f: RunFile, split: Split, model: string)
    requires Over(f, split, model)
    ensures SplitOf(f) == split && ModelOf(f) == model
  {
    SplitNamesDiffer();
    assert [NameOf(Development)][0] == NameOf(Development) && [NameOf(Holdout)][0] == NameOf(Holdout);
  }

  lemma ViewCalls(suite: Suite, s: State, f: RunFile)
    requires Live(f)
    ensures Recognised(View(suite, s.disk.ledger, f)).calls == RecognisedCalls(AccountOf(s, f))
  {
  }

  function SpentOn(suite: Suite, s: State, split: Split, model: string): seq<RecognisedRun>
    requires SpendOn(suite, s.disk, split, model).Ok?
  {
    SpendOn(suite, s.disk, split, model).value
  }

  /** What every reachable directory satisfies. */
  ghost predicate Invariant(suite: Suite, s: State) {
    && Tidy(s.disk)
    && (forall f :: f in s.disk.files ==> Live(f) && Sound(CasesOf(suite, SplitOf(f)), AccountOf(s, f)))
    && (forall id :: id in s.tallies ==> LinesOf(s.disk.files, id).Some?)
    && GateHolds(suite, s.disk)
  }

  /** No split has bought more run identities than it may, with any model. */
  ghost predicate GateHolds(suite: Suite, disk: Disk) {
    forall split, model :: SpendOn(suite, disk, split, model).Ok?
      && |BoughtIds(SpendOn(suite, disk, split, model).value)| <= MaxRuns(split)
  }

  // ------------------------------------------------------------------ looking up and replacing one file

  lemma {:induction false} LookUp(files: seq<RunFile>, name: string)
    requires DistinctNames(files)
    ensures LinesOf(files, name).Some? <==> exists f :: f in files && f.name == name
    ensures forall f :: f in files && f.name == name ==> LinesOf(files, name) == Some(f.lines)
  {
    if files != [] {
      var n := |files| - 1;
      assert forall f :: f in files <==> f in files[..n] || f == files[n];
      LookUp(files[..n], name);
      assert forall f :: f in files[..n] ==> f.name != files[n].name;
      assert files[n] in files;
    }
  }

  lemma {:induction false} ReplaceFile(files: seq<RunFile>, name: string, lines: seq<Line>)
    requires DistinctNames(files)
    ensures DistinctNames(PutFile(files, name, lines))
    ensures forall f :: f in PutFile(files, name, lines) <==>
        f == RunFile(name, lines) || (f in files && f.name != name)
  {
    if files != [] {
      var n := |files| - 1;
      assert forall f :: f in files <==> f in files[..n] || f == files[n];
      assert forall f :: f in files[..n] ==> f.name != files[n].name;
      if files[n].name != name {
        ReplaceFile(files[..n], name, lines);
        var before := PutFile(files[..n], name, lines);
        forall i | 0 <= i < |before| ensures before[i].name != files[n].name {
          assert before[i] in before;
        }
      }
    }
  }

  lemma {:induction false} ReadAfterAll(lines: seq<Line>, ws: seq<Generation>)
    requires ReadLines(lines).Ok?
    ensures ReadLines(lines + AsLines(ws))
        == Ok(ReadLines(lines).value.(generations := ReadLines(lines).value.generations + ws))
  {
    if ws == [] {
      assert lines + AsLines(ws) == lines;
      assert ReadLines(lines).value.generations + ws == ReadLines(lines).value.generations;
    } else {
      var n := |ws| - 1;
      ReadAfterAll(lines, ws[..n]);
      assert lines + AsLines(ws) == (lines + AsLines(ws[..n])) + [GenerationLine(ws[n])];
      ReadAfterAppend(lines + AsLines(ws[..n]), GenerationLine(ws[n]));
      var gs := ReadLines(lines).value.generations;
      assert gs + ws[..n] + [ws[n]] == gs + ws;
    }
  }

  // ------------------------------------------------------------------ what one command may change

  /** The directory after a command touched one run: its file, and at most one line of its own. */
  ghost predicate Touches(before: Disk, after: Disk, f: RunFile) {
    && Live(f)
    && (forall g :: g in after.files <==> g == f || (g in before.files && g.name != f.name))
    && DistinctNames(after.files)
    && (forall g :: g in before.files && g.name == f.name ==> Live(g) && RunOf(g).header == RunOf(f).header)
    && (after.ledger == before.ledger
        || (|after.ledger| == |before.ledger| + 1 && after.ledger[..|before.ledger|] == before.ledger
            && LineFor(after.ledger[|before.ledger|], f)))
  }

  lemma TouchedStaysTidy(before: Disk, after: Disk, f: RunFile)
    requires Tidy(before) && Touches(before, after, f)
    ensures Tidy(after)
  {
    forall k | 0 <= k < |after.ledger| ensures exists g :: g in after.files && LineFor(after.ledger[k], g) {
      if k == |before.ledger| {
        assert f in after.files && LineFor(after.ledger[k], f);
      } else {
        assert after.ledger[k] == before.ledger[k];
        var g :| g in before.files && LineFor(before.ledger[k], g);
        if g.name == f.name {
          assert f in after.files && LineFor(after.ledger[k], f);
        } else {
          assert g in after.files && LineFor(after.ledger[k], g);
        }
      }
    }
  }

  lemma OtherTotalsStay(before: Disk, after: Disk, f: RunFile, g: RunFile)
    requires Touches(before, after, f) && Live(g) && g.name != f.name
    ensures LedgeredTotals(after.ledger, g) == LedgeredTotals(before.ledger, g)
  {
    if after.ledger != before.ledger {
      var n := |before.ledger|;
      assert after.ledger[..n] == before.ledger && after.ledger[..n + 1] == after.ledger;
      Ledger.GroupNext(after.ledger, n, ScopeOf(ModelOf(g)), g.name);
    }
  }

  lemma OwnTotalsGrow(before: Disk, after: Disk, f: RunFile)
    requires Touches(before, after, f)
    ensures LedgeredTotals(after.ledger, f) ==
      if after.ledger == before.ledger then LedgeredTotals(before.ledger, f)
      else AddTotals(LedgeredTotals(before.ledger, f), Ledger.LineTotals(after.ledger[|before.ledger|]))
  {
    if after.ledger != before.ledger {
      var n := |before.ledger|;
      assert after.ledger[..n] == before.ledger && after.ledger[..n + 1] == after.ledger;
      Ledger.GroupNext(after.ledger, n, ScopeOf(ModelOf(f)), f.name);
    }
  }

  /** A command can make only its own run bought, and only on its own split and model. */
  lemma BoughtGrowsByOne(suite: Suite, before: Disk, after: Disk, f: RunFile, split: Split, model: string)
    requires Tidy(before) && Tidy(after) && Touches(before, after, f)
    requires SpendOn(suite, before, split, model).Ok? && SpendOn(suite, after, split, model).Ok?
    ensures BoughtIds(SpendOn(suite, after, split, model).value)
         <= BoughtIds(SpendOn(suite, before, split, model).value) + {f.name}
    ensures !Over(f, split, model) ==>
      BoughtIds(SpendOn(suite, after, split, model).value) <= BoughtIds(SpendOn(suite, before, split, model).value)
  {
    SpendOnLists(suite, before, split, model);
    SpendOnLists(suite, after, split, model);
    var earlier, later := SpendOn(suite, before, split, model).value, SpendOn(suite, after, split, model).value;
    forall run | run in later && Bought(run)
      ensures run.runId in BoughtIds(earlier) || (run.runId == f.name && Over(f, split, model))
    {
      assert IsViewOver(suite, after, split, model, run);
      var g :| g in after.files && Over(g, split, model) && run == View(suite, after.ledger, g);
      if g != f {
        OtherTotalsStay(before, after, f, g);
        assert View(suite, before.ledger, g) in earlier;
      }
    }
  }

  lemma BoughtStaysAllowed(suite: Suite, before: Disk, after: Disk, f: RunFile, split: Split, model: string)
    requires Tidy(before) && Tidy(after) && Touches(before, after, f)
    requires SpendOn(suite, before, split, model).Ok? && SpendOn(suite, after, split, model).Ok?
    requires |BoughtIds(SpendOn(suite, before, split, model).value)| <= MaxRuns(split)
    requires Over(f, split, model) ==> MayRun(SpendOn(suite, before, split, model).value, f.name, MaxRuns(split))
    ensures |BoughtIds(SpendOn(suite, after, split, model).value)| <= MaxRuns(split)
  {
    BoughtGrowsByOne(suite, before, after, f, split, model);
    var earlier, later := BoughtIds(SpendOn(suite, before, split, model).value),
        BoughtIds(SpendOn(suite, after, split, model).value);
    if f.name in earlier || !Over(f, split, model) {
      assert earlier + {f.name} == earlier || !Over(f, split, model);
      Subset(later, earlier);
    } else {
      Subset(later, earlier + {f.name});
    }
  }

  lemma Subset(a: set<string>, b: set<string>)
    requires a <= b
    ensures |a| <= |b|
  {
    assert b == a + (b - a);
  }

  // ------------------------------------------------------------------ one command keeps the invariant

  lemma NoFileNoLines(disk: Disk, name: string, scope: Ledger.Scope)
    requires Tidy(disk) && LinesOf(disk.files, name) == None
    ensures Ledger.RunTotals(disk.ledger, scope, name) == NOTHING
  {
    LookUp(disk.files, name);
    forall k | 0 <= k < |disk.ledger| ensures !Ledger.OfRun(disk.ledger[k], scope, name) {
      var line := disk.ledger[k];
      assert exists f :: f in disk.files && LineFor(line, f);
    }
    Ledger.AbsentRunHasNothing(disk.ledger, scope, name);
  }

  lemma EffectiveIsTyped(disk: Disk, c: Command)
    requires Tidy(disk)
    ensures EffectiveRunId(disk, c) == Ok(c.runId)
  {
    LookUp(disk.files, c.runId);
  }

  /** The store opened for the command: this run's own file, or a fresh one. */
  ghost predicate OpenedFor(suite: Suite, disk: Disk, c: Command, lines: seq<Line>, run: StoredRun) {
    && ReadLines(lines) == Ok(run)
    && run.header.runId == c.runId
    && run.header.identity == IdentityOf(suite, c)
    && (LinesOf(disk.files, c.runId) == Some(lines) || (LinesOf(disk.files, c.runId) == None && run.generations == []))
  }

  lemma OpeningTidyFile(suite: Suite, disk: Disk, c: Command, h: Header)
    requires Tidy(disk) && h == Header(c.runId, c.now, None, IdentityOf(suite, c))
    ensures match OpenFile(LinesOf(disk.files, c.runId), h)
            case Err(_) => true
            case Ok((lines, run)) => OpenedFor(suite, disk, c, lines, run)
  {
    LookUp(disk.files, c.runId);
    if LinesOf(disk.files, c.runId) == None {
      ReadFreshFile([], h);
    }
  }

  /** The run's file once the pass has written these records. */
  function FileAfter(c: Command, lines: seq<Line>, p: Progress): RunFile {
    RunFile(c.runId, lines + AsLines(p.written))
  }

  lemma FileAfterIsOver(suite: Suite, disk: Disk, c: Command, lines: seq<Line>, run: StoredRun, p: Progress)
    requires c.runId != "" && OpenedFor(suite, disk, c, lines, run)
    ensures Over(FileAfter(c, lines, p), c.split, c.model)
    ensures RunOf(FileAfter(c, lines, p)) == run.(generations := run.generations + p.written)
  {
    ReadAfterAll(lines, p.written);
    assert IdentityOf(suite, c).splits == [NameOf(c.split)];
    match c.split { case Development => case Holdout => }
  }

  /** The run's account as the command finds it. */
  function AccountBefore(s: State, c: Command, run: StoredRun): Account {
    Account(Ledger.RunTotals(s.disk.ledger, ScopeOf(c.model), c.runId), run.generations, TallyOf(s, c.runId))
  }

  lemma ExistingFile(suite: Suite, disk: Disk, c: Command, lines: seq<Line>, run: StoredRun) returns (f: RunFile)
    requires Tidy(disk) && OpenedFor(suite, disk, c, lines, run) && LinesOf(disk.files, c.runId).Some?
    ensures f in disk.files && f.name == c.runId && f.lines == lines && Over(f, c.split, c.model) && RunOf(f) == run
    ensures SplitOf(f) == c.split && ModelOf(f) == c.model
  {
    LookUp(disk.files, c.runId);
    f :| f in disk.files && f.name == c.runId;
    assert LinesOf(disk.files, c.runId) == Some(f.lines);
    assert Live(f);
    OverMeansItsSplit(f, c.split, c.model);
  }

  /** The run as the gate reads it off the account the command finds. */
  function OwnView(suite: Suite, s: State, c: Command, run: StoredRun): RecognisedRun {
    RecognisedRun(c.runId, AccountBefore(s, c, run).ledgered,
                  Some(RecordedTotals(run.generations, PriceFor(suite, Some(c.model)))), [NameOf(c.split)])
  }

  lemma NothingToRead(id: string, price: Option<Price>, splits: seq<string>)
    ensures Recognised(RecognisedRun(id, NOTHING, Some(RecordedTotals([], price)), splits)) == NOTHING
  {
  }

  /** What the gate charges this run with, whether or not it has a file yet. */
  lemma OwnReading(suite: Suite, s: State, c: Command, lines: seq<Line>, run: StoredRun)
    requires Tidy(s.disk) && OpenedFor(suite, s.disk, c, lines, run)
    ensures SpendOn(suite, s.disk, c.split, c.model).Ok?
    ensures ForRun(SpentOn(suite, s, c.split, c.model), c.runId) == Recognised(OwnView(suite, s, c, run))
  {
    SpendOnLists(suite, s.disk, c.split, c.model);
    var runs := SpentOn(suite, s, c.split, c.model);
    hide SpendOn, RecordedTotals, Recognised;
    if LinesOf(s.disk.files, c.runId).Some? {
      var f := ExistingFile(suite, s.disk, c, lines, run);
      assert OwnView(suite, s, c, run) == View(suite, s.disk.ledger, f);
      var at :| 0 <= at < |runs| && runs[at] == View(suite, s.disk.ledger, f);
      ForRunFinds(runs, at);
    } else {
      NoFileNoLines(s.disk, c.runId, ScopeOf(c.model));
      NothingToRead(c.runId, PriceFor(suite, Some(c.model)), [NameOf(c.split)]);
      LookUp(s.disk.files, c.runId);
      forall i | 0 <= i < |runs| ensures runs[i].runId != c.runId {
        assert IsViewOver(suite, s.disk, c.split, c.model, runs[i]);
        var g :| g in s.disk.files && Over(g, c.split, c.model) && runs[i] == View(suite, s.disk.ledger, g);
      }
      ForRunAbsent(runs, c.runId);
    }
  }

  /** Before the pass: the account is sound, and it is what the gate recognises for this run. */
  lemma AccountBeforeIsRecognised(suite: Suite, s: State, c: Command, lines: seq<Line>, run: StoredRun)
    requires ValidSuite(suite) && Invariant(suite, s) && OpenedFor(suite, s.disk, c, lines, run)
    ensures Sound(CasesOf(suite, c.split), AccountBefore(s, c, run))
    ensures ForRun(SpentOn(suite, s, c.split, c.model), c.runId).calls == RecognisedCalls(AccountBefore(s, c, run))
  {
    OwnReading(suite, s, c, lines, run);
    hide SpendOn;
    if LinesOf(s.disk.files, c.runId).Some? {
      var f := ExistingFile(suite, s.disk, c, lines, run);
      assert AccountOf(s, f) == AccountBefore(s, c, run);
    } else {
      NoFileNoLines(s.disk, c.runId, ScopeOf(c.model));
      assert AccountBefore(s, c, run) == NO_ACCOUNT;
    }
  }

  lemma RunsAreWithin(suite: Suite, s: State, split: Split, model: string)
    requires ValidSuite(suite) && Invariant(suite, s)
    ensures DistinctRuns(SpentOn(suite, s, split, model))
    ensures EachWithin(SpentOn(suite, s, split, model), |CasesOf(suite, split)|)
  {
    var runs := SpentOn(suite, s, split, model);
    SpendOnLists(suite, s.disk, split, model);
    forall i | 0 <= i < |runs| ensures 0 <= Recognised(runs[i]).calls <= |CasesOf(suite, split)| {
      assert IsViewOver(suite, s.disk, split, model, runs[i]);
      var f :| f in s.disk.files && Over(f, split, model) && runs[i] == View(suite, s.disk.ledger, f);
      OverMeansItsSplit(f, split, model);
      ViewCalls(suite, s, f);
      RecognisedWithinCeiling(CasesOf(suite, split), AccountOf(s, f));
    }
  }

  /** The command goes ahead: the gate may buy under this identity, and the store opens. */
  ghost predicate Admits(suite: Suite, s: State, c: Command, lines: seq<Line>, run: StoredRun)
    requires SpendOn(suite, s.disk, c.split, c.model).Ok?
  {
    && MayRun(SpentOn(suite, s, c.split, c.model), c.runId, MaxRuns(c.split))
    && OpenedFor(suite, s.disk, c, lines, run)
  }

  function BudgetFor(suite: Suite, s: State, c: Command): EvalBudget
    requires SpendOn(suite, s.disk, c.split, c.model).Ok?
  {
    GenerationBudget(CasesOf(suite, c.split), MaxRuns(c.split), SpentOn(suite, s, c.split, c.model), c.runId, c.typed)
  }

  lemma GateIsHeld(suite: Suite, s: State, split: Split, model: string)
    requires Invariant(suite, s)
    ensures SpendOn(suite, s.disk, split, model).Ok?
    ensures |BoughtIds(SpendOn(suite, s.disk, split, model).value)| <= MaxRuns(split)
  {
  }

  /** The call allowance: the cases the run is not recognised as having paid for, or a tighter typed cap. */
  lemma AllowanceOf(suite: Suite, s: State, c: Command, lines: seq<Line>, run: StoredRun)
    requires ValidSuite(suite) && Invariant(suite, s) && Admits(suite, s, c, lines, run)
    ensures var own := |CasesOf(suite, c.split)| - RecognisedCalls(AccountBefore(s, c, run));
            own >= 0 && BudgetFor(suite, s, c).calls == Some(Narrowed(own, c.typed.calls))
  {
    hide OpenedFor, BoughtIds, ForRun, Narrowed, AccountBefore, Invariant, Sound, EachWithin, DistinctRuns, SpendOn,
        GenerationBudget, RecognisedCalls;
    GateIsHeld(suite, s, c.split, c.model);
    RunsAreWithin(suite, s, c.split, c.model);
    AccountBeforeIsRecognised(suite, s, c, lines, run);
    RecognisedWithinCeiling(CasesOf(suite, c.split), AccountBefore(s, c, run));
    CallAllowance(CasesOf(suite, c.split), MaxRuns(c.split), SpentOn(suite, s, c.split, c.model), c.runId, c.typed);
  }

  /** The state after a pass of this run, whatever the pass did. */
  function StateAfter(s: State, c: Command, lines: seq<Line>, run: StoredRun, p: Progress): State {
    State(Disk(if LeavesLine(p) then s.disk.ledger + [LedgerLine(run.header, c.model, p)] else s.disk.ledger,
               PutFile(s.disk.files, c.runId, lines + AsLines(p.written))),
          s.tallies[c.runId := AddTally(TallyOf(s, c.runId), WithLost(p))])
  }

  lemma PassTouches(suite: Suite, s: State, c: Command, lines: seq<Line>, run: StoredRun, p: Progress)
    requires c.runId != "" && Tidy(s.disk) && OpenedFor(suite, s.disk, c, lines, run)
    ensures Touches(s.disk, StateAfter(s, c, lines, run, p).disk, FileAfter(c, lines, p))
  {
    FileAfterIsOver(suite, s.disk, c, lines, run, p);
    ReplaceFile(s.disk.files, c.runId, lines + AsLines(p.written));
    LookUp(s.disk.files, c.runId);
    if LinesOf(s.disk.files, c.runId).Some? {
      var f := ExistingFile(suite, s.disk, c, lines, run);
    }
  }

  lemma OwnAccountAfter(suite: Suite, s: State, c: Command, lines: seq<Line>, run: StoredRun, p: Progress)
    requires c.runId != "" && Tidy(s.disk) && OpenedFor(suite, s.disk, c, lines, run)
    ensures Live(FileAfter(c, lines, p))
    ensures AccountOf(StateAfter(s, c, lines, run, p), FileAfter(c, lines, p)) == AfterPass(AccountBefore(s, c, run), p)
  {
    FileAfterIsOver(suite, s.disk, c, lines, run, p);
    PassTouches(suite, s, c, lines, run, p);
    OwnTotalsGrow(s.disk, StateAfter(s, c, lines, run, p).disk, FileAfter(c, lines, p));
    assert Ledger.LineTotals(LedgerLine(run.header, c.model, p)) == PassLine(p);
  }

  /** What a pass is: nothing at all, or the outstanding cases put to the provider under the budget. */
  ghost predicate PassOf(suite: Suite, s: State, c: Command, run: StoredRun, p: Progress)
    requires SpendOn(suite, s.disk, c.split, c.model).Ok?
  {
    var outstanding := Outstanding(CasesOf(suite, c.split), Completed(run.generations));
    p == START || p == Ended(Generate(BudgetFor(suite, s, c), PriceFor(suite, Some(c.model)), outstanding, c.events,
        c.now), c.died)
  }

  lemma PassFollows(suite: Suite, s: State, c: Command, run: StoredRun, p: Progress)
    requires SpendOn(suite, s.disk, c.split, c.model).Ok? && PassOf(suite, s, c, run, p)
    ensures Follows(p.written, Outstanding(CasesOf(suite, c.split), Completed(run.generations)))
    ensures BudgetFor(suite, s, c).calls.Some? ==> Accounted(BudgetFor(suite, s, c), p)
  {
    hide Generate, Outstanding, SpendOn, GenerationBudget;
    var outstanding := Outstanding(CasesOf(suite, c.split), Completed(run.generations));
    WrittenFollowsCases(BudgetFor(suite, s, c), PriceFor(suite, Some(c.model)), outstanding, c.events, c.now);
    PassAccounts(BudgetFor(suite, s, c), PriceFor(suite, Some(c.model)), outstanding, c.events, c.now);
  }

  lemma PassIsAccounted(suite: Suite, s: State, c: Command, lines: seq<Line>, run: StoredRun, p: Progress)
    requires ValidSuite(suite) && Invariant(suite, s) && Admits(suite, s, c, lines, run) && PassOf(suite, s, c, run, p)
    ensures Sound(CasesOf(suite, c.split), AfterPass(AccountBefore(s, c, run), p))
  {
    hide Follows, Outstanding, Sound, RecognisedCalls, Accounted, PassOf, GenerationBudget;
    AllowanceOf(suite, s, c, lines, run);
    AccountBeforeIsRecognised(suite, s, c, lines, run);
    PassFollows(suite, s, c, run, p);
    PassKeepsSound(CasesOf(suite, c.split), AccountBefore(s, c, run), BudgetFor(suite, s, c), p);
  }

  lemma PassKeepsAccounts(suite: Suite, s: State, c: Command, lines: seq<Line>, run: StoredRun, p: Progress)
    requires ValidSuite(suite) && c.runId != "" && Invariant(suite, s)
    requires Admits(suite, s, c, lines, run) && PassOf(suite, s, c, run, p)
    ensures var after := StateAfter(s, c, lines, run, p);
            forall g :: g in after.disk.files ==> Live(g) && Sound(CasesOf(suite, SplitOf(g)), AccountOf(after, g))
  {
    var after, f := StateAfter(s, c, lines, run, p), FileAfter(c, lines, p);
    FileAfterIsOver(suite, s.disk, c, lines, run, p);
    OverMeansItsSplit(f, c.split, c.model);
    PassTouches(suite, s, c, lines, run, p);
    PassIsAccounted(suite, s, c, lines, run, p);
    OwnAccountAfter(suite, s, c, lines, run, p);
    forall g | g in after.disk.files ensures Live(g) && Sound(CasesOf(suite, SplitOf(g)), AccountOf(after, g)) {
      if g != f {
        OtherAccountsStay(s, c, lines, run, p, f, g);
      }
    }
  }

  lemma OtherAccountsStay(s: State, c: Command, lines: seq<Line>, run: StoredRun, p: Progress, f: RunFile, g: RunFile)
    requires Touches(s.disk, StateAfter(s, c, lines, run, p).disk, f) && f.name == c.runId
    requires Live(g) && g.name != f.name
    ensures AccountOf(StateAfter(s, c, lines, run, p), g) == AccountOf(s, g)
  {
    OtherTotalsStay(s.disk, StateAfter(s, c, lines, run, p).disk, f, g);
  }

  lemma TalliesHaveFiles(s: State, c: Command, lines: seq<Line>, run: StoredRun, p: Progress, f: RunFile)
    requires DistinctNames(s.disk.files) && (forall id :: id in s.tallies ==> LinesOf(s.disk.files, id).Some?)
    requires Touches(s.disk, StateAfter(s, c, lines, run, p).disk, f) && f.name == c.runId
    ensures forall id :: id in StateAfter(s, c, lines, run, p).tallies ==>
        LinesOf(StateAfter(s, c, lines, run, p).disk.files, id).Some?
  {
    var after := StateAfter(s, c, lines, run, p);
    forall id | id in after.tallies ensures LinesOf(after.disk.files, id).Some? {
      LookUp(after.disk.files, id);
      LookUp(s.disk.files, id);
      assert f in after.disk.files;
      if id != c.runId {
        var g :| g in s.disk.files && g.name == id;
        assert g in after.disk.files;
      }
    }
  }

  lemma TouchKeepsGate(suite: Suite, before: Disk, after: Disk, f: RunFile, split: Split, model: string)
    requires Tidy(before) && Tidy(after) && Touches(before, after, f) && GateHolds(suite, before)
    requires Over(f, split, model) && MayRun(SpendOn(suite, before, split, model).value, f.name, MaxRuns(split))
    ensures GateHolds(suite, after)
  {
    forall split', model'
      ensures SpendOn(suite, after, split', model').Ok?
      ensures |BoughtIds(SpendOn(suite, after, split', model').value)| <= MaxRuns(split')
    {
      SpendOnLists(suite, after, split', model');
      assert SpendOn(suite, before, split', model').Ok?;
      if Over(f, split', model') { SameSplitAndModel(f, split, model, split', model'); }
      BoughtStaysAllowed(suite, before, after, f, split', model');
    }
  }

  lemma PassKeepsInvariant(suite: Suite, s: State, c: Command, lines: seq<Line>, run: StoredRun, p: Progress)
    requires ValidSuite(suite) && c.runId != "" && Invariant(suite, s)
    requires Admits(suite, s, c, lines, run) && PassOf(suite, s, c, run, p)
    ensures Invariant(suite, StateAfter(s, c, lines, run, p))
  {
    var after, f := StateAfter(s, c, lines, run, p), FileAfter(c, lines, p);
    FileAfterIsOver(suite, s.disk, c, lines, run, p);
    PassTouches(suite, s, c, lines, run, p);
    TouchedStaysTidy(s.disk, after.disk, f);
    PassKeepsAccounts(suite, s, c, lines, run, p);
    TalliesHaveFiles(s, c, lines, run, p, f);
    TouchKeepsGate(suite, s.disk, after.disk, f, c.split, c.model);
  }

  lemma SameSplitAndModel(f: RunFile, split: Split, model: string, split': Split, model': string)
    requires Over(f, split, model) && Over(f, split', model')
    ensures split == split' && model == model'
  {
    OverMeansItsSplit(f, split, model);
    OverMeansItsSplit(f, split', model');
  }

  // ------------------------------------------------------------------ every reachable directory

  /** The command gets as far as opening its store. */
  ghost predicate Opens(suite: Suite, s: State, c: Command, lines: seq<Line>, run: StoredRun)
    requires SpendOn(suite, s.disk, c.split, c.model).Ok?
  {
    && CasesOf(suite, c.split) != [] && c.authorised
    && MayRun(SpentOn(suite, s, c.split, c.model), c.runId, MaxRuns(c.split))
    && OpenFile(LinesOf(s.disk.files, c.runId), Header(c.runId, c.now, None, IdentityOf(suite, c))) == Ok((lines, run))
  }

  /** A command under the name and identity of a file on disk continues that file. */
  lemma Reopens(suite: Suite, s: State, c: Command, f: RunFile)
    requires Tidy(s.disk) && f in s.disk.files && f.name == c.runId && Live(f)
    requires RunOf(f).header.identity == IdentityOf(suite, c)
    ensures OpenFile(LinesOf(s.disk.files, c.runId), Header(c.runId, c.now, None, IdentityOf(suite, c)))
        == Ok((f.lines, RunOf(f)))
    ensures OpenedFor(suite, s.disk, c, f.lines, RunOf(f))
    ensures Over(f, c.split, c.model) && AccountBefore(s, c, RunOf(f)) == AccountOf(s, f)
  {
    LookUp(s.disk.files, c.runId);
  }

  /** A command with something outstanding and a price makes its pass. */
  lemma StepTaken(suite: Suite, s: State, c: Command, lines: seq<Line>, run: StoredRun)
    requires Invariant(suite, s) && Opens(suite, s, c, lines, run) && PriceFor(suite, Some(c.model)).Some?
    requires Outstanding(CasesOf(suite, c.split), Completed(run.generations)) != []
    ensures Step(suite, s, c) == StateAfter(s, c, lines, run,
        Ended(Generate(BudgetFor(suite, s, c), PriceFor(suite, Some(c.model)),
                       Outstanding(CasesOf(suite, c.split), Completed(run.generations)), c.events, c.now), c.died))
  {
    EffectiveIsTyped(s.disk, c);
    hide SpendOn, OpenFile, Generate, Outstanding, PutFile, LinesOf, GenerationBudget, EffectiveRunId;
  }

  /** How a pass of this command leaves the directory, against what the command did. */
  ghost predicate IsPass(suite: Suite, s: State, c: Command, passed: Passed, lines: seq<Line>, run: StoredRun,
      p: Progress)
    requires SpendOn(suite, s.disk, c.split, c.model).Ok?
  {
    && Admits(suite, s, c, lines, run) && PassOf(suite, s, c, run, p)
    && OpenFile(LinesOf(s.disk.files, c.runId), Header(c.runId, c.now, None, IdentityOf(suite, c))) == Ok((lines, run))
    && passed.runId == c.runId
    && passed.disk == StateAfter(s, c, lines, run, p).disk
    && p == if passed.outcome.Ran? then passed.outcome.progress else START
  }

  lemma OpenedIsAPass(suite: Suite, s: State, c: Command, lines: seq<Line>, run: StoredRun) returns (p: Progress)
    requires SpendOn(suite, s.disk, c.split, c.model).Ok? && Admits(suite, s, c, lines, run)
    requires OpenFile(LinesOf(s.disk.files, c.runId), Header(c.runId, c.now, None, IdentityOf(suite, c)))
        == Ok((lines, run))
    ensures var passed := Opened(suite, s.disk, c, c.runId, BudgetFor(suite, s, c), lines, run);
            !passed.outcome.Declined? && IsPass(suite, s, c, passed, lines, run, p)
  {
    hide SpendOn, OpenFile, Generate, Outstanding, PutFile, LinesOf, GenerationBudget, Admits;
    var passed := Opened(suite, s.disk, c, c.runId, BudgetFor(suite, s, c), lines, run);
    p := if passed.outcome.Ran? then passed.outcome.progress else START;
    assert lines + AsLines(START.written) == lines;
  }

  /** A command either declines and leaves the disk alone, or opens its store and makes one pass. */
  lemma CommandIsAPass(suite: Suite, s: State, c: Command) returns (lines: seq<Line>, run: StoredRun, p: Progress)
    requires Invariant(suite, s)
    ensures SpendOn(suite, s.disk, c.split, c.model).Ok?
    ensures var passed := RunCommand(suite, s.disk, c);
            if passed.outcome.Declined? then passed.disk == s.disk else IsPass(suite, s, c, passed, lines, run, p)
  {
    EffectiveIsTyped(s.disk, c);
    OpeningTidyFile(suite, s.disk, c, Header(c.runId, c.now, None, IdentityOf(suite, c)));
    assert SpendOn(suite, s.disk, c.split, c.model).Ok?;
    hide SpendOn, OpenFile, Opened, LinesOf, GenerationBudget, IsPass, EffectiveRunId, BoughtIds, OpenedFor;
    var store := OpenFile(LinesOf(s.disk.files, c.runId), Header(c.runId, c.now, None, IdentityOf(suite, c)));
    lines, run, p := [], StoredRun(Header(c.runId, c.now, None, IdentityOf(suite, c)), [], []), START;
    if store.Ok? && c.authorised && MayRun(SpentOn(suite, s, c.split, c.model), c.runId, MaxRuns(c.split)) {
      lines, run := store.value.0, store.value.1;
      p := OpenedIsAPass(suite, s, c, lines, run);
    }
  }

  lemma NoPassNoTally(t: Tally)
    ensures AddTally(t, WithLost(START)) == t
  {
    assert WithLost(START) == NO_TALLY;
    AddingNoTally(t);
  }

  lemma AddingNoTally(t: Tally)
    ensures AddTally(t, NO_TALLY) == t
  {
  }

  lemma QuietStep(suite: Suite, disk: Disk, tallies: map<string, Tally>, runId: string)
    requires Invariant(suite, State(disk, tallies[runId := TallyOf(State(disk, tallies), runId)]))
    ensures Invariant(suite, State(disk, tallies))
  {
    var quiet := State(disk, tallies);
    SameTalliesSameInvariant(suite, State(disk, tallies[runId := TallyOf(quiet, runId)]), quiet);
  }

  lemma TalliesAfterNoPass(s: State, c: Command, lines: seq<Line>, run: StoredRun)
    ensures StateAfter(s, c, lines, run, START)
         == State(StateAfter(s, c, lines, run, START).disk, s.tallies[c.runId := TallyOf(s, c.runId)])
  {
    NoPassNoTally(TallyOf(s, c.runId));
  }

  lemma OpenedOnlyStep(suite: Suite, s: State, c: Command, lines: seq<Line>, run: StoredRun)
    requires Invariant(suite, StateAfter(s, c, lines, run, START))
    ensures Invariant(suite, State(StateAfter(s, c, lines, run, START).disk, s.tallies))
  {
    var disk := StateAfter(s, c, lines, run, START).disk;
    TalliesAfterNoPass(s, c, lines, run);
    assert TallyOf(State(disk, s.tallies), c.runId) == TallyOf(s, c.runId);
    QuietStep(suite, disk, s.tallies, c.runId);
  }

  datatype Shape = Stayed | OpenedOnly | MadePass

  lemma ShapeOfStep(suite: Suite, s: State, c: Command)
      returns (shape: Shape, lines: seq<Line>, run: StoredRun, p: Progress)
    requires Invariant(suite, s)
    ensures SpendOn(suite, s.disk, c.split, c.model).Ok?
    ensures shape.Stayed? ==> Step(suite, s, c) == s
    ensures !shape.Stayed? ==> Admits(suite, s, c, lines, run) && PassOf(suite, s, c, run, p)
    ensures shape.OpenedOnly? ==>
        p == START && Step(suite, s, c) == State(StateAfter(s, c, lines, run, p).disk, s.tallies)
    ensures shape.MadePass? ==> Step(suite, s, c) == StateAfter(s, c, lines, run, p)
  {
    lines, run, p := CommandIsAPass(suite, s, c);
    var outcome := RunCommand(suite, s.disk, c).outcome;
    shape := if outcome.Declined? then Stayed else if outcome.Ran? then MadePass else OpenedOnly;
  }

  /** However the step is written down, a file's account after it is the account after its pass. */
  lemma SameAfterStep(suite: Suite, s: State, c: Command, lines: seq<Line>, run: StoredRun, p: Progress, f: RunFile)
    requires Live(f)
    requires var after := StateAfter(s, c, lines, run, p);
             Step(suite, s, c) == after || (p == START && Step(suite, s, c) == State(after.disk, s.tallies))
    ensures Step(suite, s, c).disk == StateAfter(s, c, lines, run, p).disk
    ensures AccountOf(Step(suite, s, c), f) == AccountOf(StateAfter(s, c, lines, run, p), f)
  {
    hide Step, ReadLines, LedgeredTotals, AddTally;
    if p == START {
      NoPassNoTally(TallyOf(s, c.runId));
    }
  }

  lemma StepKeepsInvariant(suite: Suite, s: State, c: Command)
    requires ValidSuite(suite) && c.runId != "" && Invariant(suite, s)
    ensures Invariant(suite, Step(suite, s, c))
  {
    var shape, lines, run, p := ShapeOfStep(suite, s, c);
    if !shape.Stayed? {
      PassKeepsInvariant(suite, s, c, lines, run, p);
    }
    if shape.OpenedOnly? {
      OpenedOnlyStep(suite, s, c, lines, run);
    }
  }

  lemma SameTalliesSameInvariant(suite: Suite, a: State, b: State)
    requires Invariant(suite, a) && a.disk == b.disk
    requires forall id :: TallyOf(a, id) == TallyOf(b, id)
    requires forall id :: id in b.tallies ==> id in a.tallies
    ensures Invariant(suite, b)
  {
    forall f | f in b.disk.files ensures Live(f) && Sound(CasesOf(suite, SplitOf(f)), AccountOf(b, f)) {
      assert AccountOf(b, f) == AccountOf(a, f);
    }
  }

  predicate Named(commands: seq<Command>) {
    forall i :: 0 <= i < |commands| ==> commands[i].runId != ""
  }

  lemma AllButLast(earlier: seq<Command>, later: seq<Command>)
    requires later != []
    ensures earlier + later == (earlier + later[..|later| - 1]) + [later[|later| - 1]]
    ensures Named(earlier + later) ==> Named(earlier + later[..|later| - 1]) && later[|later| - 1].runId != ""
  {
    var before := earlier + later[..|later| - 1];
    assert forall i :: 0 <= i < |before| ==> before[i] == (earlier + later)[i];
    assert (earlier + later)[|earlier + later| - 1] == later[|later| - 1];
  }

  /** Every history of commands keeps the invariant. */
  lemma {:induction false} EveryHistoryKeepsInvariant(suite: Suite, commands: seq<Command>)
    requires ValidSuite(suite) && Named(commands)
    ensures Invariant(suite, Run(suite, commands))
  {
    if commands == [] {
      forall split, model
        ensures SpendOn(suite, EMPTY.disk, split, model).Ok?
            && |BoughtIds(SpendOn(suite, EMPTY.disk, split, model).value)| <= MaxRuns(split)
      {
        NothingBoughtYet(suite, split, model);
      }
    } else {
      var n := |commands| - 1;
      assert Named(commands[..n]);
      EveryHistoryKeepsInvariant(suite, commands[..n]);
      StepKeepsInvariant(suite, Run(suite, commands[..n]), commands[n]);
    }
  }

  lemma NothingBoughtYet(suite: Suite, split: Split, model: string)
    ensures SpendOn(suite, EMPTY.disk, split, model) == Ok([])
    ensures BoughtIds([]) == {}
  {
    assert Ledger.FirstAppearances([], ScopeOf(model)) == [];
    assert Ledgered(Ledger.Groups([], ScopeOf(model)), [], model) == [];
  }
}
