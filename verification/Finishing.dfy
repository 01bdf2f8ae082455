/**
 When a resumed run can still complete its split by some commands or other: exactly when it is not stuck.
 */
module Finishing {
  import opened Common
  import opened Budget
  import opened Guard
  import opened Store
  import opened DerivedCeiling
  import opened Pass
  import opened Recognition
  import opened SpendGate
  import opened Listing
  import opened History
  import opened Reading
  import opened GateTheorems
  import opened Resume
  import opened Stuck
  import opened Crossing
  import Ledger

  // ------------------------------------------------------------------ passes that publish no tokens

  /** The same reply at every case of the split. */
  function Everywhere(cases: seq<Case>, reply: Reply): map<string, Event> {
    map id | id in Ids(cases) :: Put(reply)
  }

  predicate AllReply(cases: seq<Case>, events: map<string, Event>, reply: Reply) {
    forall i :: 0 <= i < |cases| ==> EventFor(events, cases[i].id) == Put(reply)
  }

  lemma OutstandingReplies(cases: seq<Case>, done: set<string>, reply: Reply)
    requires DistinctIds(cases)
    ensures AllReply(Outstanding(cases, done), Everywhere(cases, reply), reply)
  {
    var rest := Outstanding(cases, done);
    OutstandingIsTheRest(cases, done);
    forall i | 0 <= i < |rest| ensures rest[i].id in Everywhere(cases, reply) {
      assert rest[i] in cases;
    }
  }

  /** Nothing a token or dollar ceiling looks at has been spent. */
  predicate Tokenless(s: Spend) {
    s.inputTokens == 0 && s.outputTokens == 0 && s.usd == None
  }

  lemma {:induction false} PassWithoutTokens(budget: EvalBudget, price: Option<Price>, cases: seq<Case>,
      events: map<string, Event>, now: string, reply: Reply)
    requires AllReply(cases, events, reply) && !reply.Answered?
    ensures Tokenless(Generate(budget, price, cases, events, now).spend)
  {
    if cases != [] {
      PassWithoutTokens(budget, price, cases[..|cases| - 1], events, now, reply);
      hide Refusal, RecordOf;
    }
  }

  /** A pass none of whose providers could be built gives every permission back and answers nothing. */
  predicate AllGivenBack(p: Progress, n: nat) {
    && p.ending == Running && p.spend.calls == 0 && Tokenless(p.spend)
    && p.tally == Tally(0, 0, n, 0, 0)
    && Completed(p.written) == {} && TerminalCount(p.written) == 0
    && InputTotal(p.written) == 0 && OutputTotal(p.written) == 0
  }

  lemma SameAnswers(gs: seq<Generation>, written: seq<Generation>)
    requires Completed(written) == {}
    ensures Completed(gs + written) == Completed(gs)
  {
    hide Terminal;
    assert Completed(gs + written) == Completed(gs) + Completed(written);
  }

  lemma {:induction false} UnpreparedPassGivesAllBack(budget: EvalBudget, price: Option<Price>, cases: seq<Case>,
      events: map<string, Event>, now: string, detail: string)
    requires AllReply(cases, events, NotPrepared(detail)) && Refusal(budget, FRESH) == None
    ensures AllGivenBack(Generate(budget, price, cases, events, now), |cases|)
  {
    if cases != [] {
      var n := |cases| - 1;
      UnpreparedPassGivesAllBack(budget, price, cases[..n], events, now, detail);
      OneMoreGivenBack(budget, price, Generate(budget, price, cases[..n], events, now), cases[n].id, detail, now, n);
    }
  }

  lemma GivesOneBack(budget: EvalBudget, price: Option<Price>, p: Progress, id: string, detail: string, now: string)
    requires Refusal(budget, p.spend) == None
    ensures Visit(budget, price, p, id, Put(NotPrepared(detail)), now)
         == Progress(GiveBack(Grant(p.spend)), p.written + [RecordOf(id, NotPrepared(detail), now)],
                     OneDiscarded(p.tally), Running)
  {
    hide Refusal, RecordOf, GiveBack, Grant, OneDiscarded;
  }

  lemma OneMoreGivenBack(budget: EvalBudget, price: Option<Price>, p: Progress, id: string, detail: string,
      now: string, n: nat)
    requires AllGivenBack(p, n) && Refusal(budget, FRESH) == None
    ensures AllGivenBack(Visit(budget, price, p, id, Put(NotPrepared(detail)), now), n + 1)
  {
    assert Refusal(budget, p.spend) == None;
    var record := RecordOf(id, NotPrepared(detail), now);
    GivesOneBack(budget, price, p, id, detail, now);
    hide Refusal, TerminalCount, InputTotal, OutputTotal, Visit;
    TotalsNext(p.written, record);
    assert Completed([record]) == {};
    SameAnswers(p.written, [record]);
    hide Completed, Terminal;
  }

  // ------------------------------------------------------------------ such passes leave the other ceilings alone

  predicate SameTokens(a: Totals, b: Totals) {
    a.inputTokens == b.inputTokens && a.outputTokens == b.outputTokens && a.usd == b.usd
  }

  predicate NoTokens(t: Totals) {
    t.inputTokens == 0 && t.outputTokens == 0 && t.usd == 0
  }

  /** Putting one file back with the same tokens in it leaves the tokens of the listing. */
  lemma {:induction false} PutKeepsTokens(suite: Suite, ledger: seq<Ledger.Line>, files: seq<RunFile>, f: RunFile,
      split: Split, model: string)
    requires DistinctNames(files) && Over(f, split, model)
    requires forall g :: g in files && g.name == f.name ==>
        Over(g, split, model) && SameTokens(Recognised(View(suite, ledger, g)), Recognised(View(suite, ledger, f)))
    requires (forall g :: g in files ==> g.name != f.name) ==>
        NoTokens(Recognised(View(suite, ledger, f)))
    ensures SameTokens(Total(InFileOrder(suite, ledger, PutFile(files, f.name, f.lines), split, model)),
                       Total(InFileOrder(suite, ledger, files, split, model)))
  {
    if files == [] {
      assert PutFile(files, f.name, f.lines) == [f];
      NothingAdds(suite, ledger, f, split, model);
    } else {
      var n := |files| - 1;
      assert files[n] in files && forall g :: g in files[..n] ==> g in files;
      assert files == files[..n] + [files[n]];
      assert f == RunFile(f.name, f.lines);
      hide Over, Recognised, View, SameTokens, InFileOrder, Total, DistinctNames;
      if files[n].name == f.name {
        SameNextToLast(suite, ledger, files[..n], files[..n], files[n], f, split, model);
      } else {
        NotBefore(files, f);
        PutKeepsTokens(suite, ledger, files[..n], f, split, model);
        SameNextToLast(suite, ledger, files[..n], PutFile(files[..n], f.name, f.lines), files[n], files[n], split,
            model);
      }
    }
  }

  lemma NotBefore(files: seq<RunFile>, f: RunFile)
    requires DistinctNames(files) && files != [] && files[|files| - 1].name != f.name
    ensures DistinctNames(files[..|files| - 1])
    ensures (forall g :: g in files[..|files| - 1] ==> g.name != f.name) ==> forall g :: g in files ==> g.name != f.name
  {
    assert files == files[..|files| - 1] + [files[|files| - 1]];
  }

  lemma NothingAdds(suite: Suite, ledger: seq<Ledger.Line>, f: RunFile, split: Split, model: string)
    requires Over(f, split, model) && NoTokens(Recognised(View(suite, ledger, f)))
    ensures SameTokens(Total(InFileOrder(suite, ledger, [f], split, model)),
                       Total(InFileOrder(suite, ledger, [], split, model)))
  {
    OneMoreInOrder(suite, ledger, [], f, split, model);
    assert [] + [f] == [f];
    hide Over, Recognised, View, InFileOrder, Total;
  }

  /** Two listings of the same tokens, each with one more file of the same tokens. */
  lemma SameNextToLast(suite: Suite, ledger: seq<Ledger.Line>, a: seq<RunFile>, b: seq<RunFile>, f: RunFile,
      g: RunFile, split: Split, model: string)
    requires SameTokens(Total(InFileOrder(suite, ledger, a, split, model)),
                        Total(InFileOrder(suite, ledger, b, split, model)))
    requires f == g || (Over(f, split, model) && Over(g, split, model)
                        && SameTokens(Recognised(View(suite, ledger, f)), Recognised(View(suite, ledger, g))))
    ensures SameTokens(Total(InFileOrder(suite, ledger, a + [f], split, model)),
                       Total(InFileOrder(suite, ledger, b + [g], split, model)))
    ensures SameTokens(Total(InFileOrder(suite, ledger, b + [g], split, model)),
                       Total(InFileOrder(suite, ledger, a + [f], split, model)))
  {
    hide Over, Recognised, View, InFileOrder, Total;
    OneMoreInOrder(suite, ledger, a, f, split, model);
    OneMoreInOrder(suite, ledger, b, g, split, model);
  }

  lemma OneMoreInOrder(suite: Suite, ledger: seq<Ledger.Line>, before: seq<RunFile>, f: RunFile, split: Split,
      model: string)
    ensures Total(InFileOrder(suite, ledger, before + [f], split, model)) ==
            var earlier := Total(InFileOrder(suite, ledger, before, split, model));
            if Over(f, split, model) then AddTotals(earlier, Recognised(View(suite, ledger, f))) else earlier
  {
    assert (before + [f])[..|before|] == before;
    var runs := InFileOrder(suite, ledger, before, split, model);
    if Over(f, split, model) {
      assert (runs + [View(suite, ledger, f)])[..|runs|] == runs;
    }
  }

  /** Budgets drawn from the same tokens and dollars leave the same room under everything but the calls. */
  lemma SameTokensSameRoom(cases: seq<Case>, allowed: nat, a: seq<RecognisedRun>, b: seq<RecognisedRun>, id: string)
    requires SameTokens(ForRun(a, id), ForRun(b, id)) && SameTokens(Total(a), Total(b))
    ensures GenerationBudget(cases, allowed, a, id, UNCAPPED).(calls := None)
         == GenerationBudget(cases, allowed, b, id, UNCAPPED).(calls := None)
  {
    var derived := AsBudget(NovaCeiling(cases));
    hide NovaCeiling, Stricter, ForRun, Total;
    var left := [Remaining(derived, ForRun(a, id)), Remaining(Times(derived, allowed), Total(a)), UNCAPPED];
    var right := [Remaining(derived, ForRun(b, id)), Remaining(Times(derived, allowed), Total(b)), UNCAPPED];
    assert Column(left, InputTokens) == Column(right, InputTokens);
    assert Column(left, OutputTokens) == Column(right, OutputTokens);
    assert Column(left, Dollars) == Column(right, Dollars);
  }

  // ------------------------------------------------------------------ one command in which no provider could be built

  /** The same command again, with this happening at every case. */
  function Again(suite: Suite, c: Command, reply: Reply): Command {
    c.(events := Everywhere(CasesOf(suite, c.split), reply), died := false)
  }

  /** The command continues its run with nothing typed, a price, and something under every ceiling but the calls. */
  ghost predicate HasRoom(suite: Suite, s: State, c: Command, lines: seq<Line>, run: StoredRun)
    requires SpendOn(suite, s.disk, c.split, c.model).Ok?
  {
    && Opens(suite, s, c, lines, run) && c.typed == UNCAPPED && PriceFor(suite, Some(c.model)).Some?
    && Refusal(BudgetFor(suite, s, c).(calls := None), FRESH) == None
  }

  /** The pass of that command, when a call is left: every permission given back. */
  lemma UnpreparedCommand(suite: Suite, s: State, c: Command, lines: seq<Line>, run: StoredRun)
      returns (p: Progress, f: RunFile)
    requires ValidSuite(suite) && c.runId != "" && Invariant(suite, s) && HasRoom(suite, s, c, lines, run)
    requires BudgetFor(suite, s, c).calls.Some? && BudgetFor(suite, s, c).calls.value > 0
    requires Outstanding(CasesOf(suite, c.split), Completed(run.generations)) != []
    ensures AllGivenBack(p, |Outstanding(CasesOf(suite, c.split), Completed(run.generations))|)
    ensures OpenedFor(suite, s.disk, c, lines, run)
    ensures Step(suite, s, Again(suite, c, NotPrepared(""))) == StateAfter(s, c, lines, run, p)
    ensures f == FileAfter(c, lines, p) && f in Step(suite, s, Again(suite, c, NotPrepared(""))).disk.files
  {
    var cases, again := CasesOf(suite, c.split), Again(suite, c, NotPrepared(""));
    var rest := Outstanding(cases, Completed(run.generations));
    OpeningTidyFile(suite, s.disk, c, Header(c.runId, c.now, None, IdentityOf(suite, c)));
    assert Refusal(BudgetFor(suite, s, c), FRESH) == None;
    assert BudgetFor(suite, s, again) == BudgetFor(suite, s, c);
    assert IdentityOf(suite, again) == IdentityOf(suite, c);
    assert Opens(suite, s, again, lines, run);
    OutstandingReplies(cases, Completed(run.generations), NotPrepared(""));
    p := Generate(BudgetFor(suite, s, c), PriceFor(suite, Some(c.model)), rest, again.events, c.now);
    assert Tidy(s.disk);
    hide SpendOn, Invariant, Generate, GenerationBudget, Outstanding, OpenFile, Everywhere, Refusal, AllGivenBack;
    UnpreparedPassGivesAllBack(BudgetFor(suite, s, c), PriceFor(suite, Some(c.model)), rest, again.events, c.now, "");
    StepTaken(suite, s, again, lines, run);
    f := FileAfter(c, lines, p);
    assert StateAfter(s, again, lines, run, p) == StateAfter(s, c, lines, run, p);
    FileIsPut(suite, s, c, lines, run, p);
  }

  // ------------------------------------------------------------------ what such a command leaves

  /** The run's file afterwards, against the account before: the same tokens and the same answers. */
  lemma SameEvidence(suite: Suite, s: State, c: Command, lines: seq<Line>, run: StoredRun, p: Progress, n: nat)
    requires c.runId != "" && Tidy(s.disk) && OpenedFor(suite, s.disk, c, lines, run) && AllGivenBack(p, n)
    ensures var f, after := FileAfter(c, lines, p), StateAfter(s, c, lines, run, p);
            && Over(f, c.split, c.model) && RunOf(f).header == run.header
            && Completed(RunOf(f).generations) == Completed(run.generations)
            && after.disk.ledger == s.disk.ledger
            && SameTokens(Recognised(View(suite, s.disk.ledger, f)), Recognised(OwnView(suite, s, c, run)))
  {
    FileAfterIsOver(suite, s.disk, c, lines, run, p);
    TotalsAdd(run.generations, p.written);
    SameAnswers(run.generations, p.written);
    hide ReadLines, TerminalCount, InputTotal, OutputTotal, Completed, AttemptTotal;
    assert InputTotal(run.generations + p.written) == InputTotal(run.generations);
  }

  lemma FileBefore(suite: Suite, s: State, c: Command, lines: seq<Line>, run: StoredRun, g: RunFile)
    requires Tidy(s.disk) && OpenedFor(suite, s.disk, c, lines, run) && g in s.disk.files && g.name == c.runId
    ensures Over(g, c.split, c.model) && View(suite, s.disk.ledger, g) == OwnView(suite, s, c, run)
  {
    LookUp(s.disk.files, c.runId);
    var f := ExistingFile(suite, s.disk, c, lines, run);
    SameNameSameFile(s.disk.files, f, g);
  }

  lemma NoFileBefore(suite: Suite, s: State, c: Command, lines: seq<Line>, run: StoredRun)
    requires Tidy(s.disk) && OpenedFor(suite, s.disk, c, lines, run)
    requires forall g :: g in s.disk.files ==> g.name != c.runId
    ensures NoTokens(Recognised(OwnView(suite, s, c, run)))
  {
    LookUp(s.disk.files, c.runId);
    NoFileNoLines(s.disk, c.runId, ScopeOf(c.model));
    NothingToRead(c.runId, PriceFor(suite, Some(c.model)), [NameOf(c.split)]);
  }

  /** The gate's total is drawn from the same tokens as before. */
  lemma SameTotal(suite: Suite, s: State, c: Command, lines: seq<Line>, run: StoredRun, p: Progress, n: nat)
    requires c.runId != "" && Tidy(s.disk) && OpenedFor(suite, s.disk, c, lines, run) && AllGivenBack(p, n)
    requires Tidy(StateAfter(s, c, lines, run, p).disk)
    ensures SpendOn(suite, s.disk, c.split, c.model).Ok?
    ensures SpendOn(suite, StateAfter(s, c, lines, run, p).disk, c.split, c.model).Ok?
    ensures SameTokens(Total(SpentOn(suite, StateAfter(s, c, lines, run, p), c.split, c.model)),
                       Total(SpentOn(suite, s, c.split, c.model)))
  {
    var f, after := FileAfter(c, lines, p), StateAfter(s, c, lines, run, p);
    SameEvidence(suite, s, c, lines, run, p, n);
    ReadingIsFileByFile(suite, s.disk, c.split, c.model);
    ReadingIsFileByFile(suite, after.disk, c.split, c.model);
    hide Over, OwnView, View, SpendOn, OpenedFor, AllGivenBack, InFileOrder, Recognised, Live;
    forall g | g in s.disk.files && g.name == f.name
        ensures Over(g, c.split, c.model)
            && SameTokens(Recognised(View(suite, s.disk.ledger, g)), Recognised(View(suite, s.disk.ledger, f))) {
      FileBefore(suite, s, c, lines, run, g);
    }
    if forall g :: g in s.disk.files ==> g.name != f.name {
      NoFileBefore(suite, s, c, lines, run);
    }
    PutKeepsTokens(suite, s.disk.ledger, s.disk.files, f, c.split, c.model);
  }

  /** And so every ceiling but the call count stands as it did. */
  lemma SameRoom(suite: Suite, s: State, c: Command, lines: seq<Line>, run: StoredRun, p: Progress, n: nat)
    requires c.runId != "" && Tidy(s.disk) && OpenedFor(suite, s.disk, c, lines, run) && AllGivenBack(p, n)
    requires Tidy(StateAfter(s, c, lines, run, p).disk) && c.typed == UNCAPPED
    ensures SpendOn(suite, s.disk, c.split, c.model).Ok?
    ensures SpendOn(suite, StateAfter(s, c, lines, run, p).disk, c.split, c.model).Ok?
    ensures BudgetFor(suite, StateAfter(s, c, lines, run, p), c).(calls := None)
        == BudgetFor(suite, s, c).(calls := None)
  {
    var f, after := FileAfter(c, lines, p), StateAfter(s, c, lines, run, p);
    SameTotal(suite, s, c, lines, run, p, n);
    SameEvidence(suite, s, c, lines, run, p, n);
    OwnReading(suite, s, c, lines, run);
    FileIsPut(suite, s, c, lines, run, p);
    Reopens(suite, after, c, f);
    OwnReading(suite, after, c, f.lines, RunOf(f));
    FileBefore(suite, after, c, f.lines, RunOf(f), f);
    hide SpendOn, GenerationBudget, View, OwnView, Recognised, OpenedFor, AllGivenBack, StateAfter, Over, Live;
    SameTokensSameRoom(CasesOf(suite, c.split), MaxRuns(c.split), SpentOn(suite, after, c.split, c.model),
                       SpentOn(suite, s, c.split, c.model), c.runId);
  }

  lemma FileIsPut(suite: Suite, s: State, c: Command, lines: seq<Line>, run: StoredRun, p: Progress)
    requires Tidy(s.disk) && OpenedFor(suite, s.disk, c, lines, run)
    ensures FileAfter(c, lines, p) in StateAfter(s, c, lines, run, p).disk.files
  {
    ReplaceFile(s.disk.files, c.runId, lines + AsLines(p.written));
  }

  /** The run may still go on, whether or not it is still among those that bought. */
  lemma MayRunStays(suite: Suite, before: Disk, after: Disk, f: RunFile, split: Split, model: string)
    requires Tidy(before) && Tidy(after) && Touches(before, after, f)
    requires SpendOn(suite, before, split, model).Ok? && SpendOn(suite, after, split, model).Ok?
    requires |BoughtIds(SpendOn(suite, before, split, model).value)| <= MaxRuns(split)
    requires MayRun(SpendOn(suite, before, split, model).value, f.name, MaxRuns(split))
    ensures MayRun(SpendOn(suite, after, split, model).value, f.name, MaxRuns(split))
  {
    BoughtGrowsByOne(suite, before, after, f, split, model);
    hide SpendOn, Touches, Tidy, BoughtIds;
    var earlier, later := BoughtIds(SpendOn(suite, before, split, model).value),
        BoughtIds(SpendOn(suite, after, split, model).value);
    if f.name !in later {
      OthersAllowed(SpendOn(suite, before, split, model).value, f.name, MaxRuns(split));
      Subset(later, earlier - {f.name});
    }
  }

  // ------------------------------------------------------------------ and then one in which every call is rejected

  /** After it the run may go on, everything it lost is discounted, and there is room as before. */
  lemma ReadyToFinish(suite: Suite, s: State, c: Command, lines: seq<Line>, run: StoredRun, p: Progress, f: RunFile)
    requires ValidSuite(suite) && c.runId != "" && Invariant(suite, s) && HasRoom(suite, s, c, lines, run)
    requires OpenedFor(suite, s.disk, c, lines, run) && f == FileAfter(c, lines, p)
    requires AllGivenBack(p, |Outstanding(CasesOf(suite, c.split), Completed(run.generations))|)
    requires Invariant(suite, StateAfter(s, c, lines, run, p))
    ensures var after := StateAfter(s, c, lines, run, p);
            && Live(f) && SpendOn(suite, after.disk, c.split, c.model).Ok?
            && HasRoom(suite, after, c, f.lines, RunOf(f))
            && Completed(RunOf(f).generations) == Completed(run.generations)
            && TallyOf(after, c.runId).interrupted
                <= TallyOf(after, c.runId).discarded + TallyOf(after, c.runId).lost
  {
    var after := StateAfter(s, c, lines, run, p);
    var n := |Outstanding(CasesOf(suite, c.split), Completed(run.generations))|;
    assert Tidy(s.disk) && Tidy(after.disk);
    AccountBeforeIsRecognised(suite, s, c, lines, run);
    EverythingLostIsDiscounted(CasesOf(suite, c.split), AccountBefore(s, c, run), p);
    GateIsHeld(suite, s, c.split, c.model);
    GateIsHeld(suite, after, c.split, c.model);
    hide SpendOn, Invariant, GenerationBudget, AllGivenBack, Tidy, OpenedFor, Live, Over, Outstanding, Sound;
    hide PutFile, LinesOf, AddTally, OpenFile;
    SameEvidence(suite, s, c, lines, run, p, n);
    PassTouches(suite, s, c, lines, run, p);
    MayRunStays(suite, s.disk, after.disk, f, c.split, c.model);
    FileIsPut(suite, s, c, lines, run, p);
    StillOpens(suite, after, c, f, run);
    SameRoom(suite, s, c, lines, run, p, n);
  }

  lemma StillOpens(suite: Suite, after: State, c: Command, f: RunFile, run: StoredRun)
    requires Tidy(after.disk) && f in after.disk.files && Over(f, c.split, c.model) && f.name == c.runId
    requires RunOf(f).header == run.header && run.header.identity == IdentityOf(suite, c)
    ensures OpenFile(LinesOf(after.disk.files, c.runId), Header(c.runId, c.now, None, IdentityOf(suite, c)))
        == Ok((f.lines, RunOf(f)))
  {
    Reopens(suite, after, c, f);
  }

  /** One permission given back for each case left discounts whatever the run lost, if its ceiling left it a call. */
  lemma EverythingLostIsDiscounted(cases: seq<Case>, a: Account, p: Progress)
    requires DistinctIds(cases) && Sound(cases, a)
    requires AllGivenBack(p, |Outstanding(cases, Completed(a.generations))|)
    ensures var t := AddTally(a.tally, WithLost(p)); t.interrupted <= t.discarded + t.lost
  {
    AtMostOnePerCase(a.generations, cases);
    SentWithinCeilingAndUnseen(cases, a);
  }

  /** The run has completed its split. */
  ghost predicate Finished(suite: Suite, s: State, id: string, split: Split) {
    exists f :: f in s.disk.files && f.name == id && Live(f)
      && Completed(RunOf(f).generations) == Ids(CasesOf(suite, split))
  }

  /** After these commands the command would continue its run, with something left under all but the calls. */
  ghost predicate Resumable(suite: Suite, commands: seq<Command>, c: Command, lines: seq<Line>, run: StoredRun) {
    && ValidSuite(suite) && Named(commands) && c.runId != ""
    && SpendOn(suite, Run(suite, commands).disk, c.split, c.model).Ok?
    && HasRoom(suite, Run(suite, commands), c, lines, run)
  }

  /** Every case left is rejected twice over, which is an answer, and costs no tokens. */
  lemma RejectionsFinish(suite: Suite, commands: seq<Command>, c: Command, lines: seq<Line>, run: StoredRun)
    requires Resumable(suite, commands, c, lines, run)
    requires var t := TallyOf(Run(suite, commands), c.runId); t.interrupted <= t.discarded + t.lost
    ensures Finished(suite, Run(suite, commands + [Again(suite, c, Rejected)]), c.runId, c.split)
  {
    var s, cases, again := Run(suite, commands), CasesOf(suite, c.split), Again(suite, c, Rejected);
    var rest := Outstanding(cases, Completed(run.generations));
    var budget, price := BudgetFor(suite, s, c), PriceFor(suite, Some(c.model));
    assert BudgetFor(suite, s, again) == budget && IdentityOf(suite, again) == IdentityOf(suite, c);
    OutstandingReplies(cases, Completed(run.generations), Rejected);
    hide Run, SpendOn, Generate, GenerationBudget, Outstanding, OpenFile, Everywhere, Refusal;
    assert Opens(suite, s, again, lines, run);
    forall k | 0 <= k < |rest|
        ensures Refusal(budget.(calls := None), Generate(budget, price, rest[..k], again.events, c.now).spend) == None {
      PassWithoutTokens(budget, price, rest[..k], again.events, c.now, Rejected);
      TokenlessIsOpen(budget.(calls := None), Generate(budget, price, rest[..k], again.events, c.now).spend);
    }
    ResumeFinishesTheSplit(suite, commands, again, lines, run);
  }

  lemma TokenlessIsOpen(budget: EvalBudget, s: Spend)
    requires budget.calls == None && Tokenless(s) && Refusal(budget, FRESH) == None
    ensures Refusal(budget, s) == None
  {
  }

  // ------------------------------------------------------------------ exactly when

  /** Some commands after these complete the run's split. */
  ghost predicate CanFinish(suite: Suite, commands: seq<Command>, id: string, split: Split) {
    exists later: seq<Command> :: Named(later) && Finished(suite, Run(suite, commands + later), id, split)
  }

  lemma NothingLeftToLose(cases: seq<Case>, a: Account)
    requires DistinctIds(cases) && Sound(cases, a) && Outstanding(cases, Completed(a.generations)) == []
    ensures a.tally.interrupted <= a.tally.discarded + a.tally.lost
  {
    AtMostOnePerCase(a.generations, cases);
    SentWithinCeilingAndUnseen(cases, a);
  }

  /** And its run's ceiling leaves it no call, with a case still to ask. */
  ghost predicate GivenNothing(suite: Suite, s: State, c: Command, run: StoredRun)
    requires SpendOn(suite, s.disk, c.split, c.model).Ok?
  {
    BudgetFor(suite, s, c).calls == Some(0) && Outstanding(CasesOf(suite, c.split), Completed(run.generations)) != []
  }

  lemma FinishedRunCanFinish(suite: Suite, commands: seq<Command>, c: Command, lines: seq<Line>, run: StoredRun)
    requires Resumable(suite, commands, c, lines, run)
    requires Outstanding(CasesOf(suite, c.split), Completed(run.generations)) == []
    ensures CanFinish(suite, commands, c.runId, c.split)
  {
    var s := Run(suite, commands);
    EveryHistoryKeepsInvariant(suite, commands);
    OpeningTidyFile(suite, s.disk, c, Header(c.runId, c.now, None, IdentityOf(suite, c)));
    AccountBeforeIsRecognised(suite, s, c, lines, run);
    NothingLeftToLose(CasesOf(suite, c.split), AccountBefore(s, c, run));
    assert Named([Again(suite, c, Rejected)]);
    hide Run, HasRoom, Finished, Invariant, CanFinish, Named, Again;
    RejectionsFinish(suite, commands, c, lines, run);
    TheseFinish(suite, commands, [Again(suite, c, Rejected)], c.runId, c.split);
  }

  /** With a call left, a command in which no provider could be built leaves the run ready to finish. */
  lemma MakesReady(suite: Suite, s: State, c: Command, lines: seq<Line>, run: StoredRun, first: Command)
      returns (f: RunFile)
    requires first == Again(suite, c, NotPrepared("")) && first.runId == c.runId
    requires ValidSuite(suite) && c.runId != "" && Invariant(suite, s) && HasRoom(suite, s, c, lines, run)
    requires BudgetFor(suite, s, c).calls.Some? && BudgetFor(suite, s, c).calls.value > 0
    requires Outstanding(CasesOf(suite, c.split), Completed(run.generations)) != []
    ensures var after := Step(suite, s, first);
            && Live(f) && SpendOn(suite, after.disk, c.split, c.model).Ok?
            && HasRoom(suite, after, c, f.lines, RunOf(f))
            && TallyOf(after, c.runId).interrupted
                <= TallyOf(after, c.runId).discarded + TallyOf(after, c.runId).lost
  {
    StepKeepsInvariant(suite, s, first);
    hide HasRoom, Invariant, AllGivenBack, SpendOn, Step, StateAfter, Again, Outstanding, GenerationBudget;
    var p: Progress;
    p, f := UnpreparedCommand(suite, s, c, lines, run);
    ReadyToFinish(suite, s, c, lines, run, p, f);
  }

  lemma RoomIsOpen(suite: Suite, s: State, c: Command, lines: seq<Line>, run: StoredRun)
    requires ValidSuite(suite) && Invariant(suite, s) && HasRoom(suite, s, c, lines, run)
    ensures Admits(suite, s, c, lines, run) && CasesOf(suite, c.split) != [] && c.typed == UNCAPPED
    ensures BudgetFor(suite, s, c).calls.Some? && BudgetFor(suite, s, c).calls.value >= 0
  {
    OpeningTidyFile(suite, s.disk, c, Header(c.runId, c.now, None, IdentityOf(suite, c)));
    AllowanceOf(suite, s, c, lines, run);
  }

  lemma ReadyAfterOneMore(suite: Suite, commands: seq<Command>, c: Command, lines: seq<Line>, run: StoredRun,
      first: Command) returns (f: RunFile)
    requires first == Again(suite, c, NotPrepared("")) && first.runId == c.runId
    requires Resumable(suite, commands, c, lines, run) && !GivenNothing(suite, Run(suite, commands), c, run)
    requires Outstanding(CasesOf(suite, c.split), Completed(run.generations)) != []
    ensures var more := commands + [first];
            && Live(f) && Resumable(suite, more, c, f.lines, RunOf(f))
            && var t := TallyOf(Run(suite, more), c.runId); t.interrupted <= t.discarded + t.lost
  {
    hide Run, HasRoom, Invariant, SpendOn, Step, Again, Outstanding, GenerationBudget, OpenFile;
    EveryHistoryKeepsInvariant(suite, commands);
    OneMoreCommand(suite, commands, first);
    RoomIsOpen(suite, Run(suite, commands), c, lines, run);
    f := MakesReady(suite, Run(suite, commands), c, lines, run, first);
  }

  lemma OneMoreCommand(suite: Suite, commands: seq<Command>, c: Command)
    ensures Run(suite, commands + [c]) == Step(suite, Run(suite, commands), c)
  {
    hide Step;
    assert (commands + [c])[..|commands|] == commands;
  }

  /** Two commands are then enough: all given back, then all rejected. */
  lemma TwoCommandsFinish(suite: Suite, commands: seq<Command>, c: Command, lines: seq<Line>, run: StoredRun)
    requires Resumable(suite, commands, c, lines, run) && !GivenNothing(suite, Run(suite, commands), c, run)
    requires Outstanding(CasesOf(suite, c.split), Completed(run.generations)) != []
    ensures CanFinish(suite, commands, c.runId, c.split)
  {
    var first := Again(suite, c, NotPrepared(""));
    hide Run, Resumable, GivenNothing, CanFinish, Named;
    var f := ReadyAfterOneMore(suite, commands, c, lines, run, first);
    hide Again;
    LastCommandFinishes(suite, commands, first, c, f.lines, RunOf(f));
  }

  lemma LastCommandFinishes(suite: Suite, commands: seq<Command>, first: Command, c: Command, lines: seq<Line>,
      run: StoredRun)
    requires Resumable(suite, commands + [first], c, lines, run) && first.runId == c.runId
    requires var t := TallyOf(Run(suite, commands + [first]), c.runId); t.interrupted <= t.discarded + t.lost
    ensures CanFinish(suite, commands, c.runId, c.split)
  {
    var second := Again(suite, c, Rejected);
    assert Named([first, second]);
    hide Run, Finished, CanFinish, Named, HasRoom, Again;
    RejectionsFinish(suite, commands + [first], c, lines, run);
    assert (commands + [first]) + [second] == commands + [first, second];
    TheseFinish(suite, commands, [first, second], c.runId, c.split);
  }

  lemma TheseFinish(suite: Suite, commands: seq<Command>, later: seq<Command>, id: string, split: Split)
    requires Named(later) && Finished(suite, Run(suite, commands + later), id, split)
    ensures CanFinish(suite, commands, id, split)
  {
  }

  /** A run given no call while it has cases left has a file, and is stuck. */
  lemma GivenNothingIsStuck(suite: Suite, s: State, c: Command, lines: seq<Line>, run: StoredRun) returns (f: RunFile)
    requires ValidSuite(suite) && Invariant(suite, s) && Admits(suite, s, c, lines, run)
    requires CasesOf(suite, c.split) != [] && c.typed == UNCAPPED && GivenNothing(suite, s, c, run)
    ensures f in s.disk.files && f.name == c.runId && Over(f, c.split, c.model) && IsStuck(suite, s, f)
  {
    AllowanceOf(suite, s, c, lines, run);
    if LinesOf(s.disk.files, c.runId) == None {
      NoFileNoLines(s.disk, c.runId, ScopeOf(c.model));
    }
    f := ExistingFile(suite, s.disk, c, lines, run);
    assert AccountOf(s, f) == AccountBefore(s, c, run);
    ViewCalls(suite, s, f);
  }

  lemma StuckCannotFinish(suite: Suite, commands: seq<Command>, f: RunFile, split: Split, model: string)
    requires ValidSuite(suite) && Named(commands) && f in Run(suite, commands).disk.files
    requires Over(f, split, model) && IsStuck(suite, Run(suite, commands), f)
    ensures !CanFinish(suite, commands, f.name, split)
  {
    OverMeansItsSplit(f, split, model);
    EverythingDone(CasesOf(suite, split));
    forall later: seq<Command> | Named(later) ensures !Finished(suite, Run(suite, commands + later), f.name, split) {
      assert Named(commands + later);
      StuckIsForever(suite, commands, later, f);
      EveryHistoryKeepsInvariant(suite, commands + later);
      OnlyOneOfTheName(suite, Run(suite, commands + later), f, split);
    }
  }

  lemma OnlyOneOfTheName(suite: Suite, s: State, f: RunFile, split: Split)
    requires Tidy(s.disk) && f in s.disk.files && Live(f) && Unanswered(suite, f) > 0 && SplitOf(f) == split
    requires Outstanding(CasesOf(suite, split), Ids(CasesOf(suite, split))) == []
    ensures !Finished(suite, s, f.name, split)
  {
    forall g | g in s.disk.files && g.name == f.name ensures g == f {
      SameNameSameFile(s.disk.files, f, g);
    }
  }

  lemma GivenNothingCannotFinish(suite: Suite, commands: seq<Command>, c: Command, lines: seq<Line>, run: StoredRun)
    requires Resumable(suite, commands, c, lines, run) && GivenNothing(suite, Run(suite, commands), c, run)
    ensures !CanFinish(suite, commands, c.runId, c.split)
  {
    EveryHistoryKeepsInvariant(suite, commands);
    hide Run, Invariant, CanFinish, SpendOn, GenerationBudget, Outstanding, HasRoom, IsStuck;
    RoomIsOpen(suite, Run(suite, commands), c, lines, run);
    var f := GivenNothingIsStuck(suite, Run(suite, commands), c, lines, run);
    StuckCannotFinish(suite, commands, f, c.split, c.model);
  }

  /**
   After every history, a run with something left under every other ceiling can still complete its split, by
   some commands, if and only if its own ceiling leaves it a call or it has nothing left to ask.
   */
  lemma CanFinishIff(suite: Suite, commands: seq<Command>, c: Command, lines: seq<Line>, run: StoredRun)
    requires Resumable(suite, commands, c, lines, run)
    ensures CanFinish(suite, commands, c.runId, c.split) <==> !GivenNothing(suite, Run(suite, commands), c, run)
  {
    hide Run, CanFinish, HasRoom, SpendOn, GenerationBudget;
    if GivenNothing(suite, Run(suite, commands), c, run) {
      GivenNothingCannotFinish(suite, commands, c, lines, run);
    } else if Outstanding(CasesOf(suite, c.split), Completed(run.generations)) == [] {
      FinishedRunCanFinish(suite, commands, c, lines, run);
    } else {
      TwoCommandsFinish(suite, commands, c, lines, run);
    }
  }

  /** One interrupted call is enough: the only run of a one-case split then never completes it, by any commands. */
  lemma OneInterruptionIsForever(case0: Case, now: string)
    ensures !CanFinish(OneCase(case0), [Continue(case0, Put(Interrupted), now)], RUN, Development)
  {
    var suite, commands := OneCase(case0), [Continue(case0, Put(Interrupted), now)];
    var c := Continue(case0, Killed(false), now);
    var lines, run := InterruptedRunIsStarved(case0, now, Killed(false), now);
    assert Named(commands) && ValidSuite(suite);
    EveryHistoryKeepsInvariant(suite, commands);
    OpeningTidyFile(suite, Run(suite, commands).disk, c, Header(c.runId, c.now, None, IdentityOf(suite, c)));
    hide Run, Invariant, SpendOn, CanFinish, IsStuck, GenerationBudget, OpenedFor, OpenFile;
    var f := GivenNothingIsStuck(suite, Run(suite, commands), c, lines, run);
    StuckCannotFinish(suite, commands, f, Development, MODEL);
  }
}
