/** What the spend gate promises over every history of commands, and exactly where it does not. */
module GateTheorems {
  import opened Common
  import opened Store
  import opened Pass
  import opened Recognition
  import opened SpendGate
  import opened Listing
  import opened History
  import opened Reading

  // ------------------------------------------------------------------ ceilings hold for what is recognised

  /**
   After any history: each run of a split is recognised within the derived ceiling, no more
   identities than allowed have bought anything, and the split's total is within both together.
   */
  lemma RecognisedSpendStaysUnderEveryCeiling(suite: Suite, commands: seq<Command>, split: Split, model: string)
    requires ValidSuite(suite) && Named(commands)
    ensures var gate := SpendOn(suite, Run(suite, commands).disk, split, model);
            && gate.Ok?
            && EachWithin(gate.value, |CasesOf(suite, split)|)
            && |BoughtIds(gate.value)| <= MaxRuns(split)
            && Total(gate.value).calls <= |CasesOf(suite, split)| * MaxRuns(split)
  {
    var s := Run(suite, commands);
    EveryHistoryKeepsInvariant(suite, commands);
    assert SpendOn(suite, s.disk, split, model).Ok?;
    RunsAreWithin(suite, s, split, model);
    OthersWithinTheirCeilings(SpentOn(suite, s, split, model), |CasesOf(suite, split)|, "");
    Scale(|CasesOf(suite, split)|, |BoughtIds(SpentOn(suite, s, split, model))|, MaxRuns(split));
  }

  // ------------------------------------------------------------------ and for what was sent, exactly when

  /** No answer was lost, or nothing discounts it. */
  predicate Uncrossed(t: Tally) {
    t.interrupted == 0 || (t.discarded == 0 && t.lost == 0)
  }

  /** The cases the run in this file has not answered. */
  function Unanswered(suite: Suite, f: RunFile): nat
    requires Live(f)
  {
    |Outstanding(CasesOf(suite, SplitOf(f)), Completed(RunOf(f).generations))|
  }

  /** What the gate recognises of a run is exactly the requests it sent, less the unseen ones. */
  lemma RecognisedIsWhatWasSeen(suite: Suite, commands: seq<Command>, f: RunFile)
    requires ValidSuite(suite) && Named(commands) && f in Run(suite, commands).disk.files
    ensures Live(f)
    ensures var s := Run(suite, commands);
            Recognised(View(suite, s.disk.ledger, f)).calls == TallyOf(s, f.name).sent - Unseen(TallyOf(s, f.name))
  {
    var s := Run(suite, commands);
    EveryHistoryKeepsInvariant(suite, commands);
    RecognisedIsSeen(CasesOf(suite, SplitOf(f)), AccountOf(s, f));
    ViewCalls(suite, s, f);
  }

  /** The recognised calls of a run cover the requests it really sent exactly when it is uncrossed. */
  lemma SentIsRecognisedIff(suite: Suite, commands: seq<Command>, f: RunFile)
    requires ValidSuite(suite) && Named(commands) && f in Run(suite, commands).disk.files
    ensures Live(f)
    ensures var s := Run(suite, commands);
            Recognised(View(suite, s.disk.ledger, f)).calls >= TallyOf(s, f.name).sent <==>
                Uncrossed(TallyOf(s, f.name))
  {
    var s := Run(suite, commands);
    EveryHistoryKeepsInvariant(suite, commands);
    RecognisedCoversSentIff(CasesOf(suite, SplitOf(f)), AccountOf(s, f));
    ViewCalls(suite, s, f);
  }

  /** Bought says whether a run ever sent a request, but for a run whose every request is hidden. */
  lemma BoughtSaysSentIff(suite: Suite, commands: seq<Command>, f: RunFile)
    requires ValidSuite(suite) && Named(commands) && f in Run(suite, commands).disk.files
    ensures Live(f)
    ensures var s := Run(suite, commands);
            var t := TallyOf(s, f.name);
            (Bought(View(suite, s.disk.ledger, f)) <==> t.sent > 0) <==> !Hidden(t)
  {
    var s := Run(suite, commands);
    EveryHistoryKeepsInvariant(suite, commands);
    BoughtIsSentIff(CasesOf(suite, SplitOf(f)), AccountOf(s, f));
    ViewCalls(suite, s, f);
  }

  /**
   What a run sent passes the derived ceiling by no more than its unseen requests, and is within it exactly
   while the answers it lost fit in what it has still to ask.
   */
  lemma SentIsWithinCeilingIff(suite: Suite, commands: seq<Command>, f: RunFile)
    requires ValidSuite(suite) && Named(commands) && f in Run(suite, commands).disk.files
    ensures Live(f)
    ensures var t := TallyOf(Run(suite, commands), f.name);
            && t.sent <= |CasesOf(suite, SplitOf(f))| + Unseen(t)
            && (t.sent <= |CasesOf(suite, SplitOf(f))| <==> t.interrupted <= Unanswered(suite, f))
  {
    var s := Run(suite, commands);
    EveryHistoryKeepsInvariant(suite, commands);
    SentWithinCeilingAndUnseen(CasesOf(suite, SplitOf(f)), AccountOf(s, f));
    SentWithinCeilingIff(CasesOf(suite, SplitOf(f)), AccountOf(s, f));
  }

  /** What the run in this file sent is not hidden, and is within the derived ceiling. */
  predicate WithinBounds(suite: Suite, s: State, f: RunFile)
    requires Live(f)
  {
    var t := TallyOf(s, f.name);
    !Hidden(t) && t.interrupted <= Unanswered(suite, f)
  }

  /** An uncrossed run is within both bounds. */
  lemma UncrossedIsWithinBounds(suite: Suite, commands: seq<Command>, f: RunFile)
    requires ValidSuite(suite) && Named(commands) && f in Run(suite, commands).disk.files
    requires Uncrossed(TallyOf(Run(suite, commands), f.name))
    ensures Live(f) && WithinBounds(suite, Run(suite, commands), f)
  {
    var s := Run(suite, commands);
    EveryHistoryKeepsInvariant(suite, commands);
    SentIsRecognisedIff(suite, commands, f);
    SentIsWithinCeilingIff(suite, commands, f);
    ViewCalls(suite, s, f);
    RecognisedWithinCeiling(CasesOf(suite, SplitOf(f)), AccountOf(s, f));
  }

  /** The identities of a split that ever sent a request. */
  ghost function SendingIds(s: State, split: Split, model: string): set<string> {
    set f | f in s.disk.files && Over(f, split, model) && TallyOf(s, f.name).sent > 0 :: f.name
  }

  lemma SenderHasBought(suite: Suite, commands: seq<Command>, split: Split, model: string, f: RunFile)
    requires ValidSuite(suite) && Named(commands) && f in Run(suite, commands).disk.files && Over(f, split, model)
    requires !Hidden(TallyOf(Run(suite, commands), f.name)) && TallyOf(Run(suite, commands), f.name).sent > 0
    ensures SpendOn(suite, Run(suite, commands).disk, split, model).Ok?
    ensures f.name in BoughtIds(SpendOn(suite, Run(suite, commands).disk, split, model).value)
  {
    var s := Run(suite, commands);
    EveryHistoryKeepsInvariant(suite, commands);
    SpendOnLists(suite, s.disk, split, model);
    BoughtSaysSentIff(suite, commands, f);
    hide SpendOn, Invariant, Run, Recognised, ReadLines;
    assert Bought(View(suite, s.disk.ledger, f));
  }

  /** While no run of the split hides all it sent, no more identities than allowed ever send a request at all. */
  lemma FewIdentitiesEverSend(suite: Suite, commands: seq<Command>, split: Split, model: string)
    requires ValidSuite(suite) && Named(commands)
    requires var s := Run(suite, commands);
             forall f :: f in s.disk.files && Over(f, split, model) ==> !Hidden(TallyOf(s, f.name))
    ensures |SendingIds(Run(suite, commands), split, model)| <= MaxRuns(split)
  {
    var s := Run(suite, commands);
    EveryHistoryKeepsInvariant(suite, commands);
    assert SpendOn(suite, s.disk, split, model).Ok?;
    hide SpendOn, Run, Hidden, Over, BoughtIds;
    var bought := BoughtIds(SpendOn(suite, s.disk, split, model).value);
    forall f | f in s.disk.files && Over(f, split, model) && TallyOf(s, f.name).sent > 0 ensures f.name in bought {
      SenderHasBought(suite, commands, split, model, f);
    }
    Subset(SendingIds(s, split, model), bought);
  }

  // ------------------------------------------------------------------ all a split sent

  /** What the runs of a split in these files really sent, added up. */
  function SentOn(s: State, files: seq<RunFile>, split: Split, model: string): nat {
    if files == [] then 0
    else
      var before, f := SentOn(s, files[..|files| - 1], split, model), files[|files| - 1];
      before + if Over(f, split, model) then TallyOf(s, f.name).sent else 0
  }

  /** What of it neither record shows. */
  function UnseenOn(s: State, files: seq<RunFile>, split: Split, model: string): nat {
    if files == [] then 0
    else
      var before, f := UnseenOn(s, files[..|files| - 1], split, model), files[|files| - 1];
      before + if Over(f, split, model) then Unseen(TallyOf(s, f.name)) else 0
  }

  lemma {:induction false} SentFileByFile(suite: Suite, s: State, files: seq<RunFile>, split: Split, model: string)
    requires forall f :: f in files && Over(f, split, model) ==>
        Recognised(View(suite, s.disk.ledger, f)).calls == TallyOf(s, f.name).sent - Unseen(TallyOf(s, f.name))
    ensures SentOn(s, files, split, model)
        == Total(InFileOrder(suite, s.disk.ledger, files, split, model)).calls + UnseenOn(s, files, split, model)
  {
    if files != [] {
      var n := |files| - 1;
      assert files[n] in files && forall f :: f in files[..n] ==> f in files;
      SentFileByFile(suite, s, files[..n], split, model);
      hide Over, Recognised, View, Unseen;
      var before := InFileOrder(suite, s.disk.ledger, files[..n], split, model);
      if Over(files[n], split, model) {
        var view := View(suite, s.disk.ledger, files[n]);
        assert (before + [view])[..|before|] == before;
      }
    }
  }

  /**
   Nothing sent is missing from the gate's total but the unseen requests: over every history, all that was
   ever sent for a split is what the gate reads and those, and so is within the ceiling times the runs
   allowed but for them.
   */
  lemma SplitSentIsReadAndUnseen(suite: Suite, commands: seq<Command>, split: Split, model: string)
    requires ValidSuite(suite) && Named(commands)
    ensures var s := Run(suite, commands);
            var gate, unseen := SpendOn(suite, s.disk, split, model), UnseenOn(s, s.disk.files, split, model);
            && gate.Ok?
            && SentOn(s, s.disk.files, split, model) == Total(gate.value).calls + unseen
            && SentOn(s, s.disk.files, split, model) <= |CasesOf(suite, split)| * MaxRuns(split) + unseen
  {
    var s := Run(suite, commands);
    EveryHistoryKeepsInvariant(suite, commands);
    forall f | f in s.disk.files && Over(f, split, model)
        ensures Recognised(View(suite, s.disk.ledger, f)).calls
            == TallyOf(s, f.name).sent - Unseen(TallyOf(s, f.name)) {
      RecognisedIsWhatWasSeen(suite, commands, f);
    }
    SentFileByFile(suite, s, s.disk.files, split, model);
    RecognisedSpendStaysUnderEveryCeiling(suite, commands, split, model);
    ReadingIsFileByFile(suite, s.disk, split, model);
  }

  function SendersIn(s: State, files: seq<RunFile>, split: Split, model: string): set<string> {
    set f | f in files && Over(f, split, model) && TallyOf(s, f.name).sent > 0 :: f.name
  }

  lemma SendersNext(s: State, files: seq<RunFile>, split: Split, model: string)
    requires files != [] && DistinctNames(files)
    ensures var before, f := SendersIn(s, files[..|files| - 1], split, model), files[|files| - 1];
            && SendersIn(s, files, split, model)
               == (if Over(f, split, model) && TallyOf(s, f.name).sent > 0 then before + {f.name} else before)
            && f.name !in before
  {
    hide Over;
    assert files == files[..|files| - 1] + [files[|files| - 1]];
  }

  lemma {:induction false} SentByTheSenders(s: State, files: seq<RunFile>, split: Split, model: string, ceiling: nat)
    requires DistinctNames(files)
    requires forall f :: f in files && Over(f, split, model) ==> TallyOf(s, f.name).sent <= ceiling
    ensures SentOn(s, files, split, model) <= ceiling * |SendersIn(s, files, split, model)|
  {
    if files != [] {
      var n := |files| - 1;
      assert forall f :: f in files[..n] ==> f in files;
      SentByTheSenders(s, files[..n], split, model, ceiling);
      SendersNext(s, files, split, model);
      assert files[n] in files;
      hide Over, SendersIn;
      var sent := if Over(files[n], split, model) then TallyOf(s, files[n].name).sent else 0;
      ScaledNext(ceiling, SentOn(s, files[..n], split, model), |SendersIn(s, files[..n], split, model)|,
                 |SendersIn(s, files, split, model)|, sent);
    }
  }

  /**
   While no run of the split hides all it sent or lost more answers than it has cases left for them, all
   the requests ever sent for the split are within the derived ceiling times the runs it may buy.
   */
  lemma SentStaysUnderEveryCeiling(suite: Suite, commands: seq<Command>, split: Split, model: string)
    requires ValidSuite(suite) && Named(commands)
    requires var s := Run(suite, commands);
             forall f :: f in s.disk.files && Over(f, split, model) ==> WithinBounds(suite, s, f)
    ensures var s := Run(suite, commands);
            SentOn(s, s.disk.files, split, model) <= |CasesOf(suite, split)| * MaxRuns(split)
  {
    var s, n := Run(suite, commands), |CasesOf(suite, split)|;
    EveryHistoryKeepsInvariant(suite, commands);
    forall f | f in s.disk.files && Over(f, split, model)
        ensures TallyOf(s, f.name).sent <= n && !Hidden(TallyOf(s, f.name)) {
      SentIsWithinCeilingIff(suite, commands, f);
      OverMeansItsSplit(f, split, model);
    }
    FewIdentitiesEverSend(suite, commands, split, model);
    SentByTheSenders(s, s.disk.files, split, model, n);
    assert SendersIn(s, s.disk.files, split, model) == SendingIds(s, split, model);
    Scale(n, |SendingIds(s, split, model)|, MaxRuns(split));
  }
}
