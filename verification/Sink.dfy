/**
 The effect-set runner's own bookkeeping: verdicts read back from the sink the scenarios appended
 to, laid against the manifest, and scored.
 */
module Sink {
  import opened Common
  import opened Counting

  const PASS := "PASS"
  const HARNESS_FAILURE := "HARNESS_FAILURE"

  type Diff = map<string, string>

  datatype Outcome = Outcome(scenario: string, outcome: string, reason: string, diffs: seq<Diff>)

  datatype Line = Blank | Verdict(outcome: Outcome)

  predicate Names(id: string, line: Line) {
    line.Verdict? && line.outcome.scenario == id
  }

  /** The lines that report this scenario. */
  function Reports(id: string, lines: seq<Line>): seq<Line> {
    Filter(line => Names(id, line), lines)
  }

  const REPORTED_TWICE := "reported more than once in a single run"
  const NOT_WIRED := "not wired: this scenario has no executable path yet, so the harness cannot tell "
                     + "whether the system agrees with its frozen labels"
  const NO_VERDICT := "wired, but reached no verdict: it raised, timed out or never ran"

  function HarnessFailure(id: string, reason: string): Outcome {
    Outcome(id, HARNESS_FAILURE, reason, [])
  }

  /** What the sink says of one scenario: its one verdict, or that it gave more than one. */
  function Reported(id: string, lines: seq<Line>): Option<Outcome> {
    var reports := Reports(id, lines);
    if reports == [] then None
    else if |reports| == 1 && reports[0].Verdict? then Some(reports[0].outcome)
    else Some(HarnessFailure(id, REPORTED_TWICE))
  }

  ghost predicate Holds(found: map<string, Outcome>, lines: seq<Line>) {
    forall id :: (if id in found then Some(found[id]) else None) == Reported(id, lines)
  }

  lemma ReportsNext(id: string, lines: seq<Line>, k: nat)
    requires k < |lines|
    ensures Reports(id, lines[..k + 1]) == Reports(id, lines[..k]) + if Names(id, lines[k]) then [lines[k]] else []
  {
    assert lines[..k + 1][..k] == lines[..k];
  }

  lemma ReportsName(id: string, lines: seq<Line>)
    ensures forall line :: line in Reports(id, lines) ==> Names(id, line)
  {
    FilterCounts(line => Names(id, line), lines);
  }

  lemma {:induction false} HoldsNext(found: map<string, Outcome>, found': map<string, Outcome>, lines: seq<Line>,
      k: nat)
    requires k < |lines| && Holds(found, lines[..k])
    requires match lines[k]
             case Blank => found' == found
             case Verdict(o) => found' == found[o.scenario := if o.scenario in found
                 then HarnessFailure(o.scenario, REPORTED_TWICE) else o]
    ensures Holds(found', lines[..k + 1])
  {
    forall id ensures (if id in found' then Some(found'[id]) else None) == Reported(id, lines[..k + 1]) {
      ReportsNext(id, lines, k);
      ReportsName(id, lines[..k]);
      var before := Reports(id, lines[..k]);
      assert before != [] ==> before[0] in before;
      assert (if id in found then Some(found[id]) else None) == Reported(id, lines[..k]);
    }
  }

  /** Of two verdicts for one scenario neither wins: a run that reported it twice cannot say which it means. */
  method ReadSink(file: Option<seq<Line>>) returns (found: map<string, Outcome>)
    ensures Holds(found, if file.Some? then file.value else [])
  {
    found := map[];
    if file == None {
      return;
    }
    var lines := file.value;
    for k := 0 to |lines|
      invariant Holds(found, lines[..k])
    {
      ghost var before := found;
      if lines[k].Verdict? {
        var outcome := lines[k].outcome;
        if outcome.scenario in found {
          found := found[outcome.scenario := HarnessFailure(outcome.scenario, REPORTED_TWICE)];
        } else {
          found := found[outcome.scenario := outcome];
        }
      }
      HoldsNext(before, found, lines, k);
    }
    assert lines[..|lines|] == lines;
  }

  // ------------------------------------------------------------------ against the manifest

  function OutcomeFor(id: string, wired: set<string>, lines: seq<Line>): Outcome {
    if id !in wired then HarnessFailure(id, NOT_WIRED)
    else if Reported(id, lines).None? then HarnessFailure(id, NO_VERDICT)
    else Reported(id, lines).value
  }

  /** One outcome a scenario, in manifest order, with no gaps. */
  function Outcomes(manifest: seq<string>, wired: set<string>, lines: seq<Line>): seq<Outcome> {
    seq(|manifest|, i requires 0 <= i < |manifest| => OutcomeFor(manifest[i], wired, lines))
  }

  lemma NoOutcomes(wired: set<string>, lines: seq<Line>)
    ensures Outcomes([], wired, lines) == []
  {
  }

  lemma OutcomesNext(manifest: seq<string>, wired: set<string>, lines: seq<Line>, k: nat)
    requires k < |manifest|
    ensures Outcomes(manifest[..k + 1], wired, lines)
         == Outcomes(manifest[..k], wired, lines) + [OutcomeFor(manifest[k], wired, lines)]
  {
    hide OutcomeFor;
  }

  method Reconcile(manifest: seq<string>, wired: set<string>, reported: map<string, Outcome>, ghost lines: seq<Line>)
      returns (outcomes: seq<Outcome>)
    requires Holds(reported, lines)
    ensures outcomes == Outcomes(manifest, wired, lines)
  {
    hide Outcomes, Reported;
    outcomes := [];
    NoOutcomes(wired, lines);
    for k := 0 to |manifest|
      invariant outcomes == Outcomes(manifest[..k], wired, lines)
    {
      var id := manifest[k];
      OutcomesNext(manifest, wired, lines, k);
      assert (if id in reported then Some(reported[id]) else None) == Reported(id, lines);
      if id !in wired {
        outcomes := outcomes + [HarnessFailure(id, NOT_WIRED)];
        continue;
      }
      if id !in reported {
        outcomes := outcomes + [HarnessFailure(id, NO_VERDICT)];
        continue;
      }
      outcomes := outcomes + [reported[id]];
    }
    assert manifest[..|manifest|] == manifest;
  }

  // ------------------------------------------------------------------ what the reconciliation says

  /** Each scenario of the manifest has its own row, where the manifest put it. */
  lemma OneRowEach(manifest: seq<string>, wired: set<string>, lines: seq<Line>)
    ensures |Outcomes(manifest, wired, lines)| == |manifest|
    ensures forall i :: 0 <= i < |manifest| ==> Outcomes(manifest, wired, lines)[i].scenario == manifest[i]
  {
    forall i | 0 <= i < |manifest| ensures Outcomes(manifest, wired, lines)[i].scenario == manifest[i] {
      OutcomeIsItsOwn(manifest[i], wired, lines);
    }
  }

  lemma OutcomeIsItsOwn(id: string, wired: set<string>, lines: seq<Line>)
    ensures OutcomeFor(id, wired, lines).scenario == id
  {
    ReportsName(id, lines);
    var reports := Reports(id, lines);
    assert reports != [] ==> reports[0] in reports;
  }

  /** Here is a verdict for the scenario. */
  predicate IsFor(id: string, lines: seq<Line>, i: nat) {
    i < |lines| && lines[i].Verdict? && lines[i].outcome.scenario == id
  }

  /** One line is a verdict for the scenario, it is this one, and no other line is. */
  ghost predicate OnlyLine(id: string, lines: seq<Line>, o: Outcome) {
    exists i: nat :: IsFor(id, lines, i) && lines[i].outcome == o && forall j: nat :: IsFor(id, lines, j) ==> j == i
  }

  lemma {:induction false} ReportsNone(id: string, lines: seq<Line>)
    ensures Reports(id, lines) == [] <==> forall i: nat :: !IsFor(id, lines, i)
  {
    if lines != [] {
      var n := |lines| - 1;
      ReportsNone(id, lines[..n]);
      assert forall i: nat :: i < n ==> IsFor(id, lines, i) == IsFor(id, lines[..n], i);
      assert IsFor(id, lines, n) == Names(id, lines[n]);
      assert forall i: nat :: IsFor(id, lines[..n], i) ==> IsFor(id, lines, i);
    }
  }

  lemma {:induction false} ReportsOne(id: string, lines: seq<Line>, o: Outcome)
    ensures Reports(id, lines) == [Verdict(o)] <==> OnlyLine(id, lines, o)
  {
    if lines != [] {
      var n := |lines| - 1;
      ReportsOne(id, lines[..n], o);
      ReportsNone(id, lines[..n]);
      assert forall i: nat :: i < n ==> IsFor(id, lines, i) == IsFor(id, lines[..n], i) && lines[..n][i] == lines[i];
      assert forall i: nat :: i > n ==> !IsFor(id, lines, i);
      var before := Reports(id, lines[..n]);
      if Names(id, lines[n]) {
        assert IsFor(id, lines, n);
        assert Reports(id, lines) == before + [lines[n]];
        assert before + [lines[n]] == [Verdict(o)] <==> before == [] && lines[n] == Verdict(o) by {
          if before + [lines[n]] == [Verdict(o)] { assert |before| == 0 && (before + [lines[n]])[0] == lines[n]; }
        }
      } else {
        assert !IsFor(id, lines, n) && Reports(id, lines) == before;
      }
    }
  }

  /**
   A verdict stands exactly when its scenario is wired and one line names it; otherwise the row is a harness
   failure.
   */
  lemma KeptExactlyWhenOneLine(id: string, wired: set<string>, lines: seq<Line>, o: Outcome)
    requires o.outcome != "HARNESS_FAILURE"
    ensures OutcomeFor(id, wired, lines) == o <==> id in wired && OnlyLine(id, lines, o)
    ensures (id !in wired || !exists v :: OnlyLine(id, lines, v))
            ==> OutcomeFor(id, wired, lines).outcome == "HARNESS_FAILURE"
  {
    ReportsName(id, lines);
    var reports := Reports(id, lines);
    ReportsOne(id, lines, o);
    if |reports| == 1 {
      assert reports[0] in reports && reports == [reports[0]];
      ReportsOne(id, lines, reports[0].outcome);
    }
  }

  /** The order the scenarios finished in changes nothing. */
  lemma OrderOfLinesIsNothing(manifest: seq<string>, wired: set<string>, lines: seq<Line>, lines': seq<Line>)
    requires multiset(lines) == multiset(lines')
    ensures Outcomes(manifest, wired, lines) == Outcomes(manifest, wired, lines')
  {
    forall i | 0 <= i < |manifest| ensures OutcomeFor(manifest[i], wired, lines)
        == OutcomeFor(manifest[i], wired, lines') {
      ReportedIgnoresOrder(manifest[i], lines, lines');
    }
  }

  lemma ReportedIgnoresOrder(id: string, lines: seq<Line>, lines': seq<Line>)
    requires multiset(lines) == multiset(lines')
    ensures Reported(id, lines) == Reported(id, lines')
  {
    FilterIgnoresOrder(line => Names(id, line), lines, lines');
    var a, b := Reports(id, lines), Reports(id, lines');
    assert |multiset(a)| == |a| && |multiset(b)| == |b|;
    if |a| == 1 {
      assert multiset(a) == multiset{a[0]} && multiset(b) == multiset{b[0]};
      assert b[0] in multiset(a);
    }
  }

  // ------------------------------------------------------------------ the score

  datatype Score = Score(passed: nat, of: nat)

  datatype Capture = Refused | Captured(outcomes: seq<Outcome>, score: Option<Score>)

  /** A score is refused unless every scenario of the manifest is wired. */
  method Measure(scored: bool, manifest: seq<string>, wired: set<string>, sink: Option<seq<Line>>)
      returns (capture: Capture)
    ensures capture == Measured(scored, manifest, wired, if sink.Some? then sink.value else [])
  {
    if scored && exists id :: id in manifest && id !in wired {
      return Refused;
    }
    ghost var lines := if sink.Some? then sink.value else [];
    var reported := ReadSink(sink);
    var outcomes := Reconcile(manifest, wired, reported, lines);
    if !scored {
      return Captured(outcomes, None);
    }
    capture := Captured(outcomes, Some(Score(Count((o: Outcome) => o.outcome == PASS, outcomes), |manifest|)));
  }

  function Measured(scored: bool, manifest: seq<string>, wired: set<string>, lines: seq<Line>): Capture {
    if scored && exists id :: id in manifest && id !in wired then Refused
    else
      var outcomes := Outcomes(manifest, wired, lines);
      Captured(outcomes, if scored then Some(Score(Count((o: Outcome) => o.outcome == PASS, outcomes), |manifest|))
          else None)
  }

  /** One line names this scenario, and it says the labels held. */
  predicate Demonstrated(id: string, lines: seq<Line>) {
    |Reports(id, lines)| == 1 && Reports(id, lines)[0].Verdict? && Reports(id, lines)[0].outcome.outcome == PASS
  }

  lemma {:induction false} PassesCount(manifest: seq<string>, wired: set<string>, lines: seq<Line>)
    ensures Count((o: Outcome) => o.outcome == PASS, Outcomes(manifest, wired, lines))
            == Count(id => id in wired && Demonstrated(id, lines), manifest)
  {
    if manifest != [] {
      var n := |manifest| - 1;
      PassesCount(manifest[..n], wired, lines);
      assert Outcomes(manifest, wired, lines)[..n] == Outcomes(manifest[..n], wired, lines);
      assert Outcomes(manifest, wired, lines)[n] == OutcomeFor(manifest[n], wired, lines);
    }
  }

  /** One line is this scenario's verdict, and it is a pass. */
  ghost predicate Passed(id: string, lines: seq<Line>) {
    exists o :: OnlyLine(id, lines, o) && o.outcome == "PASS"
  }

  lemma DemonstratedIsPassed(id: string, lines: seq<Line>)
    ensures Demonstrated(id, lines) <==> Passed(id, lines)
  {
    var reports := Reports(id, lines);
    if Demonstrated(id, lines) {
      assert reports == [Verdict(reports[0].outcome)];
      ReportsOne(id, lines, reports[0].outcome);
    }
    if o :| OnlyLine(id, lines, o) && o.outcome == "PASS" {
      ReportsOne(id, lines, o);
    }
  }

  /**
   A score is over the whole manifest or is not given at all, and counts exactly the scenarios that
   were demonstrated: named by one line, and that line a pass.
   */
  lemma ScoreIsWhatWasDemonstrated(scored: bool, manifest: seq<string>, wired: set<string>, lines: seq<Line>)
    ensures Measured(scored, manifest, wired, lines).Refused? <==> scored && exists id :: id in manifest && id !in wired
    ensures Measured(scored, manifest, wired, lines).Captured? && scored ==>
              Measured(scored, manifest, wired, lines).score
                  == Some(Score(|Places(id => Passed(id, lines), manifest)|, |manifest|))
    ensures !scored ==>
        Measured(scored, manifest, wired, lines).Captured? && Measured(scored, manifest, wired, lines).score == None
  {
    hide Outcomes, Demonstrated, Passed;
    PassesCount(manifest, wired, lines);
    if forall id :: id in manifest ==> id in wired {
      forall id ensures Demonstrated(id, lines) <==> Passed(id, lines) {
        DemonstratedIsPassed(id, lines);
      }
      CountsTheSame(id => id in wired && Demonstrated(id, lines), id => Passed(id, lines), manifest);
    }
  }
}
