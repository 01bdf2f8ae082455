/**
 The append-only cost ledger: one line per pass, read back two ways -- as one total, and grouped
 by run identity.
 */
module Ledger {
  import opened Common
  import opened Budget
  import Order

  /** One readable line. A field of the wrong JSON type is absent. */
  datatype Line = Line(
    runId: Option<string>,
    mode: string,
    provider: string,
    modelId: Option<string>,
    calls: Option<int>,
    attempts: Option<int>,
    inputTokens: Option<int>,
    outputTokens: Option<int>,
    usd: Option<Usd>,
    splits: seq<string>)

  datatype Run = Run(runId: string, totals: Totals, splits: seq<string>)

  function Figure(value: Option<int>): int {
    if value.Some? then value.value else 0
  }

  /** What a reading is restricted to: a mode, perhaps a provider, perhaps a model. */
  datatype Scope = Scope(mode: string, provider: Option<string>, modelId: Option<string>)

  predicate Selected(line: Line, scope: Scope) {
    line.mode == scope.mode && (scope.provider == None || line.provider == scope.provider.value)
  }

  function LineTotals(line: Line): Totals {
    Totals(1, Figure(line.calls), Figure(line.attempts), Figure(line.inputTokens), Figure(line.outputTokens),
           Figure(line.usd), 0, 0, 0)
  }

  function Unattributed(line: Line): Totals {
    NOTHING.(unattributedRuns := 1, unattributedCalls := Figure(line.calls))
  }

  /** What one line adds to a model's total. */
  function Contribution(line: Line, scope: Scope): Totals {
    if !Selected(line, scope) then NOTHING
    else if scope.modelId == None || line.modelId == scope.modelId then LineTotals(line)
    else if line.modelId == None then Unattributed(line)
    else NOTHING
  }

  /** The total without the counts kept beside it. */
  function Attributed(totals: Totals): Totals {
    totals.(unattributedRuns := 0, unattributedCalls := 0)
  }

  function SumOf(lines: seq<Line>, scope: Scope): Totals {
    if lines == [] then NOTHING
    else AddTotals(SumOf(lines[..|lines| - 1], scope),
                   Contribution(lines[|lines| - 1], scope))
  }

  lemma SumOfNext(lines: seq<Line>, k: nat, scope: Scope)
    requires k < |lines|
    ensures SumOf(lines[..k + 1], scope) == AddTotals(SumOf(lines[..k], scope), Contribution(lines[k], scope))
  {
    assert lines[..k + 1][..k] == lines[..k];
  }

  method LedgerTotals(lines: seq<Line>, scope: Scope)
    returns (totals: Totals)
    ensures totals == SumOf(lines, scope)
  {
    var runs, calls, attempts, input, output, spend := 0, 0, 0, 0, 0, 0;
    var unattributedRuns, unattributedCalls := 0, 0;
    for k := 0 to |lines|
      invariant var sum := SumOf(lines[..k], scope);
        && sum.runs == runs && sum.calls == calls && sum.attempts == attempts
        && sum.inputTokens == input && sum.outputTokens == output && sum.usd == spend
        && sum.unattributedRuns == unattributedRuns && sum.unattributedCalls == unattributedCalls
        && sum.unsentCalls == 0
    {
      var entry := lines[k];
      SumOfNext(lines, k, scope);
      if !Selected(entry, scope) {
        continue;
      }
      if scope.modelId.Some? && entry.modelId != scope.modelId {
        if entry.modelId == None {
          unattributedRuns := unattributedRuns + 1;
          unattributedCalls := unattributedCalls + Figure(entry.calls);
        }
        continue;
      }
      runs := runs + 1;
      calls := calls + Figure(entry.calls);
      attempts := attempts + Figure(entry.attempts);
      input := input + Figure(entry.inputTokens);
      output := output + Figure(entry.outputTokens);
      spend := spend + Figure(entry.usd);
    }
    assert lines[..|lines|] == lines;
    totals := Totals(runs, calls, attempts, input, output, spend, unattributedRuns, unattributedCalls, 0);
  }

  // ------------------------------------------------------------------ grouped by run

  /** The line belongs to a run of this model: it names the model and a run. */
  predicate OfModel(line: Line, scope: Scope) {
    Selected(line, scope) && line.modelId == scope.modelId && line.runId.Some? && line.runId.value != ""
  }

  predicate OfRun(line: Line, scope: Scope, runId: string) {
    OfModel(line, scope) && line.runId == Some(runId)
  }

  /** The specification of one group: the sum of that run's own lines, wherever they stand. */
  function RunTotals(lines: seq<Line>, scope: Scope, runId: string): Totals {
    if lines == [] then NOTHING
    else
      var last := lines[|lines| - 1];
      var before := RunTotals(lines[..|lines| - 1], scope, runId);
      if OfRun(last, scope, runId) then AddTotals(before, LineTotals(last)) else before
  }

  /** The split names not yet in `known`; a name a line repeats is kept as often as it is repeated. */
  function NewNames(known: seq<string>, names: seq<string>): seq<string> {
    if names == [] then []
    else (if names[0] in known then [] else [names[0]]) + NewNames(known, names[1..])
  }

  function RunSplits(lines: seq<Line>, scope: Scope, runId: string): seq<string> {
    if lines == [] then []
    else
      var last := lines[|lines| - 1];
      var before := RunSplits(lines[..|lines| - 1], scope, runId);
      if OfRun(last, scope, runId) then before + NewNames(before, last.splits) else before
  }

  /** The run identities of the ledger, each where it is first met. */
  function FirstAppearances(lines: seq<Line>, scope: Scope): seq<string> {
    if lines == [] then []
    else
      var last := lines[|lines| - 1];
      var before := FirstAppearances(lines[..|lines| - 1], scope);
      if OfModel(last, scope) && last.runId.value !in before then before + [last.runId.value] else before
  }

  /** The groups of a ledger: its run identities by first appearance, each with its own lines' sums. */
  function Groups(lines: seq<Line>, scope: Scope): seq<Run> {
    var ids := FirstAppearances(lines, scope);
    seq(|ids|, i requires 0 <= i < |ids| =>
      Run(ids[i], RunTotals(lines, scope, ids[i]), RunSplits(lines, scope, ids[i])))
  }

  /** In the order their first lines stand in: those of the first lines come first. */
  lemma {:induction false} FirstAppearancesInOrder(lines: seq<Line>, scope: Scope, k: nat)
    requires k <= |lines|
    ensures FirstAppearances(lines[..k], scope) <= FirstAppearances(lines, scope)
    decreases |lines|
  {
    if k < |lines| {
      var n := |lines| - 1;
      assert lines[..n][..k] == lines[..k];
      FirstAppearancesInOrder(lines[..n], scope, k);
    } else {
      assert lines[..k] == lines;
    }
  }

  /** A run is listed once, and only when one of its lines is there. */
  lemma {:induction false} FirstAppearancesAreTheRuns(lines: seq<Line>, scope: Scope)
    ensures Order.Distinct(FirstAppearances(lines, scope))
    ensures forall id :: id in FirstAppearances(lines, scope)
                    <==> exists k :: 0 <= k < |lines| && OfRun(lines[k], scope, id)
  {
    if lines != [] {
      var n := |lines| - 1;
      FirstAppearancesAreTheRuns(lines[..n], scope);
      forall id
        ensures id in FirstAppearances(lines, scope)
           <==> exists k :: 0 <= k < |lines| && OfRun(lines[k], scope, id)
      {
        if k :| 0 <= k < |lines| && OfRun(lines[k], scope, id) {
          if k < n { assert lines[..n][k] == lines[k]; }
        }
        if k :| 0 <= k < n && OfRun(lines[..n][k], scope, id) {
          assert lines[k] == lines[..n][k];
        }
      }
    }
  }

  lemma {:induction false} AbsentRunHasNothing(lines: seq<Line>, scope: Scope, runId: string)
    requires forall k :: 0 <= k < |lines| ==> !OfRun(lines[k], scope, runId)
    ensures RunTotals(lines, scope, runId) == NOTHING
    ensures RunSplits(lines, scope, runId) == []
  {
    if lines != [] {
      AbsentRunHasNothing(lines[..|lines| - 1], scope, runId);
    }
  }

  lemma GroupNext(lines: seq<Line>, k: nat, scope: Scope, id: string)
    requires k < |lines|
    ensures Group(lines[..k + 1], scope, id) == Extended(Group(lines[..k], scope, id), lines[k], scope, id)
  {
    assert lines[..k + 1][..k] == lines[..k];
  }

  lemma OrderNext(lines: seq<Line>, k: nat, scope: Scope)
    requires k < |lines|
    ensures FirstAppearances(lines[..k + 1], scope) == Ordered(FirstAppearances(lines[..k], scope), lines[k], scope)
  {
    assert lines[..k + 1][..k] == lines[..k];
  }

  function Ordered(ids: seq<string>, line: Line, scope: Scope): seq<string> {
    if OfModel(line, scope) && line.runId.value !in ids then ids + [line.runId.value] else ids
  }

  function Group(lines: seq<Line>, scope: Scope, id: string): (Totals, seq<string>) {
    (RunTotals(lines, scope, id), RunSplits(lines, scope, id))
  }

  function Extended(group: (Totals, seq<string>), line: Line, scope: Scope, id: string): (Totals, seq<string>) {
    if OfRun(line, scope, id) then (AddTotals(group.0, LineTotals(line)), group.1 + NewNames(group.1, line.splits))
    else group
  }

  lemma NewRunStartsEmpty(lines: seq<Line>, scope: Scope, id: string)
    requires id !in FirstAppearances(lines, scope)
    ensures Group(lines, scope, id) == (NOTHING, [])
  {
    FirstAppearancesAreTheRuns(lines, scope);
    AbsentRunHasNothing(lines, scope, id);
  }

  /** The insertion-ordered dictionary holds these groups. */
  ghost predicate Holds(order: seq<string>, grouped: map<string, (Totals, seq<string>)>, ids: seq<string>,
      group: string -> (Totals, seq<string>)) {
    && order == ids
    && (forall id :: id in grouped <==> id in order)
    && (forall id :: id in grouped ==> grouped[id] == group(id))
  }

  ghost function GroupOf(lines: seq<Line>, scope: Scope): string -> (Totals, seq<string>) {
    id => Group(lines, scope, id)
  }

  lemma HoldsStep(order: seq<string>, grouped: map<string, (Totals, seq<string>)>, line: Line, scope: Scope,
                  before: string -> (Totals, seq<string>), after: string -> (Totals, seq<string>))
    requires Holds(order, grouped, order, before)
    requires forall id :: after(id) == Extended(before(id), line, scope, id)
    requires OfModel(line, scope) && line.runId.value !in order ==> before(line.runId.value) == (NOTHING, [])
    ensures !OfModel(line, scope) ==> Holds(order, grouped, Ordered(order, line, scope), after)
    ensures OfModel(line, scope) ==>
      var id := line.runId.value;
      var soFar := if id in grouped then grouped[id] else (NOTHING, []);
      Holds(Ordered(order, line, scope), grouped[id := Extended(soFar, line, scope, id)], Ordered(order, line, scope),
          after)
  {
  }

  lemma HoldsNext(order: seq<string>, grouped: map<string, (Totals, seq<string>)>, lines: seq<Line>, k: nat,
      scope: Scope)
    requires k < |lines| && Holds(order, grouped, FirstAppearances(lines[..k], scope), GroupOf(lines[..k], scope))
    ensures !OfModel(lines[k], scope) ==>
      Holds(order, grouped, FirstAppearances(lines[..k + 1], scope), GroupOf(lines[..k + 1], scope))
    ensures OfModel(lines[k], scope) ==>
      var id := lines[k].runId.value;
      var soFar := if id in grouped then grouped[id] else (NOTHING, []);
      Holds(Ordered(order, lines[k], scope), grouped[id := Extended(soFar, lines[k], scope, id)],
            FirstAppearances(lines[..k + 1], scope), GroupOf(lines[..k + 1], scope))
  {
    OrderNext(lines, k, scope);
    var before, after := GroupOf(lines[..k], scope), GroupOf(lines[..k + 1], scope);
    forall id ensures after(id) == Extended(before(id), lines[k], scope, id) {
      GroupNext(lines, k, scope, id);
    }
    if OfModel(lines[k], scope) && lines[k].runId.value !in order {
      NewRunStartsEmpty(lines[..k], scope, lines[k].runId.value);
    }
    HoldsStep(order, grouped, lines[k], scope, before, after);
  }

  method LedgerRuns(lines: seq<Line>, scope: Scope)
    returns (runs: seq<Run>)
    ensures runs == Groups(lines, scope)
  {
    var order: seq<string> := [];
    var grouped: map<string, (Totals, seq<string>)> := map[];
    for k := 0 to |lines|
      invariant Holds(order, grouped, FirstAppearances(lines[..k], scope), GroupOf(lines[..k], scope))
    {
      var entry := lines[k];
      HoldsNext(order, grouped, lines, k, scope);
      if !Selected(entry, scope) || entry.modelId != scope.modelId {
        continue;
      }
      if entry.runId == None || entry.runId.value == "" {
        continue;
      }
      var id := entry.runId.value;
      var soFar, splits := NOTHING, [];
      if id in grouped {
        soFar, splits := grouped[id].0, grouped[id].1;
      } else {
        order := order + [id];
      }
      grouped := grouped[id := (AddTotals(soFar, LineTotals(entry)), splits + NewNames(splits, entry.splits))];
    }
    assert lines[..|lines|] == lines;
    runs := seq(|order|, i requires 0 <= i < |order| && order[i] in grouped =>
      Run(order[i], grouped[order[i]].0, grouped[order[i]].1));
  }

  // ------------------------------------------------------------------ grouping loses nothing

  function GroupSum(runs: seq<Run>): Totals {
    if runs == [] then NOTHING
    else AddTotals(GroupSum(runs[..|runs| - 1]), runs[|runs| - 1].totals)
  }

  /** Sum over listed identities, one line's worth changed at one position. */
  lemma {:induction false} GroupSumChangesAt(before: seq<Run>, after: seq<Run>, at: nat, added: Totals)
    requires |before| == |after| && at < |before|
    requires forall i :: 0 <= i < |before| && i != at ==> after[i].totals == before[i].totals
    requires after[at].totals == AddTotals(before[at].totals, added)
    ensures GroupSum(after) == AddTotals(GroupSum(before), added)
  {
    var n := |before| - 1;
    if at == n {
      GroupSumSame(before[..n], after[..n]);
    } else {
      GroupSumChangesAt(before[..n], after[..n], at, added);
    }
  }

  lemma {:induction false} GroupSumSame(before: seq<Run>, after: seq<Run>)
    requires |before| == |after|
    requires forall i :: 0 <= i < |before| ==> after[i].totals == before[i].totals
    ensures GroupSum(after) == GroupSum(before)
  {
    if before != [] {
      GroupSumSame(before[..|before| - 1], after[..|after| - 1]);
    }
  }

  /** Every line of the model names its run. */
  predicate AllNamed(lines: seq<Line>, scope: Scope) {
    forall k :: 0 <= k < |lines| && Selected(lines[k], scope) && lines[k].modelId == scope.modelId
      ==> lines[k].runId.Some? && lines[k].runId.value != ""
  }

  /**
   The two readings of one ledger agree: adding up the groups gives the model's total, but for
   the lines that name no model, which the total counts beside itself and no group holds.
   */
  lemma {:induction false} GroupingLosesNothing(lines: seq<Line>, scope: Scope)
    requires scope.modelId.Some? && AllNamed(lines, scope)
    ensures GroupSum(Groups(lines, scope))
         == Attributed(SumOf(lines, scope))
  {
    if lines != [] {
      var n := |lines| - 1;
      var last := lines[n];
      assert forall k :: 0 <= k < n ==> lines[..n][k] == lines[k];
      GroupingLosesNothing(lines[..n], scope);
      AttributedAdds(SumOf(lines[..n], scope), lines[n], scope);
      GroupSumNext(lines, scope);
    }
  }

  lemma AttributedAdds(before: Totals, line: Line, scope: Scope)
    requires scope.modelId.Some?
    ensures Attributed(AddTotals(before, Contribution(line, scope)))
         == if Selected(line, scope) && line.modelId == scope.modelId
             then AddTotals(Attributed(before), LineTotals(line))
            else Attributed(before)
  {
  }

  function Charged(run: Run, line: Line, scope: Scope): Totals {
    if OfRun(line, scope, run.runId) then AddTotals(run.totals, LineTotals(line)) else run.totals
  }

  /** The groups after one more line: that line's run grew by it, or appeared with it. */
  predicate Grown(before: seq<Run>, after: seq<Run>, line: Line, scope: Scope) {
    && |before| <= |after|
    && (forall i :: 0 <= i < |before| ==> after[i].runId == before[i].runId)
    && (forall i :: 0 <= i < |before| ==> after[i].totals == Charged(before[i], line, scope))
    && (|before| == |after| || |after| == |before| + 1)
    && (|after| == |before| + 1 <==>
         OfModel(line, scope) && forall i :: 0 <= i < |before| ==> before[i].runId != line.runId.value)
    && (|after| == |before| + 1 ==> after[|before|].totals == LineTotals(line))
  }

  lemma SumGrown(before: seq<Run>, after: seq<Run>, line: Line, scope: Scope)
    requires Grown(before, after, line, scope)
    requires forall i, j :: 0 <= i < j < |before| ==> before[i].runId != before[j].runId
    ensures GroupSum(after) == if OfModel(line, scope) then AddTotals(GroupSum(before), LineTotals(line))
        else GroupSum(before)
  {
    if |after| == |before| + 1 {
      assert after[..|before|] == after[..|after| - 1];
      GroupSumSame(before, after[..|before|]);
    } else if OfModel(line, scope) {
      var at :| 0 <= at < |before| && before[at].runId == line.runId.value;
      GroupSumChangesAt(before, after, at, LineTotals(line));
    } else {
      GroupSumSame(before, after);
    }
  }

  lemma GroupsNext(lines: seq<Line>, scope: Scope)
    requires lines != []
    ensures Grown(Groups(lines[..|lines| - 1], scope), Groups(lines, scope), lines[|lines| - 1], scope)
  {
    hide RunTotals, RunSplits, FirstAppearances;
    var n := |lines| - 1;
    var last := lines[n];
    var before, after := Groups(lines[..n], scope), Groups(lines, scope);
    var ids := FirstAppearances(lines[..n], scope);
    assert lines[..n + 1] == lines;
    OrderNext(lines, n, scope);
    forall i | 0 <= i < |before|
      ensures after[i].totals == Charged(before[i], last, scope)
    {
      GroupNext(lines, n, scope, ids[i]);
    }
    assert last.runId.Some? ==> ((exists i :: 0 <= i < |before| && before[i].runId == last.runId.value) <==>
        last.runId.value in ids) by {
      assert forall i :: 0 <= i < |before| ==> before[i].runId == ids[i];
    }
    if |after| == |before| + 1 {
      NewGroupIsTheLine(lines, scope);
    }
  }

  lemma GroupSumNext(lines: seq<Line>, scope: Scope)
    requires lines != []
    ensures var last, before := lines[|lines| - 1], GroupSum(Groups(lines[..|lines| - 1], scope));
            GroupSum(Groups(lines, scope)) == if OfModel(last, scope) then AddTotals(before, LineTotals(last))
                else before
  {
    var n := |lines| - 1;
    FirstAppearancesAreTheRuns(lines[..n], scope);
    GroupsNext(lines, scope);
    SumGrown(Groups(lines[..n], scope), Groups(lines, scope), lines[n], scope);
  }

  lemma NewGroupIsTheLine(lines: seq<Line>, scope: Scope)
    requires lines != []
    requires OfModel(lines[|lines| - 1], scope)
    requires lines[|lines| - 1].runId.value !in FirstAppearances(lines[..|lines| - 1], scope)
    ensures RunTotals(lines, scope, lines[|lines| - 1].runId.value) == LineTotals(lines[|lines| - 1])
  {
    NewRunStartsEmpty(lines[..|lines| - 1], scope, lines[|lines| - 1].runId.value);
    AddingNothing(LineTotals(lines[|lines| - 1]));
  }

  function Own(lines: seq<Line>, scope: Scope, runId: string): seq<Line> {
    if lines == [] then []
    else
      var last := lines[|lines| - 1];
      Own(lines[..|lines| - 1], scope, runId)
      + if OfRun(last, scope, runId) then [last] else []
  }

  /** One run's group is what its own lines say, however other runs' lines fall between them. */
  lemma {:induction false} GroupsIgnoreInterleaving(
    left: seq<Line>, right: seq<Line>, scope: Scope, runId: string)
    requires Own(left, scope, runId) == Own(right, scope, runId)
    ensures RunTotals(left, scope, runId) == RunTotals(right, scope, runId)
    ensures RunSplits(left, scope, runId) == RunSplits(right, scope, runId)
  {
    OwnLinesSuffice(left, scope, runId);
    OwnLinesSuffice(right, scope, runId);
  }

  lemma {:induction false} OwnLinesSuffice(lines: seq<Line>, scope: Scope, runId: string)
    ensures var own := Own(lines, scope, runId);
            && RunTotals(lines, scope, runId) == RunTotals(own, scope, runId)
            && RunSplits(lines, scope, runId) == RunSplits(own, scope, runId)
  {
    if lines != [] {
      var n := |lines| - 1;
      OwnLinesSuffice(lines[..n], scope, runId);
      var before, own := Own(lines[..n], scope, runId), Own(lines, scope, runId);
      if OfRun(lines[n], scope, runId) {
        assert own[..|own| - 1] == before;
      } else {
        assert own == before;
      }
    }
  }

  // ------------------------------------------------------------------ whose lines are read

  /** A line of another mode, or of another provider than the one asked about. */
  predicate Foreign(line: Line, scope: Scope) {
    line.mode != scope.mode || (scope.provider.Some? && scope.provider != Some(line.provider))
  }

  /** A line wherever it stands adds its own contribution to the total, and nothing else. */
  lemma {:induction false} OneLineAdds(before: seq<Line>, line: Line, after: seq<Line>, scope: Scope)
    ensures SumOf(before + [line] + after, scope)
         == AddTotals(SumOf(before + after, scope), Contribution(line, scope))
  {
    hide AddTotals, Contribution;
    if after == [] {
      assert before + [line] + after == before + [line] && before + after == before;
      assert (before + [line])[..|before|] == before;
    } else {
      var n := |after| - 1;
      OneLineAdds(before, line, after[..n], scope);
      var with, without := before + [line] + after, before + after;
      assert with[..|with| - 1] == before + [line] + after[..n];
      assert without[..|without| - 1] == before + after[..n];
      EitherFirst(SumOf(before + after[..n], scope), Contribution(line, scope), Contribution(after[n], scope));
    }
  }

  lemma EitherFirst(sum: Totals, a: Totals, b: Totals)
    ensures AddTotals(AddTotals(sum, a), b) == AddTotals(AddTotals(sum, b), a)
  {
  }

  /** One line more, with the line's own figures. */
  predicate GrewBy(a: Totals, b: Totals, line: Line) {
    && b.runs == a.runs + 1 && b.calls == a.calls + Figure(line.calls)
    && b.attempts == a.attempts + Figure(line.attempts)
    && b.inputTokens == a.inputTokens + Figure(line.inputTokens)
    && b.outputTokens == a.outputTokens + Figure(line.outputTokens)
    && b.usd == a.usd + Figure(line.usd)
  }

  /**
   Another provider's or mode's line changes nothing, and nor does another model's; one that names no model is
   counted apart; any other is charged.
   */
  predicate IsCounted(sum: Totals, grown: Totals, line: Line, scope: Scope) {
    if Foreign(line, scope) || (scope.modelId.Some? && line.modelId.Some? && line.modelId != scope.modelId)
    then grown == sum
    else if scope.modelId.Some? && line.modelId == None then
      && Attributed(grown) == Attributed(sum)
      && grown.unattributedRuns == sum.unattributedRuns + 1
      && grown.unattributedCalls == sum.unattributedCalls + Figure(line.calls)
    else
      && GrewBy(sum, grown, line)
      && grown.unattributedRuns == sum.unattributedRuns
      && grown.unattributedCalls == sum.unattributedCalls
  }

  lemma OneLineGrows(sum: Totals, line: Line, scope: Scope)
    ensures IsCounted(sum, AddTotals(sum, Contribution(line, scope)), line, scope)
  {
  }

  lemma TotalsAreTheModels(before: seq<Line>, line: Line, after: seq<Line>, scope: Scope)
    ensures IsCounted(SumOf(before + after, scope), SumOf(before + [line] + after, scope), line, scope)
  {
    hide IsCounted, SumOf;
    OneLineAdds(before, line, after, scope);
    OneLineGrows(SumOf(before + after, scope), line, scope);
  }

  /** The line is no run's of this model: foreign, another model's or nobody's, or without a run identity. */
  predicate Ungrouped(line: Line, scope: Scope) {
    Foreign(line, scope) || line.modelId != scope.modelId || line.runId == None || line.runId == Some("")
  }

  /** Such a line, wherever it stands, changes no group, and starts none. */
  lemma {:induction false} UngroupedLineIsNothing(before: seq<Line>, line: Line, after: seq<Line>, scope: Scope,
      id: string)
    requires Ungrouped(line, scope)
    ensures FirstAppearances(before + [line] + after, scope) == FirstAppearances(before + after, scope)
    ensures RunTotals(before + [line] + after, scope, id) == RunTotals(before + after, scope, id)
    ensures RunSplits(before + [line] + after, scope, id) == RunSplits(before + after, scope, id)
  {
    hide AddTotals, LineTotals, NewNames;
    if after == [] {
      assert before + [line] + after == before + [line] && before + after == before;
      assert (before + [line])[..|before|] == before;
    } else {
      var n := |after| - 1;
      UngroupedLineIsNothing(before, line, after[..n], scope, id);
      var with, without := before + [line] + after, before + after;
      assert with[..|with| - 1] == before + [line] + after[..n];
      assert without[..|without| - 1] == before + after[..n];
    }
  }

  lemma GroupsAreTheModels(before: seq<Line>, line: Line, after: seq<Line>, scope: Scope)
    requires Ungrouped(line, scope)
    ensures Groups(before + [line] + after, scope) == Groups(before + after, scope)
  {
    var with, without := Groups(before + [line] + after, scope), Groups(before + after, scope);
    UngroupedLineIsNothing(before, line, after, scope, "");
    hide FirstAppearances, RunTotals, RunSplits;
    forall i | 0 <= i < |without| ensures with[i] == without[i] {
      UngroupedLineIsNothing(before, line, after, scope, without[i].runId);
    }
  }

  /** Every other line belongs to its run: the run is listed, with the line's splits, and its totals grow. */
  lemma {:induction false} GroupedLineIsListed(before: seq<Line>, line: Line, after: seq<Line>, scope: Scope)
    requires !Ungrouped(line, scope)
    ensures line.runId.value in FirstAppearances(before + [line] + after, scope)
    ensures forall name :: name in line.splits
              ==> name in RunSplits(before + [line] + after, scope, line.runId.value)
  {
    if after == [] {
      assert before + [line] + after == before + [line];
      assert (before + [line])[..|before|] == before;
      NewNamesAreAll(RunSplits(before, scope, line.runId.value), line.splits);
    } else {
      var n := |after| - 1;
      GroupedLineIsListed(before, line, after[..n], scope);
      var with := before + [line] + after;
      assert with[..|with| - 1] == before + [line] + after[..n];
    }
  }

  lemma {:induction false} GroupedLineIsCharged(before: seq<Line>, line: Line, after: seq<Line>, scope: Scope)
    requires !Ungrouped(line, scope)
    ensures var id := line.runId.value;
            GrewBy(RunTotals(before + after, scope, id), RunTotals(before + [line] + after, scope, id), line)
  {
    if after == [] {
      assert before + [line] + after == before + [line] && before + after == before;
      assert (before + [line])[..|before|] == before;
    } else {
      var n := |after| - 1;
      GroupedLineIsCharged(before, line, after[..n], scope);
      var with, without := before + [line] + after, before + after;
      assert with[..|with| - 1] == before + [line] + after[..n];
      assert without[..|without| - 1] == before + after[..n];
    }
  }

  lemma {:induction false} NewNamesAreAll(known: seq<string>, names: seq<string>)
    ensures forall name :: name in known + NewNames(known, names) <==> name in known || name in names
  {
    if names != [] {
      NewNamesAreAll(known, names[1..]);
      assert names == [names[0]] + names[1..];
    }
  }
}
