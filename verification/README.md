# PromisePatch evaluation: spend gate, resumed runs, paired statistics

A Dafny model of the parts of PromisePatch's evaluation harness that decide what may be spent, what
was spent, and what the readings that were bought add up to. `dafny verify dfyconfig.toml` checks all
of it.

The harness buys model answers. It buys them case by case, through a budget guard, in passes that may
be stopped by a ceiling, interrupted, killed, or run against a provider that was never built, and each
pass leaves an append-only run file and an append-only ledger line behind. A later pass recomputes from
those two records how much is left. The first half of the project is that state machine:

- `Budget` (ceilings, totals, and how they compose), `Guard` (the guard object and the provider wrapper
  that must ask it), `Ledger` and `Store` (the two append-only records), `DerivedCeiling` (what a run
  may cost, computed from its prompts);
- `Pass` (one pass over the outstanding cases), `Recognition` (what a run is recognised as having
  spent, and the allowance that leaves), `SpendGate` (one whole command), `RunGeneration` (the same
  command as imperative code over a results directory, proved equal to it);
- `Listing`, `History`, `GateTheorems`, `Crossing`, `Permanence`, `Reading`, `Dollars`, `TrueSpend`: what
  holds, and what does not, after every sequence of commands on one results directory; `Refusals` and
  `LedgerLines`: what buys nothing, what is not read and what a pass is billed, over any directory at all;
  `Resume`, `Stuck`, `Finishing` and `Conforming`: whether a resumed run can complete its split; `DollarLeak`
  and `DollarCap`: the dollar ceiling on its own and typed by an operator.

The second half is what is done with the answers: `Judge` (one question, one correction, counted),
`RunCases` and `Reuse` (a resumed benchmark against the uninterrupted one), `StageA`, `Selection`, `Joins`,
`Materiality` and `SignTest` (challenger selection, two joins that must agree, the gate and the paired test), `Families`
and `Gates` (per-family and overall numbers, and what passing every rule means), `Sink` (reconciling
scenario verdicts with a manifest) and `Subsequence` (the one-pass order check). `Common`, `Counting`,
`Order` and `Results` are shared vocabulary.

## How it is modelled

Money is an integer count of 1e-8 USD: prices are whole cents per million tokens, so one token's price
is exact. Every `None` of the source is an `Option`; absence is never zero. A provider is an oracle
whose replies are Answered (with or without each token count), Rejected, Failed, NotPrepared and
Interrupted; a pass may also lose an answer before its record, or be killed with or without a request
in flight, at any case or once the pass is over. `Pass.Tally` is bookkeeping of what truly happened
(requests sent, answers lost, charges that died unledgered), which no record need show, and
`TrueSpend.TruthOf` the same for the attempts, tokens and dollars. Objects the source updates in place
(`BudgetGuard`, `BudgetedSemanticProvider`, `ExplanationResultStore`, `CountedJudge`, the results
directory) are classes whose methods are tied to functions on values; loops over accumulators are
methods with invariants.

## Where the code and its own words differ

- `bought` (`scripts/run_explanation_eval.py:712-715`) is described as whether an identity ever sent a
  request. It is exactly that unless every request of the run was interrupted and hidden by as many discounts
  (`GateTheorems.BoughtSaysSentIff`; `Crossing.CrossedHistoriesSendWithoutBound` is such a run, for any number of
  requests). A request is hidden by a charge that died with its process before the ledger line, or by
  `recognised` subtracting the run file's unsent records from a ledger (lines 701-704) whose lines already leave
  them out (`evals/budget.py:473-483`). In general a run is recognised as having sent what it sent less the
  smaller of its lost answers and its discounts (`GateTheorems.RecognisedIsWhatWasSeen`).
- `scripts/run_explanation_eval.py:909-910` says two runs are the most a gate can ever be. That holds of
  what is recognised. What was sent is that and the unseen requests, no more and no less
  (`GateTheorems.SplitSentIsReadAndUnseen`); the number of senders holds while no run of the split hides all it
  sent (`GateTheorems.FewIdentitiesEverSend`).
- A resumed run is given all its outstanding cases' calls exactly when its discounts cover the answers it
  lost (`Resume.ResumeAllowance`). When they do not, the run can end recognised at its ceiling with a case left:
  then no command ever changes it again (`Stuck.StuckIsForever`), and this is the only way the call ceilings
  can keep a run from finishing (`Finishing.CanFinishIff`). One interrupted call on a split of one case is
  enough (`Finishing.OneInterruptionIsForever`).
- `evals/budget.py:797-800` says a run whose allowance is gone is refused its first call. A guard on what is
  left refuses it exactly when calls or tokens of one kind are gone (`DollarLeak.FirstCallIsRefusedIff`);
  with only the dollars gone it admits everything up to the first reply that can be priced, again in every
  later pass (`DollarLeak.EveryPassLeaks`). On the model they are priced for, the gate's own
  ceilings never get there (`Dollars.EmptyAllowanceIsRefused`); a typed dollar cap does, in every command
  (`DollarCap.TypedDollarCapLeaks`), and a split can be bought whole under a cap of nothing
  (`DollarCap.NothingBuysEveryCase`).
- A resumed benchmark is not always the uninterrupted one, since outages read back from storage do not count
  towards the outage limit (`evals/runner.py:251-274`). `Reuse.AlwaysInvisibleIff` says exactly which
  settings and stored results are exposed to that.
- `judged` (`evals/explanation_store.py:195-197`) is described as the cases the judge has answered about. A
  judge that could not be reached is written down too, and its passage is not asked about again
  (`Judge.AnOutageStands`).

## Model

| member | source | states |
|---|---|---|
| `Budget.TightestIsGreatestLowerBound` | evals/budget.py:828-846 | composing ceilings gives their greatest lower bound, field by field, with uncapped as the top |
| `Budget.TightestDependsOnlyOnMembers` | evals/budget.py:828-846 | order and repetition of the composed ceilings do not matter (commutative, idempotent) |
| `Budget.TightestFlattens` | evals/budget.py:828-846 | nested compositions equal the flat one (associative) |
| `Budget.RemainingIsAnAction` | evals/budget.py:781-819 | charging two spends in turn equals charging their sum, if and only if no capped field is handed something back once overspent |
| `Budget.RemainingCommutesWithTightest` | evals/budget.py:796-846 | what is left of the tightest ceiling is the tightest of what is left of each |
| `Guard.BudgetGuard.Open` | evals/budget.py:421-434 | a live guard with a dollar ceiling and no verified price is refused, and nothing else is |
| `Guard.BudgetGuard.Authorise` | evals/budget.py:439-471 | permission is refused by the first ceiling reached, in the order calls, input, output, dollars; a grant counts one call; a refusal changes nothing |
| `Guard.BudgetGuard.Discard` | evals/budget.py:473-483 | a permission given back is one call fewer and one unsent call more |
| `Guard.BudgetGuard.Record` | evals/budget.py:485-502 | what one call charges: attempts always, tokens only when published, dollars only when both counts are |
| `Guard.RefusedByTheFirst` | evals/budget.py:439-471 | a call is refused exactly when some ceiling is used up, and by the first of calls, input, output, dollars that is; dollars nobody could estimate use nothing up |
| `Guard.BudgetedProvider.Run` | evals/budget.py:509-543 | the wrapped provider is asked only after permission, and each permission ends as exactly one charge or one return |
| `Guard.GuardConserves` | evals/budget.py:439-543 | over any replies: permissions granted = calls + unsent calls, calls are those really sent and never pass the ceiling, attempts are the published ones and one for each call without telemetry, tokens are the published tokens of what was sent |
| `Guard.TokensAreReportedIff` | evals/budget.py:485-502 | token counts are reported exactly when some admitted answer published one |
| `Guard.MoneyFollowsTokens` | evals/budget.py:326-339 | estimated dollars are the price of the summed tokens, short by exactly what half-reported answers left unpriceable, and unknown exactly when no answer gave both counts |
| `Guard.OvershootIsOneCall` | evals/budget.py:439-502 | within a pass, tokens and (once priced) dollars pass their ceiling by at most one call's worth |
| `DollarLeak.FirstCallIsRefusedIff` | evals/budget.py:439-471 | a guard on what is left of a ceiling refuses its first call if and only if the calls, the input or the output tokens are used up; dollars used up refuse nothing by themselves |
| `DollarLeak.NoDollarsAdmitsUpToPriced` | evals/budget.py:462-466 | with no dollars left a guard admits what it would with no dollar ceiling, up to and including the first reply that can be priced, and nothing after |
| `DollarLeak.EveryPassLeaks` | evals/budget.py:796-819 | with dollars gone and no other cap, each later pass sends its calls up to its own first priceable reply, for any number of passes |
| `DollarLeak.NothingLeftBuysWithoutBound` | evals/budget.py:462-466 | so k passes send k calls on no dollars, for every k |
| `DollarLeak.TokensGoFirst` | evals/budget.py:439-471 | under a ceiling whose dollars cover its tokens, once the dollars are gone the tokens of one kind are too, and refuse |
| `Dollars.EveryRunIsCosted` | evals/budget.py:485-502 | over every history no run's ledger lines say it cost more than its tokens do |
| `Dollars.EmptyAllowanceIsRefused` | evals/budget.py:796-819 | after every history, with no typed dollar cap, a command whose allowance is gone in any one of the four fields is refused its first call |
| `DollarCap.NoDollarsPass` | evals/explanation_runner.py:203-265 | a pass with no dollars left leaves the spend, records and tally of the same pass with no dollar ceiling, cut after its first case whose reply can be priced |
| `DollarCap.TypedDollarCapLeaks` | scripts/run_explanation_eval.py:925-934 | after every history, that is what a command typed with no dollars does |
| `DollarCap.NothingBuysEveryCase` | scripts/run_explanation_eval.py:925-934 | for every k up to the size of the split, k commands typed with no dollars send k requests and record every answer |
| `Ledger.LedgerTotals` | evals/budget.py:647-693 | the accumulating loop returns the sum of each selected line's contribution, other-model lines left out and unnamed-model lines counted beside |
| `Ledger.LedgerRuns` | evals/budget.py:737-778 | the grouping loop returns the run identities in first-appearance order, each with its own lines' sums and split names |
| `Ledger.GroupingLosesNothing` | evals/budget.py:647-793 | for a named model and named runs, the sum of the groups is the ledger total, unattributed counts aside |
| `Ledger.FirstAppearancesAreTheRuns` | evals/budget.py:737-778 | each identity with a line is listed exactly once, and no other |
| `Ledger.FirstAppearancesInOrder` | evals/budget.py:737-778 | and in the order of their first lines: the runs of the first lines come first |
| `Ledger.GroupsIgnoreInterleaving` | evals/budget.py:737-778 | a run's group depends only on its own lines' sequence, however other runs' lines fall between them |
| `Ledger.TotalsAreTheModels` | evals/budget.py:647-720 | a line put anywhere in the ledger changes nothing of the total if it is another mode's, provider's or model's, is counted apart if it names no model, and otherwise adds its own figures |
| `Ledger.GroupsAreTheModels` | evals/budget.py:700-778 | a line of another mode, provider or model, or of no run, changes no group and starts none, wherever it stands |
| `Ledger.GroupedLineIsListed` | evals/budget.py:737-778 | every other line lists its run, with the splits it names |
| `Ledger.GroupedLineIsCharged` | evals/budget.py:737-778 | and adds its own figures to its run's totals |
| `Store.ReadAfterAppend` | evals/explanation_store.py:225-273 | reading a file after one appended line is reading it before, plus that record |
| `Store.BlankLinesAreNothing` | evals/explanation_store.py:232-273 | a blank line anywhere changes nothing that is read |
| `Store.OnlyRecordsAreRead` | evals/explanation_store.py:232-273 | nor does a second header or a line of no known kind after the first header |
| `Store.ExplanationResultStore.Open` | evals/explanation_store.py:140-174 | a fresh or blank file gets this header; another identity, no header or no such file is refused with nothing written; else memory is the file read back |
| `Store.ExplanationResultStore.RecordGeneration` | evals/explanation_store.py:199-212 | one stamped line goes to the file and one record to memory, and memory stays the file read back |
| `Store.ExplanationResultStore.RecordJudgement` | evals/explanation_store.py:214-223 | the same for a verdict |
| `Store.CompletedOrOutstanding` | evals/explanation_store.py:176-193 | completed and not-prepared cases are disjoint and cover every record |
| `Store.MemoryIsReplay` | evals/explanation_store.py:131-255 | after any interleaving of records, verdicts and reopens, memory is exactly the file read back |
| `Store.FirstHeaderPersists` | evals/explanation_store.py:140-174 | a started file keeps its first header and every line it ever held, through any later uses |
| `Store.WhatIsRecordedStays` | evals/explanation_store.py:199-229 | whatever an open store is given is appended as given, under its own time or else the time of the call, and is there after any later uses |
| `Store.ReopenRefusedIffIdentityDiffers` | evals/explanation_store.py:159-174 | a reopen leaves the file alone, is refused exactly when identities differ, and otherwise keeps the file's own run id |
| `DerivedCeiling.CentsRoundUpOnce` | evals/explanation_budget.py:125-126 | the dollar ceiling is whole cents, at least the projection and a quarter, and less than a cent more |
| `DerivedCeiling.TokenCeilingsFitTheDollarCeiling` | evals/explanation_budget.py:168-189 | pricing the token ceilings to the last token never exceeds the dollar ceiling, roundings included |
| `DerivedCeiling.BoundsFitTheCeilings` | evals/explanation_budget.py:121-189 | every case using both attempts in full stays strictly below all three non-call ceilings |
| `DerivedCeiling.CeilingsAreNoLooser` | evals/explanation_budget.py:168-189 | each ceiling is at most a quarter over what conforming cases may use, the dollars and a cent; calls are one a case and attempts two |
| `DerivedCeiling.InputCeilingInNumbers` | evals/explanation_budget.py:121-189 | in numbers: five quarters of two attempts of a third of a token a character and 400 tokens a case, to within rounding |
| `DerivedCeiling.OutputCeilingInNumbers` | evals/explanation_budget.py:168-189 | 640 output tokens a case |
| `DerivedCeiling.ProjectionInNumbers` | evals/explanation_budget.py:168-189 | the projection is those tokens at 33 and 275 cents a million |
| `DerivedCeiling.DollarCeilingInNumbers` | evals/explanation_budget.py:125-189 | the dollar ceiling is at least a quarter over the projection and less than a cent more |
| `DerivedCeiling.ConformingRunIsNeverRefused` | evals/explanation_budget.py:168-189 | the guard built from the derived ceiling never refuses a run whose cases each stay inside their own two attempts |
| `Pass.PassAccounts` | evals/explanation_runner.py:203-265 | after any pass: charged calls are sent plus mis-charged ones, terminal records are the sent answers that were recorded, and recorded tokens never exceed charged ones |
| `Pass.WrittenFollowsCases` | evals/explanation_runner.py:221-265 | the records of a pass are a prefix of its cases in order, all of them unless something ended it; shown words are an answer |
| `Pass.RecordsSayWhatCameBack` | evals/explanation_runner.py:203-265 | each record says what came back for its own case: accepted or the kind of failure with its words, attempts, tokens as published, time; a pass stopped by a ceiling names the one its next call met |
| `Pass.PassSpendsAsTheGuard` | evals/explanation_runner.py:203-265 | what a pass spends is what the guard alone spends on the replies it met, in order |
| `LedgerLines.LineBillsWhatWasSent` | scripts/run_explanation_eval.py:1410-1437 | the ledger line of any pass whose process lived bills exactly the replies its guard let through: calls sent, attempts, tokens only if any were published, dollars at the price less what half-reported answers leave unpriceable |
| `Pass.PassOvershootsByOneCall` | evals/explanation_runner.py:203-265 | a pass passes a token ceiling by less than one call's tokens, and spends none when none are left |
| `Recognition.PassKeepsSound` | scripts/run_explanation_eval.py:689-710 | a pass allowed no more than ceiling less recognised calls keeps the run's account sound: answered once each, ledger and records reconciled, discounted ledger within the ceiling |
| `Recognition.RecognisedWithinCeiling` | scripts/run_explanation_eval.py:689-710 | a sound run is recognised between zero and the split's case count |
| `Recognition.RecognisedCoversSentIff` | scripts/run_explanation_eval.py:701-704 | recognised calls cover the requests really sent if and only if no answer was lost, or nothing was discounted or lost with its process |
| `Recognition.AllowanceIsOutstandingIff` | scripts/run_explanation_eval.py:898-934 | ceiling less recognised never exceeds the outstanding cases, and equals them if and only if the discounts hide every unrecorded answer |
| `Recognition.OthersWithinTheirCeilings` | scripts/run_explanation_eval.py:743-758 | the other runs of a gate are recognised within one ceiling for each of them that bought anything |
| `Recognition.CallAllowance` | scripts/run_explanation_eval.py:898-934 | the per-gate ceiling is never tighter than the per-run one: the call allowance is the run's own remainder, narrowed only by a typed cap |
| `Recognition.BudgetIsTheLeast` | scripts/run_explanation_eval.py:883-934 | in every field the budget is the least of the derived ceiling less the run's own spend, that ceiling times the allowed runs less the whole gate's, and the typed cap |
| `Listing.SpendOnLists` | scripts/run_explanation_eval.py:825-869 | over a directory its own commands wrote, the gate reads each run file of the split and model exactly once, from all its own lines and records and no others |
| `RunGeneration.ReadRunFiles` | scripts/run_explanation_eval.py:790-822 | over one listing, the file loop refuses two files claiming one identity and otherwise finds every readable live run |
| `RunGeneration.GateSpend` | scripts/run_explanation_eval.py:825-869 | the imperative gate reading equals the specification the theorems are about |
| `RunGeneration.VisitCase` | evals/explanation_runner.py:221-265 | one case through guard, provider and store changes exactly what the specified step says, and the record is on file before anything else can happen |
| `RunGeneration.GenerateCases` | evals/explanation_runner.py:203-274 | the loop over outstanding cases leaves guard and store as the specified pass does, wherever it ends |
| `RunGeneration.ResultsDirectory.RunGeneration` | scripts/run_explanation_eval.py:984-1070 | one whole command leaves the ledger and the run files exactly as specified: declined, unauthorised, nothing outstanding, unpriced, run, or run and died before its ledger line |
| `Refusals.UnauthorisedBuysNothing` | scripts/run_explanation_eval.py:996-1003 | over any directory an unauthorised command sends nothing and changes nothing |
| `Refusals.OnlyTheAuthorisedCount` | scripts/run_explanation_eval.py:996-1003 | so dropping the unauthorised commands from any history leaves the same directory and the same tallies |
| `Refusals.UnpricedBuysNothing` | evals/budget.py:421-434 | a model without a verified price is never run, and no ledger line is written for it |
| `Refusals.UnpricedLeavesItsFile` | scripts/run_explanation_eval.py:1018-1033 | such a command leaves the file of a new run begun, and every other file as it was |
| `Refusals.FinishedBuysNothing` | scripts/run_explanation_eval.py:1018-1033 | a run with every case answered buys nothing more, whatever the price |
| `Refusals.AnotherEvaluationIsRefused` | evals/explanation_store.py:159-174 | a command that differs from a run file in revision, dataset, provider, model, mode, split, prompt or schema leaves the directory alone |
| `Refusals.ContinuesTheFilesOwnRun` | scripts/run_explanation_eval.py:872-880 | a command on a readable run file runs under the identity the file was begun with |
| `Refusals.OneTooManyIsRefused` | scripts/run_explanation_eval.py:653-666 | with two development identities or one holdout identity bought, no other identity starts |
| `Refusals.OneMoreMayRun` | scripts/run_explanation_eval.py:653-666 | with fewer, an authorised priced command on a new file comes to its pass |
| `Refusals.ConflictIsRefused` | scripts/run_explanation_eval.py:790-822 | any two readable live files of one identity refuse the reading, wherever they are listed |
| `Refusals.NoRunOfOursIsNotRead` | scripts/run_explanation_eval.py:808-815 | a file that cannot be read or is another mode's or provider's run changes nothing the gate reads, in any directory |
| `Refusals.LedgerAloneIsCharged` | scripts/run_explanation_eval.py:825-869 | a ledgered identity without a run file of the model is charged its ledger lines whole, to the splits they name or else to every split |
| `Refusals.LedgerNamesTheSplits` | scripts/run_explanation_eval.py:825-869 | where its lines name splits an identity is charged to those and no others, whatever its file says |
| `Refusals.SomebodyElsesIsNotRead` | evals/budget.py:700-778 | a ledger line of another mode, provider or model, or of no run, changes nothing the gate reads, in any directory |
| `Refusals.SomebodyElsesStays` | evals/budget.py:700-778 | and every command ends as it would without that line, adds what it would, and leaves it where it was |
| `History.StepKeepsInvariant` | scripts/run_explanation_eval.py:984-1070 | every command keeps a reachable directory tidy, every run's account sound, and every split within its allowed identities |
| `History.EveryHistoryKeepsInvariant` | scripts/run_explanation_eval.py:984-1070 | so does every history: fresh, resumed, stopped, interrupted, never authorised, never prepared, killed at a case or before the ledger line |
| `History.BoughtGrowsByOne` | scripts/run_explanation_eval.py:712-715 | a command can make only its own run identity bought, and only on its own split and model |
| `GateTheorems.RecognisedSpendStaysUnderEveryCeiling` | scripts/run_explanation_eval.py:653-934 | after every history each run is recognised within the derived ceiling, at most the allowed identities have bought anything, and the split's total is within ceiling times allowed runs |
| `GateTheorems.RecognisedIsWhatWasSeen` | scripts/run_explanation_eval.py:689-710 | over every history, a run is recognised as having made exactly the requests it sent, less the smaller of its lost answers and its discounts |
| `GateTheorems.SentIsRecognisedIff` | scripts/run_explanation_eval.py:689-710 | over every history, a run's recognised calls cover the requests it sent exactly when it is uncrossed |
| `GateTheorems.BoughtSaysSentIff` | scripts/run_explanation_eval.py:712-715 | over every history, bought says whether the run ever sent a request exactly when the run is not hidden |
| `GateTheorems.SentIsWithinCeilingIff` | scripts/run_explanation_eval.py:898-934 | over every history, what a run sent passes the derived ceiling by at most its unseen requests, and is within it exactly while its lost answers fit in its unanswered cases |
| `GateTheorems.UncrossedIsWithinBounds` | scripts/run_explanation_eval.py:689-710 | an uncrossed run is neither hidden nor past its ceiling |
| `GateTheorems.FewIdentitiesEverSend` | scripts/run_explanation_eval.py:653-666 | while no run of this split and model is hidden, no more identities than allowed ever send a request, whatever other splits' runs did |
| `GateTheorems.SentStaysUnderEveryCeiling` | scripts/run_explanation_eval.py:653-934 | while the split's runs are within those bounds, all the requests ever sent for it are at most ceiling times allowed runs |
| `GateTheorems.SplitSentIsReadAndUnseen` | scripts/run_explanation_eval.py:653-934 | over every history, with no condition: all the requests ever sent for a split are the total the gate reads plus the unseen ones, and so within ceiling times allowed runs but for those |
| `Crossing.CrossedHistoriesSendWithoutBound` | scripts/run_explanation_eval.py:701-715 | for every k there is a history of commands on a split of one case, with a ceiling of one call, that sent k requests while the gate reads no call spent and no identity bought |
| `Crossing.InterruptedRunIsStarved` | scripts/run_explanation_eval.py:932-934 | after one interrupted pass over one case the next command has that case outstanding and is allowed no call |
| `Resume.ResumeAllowance` | scripts/run_explanation_eval.py:932-934 | after every history, with no typed cap a resumed run is allowed at most its outstanding cases, and exactly them under the stated condition |
| `Resume.StarvedRunIsUnfinished` | scripts/run_explanation_eval.py:898-934 | after every history, a run that lost more answers than its discounts hide has an outstanding case |
| `Resume.StarvedRunNeedsDiscounts` | scripts/run_explanation_eval.py:984-1070 | over every continuation, a run completes its split only once as many discounts have been made as answers it had lost before |
| `Stuck.StuckIff` | scripts/run_explanation_eval.py:898-934 | over every history, a run is recognised at its ceiling with a case left exactly when it lost more answers than were discounted and sent its ceiling and the discounts |
| `Stuck.StuckIsForever` | scripts/run_explanation_eval.py:984-1070 | whatever commands follow, the file, the ledger totals and the tally of such a run stay as they are |
| `Finishing.CanFinishIff` | scripts/run_explanation_eval.py:898-1070 | after every history, a run with something left under every other ceiling can still complete its split by some commands if and only if its own ceiling leaves it a call or it has no case left |
| `Finishing.OneInterruptionIsForever` | scripts/run_explanation_eval.py:984-1070 | after one interrupted call on a split of one case no commands at all complete that run |
| `Resume.PassReachesEveryCase` | evals/explanation_runner.py:203-265 | a pass with enough calls, room under the other ceilings and an answer for each case writes a terminal record for each |
| `Resume.ResumeFinishesTheSplit` | scripts/run_explanation_eval.py:984-1070 | a resume of any history under that condition, with calls the only binding cap, ends with every case of the split completed on file |
| `Resume.FirstBudgetIsDerived` | scripts/run_explanation_eval.py:898-934 | with nothing bought and nothing typed, the budget is the derived ceiling whole |
| `Resume.FirstConformingRunFinishes` | evals/explanation_budget.py:168-189 | from an empty directory, a first command whose cases each stay inside their two attempts completes the whole split |
| `Conforming.EveryRunIsModest` | scripts/run_explanation_eval.py:984-1070 | over every history whose cases stay inside their two attempts and lose no answer, the tokens of every run fit the bounds of the cases it has answered |
| `Conforming.RoomForTheRest` | scripts/run_explanation_eval.py:898-934 | then, in all four fields, what the per-run and per-gate ceilings leave a command covers every case its run has left |
| `Conforming.ConformingResumeFinishes` | evals/explanation_budget.py:168-189 | so after any such history, wherever it was stopped or killed, a conforming resume is refused on no ceiling and completes the split |
| `Conforming.GateSpendsWithin` | scripts/run_explanation_eval.py:653-666 | and over any such history a split is charged, in every field, at most what answering its cases inside their attempts comes to, once for each allowed run |
| `Permanence.NothingIsBoughtTwice` | evals/explanation_store.py:176-184 | over every history, no record of a case follows its terminal one, so each case has at most one answer |
| `Permanence.FilesOnlyGrow` | evals/explanation_store.py:225-229 | a run file is never lost, renamed or rewritten: every later directory continues it, with new records only for unanswered cases |
| `Permanence.ShownPassagesAreDistinct` | evals/explanation_runner.py:570-573 | the passages any reachable run file offers the judge are about distinct cases |
| `Permanence.TokenOvershootIsOneCall` | scripts/run_explanation_eval.py:689-934 | over every history of resumes, a run's ledgered and recorded tokens pass each token ceiling by less than one call |
| `Permanence.RecognisedTokensOfOneRun` | scripts/run_explanation_eval.py:689-710 | what the gate recognises of a run's tokens is strictly less than ceiling plus one call |
| `TrueSpend.PassFollowsUse` | evals/explanation_runner.py:203-265 | the requests, attempts, tokens and dollars a pass charges and records are what its events really came to, less the answers never recorded and the charges that say less |
| `TrueSpend.RecognisedIsTheTruth` | scripts/run_explanation_eval.py:689-710 | over every history, in each of the five figures (requests, attempts, tokens each way, dollars at the model's price) what the gate recognises of a run is exactly what the run used, less the smaller of what was never recorded and what the ledger misses |
| `TrueSpend.TokensOfOneRun` | scripts/run_explanation_eval.py:689-934 | so what a run really used passes a token ceiling by less than one call and that |
| `Reading.ListingOrderIsNothing` | scripts/run_explanation_eval.py:790-869 | two listings of the same files leave the same identities bought and give every pass the same budget |
| `Reading.ReadingIsFileByFile` | scripts/run_explanation_eval.py:790-869 | over a directory these commands wrote, the gate's total is the sum over its run files taken one by one |
| `Reading.RunsAreCounted` | scripts/run_explanation_eval.py:689-758 | over every history the total's run count is how many identities bought anything, and its unsent calls are the unsent records of their files |
| `Reading.RecognisedSpendIsAnAction` | evals/budget.py:796-819 | after every history, charging a ceiling with the recognised runs one by one leaves what charging their total leaves |
| `Judge.AskOnce` | evals/explanation_judge.py:347-387 | one logical call, one or two attempts, a verdict only if the contract accepted it on the first or the corrected answer |
| `Judge.LastTryDecides` | evals/explanation_judge.py:347-387 | the last try decides: its verdict stands, or its rejection or its outage is what is reported; a second try follows only an answer that was not accepted |
| `Judge.UsagePaysForEveryTry` | evals/explanation_judge.py:347-387 | over any passages usage is one call each and the attempts, tokens and latency of every try, unknown only if no try published them |
| `Judge.CountedJudge.Judge` | evals/explanation_judge.py:435-444 | refused exactly at the ceiling with nothing counted; otherwise usage and outages grow by exactly that judgement |
| `Judge.CutAtTheThirdOutage` | evals/explanation_runner.py:321-357 | the judged prefix is the shortest with three outages, or everything |
| `Judge.UsageCounts` | evals/explanation_results.py:132-163 | judging n passages costs n logical calls and between n and 2n attempts |
| `Judge.JudgeExplanations` | evals/explanation_runner.py:293-361 | the loop gives verdicts for exactly that prefix of accepted passages in order, each in the store before the next is asked for, with the judge's own counts equal to their sum |
| `Judge.JudgingCeilingCovers` | scripts/run_explanation_eval.py:1135-1138 | the command's ceiling is never smaller than what it could judge |
| `Judge.OutstandingPassagesAreUnjudged` | scripts/run_explanation_eval.py:1106-1109 | what is left to judge is exactly the accepted passages with no verdict, each about its own case |
| `Judge.RunJudging` | scripts/run_explanation_eval.py:1095-1145 | the judging command writes those verdicts after what the run file held, is never refused by its own ceiling, and stops short only on the third outage |
| `Judge.PassWritesVerdicts` | scripts/run_explanation_eval.py:1095-1145 | the pass appends one record for each passage it judged, in order and after what was there, saying whether its last try was accepted |
| `Judge.NothingIsJudgedTwice` | scripts/run_explanation_eval.py:1106-1109 | however passages are added and judged, by whatever passes and however each is cut short, no passage has two verdicts and what was written stands |
| `Judge.AnOutageStands` | evals/explanation_store.py:195-197 | an outage once written is the only record its passage ever has |
| `Judge.QuietPassJudgesTheRest` | scripts/run_explanation_eval.py:1095-1145 | a whole pass with fewer than three outages leaves nothing of its split to judge |
| `Results.ByCaseFinds` | evals/runner.py:223-223 | with one result a case, a lookup by case holds each result under its own case and nothing else |
| `Results.LastStoredWins` | evals/runner.py:223-223 | where a case has several results, a lookup by case holds the last |
| `RunCases.Run` | evals/runner.py:198-302 | the loop, with reuse, scoring and the three stop rules, ends where the specification ends |
| `RunCases.VisitCase` | evals/runner.py:251-289 | one case read back or asked fresh changes results, scores, counts and stop reason as specified, later rules overriding earlier |
| `RunCases.EveryCaseIsReported` | evals/runner.py:198-302 | whatever is reused and wherever it stops, a run reports each case of a prefix, holds the worker scores and the customer scores of those read, each in its own list and in order, counts the others unread, and asked about exactly those not stored; without a stop the prefix is everything |
| `RunCases.StopsAtTheFirstReason` | evals/runner.py:252-289 | a run stops after the first case that gives it a reason and after no other: a safety violation, else another model, else the outages it met itself reaching the limit |
| `RunCases.ResumeIsInvisibleIff` | evals/runner.py:198-302 | where stored results and their rescored scores are what asking would give, a resumed run reports exactly what the uninterrupted one would, if and only if that one did not stop on an outage limit that counted a reused outage |
| `RunCases.ResumeWithoutOutagesIsInvisible` | evals/runner.py:198-302 | with deterministic answers and no outage among the results read back, the resumed report is the uninterrupted one |
| `RunCases.ReusedOutageIsNotCounted` | evals/runner.py:252-274 | a run that two outages stop is not stopped when the first of them was read back |
| `Reuse.AlwaysInvisibleIff` | evals/runner.py:198-302 | resuming is invisible for every provider that stands by what is stored if and only if the settings, stored results and cases are not exposed: no stored outage before a halting result with outages enough to reach the limit |
| `RunCases.AsksOnlyTheRest` | evals/runner.py:251-266 | while it keeps step, the resumed run asks about exactly the cases it had no result for |
| `StageA.NearestIsNearest` | evals/challenger.py:294-301 | the chosen control beats every other in its pool: most tags in common with the failure, then lowest id |
| `Order.BeforeIsDictionaryOrder` | evals/challenger.py:294-301 | ids are ordered as strings are: by the first character that differs, a prefix first |
| `StageA.EachFailureGetsItsOwnControl` | evals/challenger.py:229-246 | greedy matching never gets stuck: each failure in order, each with its own distinct control, same-class flag truthful |
| `StageA.EachGetsTheBestLeft` | evals/challenger.py:229-246 | each failure in its turn gets the control it prefers to every other no earlier failure took: its own class first, then tags in common, then id |
| `StageA.SameClassIffEnoughOfEach` | evals/challenger.py:229-246 | every pair is same-class if and only if every class has at least as many controls as failures |
| `StageA.PairUp` | evals/challenger.py:229-246 | the loop that deletes each chosen control from the pool builds that matching |
| `StageA.SelectStageA` | evals/challenger.py:187-263 | the selecting loop and its refusals equal the specification |
| `StageA.SelectionIsBuiltIff` | evals/challenger.py:203-292 | a set is built exactly when every case has a reading and no stored case is unknown, something was wrong, enough was right, and it fits the bound |
| `StageA.SelectedSet` | evals/challenger.py:203-263 | the set is every case read wrong, in id order, each beside its own case read right, twice as many cases as pairs |
| `Selection.SelectionDecides` | evals/challenger.py:187-292 | said of the dataset and the stored results themselves: the first reason there is no set with its cases or numbers, and otherwise every misread case in id order, each beside its own case read as expected |
| `StageA.SelectionIgnoresOrder` | evals/challenger.py:187-263 | permuting the dataset or the stored results changes nothing |
| `Joins.TwoJoinsAgree` | evals/challenger.py:675-961 | the whole-split join restricted to the selected cases is the first-stage join, case for case and role for role |
| `Materiality.CellsAreOutcomes` | evals/challenger.py:862-883 | wins are repairs, losses are control regressions, ties the other two, and the four cells add up to the comparable cases |
| `Materiality.RolesDivide` | evals/challenger.py:568-620 | comparable failures are repaired or unchanged, comparable controls preserved or regressed, and nothing is both |
| `Materiality.WholeSplitTells` | evals/challenger.py:943-961 | in the whole-split join each role and outcome says what the two readings were |
| `Materiality.EachRowIsACase` | evals/challenger.py:496-538 | the whole-split join is exactly one row for each development case both runs hold: both readings, role, outcome, inversion and authority as the readings say, and nothing but absence where the challenger did not answer |
| `Materiality.StageATells` | evals/challenger.py:675-693 | so does the first-stage join of a selection from the same dataset and source |
| `Materiality.WinsAreAllInStageA` | evals/challenger.py:675-961 | the first stage has already seen every win and every shared miss the whole split can show |
| `Materiality.CompleteIffAllReached` | evals/challenger.py:644-651 | a stage is complete exactly when the challenger answered every selected case |
| `Materiality.PassesExactlyWhen` | evals/challenger.py:766-803 | the gate passes exactly when every selected case was answered, at least half of the misread ones and at least two are read right, at most one control is missed, and no stance is inverted or authority broken |
| `SignTest.ChooseIsFactorials` | evals/challenger.py:831-846 | Pascal's rule gives n! / (k! (n - k)!) with no remainder |
| `SignTest.ExactlyCounts` | evals/challenger.py:831-846 | the coefficient counts the ways the challenger wins exactly k of n pairs |
| `SignTest.PIsAShare` | evals/challenger.py:831-846 | p is the share, of all ways the discordant pairs could fall, of those at least as lopsided as this one |
| `SignTest.PIsAProbability` | evals/challenger.py:831-846 | p is above zero and at most one, and one exactly when the split is as even as the count allows |
| `SignTest.NoDiscordNoP` | evals/challenger.py:831-846 | there is no value exactly when no pair tells the models apart |
| `SignTest.PIsSymmetric` | evals/challenger.py:831-846 | p does not depend on which model won |
| `SignTest.MoreLopsidedIsSmaller` | evals/challenger.py:831-846 | of two splits of the same pairs, the more lopsided has strictly smaller p |
| `SignTest.ClampOnlyOnATie` | evals/challenger.py:846-846 | the clamp at one changes the value exactly on a tie |
| `Families.HardMetrics` | evals/explanation_metrics.py:394-419 | the counter loop leaves each structural counter at the number of accepted passages the validator would now refuse for it |
| `Families.CountersSayWhatSlipped` | evals/explanation_metrics.py:394-419 | each counter is the number of accepted passages of known cases the validator refuses for what the counter is named after |
| `Families.CountsPartition` | evals/explanation_metrics.py:483-501 | whatever is counted, the run's count is the sum of its seven families' counts |
| `Families.AcceptancePartitions` | evals/explanation_metrics.py:459-480 | each acceptance number is the sum of the families', and accepted and fallbacks divide the run |
| `Families.AcceptanceSays` | evals/explanation_metrics.py:459-480 | accepted, fallbacks, provider failures and rejections are how many passages were each |
| `Families.FlagsAreCounted` | evals/explanation_metrics.py:422-436 | a flag is counted once for each judged passage that raised it |
| `Families.MeanSays` | evals/explanation_metrics.py:439-456 | a mean is the marks of the accepted scored passages over their number, and there is none without any |
| `Families.SemanticFailuresPartition` | evals/explanation_metrics.py:422-436 | judged safety findings are the sum of the families' |
| `Families.LeaksPartition` | evals/explanation_metrics.py:394-501 | family structural counters never exceed the run's, and add up to it if and only if every leaking passage is filed under its case's family |
| `Gates.MeanIsWeightedMean` | evals/explanation_metrics.py:439-456 | the overall mean is the family means weighted by how many passages each is over |
| `Gates.FloorsHoldOverall` | evals/explanation_thresholds.py:293-307 | a floor every scored family keeps is kept by the overall mean |
| `Gates.SafetyIsTheSameOverallAndByFamily` | evals/explanation_thresholds.py:310-321 | the seven family safety gates pass exactly when the five overall semantic gates do, and both mean no judged passage raised a flag |
| `Gates.PassesExactlyWhen` | evals/explanation_metrics.py:530-584 | a run passes every rule exactly when nothing leaked, every fallback stood, no flag was raised, the means reach their targets with no unfaithful passage, and all seven families were scored and keep their floor |
| `Gates.FailsExactlyWhen` | evals/explanation_metrics.py:539-584 | a run fails exactly when something measured is past its limit, and is incomplete exactly when nothing is and something was not measured |
| `Gates.OwnGatesSay` | evals/explanation_thresholds.py:310-321 | the two families' own rules are about their own judged passages and their own flag |
| `Sink.ReadSink` | scripts/run_effect_sets.py:215-242 | the reading loop holds each scenario's one verdict, or a harness failure if it gave more than one |
| `Sink.Reconcile` | scripts/run_effect_sets.py:245-269 | the loop gives one outcome per manifest scenario in manifest order |
| `Sink.Measure` | scripts/run_effect_sets.py:272-470 | a scored run with an unwired scenario is refused; a development run carries no score; otherwise the reconciled outcomes and their score |
| `Sink.OneRowEach` | scripts/run_effect_sets.py:245-269 | each row is its own scenario's |
| `Sink.KeptExactlyWhenOneLine` | scripts/run_effect_sets.py:215-269 | a verdict stands exactly when its scenario is wired and one line names it; otherwise the row is a harness failure |
| `Sink.OrderOfLinesIsNothing` | scripts/run_effect_sets.py:215-269 | permuting the sink's lines changes nothing |
| `Sink.ScoreIsWhatWasDemonstrated` | scripts/run_effect_sets.py:303-450 | a score is over the whole manifest or not given, and counts exactly the scenarios whose one line says PASS |
| `Subsequence.IsSubsequence` | evals/explanation_dataset.py:614-616 | the greedy scan over one shared iterator succeeds exactly when an embedding exists |

## Left out

- JSON text, pydantic parsing and SHA-256: log lines are datatypes, digests are compared as values; a line that does not parse is not part of this model.
- Vendor clients, HTTP, credentials and subprocesses. What an authorisation or a holdout must say is not modelled, only whether it was given (`SpendGate.Command`).
- The branch for facts no model is asked to word (`apps/backend/src/promisepatch/domain/verbalisation.py:225-243`): this command builds the same request for every case while deriving its ceiling (`evals/explanation_budget.py:137-139`), so such a case raises there, before any record.
- Concurrency: the source's awaits are run one at a time, as its own loops do; two processes on one directory are not part of this model.
- `--results` naming a file other than the run's own, and ledger lines written before lines named a split; `Listing.SpendOnLists` is about directories these commands wrote.
- RunGeneration.ReadRunFiles: the listing is taken in whatever order it comes (`Reading.ListingOrderIsNothing`), and the one extra path given by `--results` is not listed.
- A dataset that changes during a history: one frozen dataset per history; unique case ids are the loader's own rule and are required.
- Run identities that are empty strings (`History.Named`).
- Float rounding and Decimal's 28-digit context: rates, means and p are exact reals; the sign test's floats agree only while 2^n is exact.
- `CallRecord` and `MeasuredProvider`: a passage's measured tokens are its reply's own telemetry.
- Latency, percentiles, timestamps' meaning, random run ids.
- `telemetry.usage` being the last attempt's only, and which of production's validator categories a rejected answer had in a run file: one rejected kind.
- Judge verdict parsing and the rubric: an answer is accepted by the contract or rejected.
- RunCases.Run: a budget error leaving the loop is not modelled there; the guard itself is `Guard`. The scorers are the caller's, and that `_rescore` gives back the score computed when the answer arrived is a hypothesis (`RunCases.FaithfulTo`).
- Wording of stop reasons and refusals.
- `cluster_deltas`, `score_cases`, `fallback_failures` and the judge's prompt-character sum: easy members over records modelled here.
- Report rendering, preflight, argument parsing, holdout interlocks.
- The product engine (promise graph, consent, workflow ledger) and the literal threshold rationale texts.
