/**
 The ledger line a pass leaves behind, against what its guard was told: the pass is a run of the guard, so the
 line says what the replies it let through really published.
 */
module LedgerLines {
  import opened Common
  import opened Budget
  import opened Guard
  import opened Store
  import opened DerivedCeiling
  import opened Pass
  import opened Recognition
  import opened SpendGate
  import Ledger

  /** The line's own identity is its run file's, and no figure of it is more or less than these replies came to. */
  predicate Bills(line: Ledger.Line, header: Header, model: string, price: Option<Price>, replies: seq<Reply>) {
    && line.runId == Some(header.runId) && line.mode == header.identity.mode
    && line.provider == header.identity.provider && line.splits == header.identity.splits
    && line.modelId == Some(model)
    && line.calls == Some(Sent(replies)) && line.attempts == Some(AttemptSum(replies))
    && line.inputTokens == (if Published(replies) then Some(InputSum(replies)) else None)
    && line.outputTokens == (if Published(replies) then Some(OutputSum(replies)) else None)
    && BillsDollars(line.usd, price, replies)
  }

  /** Dollars are the price of the tokens less what half-reported answers leave unpriceable, or not known at all. */
  predicate BillsDollars(usd: Option<Usd>, price: Option<Price>, replies: seq<Reply>) {
    match price
    case None => usd == None
    case Some(p) =>
      (if usd.Some? then usd.value else 0) + Unmeasured(p, replies) == Cost(p, InputSum(replies), OutputSum(replies))
  }

  /**
   The line of any pass whose process lived bills exactly the replies its guard let through, and says nothing of
   tokens that nobody published.
   */
  lemma LineBillsWhatWasSent(budget: EvalBudget, price: Option<Price>, cases: seq<Case>, events: map<string, Event>,
      now: string, header: Header, model: string)
    ensures var p, replies := Generate(budget, price, cases, events, now), Replies(budget, price, cases, events, now);
            p.ending != Dead ==>
              Bills(LedgerLine(header, model, p), header, model, price, Admitted(budget, price, replies))
  {
    var replies := Replies(budget, price, cases, events, now);
    PassSpendsAsTheGuard(budget, price, cases, events, now);
    GuardConserves(budget, price, replies);
    TokensAreReportedIff(budget, price, replies);
    MoneyFollowsTokens(budget, price, replies);
    hide Generate, Replies, Admitted, AskAll, Published, Sent, AttemptSum, InputSum, OutputSum, Unmeasured, Cost;
  }
}
