/** One case's stored result, as every later reading of a run sees it. */
module Results {
  import opened Common

  datatype Job = WorkerSemantics | CustomerIntent

  datatype Intent = Approve | Decline | Unclear

  /** The flat mapping a result carries is its score: the same facts under the same names. */
  type Metrics = map<string, bool>

  datatype CaseResult = CaseResult(
    caseId: string, job: Job, split: Split, apparentIntent: Option<Intent>,
    metrics: Metrics, reason: string, modelId: Option<string>, providerError: bool)

  datatype ExecutionStatus = Answered | NotInvoked | ProviderFailure

  /** Read from facts the result carries, never stored. */
  function StatusOf(result: CaseResult): ExecutionStatus {
    if result.providerError then ProviderFailure
    else if "asked" in result.metrics && !result.metrics["asked"] then NotInvoked
    else Answered
  }

  predicate HasReading(result: CaseResult) {
    StatusOf(result).Answered?
  }

  /** The results by case; of two for one case the later is kept. */
  function ByCase(results: seq<CaseResult>): map<string, CaseResult> {
    if results == [] then map[]
    else ByCase(results[..|results| - 1])[results[|results| - 1].caseId := results[|results| - 1]]
  }

  /** The last result of a case. */
  predicate IsLast(results: seq<CaseResult>, i: nat, id: string) {
    i < |results| && results[i].caseId == id && forall j :: i < j < |results| ==> results[j].caseId != id
  }

  /** Where a case has several results, the lookup holds the last of them. */
  lemma {:induction false} LastStoredWins(results: seq<CaseResult>, id: string)
    ensures id in ByCase(results) <==> exists r :: r in results && r.caseId == id
    ensures forall i: nat :: IsLast(results, i, id) ==> id in ByCase(results) && ByCase(results)[id] == results[i]
  {
    if results != [] {
      var n := |results| - 1;
      LastStoredWins(results[..n], id);
      assert results == results[..n] + [results[n]];
      forall i: nat | IsLast(results, i, id) ensures id in ByCase(results) && ByCase(results)[id] == results[i] {
        if i < n {
          assert IsLast(results[..n], i, id);
        }
      }
    }
  }

  predicate DistinctResults(results: seq<CaseResult>) {
    forall i, j :: 0 <= i < j < |results| ==> results[i].caseId != results[j].caseId
  }

  /** With one result a case, the lookup holds each result under its own case and nothing else. */
  lemma {:induction false} ByCaseFinds(results: seq<CaseResult>)
    requires DistinctResults(results)
    ensures forall r :: r in results ==> r.caseId in ByCase(results) && ByCase(results)[r.caseId] == r
    ensures forall id :: id in ByCase(results) ==> ByCase(results)[id] in results && ByCase(results)[id].caseId == id
  {
    if results != [] {
      var n := |results| - 1;
      ByCaseFinds(results[..n]);
      assert results == results[..n] + [results[n]];
    }
  }

  /** So the order results were stored in does not matter. */
  lemma ByCaseIgnoresOrder(left: seq<CaseResult>, right: seq<CaseResult>)
    requires DistinctResults(left) && DistinctResults(right)
    requires forall r :: r in left <==> r in right
    ensures ByCase(left) == ByCase(right)
  {
    ByCaseFinds(left);
    ByCaseFinds(right);
  }
}
