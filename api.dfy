/**
 * The read-only handlers of the API server over the deployment index: the
 * step-filtered listing, the latest deployment and the statistics. Each
 * request reads and parses the file afresh; nothing is kept between
 * requests, so every handler is a function of the file as it finds it.
 */
module Api {
  import opened Wrappers
  import opened JsonValue
  import opened Seqs
  import opened Ledger
  import Deployer

  /** The index file as one request finds it. */
  datatype IndexFile =
    | Missing                         // `existsSync` is false
    | Unreadable(message: string)     // reading or `JSON.parse` threw
    | Present(deployments: seq<Entry>)

  /** What a request sees of the deployer's index. */
  function Observe(file: Option<seq<Entry>>): (r: IndexFile)
    ensures r.Missing? <==> file.None?
    ensures r.Present? ==> r.deployments == file.value
    ensures file.Some? ==> r == Present(file.value)
  {
    if file.Some? then Present(file.value) else Missing
  }

  /** A JSON reply: 200 with a body, 404 or 500 with an `error` and an optional `message`. */
  datatype Reply<T> =
    | Success(body: T)
    | NotFound(error: string, message: Option<string>)
    | ServerError(error: string, message: Option<string>)

  const NoDeployments := "No deployments found"
  const RunDeployFirst := "Run the deployment script first: npm run deploy"
  const NoSuccessfulDeployments := "No successful deployments found"
  const ReadDeploymentsFailed := "Failed to read deployments"
  const ReadLatestFailed := "Failed to read latest deployment"
  const StatsFailed := "Failed to calculate statistics"

  /** `d => d.step === step`. */
  function WithStep(step: string): Entry -> bool
  {
    d => HasStep(d, step)
  }

  // ---- GET /api/deployments ----

  /** The body of a listing: `total`, the records, and the query echoed back as `filters`. */
  datatype Listing = Listing(total: nat, deployments: seq<Entry>, filters: map<string, string>)

  /** `req.query.step` when it is truthy, i.e. present and non-empty. */
  function StepQuery(query: map<string, string>): (r: Option<string>)
    ensures r.Some? <==> "step" in query && query["step"] != ""
    ensures r.Some? ==> r.value == query["step"]
  {
    if "step" in query && query["step"] != "" then Some(query["step"]) else None
  }

  function ListDeployments(file: IndexFile, query: map<string, string>): (r: Reply<Listing>)
    ensures r == NotFound(NoDeployments, Some(RunDeployFirst)) <==> file.Missing?
    ensures r.ServerError? <==> file.Unreadable?
    ensures file.Unreadable? ==> r == ServerError(ReadDeploymentsFailed, Some(file.message))
    ensures r.Success? ==> r.body.total == |r.body.deployments| && r.body.filters == query
  {
    match file
    case Missing => NotFound(NoDeployments, Some(RunDeployFirst))
    case Unreadable(message) => ServerError(ReadDeploymentsFailed, Some(message))
    case Present(deployments) =>
      var selected := match StepQuery(query)
                      case Some(step) => Filter(deployments, WithStep(step))
                      case None => deployments;
      Success(Listing(|selected|, selected, query))
  }

  /**
   * With a step query the listing holds exactly the records with that step,
   * each as often as in the file and in file order; without one (or with an
   * empty one) it holds the whole file.
   */
  lemma ListingSelectsStep(deployments: seq<Entry>, query: map<string, string>, e: Entry)
    ensures var r := ListDeployments(Present(deployments), query);
            r.Success? && r.body.total == |r.body.deployments| &&
            (StepQuery(query).None? ==> r.body.deployments == deployments) &&
            (StepQuery(query).Some? ==>
               IsSubsequence(r.body.deployments, deployments) &&
               multiset(r.body.deployments)[e] == if HasStep(e, query["step"]) then multiset(deployments)[e] else 0)
  {
    if StepQuery(query).Some? {
      FilterCounts(deployments, WithStep(query["step"]), e);
    }
  }

  // ---- GET /api/deployments/latest ----

  function LatestDeployment(file: IndexFile): (r: Reply<Entry>)
    ensures file.Missing? <==> r == NotFound(NoDeployments, None)
    ensures file.Unreadable? <==> r == ServerError(ReadLatestFailed, None)
    ensures r.Success? ==> file.Present? && r.body in file.deployments && HasStep(r.body, StepDeployed)
  {
    match file
    case Missing => NotFound(NoDeployments, None)
    case Unreadable(_) => ServerError(ReadLatestFailed, None)
    case Present(deployments) =>
      match Last(Filter(deployments, WithStep(StepDeployed)))
      case None => NotFound(NoSuccessfulDeployments, None)
      case Some(latest) => Success(latest)
  }

  /**
   * The latest deployment is the last `nft_deployed` record of the file,
   * whatever its `success` flag says; there is none exactly when no record
   * has that step.
   */
  lemma LatestIsLastDeployed(deployments: seq<Entry>)
    ensures LatestDeployment(Present(deployments)) == NotFound(NoSuccessfulDeployments, None) <==>
            forall i :: 0 <= i < |deployments| ==> !HasStep(deployments[i], StepDeployed)
    ensures var r := LatestDeployment(Present(deployments));
            r.Success? ==>
              exists i :: 0 <= i < |deployments| && deployments[i] == r.body && HasStep(deployments[i], StepDeployed) &&
                          forall j :: i < j < |deployments| ==> !HasStep(deployments[j], StepDeployed)
  {
    LastOfFilter(deployments, WithStep(StepDeployed));
  }

  // ---- GET /api/stats ----

  /**
   * The statistics body. `lastDeployment` is `None` when the key is left
   * out of the JSON: when the file is missing, or when the last record has
   * no timestamp (`undefined` is dropped by `res.json`).
   */
  datatype Stats = Stats(totalDeployments: nat, successfulDeployments: nat, failedDeployments: nat,
                         successRate: nat, lastDeployment: Option<Json>)

  /** `deployments.filter(d => d.step === step).length`. */
  function Count(deployments: seq<Entry>, step: string): (n: nat)
    ensures n <= |deployments|
    ensures n == |set i | 0 <= i < |deployments| && HasStep(deployments[i], step)|
  {
    var p := WithStep(step);
    FilterLength(deployments, p);
    assert Positions(deployments, p) ==
           (set i | 0 <= i < |deployments| && HasStep(deployments[i], step));
    |Filter(deployments, p)|
  }

  /** `Math.round(n / d)` for non-negative integers: the nearest integer, halves rounded up. */
  function RoundHalfUp(n: nat, d: nat): (r: nat)
    requires d > 0
    ensures r * (2 * d) <= 2 * n + d < (r + 1) * (2 * d)
  {
    (2 * n + d) / (2 * d)
  }

  /** `total > 0 ? Math.round((successful / total) * 100) : 0`. */
  function SuccessRate(successful: nat, total: nat): (r: nat)
    requires successful <= total
    ensures r <= 100
    ensures total == 0 ==> r == 0
    ensures total > 0 ==> r * (2 * total) <= 200 * successful + total < (r + 1) * (2 * total)
  {
    if total > 0 then
      var r := RoundHalfUp(100 * successful, total);
      AtLeastIff(r, 200 * successful + total, 2 * total, 101);
      r
    else 0
  }

  function ComputeStats(file: IndexFile): (r: Reply<Stats>)
    ensures r.NotFound? == false
    ensures r.ServerError? <==> file.Unreadable?
    ensures file.Missing? ==> r == Success(Stats(0, 0, 0, 0, None))
    ensures r.Success? ==> r.body.totalDeployments == r.body.successfulDeployments + r.body.failedDeployments &&
                           r.body.successRate <= 100
    ensures file.Present? ==>
              var deployments := file.deployments;
              && r.Success?
              && r.body.successfulDeployments == Count(deployments, StepDeployed)
              && r.body.failedDeployments == Count(deployments, StepFailed)
              && r.body.successRate == SuccessRate(r.body.successfulDeployments, r.body.totalDeployments)
              && r.body.lastDeployment == (if deployments == [] then Some(JNull)
                                           else Get(deployments[|deployments| - 1], "timestamp"))
  {
    match file
    case Missing => Success(Stats(0, 0, 0, 0, None))
    case Unreadable(_) => ServerError(StatsFailed, None)
    case Present(deployments) =>
      var successful := Count(deployments, StepDeployed);
      var failed := Count(deployments, StepFailed);
      var total := successful + failed;
      var last := if |deployments| > 0 then Get(deployments[|deployments| - 1], "timestamp") else Some(JNull);
      Success(Stats(total, successful, failed, SuccessRate(successful, total), last))
  }

  /**
   * The rate is 100 exactly when failures are at most 1/199 of the
   * successes (so 199 successes and one failure already show 100), and 0
   * exactly when there is nothing to count or failures exceed 199 times the
   * successes.
   */
  lemma SuccessRateExtremes(successful: nat, failed: nat)
    ensures SuccessRate(successful, successful + failed) == 100 <==> successful + failed > 0 && successful >= 199 * failed
    ensures SuccessRate(successful, successful + failed) == 0 <==> successful + failed == 0 || failed > 199 * successful
  {
    var total := successful + failed;
    if total > 0 {
      var r := SuccessRate(successful, total);
      AtLeastIff(r, 200 * successful + total, 2 * total, 100);
      AtLeastIff(r, 200 * successful + total, 2 * total, 1);
    }
  }

  /** For `r == a / d`, `r` reaches `k` exactly when `a` reaches `k * d`. */
  lemma AtLeastIff(r: nat, a: nat, d: nat, k: nat)
    requires d > 0 && r * d <= a < (r + 1) * d
    ensures r >= k <==> a >= k * d
  {
    if r >= k {
      MulMono(k, r, d);
    } else {
      MulMono(r + 1, k, d);
    }
  }

  lemma MulMono(x: nat, y: nat, d: nat)
    requires x <= y
    ensures x * d <= y * d
  {
    assert y * d == x * d + (y - x) * d;
  }

  /** Records of other steps (`metadata_prepared`, `transaction_sent`) are not counted. */
  lemma {:induction false} CountsIgnoreOtherSteps(deployments: seq<Entry>)
    ensures Count(deployments, StepDeployed) + Count(deployments, StepFailed) +
            |Filter(deployments, d => !HasStep(d, StepDeployed) && !HasStep(d, StepFailed))| == |deployments|
  {
    if deployments != [] {
      var init, last := deployments[..|deployments| - 1], deployments[|deployments| - 1];
      assert deployments == init + [last];
      FilterSnoc(init, last, WithStep(StepDeployed));
      FilterSnoc(init, last, WithStep(StepFailed));
      FilterSnoc(init, last, d => !HasStep(d, StepDeployed) && !HasStep(d, StepFailed));
      CountsIgnoreOtherSteps(init);
    }
  }

  /**
   * Before the first deployment there is no index file: the listing and the
   * latest deployment answer 404 and the statistics are all zero, with no
   * `lastDeployment`.
   */
  lemma MissingIndexAnswers(query: map<string, string>)
    ensures ListDeployments(Observe(None), query) == NotFound(NoDeployments, Some(RunDeployFirst))
    ensures LatestDeployment(Observe(None)) == NotFound(NoDeployments, None)
    ensures ComputeStats(Observe(None)) == Success(Stats(0, 0, 0, 0, None))
  {
  }

  // ---- The statistics across deployment runs ----

  /** Only the last entry a run writes can be counted, and it carries the last clock reading. */
  lemma RunCounted(before: seq<Entry>, records: seq<Deployer.Record>, stamps: seq<string>)
    requires Deployer.OutcomeLast(records) && |records| <= |stamps|
    ensures var after := before + Deployer.Written(records, stamps);
            var outcome := records[|records| - 1];
            Count(after, StepDeployed) == Count(before, StepDeployed) + (if outcome.Deployed? then 1 else 0) &&
            Count(after, StepFailed) == Count(before, StepFailed) + (if outcome.Failed? then 1 else 0) &&
            Get(after[|after| - 1], "timestamp") == Some(JStr(stamps[|records| - 1]))
  {
    var written := Deployer.Written(records, stamps);
    WrittenCounts(records, stamps);
    FilterAppend(before, written, WithStep(StepDeployed));
    FilterAppend(before, written, WithStep(StepFailed));
    LastStamp(before, records, stamps);
  }

  /** Of a run's entries only the last carries an outcome step, and it carries the outcome's. */
  lemma WrittenCounts(records: seq<Deployer.Record>, stamps: seq<string>)
    requires Deployer.OutcomeLast(records) && |records| <= |stamps|
    ensures Count(Deployer.Written(records, stamps), StepDeployed) == if records[|records| - 1].Deployed? then 1 else 0
    ensures Count(Deployer.Written(records, stamps), StepFailed) == if records[|records| - 1].Failed? then 1 else 0
  {
    var written := Deployer.Written(records, stamps);
    Deployer.WrittenSteps(records, stamps);
    forall i | 0 <= i < |records|
      ensures (records[i].Step() == StepDeployed <==> records[i].Deployed?) &&
              (records[i].Step() == StepFailed <==> records[i].Failed?)
    {
      Deployer.StepIdentifies(records[i]);
    }
    CountOnlyLast(written, records, StepDeployed);
    CountOnlyLast(written, records, StepFailed);
  }

  /** Entries that carry their records' steps, of which only the last can be `step`, count `step` at most once, at the end. */
  lemma CountOnlyLast(written: seq<Entry>, records: seq<Deployer.Record>, step: string)
    requires |written| == |records| >= 1
    requires forall i, s :: 0 <= i < |records| ==> (HasStep(written[i], s) <==> s == records[i].Step())
    requires forall i :: 0 <= i < |records| - 1 ==> records[i].Step() != step
    ensures Count(written, step) == if records[|records| - 1].Step() == step then 1 else 0
  {
    var n := |written|;
    var init, last := written[..n - 1], written[n - 1];
    assert written == init + [last];
    assert forall i :: 0 <= i < |init| ==> init[i] == written[i];
    FilterEmpty(init, WithStep(step));
    FilterSnoc(init, last, WithStep(step));
  }

  /** The last entry of the index after a run is the run's last, stamped with its clock reading. */
  lemma LastStamp(before: seq<Entry>, records: seq<Deployer.Record>, stamps: seq<string>)
    requires 0 < |records| <= |stamps|
    ensures var after := before + Deployer.Written(records, stamps);
            Get(after[|after| - 1], "timestamp") == Some(JStr(stamps[|records| - 1]))
  {
    var written := Deployer.Written(records, stamps);
    Deployer.WrittenAt(records, stamps);
    assert (before + written)[|before + written| - 1] == written[|records| - 1];
  }

  /** A test that no element passes filters everything out. */
  lemma FilterEmpty(xs: seq<Entry>, p: Entry -> bool)
    requires forall i :: 0 <= i < |xs| ==> !p(xs[i])
    ensures Filter(xs, p) == []
  {
  }

  /**
   * One `deployNFT` run moves the statistics by exactly one: a success adds
   * one successful deployment, a failure one failed deployment, and the last
   * deployment becomes the run's last clock reading. Every run meets the
   * precondition (`Deployer.RunEndsWithOutcome`), and `NFTDeployer.DeployNFT`
   * leaves the index as `before + Written(run.records, stamps)`.
   */
  lemma DeploymentCountedOnce(before: seq<Entry>, run: Deployer.Progress, stamps: seq<string>)
    requires Deployer.OutcomeLast(run.records) && |run.records| <= |stamps|
    requires run.records[|run.records| - 1].Deployed? <==> run.result.Ok?
    ensures var old_ := ComputeStats(Present(before)).body;
            var new_ := ComputeStats(Present(before + Deployer.Written(run.records, stamps))).body;
            new_.successfulDeployments == old_.successfulDeployments + (if run.result.Ok? then 1 else 0) &&
            new_.failedDeployments == old_.failedDeployments + (if run.result.Err? then 1 else 0) &&
            new_.totalDeployments == old_.totalDeployments + 1 &&
            new_.lastDeployment == Some(JStr(stamps[|run.records| - 1]))
  {
    RunCounted(before, run.records, stamps);
  }
}
