/**
 * The knowledge-base sync custom resource (lambda/kb_sync/index.py): on Create
 * or Update it starts one Bedrock ingestion job per (knowledge base, data
 * source) pair, polls every pair each 10 seconds for at most 240 seconds, and
 * reports SUCCESS with the last job id and a status; any exception becomes one
 * FAILED response. As written, every status check uses the job id returned by
 * the LAST start call, and neither a timeout nor a FAILED job status is
 * reported as a failure.
 */
module KbSync {
  import opened Runtime

  const MaxWaitTime: nat := 240
  const WaitInterval: nat := 10
  /** How many polling rounds fit in the budget. */
  const MaxRounds: nat := MaxWaitTime / WaitInterval

  const InitialStatus := "UNKNOWN"
  const StillRunning := "STILL_RUNNING"
  /** `str(e)` of the UnboundLocalError raised when no job was ever started (CPython 3.12 wording). */
  const UnboundJobIdMessage := "cannot access local variable 'ingestion_job_id' where it is not associated with a value"

  /**
   * An environment variable that should hold a JSON list of ids: unset
   * (`os.environ[...]` raises KeyError), text that `json.loads` rejects, or
   * the ids it lists.
   */
  datatype EnvIds = Unset | Unparsable(message: string) | Ids(ids: seq<string>)

  /** The environment as the handler reads it: KNOWLEDGE_BASE_ID, DATA_SOURCE_ID, REGION. */
  datatype Config = Config(knowledgeBaseIds: EnvIds, dataSourceIds: EnvIds, region: Option<string>)

  /** The configuration once read, or the message of the first exception reading it raised. */
  datatype Loaded = Loaded(kbIds: seq<string>, dsIds: seq<string>) | LoadError(message: string)

  datatype Pair = Pair(kbId: string, dsId: string)

  datatype BedrockCall =
    | StartIngestionJob(kbId: string, dsId: string)
    | GetIngestionJob(kbId: string, dsId: string, jobId: string)

  /**
   * What bedrock-agent answers during one invocation: `start(i)` to the
   * `start_ingestion_job` call for the i-th pair (its value is the
   * `ingestionJobId`), and `status(r, j)` to the `get_ingestion_job` call for
   * the j-th pair in polling round r (its value is the job's `status`).
   */
  datatype Bedrock = Bedrock(start: nat -> Reply, status: (nat, nat) -> Reply)

  type Trace = seq<Step<BedrockCall>>

  /** Reads the three variables in the handler's order; the first failure is what is raised. */
  function LoadConfig(c: Config): (l: Loaded)
    ensures l.Loaded? <==> c.knowledgeBaseIds.Ids? && c.dataSourceIds.Ids? && c.region.Some?
    ensures l.Loaded? ==> l.kbIds == c.knowledgeBaseIds.ids && l.dsIds == c.dataSourceIds.ids
    ensures c.knowledgeBaseIds.Unset? ==> l == LoadError("'KNOWLEDGE_BASE_ID'")
    ensures c.knowledgeBaseIds.Unparsable? ==> l == LoadError(c.knowledgeBaseIds.message)
    ensures c.knowledgeBaseIds.Ids? && c.dataSourceIds.Unparsable? ==> l == LoadError(c.dataSourceIds.message)
    ensures c.knowledgeBaseIds.Ids? && c.dataSourceIds.Unset? ==> l == LoadError("'DATA_SOURCE_ID'")
    ensures c.knowledgeBaseIds.Ids? && c.dataSourceIds.Ids? && c.region.None? ==> l == LoadError("'REGION'")
  {
    match c.knowledgeBaseIds
    case Unset => LoadError("'KNOWLEDGE_BASE_ID'")
    case Unparsable(m) => LoadError(m)
    case Ids(kb) =>
      match c.dataSourceIds
      case Unset => LoadError("'DATA_SOURCE_ID'")
      case Unparsable(m) => LoadError(m)
      case Ids(ds) => if c.region.None? then LoadError("'REGION'") else Loaded(kb, ds)
  }

  /** Python's `zip` of two lists: the pairs of equal positions, as many as the shorter list has. */
  function Zip(kb: seq<string>, ds: seq<string>): (pairs: seq<Pair>)
    ensures |pairs| == if |kb| <= |ds| then |kb| else |ds|
    ensures forall i :: 0 <= i < |pairs| ==> pairs[i] == Pair(kb[i], ds[i])
  {
    if kb == [] || ds == [] then [] else [Pair(kb[0], ds[0])] + Zip(kb[1..], ds[1..])
  }

  /** The first start call in [from, limit) that raises, if any. */
  function FirstFailedStart(start: nat -> Reply, from: nat, limit: nat): (i: Option<nat>)
    requires from <= limit
    ensures i.Some? ==> from <= i.value < limit && start(i.value).Raise?
    ensures forall j :: from <= j < (if i.Some? then i.value else limit) ==> start(j).Value?
    decreases limit - from
  {
    if from == limit then None
    else if start(from).Raise? then Some(from)
    else FirstFailedStart(start, from + 1, limit)
  }

  /** The first check of round `r` among pairs [from, n) that raises, if any. */
  function FirstFailedCheck(status: (nat, nat) -> Reply, r: nat, from: nat, n: nat): (j: Option<nat>)
    requires from <= n
    ensures j.Some? ==> from <= j.value < n && status(r, j.value).Raise?
    ensures forall m :: from <= m < (if j.Some? then j.value else n) ==> status(r, m).Value?
    decreases n - from
  {
    if from == n then None
    else if status(r, from).Raise? then Some(from)
    else FirstFailedCheck(status, r, from + 1, n)
  }

  /** Every one of the `n` checks of round `r` reports SUCCESS. */
  predicate AllSuccessful(status: (nat, nat) -> Reply, r: nat, n: nat) {
    forall j :: 0 <= j < n ==> status(r, j) == Value("SUCCESS")
  }

  /** Round `r` ends the polling: one of its checks raises, or all report SUCCESS. */
  predicate RoundStops(status: (nat, nat) -> Reply, r: nat, n: nat) {
    FirstFailedCheck(status, r, 0, n).Some? || AllSuccessful(status, r, n)
  }

  /** The first round in [from, limit) that ends the polling, if any. */
  function FirstStoppingRound(status: (nat, nat) -> Reply, n: nat, from: nat, limit: nat): (r: Option<nat>)
    requires from <= limit
    ensures r.Some? ==> from <= r.value < limit && RoundStops(status, r.value, n)
    ensures forall q :: from <= q < (if r.Some? then r.value else limit) ==> !RoundStops(status, q, n)
    decreases limit - from
  {
    if from == limit then None
    else if RoundStops(status, from, n) then Some(from)
    else FirstStoppingRound(status, n, from + 1, limit)
  }

  /** The start calls for the first `k` pairs. */
  function StartSteps(pairs: seq<Pair>, k: nat): Trace
    requires k <= |pairs|
  {
    if k == 0 then [] else StartSteps(pairs, k - 1) + [Call(StartIngestionJob(pairs[k - 1].kbId, pairs[k - 1].dsId))]
  }

  /** The status checks of the first `k` pairs in one round, all with job id `id`. */
  function CheckSteps(pairs: seq<Pair>, id: string, k: nat): Trace
    requires k <= |pairs|
  {
    if k == 0 then [] else CheckSteps(pairs, id, k - 1) + [Call(GetIngestionJob(pairs[k - 1].kbId, pairs[k - 1].dsId, id))]
  }

  /** `r` rounds that did not end the polling, each followed by the interval sleep. */
  function Rounds(pairs: seq<Pair>, id: string, r: nat): Trace {
    if r == 0 then [] else Rounds(pairs, id, r - 1) + CheckSteps(pairs, id, |pairs|) + [Sleep(WaitInterval)]
  }

  /** The SUCCESS response sent after the polling loop. */
  function Done(id: string, status: string): Response {
    Response(SUCCESS, map["IngestionJobId" := id, "Status" := status])
  }

  /**
   * Reference definition of what one invocation does, written by cases on
   * which start call, and which round, ends the work rather than step by step.
   */
  function ExpectedTrace(requestType: string, config: Config, bedrock: Bedrock): Trace {
    match LoadConfig(config)
    case LoadError(m) => [Send(Failed(m))]
    case Loaded(kb, ds) =>
      if !IsProvisioning(requestType) then [Send(Response(SUCCESS, map[]))]
      else ProvisionTrace(Zip(kb, ds), bedrock)
  }

  /** What Create and Update do with the zipped pairs: start every job, then poll. */
  function ProvisionTrace(pairs: seq<Pair>, bedrock: Bedrock): Trace {
    var n := |pairs|;
    var failedStart := FirstFailedStart(bedrock.start, 0, n);
    if failedStart.Some? then
      StartSteps(pairs, failedStart.value + 1) + [Send(Failed(bedrock.start(failedStart.value).error.message))]
    else if n == 0 then
      [Send(Failed(UnboundJobIdMessage))]
    else
      StartSteps(pairs, n) + PollTrace(pairs, bedrock.start(n - 1).value, bedrock.status)
  }

  /** The polling rounds, all with job id `id`, and the response that follows them. */
  function PollTrace(pairs: seq<Pair>, id: string, status: (nat, nat) -> Reply): Trace
    requires |pairs| > 0
  {
    var n := |pairs|;
    var stop := FirstStoppingRound(status, n, 0, MaxRounds);
    if stop.None? then
      Rounds(pairs, id, MaxRounds) + [Send(Done(id, StillRunning))]
    else
      var r := stop.value;
      var failedCheck := FirstFailedCheck(status, r, 0, n);
      if failedCheck.Some? then
        Rounds(pairs, id, r) + CheckSteps(pairs, id, failedCheck.value + 1)
        + [Send(Failed(status(r, failedCheck.value).error.message))]
      else
        Rounds(pairs, id, r) + CheckSteps(pairs, id, n) + [Send(Done(id, status(r, n - 1).value))]
  }

  /** How the start loop ended: on an exception, or with `ingestion_job_id` (None while unbound). */
  datatype StartOutcome = StartRaised(message: string) | AllStarted(jobId: Option<string>)

  /** How the polling loop ended: on an exception, or with the final `elapsed_time` and `final_status`. */
  datatype PollOutcome = PollRaised(message: string) | PollFinished(elapsedTime: nat, finalStatus: string)

  /** Lines 28-35: one `start_ingestion_job` per zipped pair, keeping only the last job id. */
  method StartJobs(pairs: seq<Pair>, start: nat -> Reply) returns (steps: Trace, outcome: StartOutcome)
    ensures var failed := FirstFailedStart(start, 0, |pairs|);
      && (failed.Some? ==>
            steps == StartSteps(pairs, failed.value + 1) && outcome == StartRaised(start(failed.value).error.message))
      && (failed.None? ==>
            steps == StartSteps(pairs, |pairs|)
            && outcome == AllStarted(if |pairs| == 0 then None else Some(start(|pairs| - 1).value)))
  {
    steps := [];
    var jobId: Option<string> := None;
    var i := 0;
    while i < |pairs|
      invariant i <= |pairs|
      invariant steps == StartSteps(pairs, i)
      invariant forall j :: 0 <= j < i ==> start(j).Value?
      invariant jobId == if i == 0 then None else Some(start(i - 1).value)
    {
      steps := steps + [Call(StartIngestionJob(pairs[i].kbId, pairs[i].dsId))];
      var reply := start(i);
      if reply.Raise? {
        outcome := StartRaised(reply.error.message);
        return;
      }
      jobId := Some(reply.value);
      i := i + 1;
    }
    outcome := AllStarted(jobId);
  }

  /** How one polling round ended: on an exception, or with `all_successful` and `final_status`. */
  datatype RoundOutcome = RoundRaised(message: string) | RoundDone(allSuccessful: bool, finalStatus: string)

  /**
   * Lines 45-59: one polling round, a `get_ingestion_job` per pair with the
   * job id; `final_status` takes each returned status in turn, and
   * `all_successful` stays true while every status is SUCCESS.
   */
  method PollRound(pairs: seq<Pair>, jobId: Option<string>, status: (nat, nat) -> Reply, round: nat, finalStatus: string)
    returns (steps: Trace, outcome: RoundOutcome)
    requires |pairs| > 0 ==> jobId.Some?
    ensures var n, failed := |pairs|, FirstFailedCheck(status, round, 0, |pairs|);
      && (n == 0 ==> steps == [] && outcome == RoundDone(true, finalStatus))
      && (n > 0 && failed.Some? ==>
            && steps == CheckSteps(pairs, jobId.value, failed.value + 1)
            && outcome == RoundRaised(status(round, failed.value).error.message))
      && (n > 0 && failed.None? ==>
            && steps == CheckSteps(pairs, jobId.value, n)
            && outcome == RoundDone(AllSuccessful(status, round, n), status(round, n - 1).value))
  {
    var n := |pairs|;
    steps := [];
    var allSuccessful := true;
    var lastStatus := finalStatus;
    var j := 0;
    while j < n
      invariant j <= n
      invariant n > 0 ==> steps == CheckSteps(pairs, jobId.value, j)
      invariant n == 0 ==> steps == []
      invariant forall m :: 0 <= m < j ==> status(round, m).Value?
      invariant allSuccessful <==> forall m :: 0 <= m < j ==> status(round, m) == Value("SUCCESS")
      invariant lastStatus == if j == 0 then finalStatus else status(round, j - 1).value
    {
      steps := steps + [Call(GetIngestionJob(pairs[j].kbId, pairs[j].dsId, jobId.value))];
      var reply := status(round, j);
      if reply.Raise? {
        assert FirstFailedCheck(status, round, 0, n) == Some(j);
        outcome := RoundRaised(reply.error.message);
        return;
      }
      lastStatus := reply.value;
      if reply.value != "SUCCESS" {
        allSuccessful := false;
      }
      j := j + 1;
    }
    outcome := RoundDone(allSuccessful, lastStatus);
  }

  /**
   * Lines 39-66: rounds of one `get_ingestion_job` per pair, all with the same
   * job id, every 10 seconds, until a round is all SUCCESS or 240 seconds have
   * passed. `round` is always `elapsedTime / WaitInterval` and selects the replies.
   */
  method PollJobs(pairs: seq<Pair>, jobId: Option<string>, status: (nat, nat) -> Reply)
    returns (steps: Trace, outcome: PollOutcome)
    requires |pairs| > 0 ==> jobId.Some?
    ensures |pairs| == 0 ==> steps == [] && outcome == PollFinished(0, InitialStatus)
    ensures |pairs| > 0 ==>
      var n, id := |pairs|, jobId.value;
      var stop := FirstStoppingRound(status, n, 0, MaxRounds);
      && (stop.None? ==>
            steps == Rounds(pairs, id, MaxRounds) && outcome.PollFinished? && outcome.elapsedTime == MaxWaitTime)
      && (stop.Some? && FirstFailedCheck(status, stop.value, 0, n).Some? ==>
            var r, j := stop.value, FirstFailedCheck(status, stop.value, 0, n).value;
            steps == Rounds(pairs, id, r) + CheckSteps(pairs, id, j + 1) && outcome == PollRaised(status(r, j).error.message))
      && (stop.Some? && FirstFailedCheck(status, stop.value, 0, n).None? ==>
            var r := stop.value;
            steps == Rounds(pairs, id, r) + CheckSteps(pairs, id, n)
            && outcome == PollFinished(WaitInterval * r, status(r, n - 1).value))
  {
    var n := |pairs|;
    steps := [];
    var elapsedTime: nat := 0;
    var finalStatus := InitialStatus;
    var round: nat := 0;
    while elapsedTime < MaxWaitTime
      invariant round <= MaxRounds && elapsedTime == WaitInterval * round
      invariant n > 0 ==> steps == Rounds(pairs, jobId.value, round)
      invariant n == 0 ==> steps == [] && round == 0 && finalStatus == InitialStatus
      invariant forall q :: 0 <= q < round ==> !RoundStops(status, q, n)
    {
      var checked, roundOutcome := PollRound(pairs, jobId, status, round, finalStatus);
      steps := steps + checked;
      if roundOutcome.RoundRaised? {
        assert round < MaxRounds && RoundStops(status, round, n);
        assert FirstStoppingRound(status, n, 0, MaxRounds) == Some(round);
        outcome := PollRaised(roundOutcome.message);
        return;
      }
      finalStatus := roundOutcome.finalStatus;
      if roundOutcome.allSuccessful {
        assert round < MaxRounds && RoundStops(status, round, n);
        assert FirstStoppingRound(status, n, 0, MaxRounds) == Some(round);
        break;
      }
      assert !RoundStops(status, round, n);
      steps := steps + [Sleep(WaitInterval)];
      elapsedTime := elapsedTime + WaitInterval;
      round := round + 1;
    }
    outcome := PollFinished(elapsedTime, finalStatus);
  }

  /** Lines 27-71: the Create and Update branch, exceptions included. */
  method Provision(pairs: seq<Pair>, bedrock: Bedrock) returns (trace: Trace)
    ensures trace == ProvisionTrace(pairs, bedrock)
  {
    var started, startOutcome := StartJobs(pairs, bedrock.start);
    if startOutcome.StartRaised? {
      trace := started + [Send(Failed(startOutcome.message))];
      return;
    }
    assert FirstFailedStart(bedrock.start, 0, |pairs|).None?;
    assert started == StartSteps(pairs, |pairs|);
    var jobId := startOutcome.jobId;
    var polled, pollOutcome := PollJobs(pairs, jobId, bedrock.status);
    trace := started + polled;
    if jobId.None? {
      assert |pairs| == 0 && pollOutcome.PollFinished?;
      trace := trace + [Send(Failed(UnboundJobIdMessage))];
      return;
    }
    assert |pairs| > 0 && jobId.value == bedrock.start(|pairs| - 1).value;
    var response;
    if pollOutcome.PollRaised? {
      response := Send(Failed(pollOutcome.message));
    } else {
      var reported := if pollOutcome.elapsedTime < MaxWaitTime then pollOutcome.finalStatus else StillRunning;
      response := Send(Done(jobId.value, reported));
    }
    assert polled + [response] == PollTrace(pairs, jobId.value, bedrock.status);
    assert trace + [response] == started + (polled + [response]);
    trace := trace + [response];
  }

  /** The handler: read the configuration, route on the request type, provision, report once. */
  method Handler(requestType: string, config: Config, bedrock: Bedrock) returns (trace: Trace)
    ensures trace == ExpectedTrace(requestType, config, bedrock)
  {
    var loaded := LoadConfig(config);
    if loaded.LoadError? {
      trace := [Send(Failed(loaded.message))];
    } else if !IsProvisioning(requestType) {
      trace := [Send(Response(SUCCESS, map[]))];
    } else {
      trace := Provision(Zip(loaded.kbIds, loaded.dsIds), bedrock);
    }
  }

  /** Every call in `calls` is a status check with job id `id` of one of the zipped pairs. */
  predicate ChecksWith(calls: seq<BedrockCall>, pairs: seq<Pair>, id: string) {
    forall c :: c in calls ==> c.GetIngestionJob? && c.jobId == id && Pair(c.kbId, c.dsId) in pairs
  }

  lemma {:induction false} StartStepsViews(pairs: seq<Pair>, k: nat)
    requires k <= |pairs|
    ensures Sent(StartSteps(pairs, k)) == [] && Slept(StartSteps(pairs, k)) == 0
    ensures |Calls(StartSteps(pairs, k))| == k
    ensures forall i :: 0 <= i < k ==> Calls(StartSteps(pairs, k))[i] == StartIngestionJob(pairs[i].kbId, pairs[i].dsId)
  {
    if k > 0 {
      StartStepsViews(pairs, k - 1);
      Snoc(StartSteps(pairs, k - 1), Call(StartIngestionJob(pairs[k - 1].kbId, pairs[k - 1].dsId)));
    }
  }

  lemma {:induction false} CheckStepsViews(pairs: seq<Pair>, id: string, k: nat)
    requires k <= |pairs|
    ensures Sent(CheckSteps(pairs, id, k)) == [] && Slept(CheckSteps(pairs, id, k)) == 0
    ensures |Calls(CheckSteps(pairs, id, k))| == k
    ensures forall i :: 0 <= i < k ==> Calls(CheckSteps(pairs, id, k))[i] == GetIngestionJob(pairs[i].kbId, pairs[i].dsId, id)
    ensures ChecksWith(Calls(CheckSteps(pairs, id, k)), pairs, id)
  {
    CheckStepsCalls(pairs, id, k);
    var calls := Calls(CheckSteps(pairs, id, k));
    forall c | c in calls
      ensures c.GetIngestionJob? && c.jobId == id && Pair(c.kbId, c.dsId) in pairs
    {
      var i :| 0 <= i < |calls| && calls[i] == c;
      assert pairs[i] == Pair(c.kbId, c.dsId);
    }
  }

  lemma {:induction false} CheckStepsCalls(pairs: seq<Pair>, id: string, k: nat)
    requires k <= |pairs|
    ensures Sent(CheckSteps(pairs, id, k)) == [] && Slept(CheckSteps(pairs, id, k)) == 0
    ensures |Calls(CheckSteps(pairs, id, k))| == k
    ensures forall i :: 0 <= i < k ==> Calls(CheckSteps(pairs, id, k))[i] == GetIngestionJob(pairs[i].kbId, pairs[i].dsId, id)
  {
    if k > 0 {
      CheckStepsCalls(pairs, id, k - 1);
      Snoc(CheckSteps(pairs, id, k - 1), Call(GetIngestionJob(pairs[k - 1].kbId, pairs[k - 1].dsId, id)));
    }
  }

  lemma {:induction false} RoundsViews(pairs: seq<Pair>, id: string, r: nat)
    ensures Sent(Rounds(pairs, id, r)) == []
    ensures Slept(Rounds(pairs, id, r)) == WaitInterval * r
    ensures |Calls(Rounds(pairs, id, r))| == r * |pairs|
    ensures ChecksWith(Calls(Rounds(pairs, id, r)), pairs, id)
  {
    if r > 0 {
      RoundsViews(pairs, id, r - 1);
      CheckStepsViews(pairs, id, |pairs|);
      var before := Rounds(pairs, id, r - 1);
      var round := CheckSteps(pairs, id, |pairs|);
      TraceAppend(before, round);
      Snoc(before + round, Sleep(WaitInterval));
      assert (r - 1) * |pairs| + |pairs| == r * |pairs|;
    }
  }

  /** The polling phase is some unfinished rounds, part of one more round, and the response. */
  lemma PollShape(pairs: seq<Pair>, id: string, status: (nat, nat) -> Reply) returns (r: nat, k: nat, last: Response)
    requires |pairs| > 0
    ensures r <= MaxRounds && k <= |pairs|
    ensures PollTrace(pairs, id, status) == Rounds(pairs, id, r) + CheckSteps(pairs, id, k) + [Send(last)]
    ensures forall q :: 0 <= q < r ==> !RoundStops(status, q, |pairs|)
    ensures r == MaxRounds ==> k == 0 && last == Done(id, StillRunning)
    ensures r < MaxRounds ==> RoundStops(status, r, |pairs|)
    ensures r < MaxRounds && FirstFailedCheck(status, r, 0, |pairs|).Some? ==>
      var j := FirstFailedCheck(status, r, 0, |pairs|).value;
      k == j + 1 && last == Failed(status(r, j).error.message)
    ensures r < MaxRounds && FirstFailedCheck(status, r, 0, |pairs|).None? ==>
      k == |pairs| && last == Done(id, status(r, |pairs| - 1).value)
  {
    var n := |pairs|;
    var stop := FirstStoppingRound(status, n, 0, MaxRounds);
    if stop.None? {
      r, k, last := MaxRounds, 0, Done(id, StillRunning);
      assert Rounds(pairs, id, r) + CheckSteps(pairs, id, 0) == Rounds(pairs, id, r);
    } else {
      r := stop.value;
      var failedCheck := FirstFailedCheck(status, r, 0, n);
      if failedCheck.Some? {
        k, last := failedCheck.value + 1, Failed(status(r, failedCheck.value).error.message);
      } else {
        k, last := n, Done(id, status(r, n - 1).value);
      }
    }
  }

  /** The views of `r` unfinished rounds followed by the first `k` checks of the next. */
  lemma PollBodyViews(pairs: seq<Pair>, id: string, r: nat, k: nat)
    requires k <= |pairs|
    ensures var b := Rounds(pairs, id, r) + CheckSteps(pairs, id, k);
      && Sent(b) == [] && Slept(b) == WaitInterval * r
      && |Calls(b)| == r * |pairs| + k
      && ChecksWith(Calls(b), pairs, id)
  {
    RoundsViews(pairs, id, r);
    CheckStepsViews(pairs, id, k);
    TraceAppend(Rounds(pairs, id, r), CheckSteps(pairs, id, k));
  }

  lemma RoundBound(r: nat, k: nat, n: nat)
    requires r <= MaxRounds && k <= n && (r == MaxRounds ==> k == 0)
    ensures r * n + k <= MaxRounds * n
  {
    if r < MaxRounds {
      assert r * n + n == (r + 1) * n;
      assert (r + 1) * n <= MaxRounds * n;
    }
  }

  /** The views of the polling phase, whatever the replies. */
  lemma PollTraceViews(pairs: seq<Pair>, id: string, status: (nat, nat) -> Reply)
    requires |pairs| > 0
    ensures var p := PollTrace(pairs, id, status);
      && p[|p| - 1].Send? && Sent(p) == [p[|p| - 1].response]
      && Slept(p) % WaitInterval == 0 && Slept(p) <= MaxWaitTime
      && |Calls(p)| <= MaxRounds * |pairs|
      && ChecksWith(Calls(p), pairs, id)
  {
    var r, k, last := PollShape(pairs, id, status);
    PollBodyViews(pairs, id, r, k);
    Snoc(Rounds(pairs, id, r) + CheckSteps(pairs, id, k), Send(last));
    RoundBound(r, k, |pairs|);
    SleptRounds(r);
  }

  /** Every invocation sends exactly one response, and it is the last thing it does. */
  lemma ExactlyOneResponse(requestType: string, config: Config, bedrock: Bedrock)
    ensures var t := ExpectedTrace(requestType, config, bedrock);
      t[|t| - 1].Send? && Sent(t) == [t[|t| - 1].response]
  {
    var t := ExpectedTrace(requestType, config, bedrock);
    var loaded := LoadConfig(config);
    if !(loaded.Loaded? && IsProvisioning(requestType)) {
      StepViews(t[0]);
      return;
    }
    var n := |PairsOf(config)|;
    var failedStart := FirstFailedStart(bedrock.start, 0, n);
    if failedStart.Some? {
      FailedStartShape(requestType, config, bedrock, failedStart.value);
      assert t[|t| - 1] == Send(Failed(bedrock.start(failedStart.value).error.message));
    } else if n == 0 {
      StepViews(t[0]);
    } else {
      var r, k, last := ProvisionShape(requestType, config, bedrock);
    }
  }

  /**
   * Reading the configuration fails (a missing variable, JSON that does not
   * parse): one FAILED with `str(e)` and no bedrock call, whatever the request type.
   */
  lemma ConfigErrorFails(requestType: string, config: Config, bedrock: Bedrock)
    requires LoadConfig(config).LoadError?
    ensures var t := ExpectedTrace(requestType, config, bedrock);
      Sent(t) == [Failed(LoadConfig(config).message)] && Calls(t) == [] && Slept(t) == 0
  {
    StepViews(ExpectedTrace(requestType, config, bedrock)[0]);
  }

  /** Delete (or any request type but Create and Update): one SUCCESS with empty data, no bedrock call. */
  lemma DeleteIsNoOp(requestType: string, config: Config, bedrock: Bedrock)
    requires LoadConfig(config).Loaded? && !IsProvisioning(requestType)
    ensures var t := ExpectedTrace(requestType, config, bedrock);
      Sent(t) == [Response(SUCCESS, map[])] && Calls(t) == [] && Slept(t) == 0
  {
    StepViews(ExpectedTrace(requestType, config, bedrock)[0]);
  }

  /** No pair at all: nothing is started, and reading the unbound job id makes the response FAILED. */
  lemma ZeroPairsFails(requestType: string, config: Config, bedrock: Bedrock)
    requires LoadConfig(config).Loaded? && IsProvisioning(requestType)
    requires |LoadConfig(config).kbIds| == 0 || |LoadConfig(config).dsIds| == 0
    ensures var t := ExpectedTrace(requestType, config, bedrock);
      Sent(t) == [Failed(UnboundJobIdMessage)] && Calls(t) == []
  {
    StepViews(ExpectedTrace(requestType, config, bedrock)[0]);
  }

  /**
   * When no start call raises, the calls begin with one start per zipped pair,
   * in list order, `min(len(kb_ids), len(ds_ids))` of them; every later call
   * is a status check of one of those pairs, with the job id of the LAST start.
   */
  lemma StartsThenChecksWithLastJobId(requestType: string, config: Config, bedrock: Bedrock)
    requires IsProvisioning(requestType)
    requires config.knowledgeBaseIds.Ids? && config.dataSourceIds.Ids? && config.region.Some?
    requires var kb, ds := config.knowledgeBaseIds.ids, config.dataSourceIds.ids;
      forall i :: 0 <= i < |kb| && i < |ds| ==> bedrock.start(i).Value?
    ensures var kb, ds := config.knowledgeBaseIds.ids, config.dataSourceIds.ids;
      var m := if |kb| <= |ds| then |kb| else |ds|;
      var calls := Calls(ExpectedTrace(requestType, config, bedrock));
      && |calls| >= m
      && (forall i :: 0 <= i < m ==> calls[i] == StartIngestionJob(kb[i], ds[i]))
      && (m > 0 ==> ChecksWith(calls[m..], Zip(kb, ds), bedrock.start(m - 1).value))
  {
    var t := ExpectedTrace(requestType, config, bedrock);
    var pairs := PairsOf(config);
    var n := |pairs|;
    assert FirstFailedStart(bedrock.start, 0, n).None? by {
      assert forall i :: 0 <= i < n ==> bedrock.start(i).Value?;
    }
    if n > 0 {
      var id := bedrock.start(n - 1).value;
      var poll := PollTrace(pairs, id, bedrock.status);
      assert t == ProvisionTrace(pairs, bedrock);
      assert t == StartSteps(pairs, n) + poll;
      StartStepsViews(pairs, n);
      PollTraceViews(pairs, id, bedrock.status);
      TraceAppend(StartSteps(pairs, n), poll);
      assert Calls(t)[n..] == Calls(poll);
    }
  }

  /**
   * The time budget: whatever the replies, the handler sleeps a multiple of
   * 10 seconds and at most 240, and issues at most 24 rounds of status checks.
   */
  lemma PollingBudget(requestType: string, config: Config, bedrock: Bedrock)
    requires LoadConfig(config).Loaded?
    ensures var t := ExpectedTrace(requestType, config, bedrock);
      var pairs := PairsOf(config);
      && MaxRounds == 24
      && Slept(t) % WaitInterval == 0 && Slept(t) <= MaxWaitTime
      && |Calls(t)| <= |pairs| + MaxRounds * |pairs|
  {
    var t := ExpectedTrace(requestType, config, bedrock);
    var loaded := LoadConfig(config);
    var pairs := PairsOf(config);
    var n := |pairs|;
    if !IsProvisioning(requestType) {
      StepViews(t[0]);
      return;
    }
    var failedStart := FirstFailedStart(bedrock.start, 0, n);
    if failedStart.Some? {
      FailedStartShape(requestType, config, bedrock, failedStart.value);
    } else if n == 0 {
      StepViews(t[0]);
    } else {
      var r, k, last := ProvisionShape(requestType, config, bedrock);
      RoundBound(r, k, n);
      SleptRounds(r);
    }
  }

  /** The i-th start call is the first to raise: the starts up to it, then one FAILED. */
  lemma FailedStartShape(requestType: string, config: Config, bedrock: Bedrock, i: nat)
    requires IsProvisioning(requestType)
    requires config.knowledgeBaseIds.Ids? && config.dataSourceIds.Ids? && config.region.Some?
    requires FirstFailedStart(bedrock.start, 0, |PairsOf(config)|) == Some(i)
    ensures var t, pairs := ExpectedTrace(requestType, config, bedrock), PairsOf(config);
      && i < |pairs|
      && Sent(t) == [Failed(bedrock.start(i).error.message)] && Slept(t) == 0
      && |Calls(t)| == i + 1
      && (forall j :: 0 <= j <= i ==> Calls(t)[j] == StartIngestionJob(pairs[j].kbId, pairs[j].dsId))
  {
    var pairs := PairsOf(config);
    var last := Send(Failed(bedrock.start(i).error.message));
    var t := ExpectedTrace(requestType, config, bedrock);
    assert t == ProvisionTrace(pairs, bedrock);
    assert t == StartSteps(pairs, i + 1) + [last];
    StartStepsViews(pairs, i + 1);
    Snoc(StartSteps(pairs, i + 1), last);
  }

  lemma SleptRounds(r: nat)
    requires r <= MaxRounds
    ensures (WaitInterval * r) % WaitInterval == 0 && WaitInterval * r <= MaxWaitTime
  {
  }

  /** The zipped pairs of a configuration whose two id lists were read. */
  function PairsOf(config: Config): seq<Pair>
    requires config.knowledgeBaseIds.Ids? && config.dataSourceIds.Ids?
  {
    Zip(config.knowledgeBaseIds.ids, config.dataSourceIds.ids)
  }

  /** The configuration is read, there is at least one pair, and every start call returns a job id. */
  predicate StartsCleanly(config: Config, bedrock: Bedrock) {
    && config.knowledgeBaseIds.Ids? && config.dataSourceIds.Ids? && config.region.Some?
    && |PairsOf(config)| > 0
    && forall i :: 0 <= i < |PairsOf(config)| ==> bedrock.start(i).Value?
  }

  /** Once every job started: the starts, `r` unfinished rounds, `k` checks of the next, then `last`. */
  lemma ProvisionShape(requestType: string, config: Config, bedrock: Bedrock) returns (r: nat, k: nat, last: Response)
    requires IsProvisioning(requestType) && StartsCleanly(config, bedrock)
    ensures var n, id := |PairsOf(config)|, bedrock.start(|PairsOf(config)| - 1).value;
      var t := ExpectedTrace(requestType, config, bedrock);
      && r <= MaxRounds && k <= n && (r == MaxRounds ==> k == 0)
      && t[|t| - 1] == Send(last)
      && Sent(t) == [last] && Slept(t) == WaitInterval * r && |Calls(t)| == n + r * n + k
      && (forall q :: 0 <= q < r ==> !RoundStops(bedrock.status, q, n))
      && (r == MaxRounds ==> last == Done(id, StillRunning))
      && (r < MaxRounds ==> RoundStops(bedrock.status, r, n))
      && (r < MaxRounds && FirstFailedCheck(bedrock.status, r, 0, n).Some? ==>
            var j := FirstFailedCheck(bedrock.status, r, 0, n).value;
            k == j + 1 && last == Failed(bedrock.status(r, j).error.message))
      && (r < MaxRounds && FirstFailedCheck(bedrock.status, r, 0, n).None? ==>
            k == n && last == Done(id, bedrock.status(r, n - 1).value))
  {
    var pairs := PairsOf(config);
    var n := |pairs|;
    var id := bedrock.start(n - 1).value;
    assert FirstFailedStart(bedrock.start, 0, n).None? by {
      assert forall i :: 0 <= i < n ==> bedrock.start(i).Value?;
    }
    var t := ExpectedTrace(requestType, config, bedrock);
    assert t == ProvisionTrace(pairs, bedrock);
    assert t == StartSteps(pairs, n) + PollTrace(pairs, id, bedrock.status);
    r, k, last := PollShape(pairs, id, bedrock.status);
    var body := Rounds(pairs, id, r) + CheckSteps(pairs, id, k);
    assert t == StartSteps(pairs, n) + (body + [Send(last)]);
    StartStepsViews(pairs, n);
    PollBodyViews(pairs, id, r, k);
    Snoc(body, Send(last));
    TraceAppend(StartSteps(pairs, n), body + [Send(last)]);
  }

  /** A round whose checks raise nothing does not end the polling unless every status in it is SUCCESS. */
  lemma QuietRound(status: (nat, nat) -> Reply, q: nat, n: nat)
    requires forall j :: 0 <= j < n ==> status(q, j).Value?
    ensures RoundStops(status, q, n) <==> AllSuccessful(status, q, n)
  {
    assert FirstFailedCheck(status, q, 0, n).None?;
  }

  /** Two descriptions of the first round that stops agree. */
  lemma SameStoppingRound(status: (nat, nat) -> Reply, n: nat, r: nat, r': nat)
    requires r < MaxRounds && r' <= MaxRounds
    requires RoundStops(status, r, n) && forall q :: 0 <= q < r ==> !RoundStops(status, q, n)
    requires r' < MaxRounds ==> RoundStops(status, r', n)
    requires forall q :: 0 <= q < r' ==> !RoundStops(status, q, n)
    ensures r == r'
  {
  }

  /**
   * Without exceptions, the first round in which every pair reports SUCCESS
   * ends the polling at once: SUCCESS is sent with the last job id and status
   * "SUCCESS", after `r` interval sleeps and `r + 1` full rounds of checks.
   */
  lemma AllSuccessRoundEndsPolling(requestType: string, config: Config, bedrock: Bedrock, r: nat)
    requires IsProvisioning(requestType) && StartsCleanly(config, bedrock)
    requires var n := |PairsOf(config)|;
      && r < MaxRounds
      && (forall q, j :: 0 <= q < r && 0 <= j < n ==> bedrock.status(q, j).Value?)
      && AllSuccessful(bedrock.status, r, n)
      && forall q :: 0 <= q < r ==> !AllSuccessful(bedrock.status, q, n)
    ensures var n := |PairsOf(config)|;
      var t := ExpectedTrace(requestType, config, bedrock);
      && Sent(t) == [Done(bedrock.start(n - 1).value, "SUCCESS")]
      && Slept(t) == WaitInterval * r
      && |Calls(t)| == n + r * n + n
  {
    var n := |PairsOf(config)|;
    var r', k, last := ProvisionShape(requestType, config, bedrock);
    forall q | 0 <= q < r ensures !RoundStops(bedrock.status, q, n) {
      QuietRound(bedrock.status, q, n);
    }
    QuietRound(bedrock.status, r, n);
    SameStoppingRound(bedrock.status, n, r, r');
    assert FirstFailedCheck(bedrock.status, r, 0, n).None?;
    assert bedrock.status(r, n - 1) == Value("SUCCESS");
  }

  /**
   * Without exceptions and without an all-SUCCESS round, the budget runs out:
   * 24 rounds, 240 seconds, and still SUCCESS, with status "STILL_RUNNING".
   */
  lemma NoSuccessRoundRunsOut(requestType: string, config: Config, bedrock: Bedrock)
    requires IsProvisioning(requestType) && StartsCleanly(config, bedrock)
    requires var n := |PairsOf(config)|;
      && (forall q, j :: 0 <= q < MaxRounds && 0 <= j < n ==> bedrock.status(q, j).Value?)
      && forall q :: 0 <= q < MaxRounds ==> !AllSuccessful(bedrock.status, q, n)
    ensures var n := |PairsOf(config)|;
      var t := ExpectedTrace(requestType, config, bedrock);
      && Sent(t) == [Done(bedrock.start(n - 1).value, "STILL_RUNNING")]
      && Slept(t) == MaxWaitTime
      && |Calls(t)| == n + MaxRounds * n
  {
    var n := |PairsOf(config)|;
    var r, k, last := ProvisionShape(requestType, config, bedrock);
    forall q | 0 <= q < MaxRounds ensures !RoundStops(bedrock.status, q, n) {
      QuietRound(bedrock.status, q, n);
    }
    assert r == MaxRounds;
  }

  /**
   * A FAILED job status does not stop the polling: if round `r` raised
   * nothing and some pair reported FAILED (and no earlier round stopped), the
   * handler sleeps after round `r` and goes on.
   */
  lemma FailedStatusKeepsPolling(requestType: string, config: Config, bedrock: Bedrock, r: nat, j: nat)
    requires IsProvisioning(requestType) && StartsCleanly(config, bedrock)
    requires var n := |PairsOf(config)|;
      && j < n
      && (forall q, m :: 0 <= q <= r && 0 <= m < n ==> bedrock.status(q, m).Value?)
      && (forall q :: 0 <= q < r ==> !AllSuccessful(bedrock.status, q, n))
      && bedrock.status(r, j) == Value("FAILED")
    ensures var t := ExpectedTrace(requestType, config, bedrock);
      Slept(t) >= WaitInterval * (r + 1) || Slept(t) == MaxWaitTime
  {
    var n := |PairsOf(config)|;
    var r' := ProvisionTiming(requestType, config, bedrock);
    KeepsPolling(bedrock.status, n, r, j, r');
  }

  /** Once every job started, the time slept is the number of rounds that did not stop polling. */
  lemma ProvisionTiming(requestType: string, config: Config, bedrock: Bedrock) returns (r: nat)
    requires IsProvisioning(requestType) && StartsCleanly(config, bedrock)
    ensures r <= MaxRounds
    ensures Slept(ExpectedTrace(requestType, config, bedrock)) == WaitInterval * r
    ensures r < MaxRounds ==> RoundStops(bedrock.status, r, |PairsOf(config)|)
  {
    var k, last;
    r, k, last := ProvisionShape(requestType, config, bedrock);
  }

  /** A stopping round, if any, comes after the quiet rounds up to `r`, the last with a non-SUCCESS status. */
  lemma KeepsPolling(status: (nat, nat) -> Reply, n: nat, r: nat, j: nat, r': nat)
    requires j < n && status(r, j).Value? && status(r, j).value != "SUCCESS"
    requires forall q, m :: 0 <= q <= r && 0 <= m < n ==> status(q, m).Value?
    requires forall q :: 0 <= q < r ==> !AllSuccessful(status, q, n)
    requires r' < MaxRounds ==> RoundStops(status, r', n)
    ensures r' < MaxRounds ==> r' > r
  {
    forall q | 0 <= q <= r ensures !RoundStops(status, q, n) {
      QuietRound(status, q, n);
    }
  }

  /**
   * Whatever happens, a reported "Status" is "SUCCESS" or "STILL_RUNNING": a
   * FAILED job, or the initial "UNKNOWN", never reaches CloudFormation.
   */
  lemma ReportedStatusNeverFailed(requestType: string, config: Config, bedrock: Bedrock)
    ensures var sent := Sent(ExpectedTrace(requestType, config, bedrock));
      |sent| == 1 &&
      ("Status" in sent[0].data ==>
        sent[0].status == SUCCESS && sent[0].data["Status"] in {"SUCCESS", "STILL_RUNNING"})
  {
    ExactlyOneResponse(requestType, config, bedrock);
    if IsProvisioning(requestType) && StartsCleanly(config, bedrock) {
      var n := |PairsOf(config)|;
      var r, k, last := ProvisionShape(requestType, config, bedrock);
      if r < MaxRounds && FirstFailedCheck(bedrock.status, r, 0, n).None? {
        assert AllSuccessful(bedrock.status, r, n);
        assert bedrock.status(r, n - 1) == Value("SUCCESS");
      }
    } else {
      var t := ExpectedTrace(requestType, config, bedrock);
      var loaded := LoadConfig(config);
      if loaded.Loaded? && IsProvisioning(requestType) {
        var n := |PairsOf(config)|;
        assert FirstFailedStart(bedrock.start, 0, n).Some? || n == 0;
      }
    }
  }

  /**
   * The i-th start call raises: no further start, no status check, and one
   * FAILED carrying `str(e)`.
   */
  lemma StartErrorFails(requestType: string, config: Config, bedrock: Bedrock, i: nat)
    requires IsProvisioning(requestType)
    requires config.knowledgeBaseIds.Ids? && config.dataSourceIds.Ids? && config.region.Some?
    requires i < |PairsOf(config)| && bedrock.start(i).Raise?
    requires forall j :: 0 <= j < i ==> bedrock.start(j).Value?
    ensures var t := ExpectedTrace(requestType, config, bedrock);
      && Sent(t) == [Failed(bedrock.start(i).error.message)]
      && |Calls(t)| == i + 1
      && (forall c :: c in Calls(t) ==> c.StartIngestionJob?)
      && Slept(t) == 0
  {
    var t := ExpectedTrace(requestType, config, bedrock);
    assert FirstFailedStart(bedrock.start, 0, |PairsOf(config)|) == Some(i);
    FailedStartShape(requestType, config, bedrock, i);
    forall c: BedrockCall | c in Calls(t) ensures c.StartIngestionJob? {
      var m :| 0 <= m < |Calls(t)| && Calls(t)[m] == c;
    }
  }

  /**
   * Check `j` of round `r` raises (with nothing raised or all-SUCCESS before):
   * polling stops there, and one FAILED carrying `str(e)` is sent.
   */
  lemma CheckErrorFails(requestType: string, config: Config, bedrock: Bedrock, r: nat, j: nat)
    requires IsProvisioning(requestType) && StartsCleanly(config, bedrock)
    requires var n := |PairsOf(config)|;
      && r < MaxRounds && j < n
      && (forall q, m :: 0 <= q < r && 0 <= m < n ==> bedrock.status(q, m).Value?)
      && (forall q :: 0 <= q < r ==> !AllSuccessful(bedrock.status, q, n))
      && (forall m :: 0 <= m < j ==> bedrock.status(r, m).Value?)
      && bedrock.status(r, j).Raise?
    ensures var n := |PairsOf(config)|;
      var t := ExpectedTrace(requestType, config, bedrock);
      && Sent(t) == [Failed(bedrock.status(r, j).error.message)]
      && Slept(t) == WaitInterval * r
      && |Calls(t)| == n + r * n + j + 1
  {
    var n := |PairsOf(config)|;
    var r', k, last := ProvisionShape(requestType, config, bedrock);
    forall q | 0 <= q < r ensures !RoundStops(bedrock.status, q, n) {
      QuietRound(bedrock.status, q, n);
    }
    assert FirstFailedCheck(bedrock.status, r, 0, n) == Some(j);
    SameStoppingRound(bedrock.status, n, r, r');
  }

  /**
   * Create or Update without any exception always reports SUCCESS, never
   * FAILED, with the last started job id and status "SUCCESS" or "STILL_RUNNING".
   */
  lemma NoExceptionSucceeds(requestType: string, config: Config, bedrock: Bedrock)
    requires IsProvisioning(requestType) && StartsCleanly(config, bedrock)
    requires forall q, j :: 0 <= q < MaxRounds && 0 <= j < |PairsOf(config)| ==> bedrock.status(q, j).Value?
    ensures var n := |PairsOf(config)|;
      var sent := Sent(ExpectedTrace(requestType, config, bedrock));
      && |sent| == 1 && sent[0].status == SUCCESS
      && "IngestionJobId" in sent[0].data && sent[0].data["IngestionJobId"] == bedrock.start(n - 1).value
      && "Status" in sent[0].data && sent[0].data["Status"] in {"SUCCESS", "STILL_RUNNING"}
  {
    var n := |PairsOf(config)|;
    var r, k, last := ProvisionShape(requestType, config, bedrock);
    if r < MaxRounds {
      QuietRound(bedrock.status, r, n);
      assert bedrock.status(r, n - 1) == Value("SUCCESS");
    }
  }
}
