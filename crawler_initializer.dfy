/**
 * The crawler-starting custom resource (lambda/crawler_initializer/index.py):
 * on Create or Update it starts the Glue crawler named by the `CrawlerName`
 * environment variable once, checks its state every 30 seconds for at most
 * 20 minutes, and sends CloudFormation exactly one SUCCESS or FAILED response.
 * On any other request type it sends SUCCESS without touching Glue.
 */
module CrawlerInitializer {
  import opened Runtime

  const InitialDelay: nat := 10
  const MaxWaitTime: nat := 20 * 60
  const WaitInterval: nat := 30
  const PropagationDelay: nat := 60
  /** How many `get_crawler` checks fit in the budget. */
  const MaxChecks: nat := MaxWaitTime / WaitInterval

  const DeleteMessage := "Nothing to do for Delete"
  const MissingNameMessage := "CrawlerName property is missing or empty"
  const CompletedMessage := "Crawler completed successfully"
  const CompletedResponse := Response(SUCCESS, map["Message" := CompletedMessage])

  /** The message of the TimeoutError raised when the budget is spent. */
  function TimeoutMessage(name: string): string {
    "Crawler " + name + " did not complete within " + DecimalString(MaxWaitTime) + " seconds"
  }

  datatype GlueCall = StartCrawler(name: string) | GetCrawler(name: string)

  /**
   * What the Glue control plane answers during one invocation: `start` to the
   * `start_crawler` call, and `state(k)` to the k-th `get_crawler` call
   * (counting from 0), whose value is `response['Crawler']['State']`.
   */
  datatype Glue = Glue(start: Reply, state: nat -> Reply)

  type Trace = seq<Step<GlueCall>>

  /** A check that leaves the polling loop: an exception, or the crawler is READY. */
  predicate EndsPolling(r: Reply) {
    r.Raise? || r.value == "READY"
  }

  /** The first check in [from, limit) that leaves the polling loop, if any. */
  function FirstStop(state: nat -> Reply, from: nat, limit: nat): (k: Option<nat>)
    requires from <= limit
    ensures k.Some? ==> from <= k.value < limit && EndsPolling(state(k.value))
    ensures forall j :: from <= j < (if k.Some? then k.value else limit) ==> !EndsPolling(state(j))
    decreases limit - from
  {
    if from == limit then None
    else if EndsPolling(state(from)) then Some(from)
    else FirstStop(state, from + 1, limit)
  }

  /** The initial 10-second sleep, then the single `start_crawler` call. */
  function Started(name: string): Trace {
    [Sleep(InitialDelay), Call(StartCrawler(name))]
  }

  /** `k` passes through the loop that did not leave it: a check, then the interval sleep. */
  function Waits(name: string, k: nat): Trace {
    if k == 0 then [] else Waits(name, k - 1) + [Call(GetCrawler(name)), Sleep(WaitInterval)]
  }

  /**
   * Reference definition of what one invocation does, written by cases on
   * which check (if any) ends the polling rather than step by step.
   */
  function ExpectedTrace(requestType: string, crawlerName: Option<string>, glue: Glue): Trace {
    if !IsProvisioning(requestType) then
      [Send(Response(SUCCESS, map["Message" := DeleteMessage]))]
    else if crawlerName.None? || crawlerName.value == "" then
      [Send(Failed(MissingNameMessage))]
    else
      var name := crawlerName.value;
      var started := Started(name);
      if glue.start.Raise? then
        started + [Send(Failed(glue.start.error.message))]
      else
        var stop := FirstStop(glue.state, 0, MaxChecks);
        if stop.None? then
          started + Waits(name, MaxChecks) + [Send(Failed(TimeoutMessage(name)))]
        else
          var checked := started + Waits(name, stop.value) + [Call(GetCrawler(name))];
          var last := glue.state(stop.value);
          if last.Raise? then
            checked + [Send(Failed(last.error.message))]
          else
            checked + [Send(CompletedResponse), Sleep(PropagationDelay)]
  }

  /**
   * The handler. `checks` counts the `get_crawler` calls made so far; it is
   * always `totalWaitTime / WaitInterval` and selects the scripted reply.
   */
  method Handler(requestType: string, crawlerName: Option<string>, glue: Glue) returns (trace: Trace)
    ensures trace == ExpectedTrace(requestType, crawlerName, glue)
  {
    if IsProvisioning(requestType) {
      if crawlerName.None? || crawlerName.value == "" {
        trace := [Send(Failed(MissingNameMessage))];
        return;
      }
      var name := crawlerName.value;
      trace := Started(name);
      if glue.start.Raise? {
        trace := trace + [Send(Failed(glue.start.error.message))];
        return;
      }
      ghost var started := trace;
      var totalWaitTime: nat := 0;
      var checks: nat := 0;
      while totalWaitTime < MaxWaitTime
        invariant checks <= MaxChecks && totalWaitTime == WaitInterval * checks
        invariant trace == started + Waits(name, checks)
        invariant forall j :: 0 <= j < checks ==> !EndsPolling(glue.state(j))
      {
        trace := trace + [Call(GetCrawler(name))];
        var reply := glue.state(checks);
        if reply.Raise? {
          trace := trace + [Send(Failed(reply.error.message))];
          return;
        }
        if reply.value == "READY" {
          trace := trace + [Send(CompletedResponse), Sleep(PropagationDelay)];
          return;
        }
        trace := trace + [Sleep(WaitInterval)];
        totalWaitTime := totalWaitTime + WaitInterval;
        checks := checks + 1;
      }
      trace := trace + [Send(Failed(TimeoutMessage(name)))];
    } else {
      trace := [Send(Response(SUCCESS, map["Message" := DeleteMessage]))];
    }
  }

  /** The first READY among the first `n` checks comes before any exception. */
  predicate ReadyWithin(state: nat -> Reply, n: nat) {
    exists k :: 0 <= k < n && state(k) == Value("READY") && forall j :: 0 <= j < k ==> state(j).Value?
  }

  /** The trace up to and including `k` unfinished passes through the polling loop. */
  lemma {:induction false} PollViews(name: string, k: nat)
    ensures var p := Started(name) + Waits(name, k);
      && |p| == 2 + 2 * k
      && Sent(p) == []
      && |Calls(p)| == k + 1
      && Calls(p)[0] == StartCrawler(name)
      && (forall i :: 1 <= i < |Calls(p)| ==> Calls(p)[i] == GetCrawler(name))
      && Slept(p) == InitialDelay + WaitInterval * k
  {
    var nap: Trace := [Sleep(InitialDelay)];
    StepViews(nap[0]);
    Snoc(nap, Call(StartCrawler(name)));
    assert Started(name) == nap + [Call(StartCrawler(name))];
    WaitsViews(name, k);
    WaitsLength(name, k);
    TraceAppend(Started(name), Waits(name, k));
  }

  /**
   * With a usable name, an invocation is the start, `k` unfinished passes
   * through the loop, and one of four endings.
   */
  lemma Shape(requestType: string, name: string, glue: Glue) returns (k: nat, rest: Trace)
    requires IsProvisioning(requestType) && name != ""
    ensures ExpectedTrace(requestType, Some(name), glue) == Started(name) + Waits(name, k) + rest
    ensures k <= MaxChecks
    ensures || (glue.start.Raise? && k == 0 && rest == [Send(Failed(glue.start.error.message))])
            || (glue.start.Value? && k == MaxChecks && rest == [Send(Failed(TimeoutMessage(name)))])
            || (glue.start.Value? && k < MaxChecks && glue.state(k).Raise?
                && rest == [Call(GetCrawler(name)), Send(Failed(glue.state(k).error.message))])
            || (glue.start.Value? && k < MaxChecks && glue.state(k) == Value("READY")
                && rest == [Call(GetCrawler(name)), Send(CompletedResponse), Sleep(PropagationDelay)])
    ensures glue.start.Value? ==> forall j :: 0 <= j < k ==> !EndsPolling(glue.state(j))
  {
    if glue.start.Raise? {
      k, rest := 0, [Send(Failed(glue.start.error.message))];
      assert Started(name) + Waits(name, 0) == Started(name);
    } else {
      var stop := FirstStop(glue.state, 0, MaxChecks);
      if stop.None? {
        k, rest := MaxChecks, [Send(Failed(TimeoutMessage(name)))];
      } else {
        k := stop.value;
        if glue.state(k).Raise? {
          rest := [Call(GetCrawler(name)), Send(Failed(glue.state(k).error.message))];
        } else {
          rest := [Call(GetCrawler(name)), Send(CompletedResponse), Sleep(PropagationDelay)];
        }
      }
    }
  }

  /** The views of the trace Shape describes, for each of its endings. */
  lemma ShapeViews(name: string, k: nat, rest: Trace)
    ensures var t := Started(name) + Waits(name, k) + rest;
      && (|rest| == 1 && rest[0].Send? ==>
            Sent(t) == [rest[0].response] && Calls(t) == Calls(Started(name) + Waits(name, k))
            && Slept(t) == InitialDelay + WaitInterval * k)
      && (|rest| == 2 && rest[0].Call? && rest[1].Send? ==>
            Sent(t) == [rest[1].response] && Calls(t) == Calls(Started(name) + Waits(name, k)) + [rest[0].call]
            && Slept(t) == InitialDelay + WaitInterval * k)
      && (|rest| == 3 && rest[0].Call? && rest[1].Send? && rest[2].Sleep? ==>
            Sent(t) == [rest[1].response] && Calls(t) == Calls(Started(name) + Waits(name, k)) + [rest[0].call]
            && Slept(t) == InitialDelay + WaitInterval * k + rest[2].seconds)
  {
    PollViews(name, k);
    var p := Started(name) + Waits(name, k);
    if |rest| >= 1 {
      Snoc(p, rest[0]);
      if |rest| >= 2 {
        assert p + rest[..2] == (p + [rest[0]]) + [rest[1]];
        Snoc(p + [rest[0]], rest[1]);
        if |rest| >= 3 {
          assert p + rest[..3] == (p + rest[..2]) + [rest[2]];
          Snoc(p + rest[..2], rest[2]);
        }
      }
    }
    if |rest| == 2 { assert rest == rest[..2]; }
    if |rest| == 3 { assert rest == rest[..3]; }
    if |rest| == 1 { assert rest == [rest[0]]; }
  }

  lemma TimeoutMessageText(name: string)
    ensures TimeoutMessage(name) == "Crawler " + name + " did not complete within 1200 seconds"
  {
    assert DecimalString(1200) == "1200" by {
      assert DecimalString(1) == "1";
      assert DecimalString(12) == "12";
      assert DecimalString(120) == "120";
    }
  }

  /**
   * Every invocation sends exactly one response, and nothing but the final
   * propagation sleep (after a SUCCESS) follows it.
   */
  lemma ExactlyOneResponse(requestType: string, crawlerName: Option<string>, glue: Glue)
    ensures var t := ExpectedTrace(requestType, crawlerName, glue);
      && |Sent(t)| == 1
      && (t[|t| - 1].Send? || (|t| >= 2 && t[|t| - 2].Send? && t[|t| - 1] == Sleep(PropagationDelay)))
  {
    if IsProvisioning(requestType) && crawlerName.Some? && crawlerName.value != "" {
      var k, rest := Shape(requestType, crawlerName.value, glue);
      ShapeViews(crawlerName.value, k, rest);
    } else {
      StepViews(ExpectedTrace(requestType, crawlerName, glue)[0]);
    }
  }

  /** Delete (or any request type but Create and Update): one SUCCESS, no Glue call, no wait. */
  lemma DeleteIsNoOp(requestType: string, crawlerName: Option<string>, glue: Glue)
    requires !IsProvisioning(requestType)
    ensures var t := ExpectedTrace(requestType, crawlerName, glue);
      && Sent(t) == [Response(SUCCESS, map["Message" := "Nothing to do for Delete"])]
      && Calls(t) == [] && Slept(t) == 0
  {
    StepViews(ExpectedTrace(requestType, crawlerName, glue)[0]);
  }

  /** A missing or empty crawler name: one FAILED, and the crawler is never started. */
  lemma MissingNameFails(requestType: string, crawlerName: Option<string>, glue: Glue)
    requires IsProvisioning(requestType)
    requires crawlerName.None? || crawlerName.value == ""
    ensures var t := ExpectedTrace(requestType, crawlerName, glue);
      && Sent(t) == [Response(FAILED, map["Error" := "CrawlerName property is missing or empty"])]
      && Calls(t) == []
  {
    StepViews(ExpectedTrace(requestType, crawlerName, glue)[0]);
  }

  /**
   * With a usable name, the first call starts the crawler, every later call is
   * a state check of the same crawler, and there are at most `MaxChecks` (40) of them.
   */
  lemma StartOnceBeforeChecks(requestType: string, name: string, glue: Glue)
    requires IsProvisioning(requestType) && name != ""
    ensures var calls := Calls(ExpectedTrace(requestType, Some(name), glue));
      && MaxChecks == 40
      && 1 <= |calls| <= 1 + MaxChecks
      && calls[0] == StartCrawler(name)
      && forall i :: 1 <= i < |calls| ==> calls[i] == GetCrawler(name)
  {
    var k, rest := Shape(requestType, name, glue);
    ShapeViews(name, k, rest);
    PollViews(name, k);
  }

  /**
   * SUCCESS is reported exactly when there is nothing to do, or the crawler
   * started and the first READY among the first 40 checks comes before any exception.
   */
  lemma SuccessIffReady(requestType: string, crawlerName: Option<string>, glue: Glue)
    ensures var sent := Sent(ExpectedTrace(requestType, crawlerName, glue));
      && |sent| == 1
      && (sent[0].status == SUCCESS <==>
           || !IsProvisioning(requestType)
           || (crawlerName.Some? && crawlerName.value != "" && glue.start.Value? && ReadyWithin(glue.state, MaxChecks)))
  {
    ExactlyOneResponse(requestType, crawlerName, glue);
    if IsProvisioning(requestType) && crawlerName.Some? && crawlerName.value != "" {
      var name := crawlerName.value;
      var k, rest := Shape(requestType, name, glue);
      ShapeViews(name, k, rest);
      if glue.start.Value? && k < MaxChecks && glue.state(k) == Value("READY") {
        assert forall j :: 0 <= j < k ==> glue.state(j).Value?;
      }
      if glue.start.Value? && ReadyWithin(glue.state, MaxChecks) {
        var r :| 0 <= r < MaxChecks && glue.state(r) == Value("READY") && forall j :: 0 <= j < r ==> glue.state(j).Value?;
        assert EndsPolling(glue.state(r));
      }
    }
  }

  /** A READY on check `k` (the first check included) ends the loop: k + 1 checks, SUCCESS, then the 60-second wait. */
  lemma ReadyEndsPolling(requestType: string, name: string, glue: Glue, k: nat)
    requires IsProvisioning(requestType) && name != "" && glue.start.Value?
    requires k < MaxChecks && glue.state(k) == Value("READY")
    requires forall j :: 0 <= j < k ==> glue.state(j).Value? && glue.state(j).value != "READY"
    ensures var t := ExpectedTrace(requestType, Some(name), glue);
      && |Calls(t)| == k + 2
      && Sent(t) == [Response(SUCCESS, map["Message" := "Crawler completed successfully"])]
      && Slept(t) == InitialDelay + WaitInterval * k + PropagationDelay
      && |t| >= 2 && t[|t| - 2].Send? && t[|t| - 1] == Sleep(PropagationDelay)
  {
    var k', rest := Shape(requestType, name, glue);
    assert EndsPolling(glue.state(k));
    assert k' == k;
    ShapeViews(name, k, rest);
    PollViews(name, k);
  }

  /** No READY within 40 checks: a TimeoutError naming the crawler and 1200 seconds becomes one FAILED. */
  lemma TimeoutFails(requestType: string, name: string, glue: Glue)
    requires IsProvisioning(requestType) && name != "" && glue.start.Value?
    requires forall j :: 0 <= j < MaxChecks ==> glue.state(j).Value? && glue.state(j).value != "READY"
    ensures var t := ExpectedTrace(requestType, Some(name), glue);
      && Sent(t) == [Failed("Crawler " + name + " did not complete within 1200 seconds")]
      && |Calls(t)| == 1 + MaxChecks
      && Slept(t) == InitialDelay + MaxWaitTime
      && t[|t| - 1].Send?
  {
    var k, rest := Shape(requestType, name, glue);
    assert forall j :: 0 <= j < MaxChecks ==> !EndsPolling(glue.state(j));
    ShapeViews(name, k, rest);
    PollViews(name, k);
    TimeoutMessageText(name);
  }

  /** An exception from `start_crawler` ends the invocation: no check follows, one FAILED carries `str(e)`. */
  lemma StartErrorFails(requestType: string, name: string, glue: Glue)
    requires IsProvisioning(requestType) && name != "" && glue.start.Raise?
    ensures var t := ExpectedTrace(requestType, Some(name), glue);
      && Calls(t) == [StartCrawler(name)]
      && Sent(t) == [Failed(glue.start.error.message)]
      && t[|t| - 1].Send?
  {
    var k, rest := Shape(requestType, name, glue);
    ShapeViews(name, k, rest);
    PollViews(name, k);
  }

  /** An exception from check `k` ends the invocation after k + 1 checks, with one FAILED carrying `str(e)`. */
  lemma CheckErrorFails(requestType: string, name: string, glue: Glue, k: nat)
    requires IsProvisioning(requestType) && name != "" && glue.start.Value?
    requires k < MaxChecks && glue.state(k).Raise?
    requires forall j :: 0 <= j < k ==> glue.state(j).Value? && glue.state(j).value != "READY"
    ensures var t := ExpectedTrace(requestType, Some(name), glue);
      && |Calls(t)| == k + 2
      && Sent(t) == [Failed(glue.state(k).error.message)]
      && t[|t| - 1].Send?
  {
    var k', rest := Shape(requestType, name, glue);
    assert EndsPolling(glue.state(k));
    assert k' == k;
    ShapeViews(name, k, rest);
    PollViews(name, k);
  }

  /** Inside `k` unfinished passes, the j-th check is issued after j interval sleeps. */
  lemma {:induction false} WaitsTiming(name: string, k: nat, i: nat)
    requires i < |Waits(name, k)| && Waits(name, k)[i].Call?
    ensures |Calls(Waits(name, k)[..i])| < k
    ensures Slept(Waits(name, k)[..i]) == WaitInterval * |Calls(Waits(name, k)[..i])|
  {
    var w := Waits(name, k - 1);
    WaitsLength(name, k - 1);
    if i < |w| {
      assert Waits(name, k)[..i] == w[..i];
      WaitsTiming(name, k - 1, i);
    } else {
      assert i == |w|;
      assert Waits(name, k)[..i] == w;
      WaitsViews(name, k - 1);
    }
  }

  lemma {:induction false} WaitsLength(name: string, k: nat)
    ensures |Waits(name, k)| == 2 * k
  {
    if k > 0 { WaitsLength(name, k - 1); }
  }

  /** The views of `k` unfinished passes alone. */
  lemma {:induction false} WaitsViews(name: string, k: nat)
    ensures Sent(Waits(name, k)) == []
    ensures |Calls(Waits(name, k))| == k
    ensures forall i :: 0 <= i < k ==> Calls(Waits(name, k))[i] == GetCrawler(name)
    ensures Slept(Waits(name, k)) == WaitInterval * k
  {
    if k > 0 {
      WaitsViews(name, k - 1);
      var w := Waits(name, k - 1);
      assert Waits(name, k) == (w + [Call(GetCrawler(name))]) + [Sleep(WaitInterval)];
      Snoc(w, Call(GetCrawler(name)));
      Snoc(w + [Call(GetCrawler(name))], Sleep(WaitInterval));
    }
  }

  /**
   * Each state check is issued when `total_wait_time` (the time slept since the
   * crawler was started) is a multiple of 30 seconds below 1200: the j-th check
   * comes after exactly j interval sleeps.
   */
  lemma CheckTiming(requestType: string, name: string, glue: Glue, i: nat)
    requires IsProvisioning(requestType) && name != ""
    requires var t := ExpectedTrace(requestType, Some(name), glue); i < |t| && t[i] == Call(GetCrawler(name))
    ensures var before := ExpectedTrace(requestType, Some(name), glue)[..i];
      && |Calls(before)| >= 1
      && Slept(before) == InitialDelay + WaitInterval * (|Calls(before)| - 1)
      && Slept(before) - InitialDelay < MaxWaitTime
  {
    var k, rest := Shape(requestType, name, glue);
    ShapeCheckTiming(name, k, rest, i);
  }

  /** The timing of a state check inside a trace of the shape `Shape` describes. */
  lemma ShapeCheckTiming(name: string, k: nat, rest: Trace, i: nat)
    requires k <= MaxChecks
    requires rest != [] && (rest[0].Call? ==> k < MaxChecks)
    requires forall m :: 1 <= m < |rest| ==> !rest[m].Call?
    requires var t := Started(name) + Waits(name, k) + rest; i < |t| && t[i] == Call(GetCrawler(name))
    ensures var before := (Started(name) + Waits(name, k) + rest)[..i];
      && |Calls(before)| >= 1
      && Slept(before) == InitialDelay + WaitInterval * (|Calls(before)| - 1)
      && Slept(before) - InitialDelay < MaxWaitTime
  {
    var t := Started(name) + Waits(name, k) + rest;
    var w := Waits(name, k);
    var p := Started(name);
    WaitsLength(name, k);
    PollViews(name, 0);
    assert p + [] == p;
    if i < 2 + |w| {
      assert i >= 2 by {
        assert t[0] == Sleep(InitialDelay) && t[1] == Call(StartCrawler(name));
      }
      assert w[i - 2] == t[i];
      WaitsTiming(name, k, i - 2);
      assert t[..i] == p + w[..i - 2];
      TraceAppend(p, w[..i - 2]);
    } else {
      assert rest[i - 2 - |w|] == t[i];
      assert i == 2 + |w| && k < MaxChecks;
      assert t[..i] == p + w;
      TraceAppend(p, w);
      WaitsViews(name, k);
    }
  }
}
