/**
 * Vocabulary shared by the three custom-resource handlers: what a control-plane
 * call answers, what is reported back to CloudFormation, and the trace of
 * observable steps (sleeps, control-plane calls, responses sent) that one
 * invocation of a handler leaves behind.
 */
module Runtime {

  datatype Option<+T> = None | Some(value: T)

  /** botocore's ClientError, or any other Python exception. */
  datatype ErrorKind = ClientError | OtherError

  /** A raised exception; `message` is what `str(e)` gives. */
  datatype Exception = Exception(kind: ErrorKind, message: string)

  /**
   * The answer to one control-plane call: either the field the handler reads
   * from the response (a crawler state, a job id, a job status, a statement id)
   * or an exception. A response that lacks that field raises a KeyError inside
   * the handler's `try`, and is therefore represented as `Raise` too.
   */
  datatype Reply = Value(value: string) | Raise(error: Exception)

  /** `cfnresponse.SUCCESS` and `cfnresponse.FAILED`. */
  datatype ResponseStatus = SUCCESS | FAILED

  /** One call of `cfnresponse.send(event, context, status, data)`. */
  datatype Response = Response(status: ResponseStatus, data: map<string, string>)

  /** The response both reporting handlers send from their `except` clause. */
  function Failed(message: string): Response {
    Response(FAILED, map["Error" := message])
  }

  /** `event['RequestType'] in ['Create', 'Update']` */
  predicate IsProvisioning(requestType: string) {
    requestType == "Create" || requestType == "Update"
  }

  /** One observable step of an invocation, over the handler's own kind of call `C`. */
  datatype Step<C> = Sleep(seconds: nat) | Call(call: C) | Send(response: Response)

  /** The responses sent, in order. */
  function Sent<C>(t: seq<Step<C>>): seq<Response> {
    if t == [] then []
    else (if t[0].Send? then [t[0].response] else []) + Sent(t[1..])
  }

  /** The control-plane calls issued, in order. */
  function Calls<C>(t: seq<Step<C>>): seq<C> {
    if t == [] then []
    else (if t[0].Call? then [t[0].call] else []) + Calls(t[1..])
  }

  /** The seconds spent in `time.sleep`. */
  function Slept<C>(t: seq<Step<C>>): nat {
    if t == [] then 0
    else (if t[0].Sleep? then t[0].seconds else 0) + Slept(t[1..])
  }

  /** The three views of a trace distribute over concatenation. */
  lemma TraceAppend<C>(a: seq<Step<C>>, b: seq<Step<C>>)
    ensures Sent(a + b) == Sent(a) + Sent(b)
    ensures Calls(a + b) == Calls(a) + Calls(b)
    ensures Slept(a + b) == Slept(a) + Slept(b)
  {
    SentAppend(a, b);
    CallsAppend(a, b);
    SleptAppend(a, b);
  }

  lemma {:induction false} SentAppend<C>(a: seq<Step<C>>, b: seq<Step<C>>)
    ensures Sent(a + b) == Sent(a) + Sent(b)
  {
    if a == [] {
      assert a + b == b;
    } else {
      var ab := a + b;
      assert ab[0] == a[0] && ab[1..] == a[1..] + b;
      SentAppend(a[1..], b);
    }
  }

  lemma {:induction false} CallsAppend<C>(a: seq<Step<C>>, b: seq<Step<C>>)
    ensures Calls(a + b) == Calls(a) + Calls(b)
  {
    if a == [] {
      assert a + b == b;
    } else {
      var ab := a + b;
      assert ab[0] == a[0] && ab[1..] == a[1..] + b;
      CallsAppend(a[1..], b);
    }
  }

  lemma {:induction false} SleptAppend<C>(a: seq<Step<C>>, b: seq<Step<C>>)
    ensures Slept(a + b) == Slept(a) + Slept(b)
  {
    if a == [] {
      assert a + b == b;
    } else {
      var ab := a + b;
      assert ab[0] == a[0] && ab[1..] == a[1..] + b;
      SleptAppend(a[1..], b);
    }
  }

  /** The views of a one-step trace. */
  lemma StepViews<C>(s: Step<C>)
    ensures Sent([s]) == (if s.Send? then [s.response] else [])
    ensures Calls([s]) == (if s.Call? then [s.call] else [])
    ensures Slept([s]) == (if s.Sleep? then s.seconds else 0)
  {
    assert [s][1..] == [];
  }

  /** Appending one step extends each view by that step's contribution. */
  lemma Snoc<C>(t: seq<Step<C>>, s: Step<C>)
    ensures Sent(t + [s]) == Sent(t) + (if s.Send? then [s.response] else [])
    ensures Calls(t + [s]) == Calls(t) + (if s.Call? then [s.call] else [])
    ensures Slept(t + [s]) == Slept(t) + (if s.Sleep? then s.seconds else 0)
  {
    TraceAppend(t, [s]);
    StepViews(s);
  }

  /** The decimal digits of `n`, as Python's `str` formats a non-negative int. */
  function DecimalString(n: nat): (s: string)
    ensures |s| > 0
    ensures forall i :: 0 <= i < |s| ==> '0' <= s[i] <= '9'
  {
    var digit := [('0' as int + n % 10) as char];
    if n < 10 then digit else DecimalString(n / 10) + digit
  }
}
