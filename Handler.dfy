/**
  The `SetFanState` direct-method handler as a function of the current fan
  state and the request: it gives the next state, the level written to the
  fan pin (if any) and the response returned to the caller. `Device` runs it
  against mutable fields; the lemmas here state what it promises over one
  call and over a sequence of calls.
*/
module Handler {
  import opened Wrappers
  import opened FanStates
  import opened Payload

  /** Status code and UTF-8 body of a direct-method response, body as decoded text. */
  datatype Response = Response(status: int, body: string)

  /** A direct-method invocation: decoded payload and method name. */
  datatype Request = Request(data: string, name: string)

  /** What one call does: the new state, the pin write it performs, the response. */
  datatype Outcome = Outcome(state: FanState, pinWrite: Option<bool>, response: Response)

  const FanFailedBody: string := "{\"result\":\"Fan failed\"}"
  const InvalidParameterBody: string := "{\"result\":\"Invalid parameter\"}"

  function ExecutedBody(name: string): string
  {
    "{\"result\":\"Executed direct method: " + name + "\"}"
  }

  const FanFailedResponse: Response := Response(400, FanFailedBody)
  const InvalidParameterResponse: Response := Response(400, InvalidParameterBody)

  /** Level driven on the fan pin for a state: high exactly when the fan is on. */
  function PinLevel(s: FanState): bool
  {
    s == On
  }

  /** One call of the handler. */
  function Handle(state: FanState, data: string, name: string): Outcome
  {
    if state == Failed then
      Outcome(state, None, FanFailedResponse)
    else
      match ParseState(StripQuotes(data))
      case None => Outcome(state, None, InvalidParameterResponse)
      case Some(next) => Outcome(next, Some(PinLevel(next)), Response(200, ExecutedBody(name)))
  }

  /** Once failed, the handler rejects every call without reading it and changes nothing. */
  lemma FailedRejectsEverything(data: string, name: string)
    ensures Handle(Failed, data, name) == Outcome(Failed, None, Response(400, "{\"result\":\"Fan failed\"}"))
  {
  }

  /**
    From `off` or `on`, a payload that normalises to a state name sets that
    state, writes its pin level and answers 200 naming the method.
  */
  lemma ValidCommandApplies(state: FanState, data: string, name: string, target: FanState)
    requires state != Failed
    requires StripQuotes(data) == StateName(target)
    ensures Handle(state, data, name)
         == Outcome(target, Some(target == On),
                    Response(200, "{\"result\":\"Executed direct method: " + name + "\"}"))
  {
    ParseStateIffName(StripQuotes(data), target);
  }

  /** A payload that normalises to no state name is rejected and leaves no trace. */
  lemma InvalidCommandNoTrace(state: FanState, data: string, name: string)
    requires state != Failed
    requires forall s: FanState :: StripQuotes(data) != StateName(s)
    ensures Handle(state, data, name)
         == Outcome(state, None, Response(400, "{\"result\":\"Invalid parameter\"}"))
  {
    assert StateName(Off) == "off" && StateName(On) == "on" && StateName(Failed) == "failed";
  }

  /** Any pin write drives the level of the state the call leaves behind. */
  lemma PinFollowsState(state: FanState, data: string, name: string)
    ensures var o := Handle(state, data, name);
      o.pinWrite.Some? ==> (o.pinWrite.value <==> o.state == On)
  {
  }

  /** The handler answers 200 exactly when it writes the pin; a refused call keeps the state. */
  lemma SuccessIffEffect(state: FanState, data: string, name: string)
    ensures var o := Handle(state, data, name);
      o.response.status == 200 <==> o.pinWrite.Some?
    ensures var o := Handle(state, data, name);
      o.response.status != 200 ==> o.state == state
  {
  }

  /** Quotes never matter: the handler behaves the same on the normalised payload. */
  lemma QuotesIrrelevant(state: FanState, data: string, name: string)
    ensures Handle(state, data, name) == Handle(state, StripQuotes(data), name)
  {
    StripQuotesIdempotent(data);
  }

  /** The quoted and the quote-broken spellings of "on" both switch the fan on. */
  lemma QuotedOnSwitchesOn(state: FanState, name: string)
    requires state != Failed
    ensures Handle(state, "\"on\"", name).state == On
    ensures Handle(state, "o\"n", name).state == On
  {
    StripQuotesExamples();
  }

  /**
    Repeating an `off` or `on` command: both calls answer 200 and the second
    leaves the same state and the same pin level as the first.
  */
  lemma RepeatIdempotent(state: FanState, data: string, name: string)
    requires state != Failed
    requires ParseState(StripQuotes(data)).Some? && ParseState(StripQuotes(data)).value != Failed
    ensures var first := Handle(state, data, name);
      var second := Handle(first.state, data, name);
      first.response.status == 200 && second.response.status == 200
      && second.state == first.state && second.pinWrite == first.pinWrite
  {
  }

  /**
    The `failed` name is accepted as a command: it answers 200 with a low pin,
    after which the same command is refused with "Fan failed".
  */
  lemma FailedReachableAndAbsorbing(state: FanState, data: string, name: string)
    requires state != Failed
    requires StripQuotes(data) == "failed"
    ensures var first := Handle(state, data, name);
      first == Outcome(Failed, Some(false), Response(200, ExecutedBody(name)))
      && Handle(first.state, data, name) == Outcome(Failed, None, FanFailedResponse)
  {
  }

  /** What a sequence of calls produces: the final state, every response, every pin write. */
  datatype Trace = Trace(final: FanState, responses: seq<Response>, pinWrites: seq<bool>)

  function Writes(w: Option<bool>): seq<bool>
  {
    match w
    case None => []
    case Some(level) => [level]
  }

  /** The handler applied to each request in turn. */
  function Run(state: FanState, requests: seq<Request>): Trace
    decreases |requests|
  {
    if requests == [] then Trace(state, [], [])
    else
      var o := Handle(state, requests[0].data, requests[0].name);
      var rest := Run(o.state, requests[1..]);
      Trace(rest.final, [o.response] + rest.responses, Writes(o.pinWrite) + rest.pinWrites)
  }

  /** `failed` absorbs every sequence of calls: all are refused and the pin is never written. */
  lemma {:induction false} FailedAbsorbsRun(requests: seq<Request>)
    ensures Run(Failed, requests).final == Failed
    ensures Run(Failed, requests).pinWrites == []
    ensures |Run(Failed, requests).responses| == |requests|
    ensures forall i :: 0 <= i < |requests| ==> Run(Failed, requests).responses[i] == FanFailedResponse
  {
    if requests != [] {
      FailedAbsorbsRun(requests[1..]);
    }
  }

  /** A run that does not end in `failed` never started there. */
  lemma {:induction false} RunNeverLeavesFailed(state: FanState, requests: seq<Request>)
    requires Run(state, requests).final != Failed
    ensures state != Failed
  {
    if state == Failed {
      FailedAbsorbsRun(requests);
    }
  }

  /** Running two sequences of calls one after the other is running their concatenation. */
  lemma {:induction false} RunConcat(state: FanState, first: seq<Request>, second: seq<Request>)
    ensures var a := Run(state, first);
      var b := Run(a.final, second);
      Run(state, first + second) == Trace(b.final, a.responses + b.responses, a.pinWrites + b.pinWrites)
    decreases |first|
  {
    if first == [] {
      assert first + second == second;
    } else {
      var whole := first + second;
      var o := Handle(state, first[0].data, first[0].name);
      RunConcat(o.state, first[1..], second);
      var tail := Run(o.state, first[1..]);
      var b := Run(tail.final, second);
      RunStep(state, first);
      RunStep(state, whole);
      assert whole[0] == first[0] && whole[1..] == first[1..] + second;
      SeqAssoc([o.response], tail.responses, b.responses);
      SeqAssoc(Writes(o.pinWrite), tail.pinWrites, b.pinWrites);
    }
  }

  /** One unfolding of `Run`. */
  lemma RunStep(state: FanState, requests: seq<Request>)
    requires requests != []
    ensures var o := Handle(state, requests[0].data, requests[0].name);
      var rest := Run(o.state, requests[1..]);
      Run(state, requests) == Trace(rest.final, [o.response] + rest.responses, Writes(o.pinWrite) + rest.pinWrites)
  {
  }

  lemma SeqAssoc<T>(a: seq<T>, b: seq<T>, c: seq<T>)
    ensures a + (b + c) == (a + b) + c
  {
  }

  /** Once a run reaches `failed` part-way, it ends there and never writes the pin again. */
  lemma FailedIsFinal(state: FanState, first: seq<Request>, second: seq<Request>)
    requires Run(state, first).final == Failed
    ensures Run(state, first + second).final == Failed
    ensures Run(state, first + second).pinWrites == Run(state, first).pinWrites
  {
    RunConcat(state, first, second);
    FailedAbsorbsRun(second);
  }

  /** After any run that wrote the pin, the pin's last level is the level of the final state. */
  lemma {:induction false} RunPinMatchesFinal(state: FanState, requests: seq<Request>)
    ensures var t := Run(state, requests);
      t.pinWrites != [] ==> t.pinWrites[|t.pinWrites| - 1] == PinLevel(t.final)
    decreases |requests|
  {
    if requests != [] {
      var o := Handle(state, requests[0].data, requests[0].name);
      RunPinMatchesFinal(o.state, requests[1..]);
      var rest := Run(o.state, requests[1..]);
      if rest.pinWrites == [] && o.pinWrite.Some? {
        RunUnwrittenKeepsState(o.state, requests[1..]);
      }
    }
  }

  /** A run that never wrote the pin never changed the state. */
  lemma {:induction false} RunUnwrittenKeepsState(state: FanState, requests: seq<Request>)
    ensures Run(state, requests).pinWrites == [] ==> Run(state, requests).final == state
    decreases |requests|
  {
    if requests != [] {
      var o := Handle(state, requests[0].data, requests[0].name);
      RunUnwrittenKeepsState(o.state, requests[1..]);
    }
  }

  /** Invalid payloads leave no trace over a whole run: state kept, pin untouched, all 400. */
  lemma {:induction false} InvalidRunNoTrace(state: FanState, requests: seq<Request>)
    requires forall i :: 0 <= i < |requests| ==> ParseState(StripQuotes(requests[i].data)).None?
    ensures Run(state, requests).final == state
    ensures Run(state, requests).pinWrites == []
    ensures |Run(state, requests).responses| == |requests|
    ensures forall i :: 0 <= i < |requests| ==> Run(state, requests).responses[i].status == 400
    ensures state != Failed ==>
      forall i :: 0 <= i < |requests| ==> Run(state, requests).responses[i] == InvalidParameterResponse
    ensures state == Failed ==>
      forall i :: 0 <= i < |requests| ==> Run(state, requests).responses[i] == FanFailedResponse
  {
    if requests != [] {
      assert ParseState(StripQuotes(requests[0].data)).None?;
      InvalidRunNoTrace(state, requests[1..]);
    }
  }
}
