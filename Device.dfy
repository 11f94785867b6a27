/**
  The device process's shared state — the fan state and the fan's GPIO pin
  (pin 21) — with the direct-method handler that updates it and the
  `fanstate` entry of the reported twin properties that reads it.
*/
module CheeseCave {
  import opened Wrappers
  import opened FanStates
  import opened Payload
  import opened Handler

  class Device {
    /** The process-wide fan state. */
    var fanState: FanState
    /** Current level of the fan pin: true is High. */
    var pinHigh: bool
    /** Every level written to the fan pin, oldest first. */
    ghost var pinLog: seq<bool>

    /** Once the pin has been written, its level is the last level written and that of the fan state. */
    ghost predicate Valid()
      reads this
    {
      pinLog != [] ==> pinHigh == pinLog[|pinLog| - 1] && pinHigh == PinLevel(fanState)
    }

    /** Process start: the fan is `off`; the pin is opened at whatever level the hardware has. */
    constructor (openedLevel: bool)
      ensures Valid()
      ensures fanState == Off && pinHigh == openedLevel && pinLog == []
    {
      fanState := InitialState;
      pinHigh := openedLevel;
      pinLog := [];
    }

    /** The `SetFanState` direct-method handler. */
    method SetFanState(data: string, name: string) returns (status: int, body: string)
      requires Valid()
      modifies this
      ensures Valid()
      // agreement with the reference definition of one call
      ensures var o := Handle(old(fanState), data, name);
        fanState == o.state && Response(status, body) == o.response
        && pinLog == old(pinLog) + Writes(o.pinWrite)
        && pinHigh == (if o.pinWrite.Some? then o.pinWrite.value else old(pinHigh))
      // the three outcomes, spelled out
      ensures old(fanState) == Failed ==>
        status == 400 && body == FanFailedBody && unchanged(this)
      ensures old(fanState) != Failed && ParseState(StripQuotes(data)).None? ==>
        status == 400 && body == InvalidParameterBody && unchanged(this)
      ensures old(fanState) != Failed && ParseState(StripQuotes(data)).Some? ==>
        status == 200 && body == ExecutedBody(name)
        && StateName(fanState) == StripQuotes(data)
        && (pinHigh <==> fanState == On) && pinLog == old(pinLog) + [pinHigh]
    {
      if fanState == Failed {
        status, body := 400, FanFailedBody;
        return;
      }
      var normalised := StripQuotes(data);
      var parsed := ParseState(normalised);
      match parsed {
        case None =>
          status, body := 400, InvalidParameterBody;
        case Some(next) =>
          fanState := next;
          var level := fanState == On;
          pinHigh := level;
          pinLog := pinLog + [level];
          status, body := 200, ExecutedBody(name);
      }
    }

    /** The `fanstate` entry of the reported properties: the current state's name; nothing changes. */
    method ReportedFanState() returns (properties: map<string, string>)
      ensures "fanstate" in properties && properties.Keys == {"fanstate"}
      ensures ParseState(properties["fanstate"]) == Some(fanState)
    {
      properties := map["fanstate" := StateName(fanState)];
      ParseStateIffName(StateName(fanState), fanState);
    }
  }
}

/** Command sequences a fresh device goes through, as the operator would issue them. */
module Scenarios {
  import opened FanStates
  import opened Payload
  import opened Handler
  import opened CheeseCave

  /**
    From start: "on", then a quoted "off", then "spin", then "failed", then "on".
    Gives the status and body of each call and the state after it, and the final pin level.
  */
  method OperatorSession() returns (statuses: seq<int>, bodies: seq<string>, states: seq<FanState>, pin: bool)
    ensures statuses == [200, 200, 400, 200, 400]
    ensures bodies == [ExecutedBody("SetFanState"), ExecutedBody("SetFanState"),
                       InvalidParameterBody, ExecutedBody("SetFanState"), FanFailedBody]
    ensures states == [On, Off, Off, Failed, Failed]
    ensures !pin
  {
    StripQuotesExamples();
    StripQuotesQuoteFree("on");
    StripQuotesQuoteFree("spin");
    StripQuotesQuoteFree("failed");
    var d := new Device(true);
    var s1, b1 := d.SetFanState("on", "SetFanState");
    var f1 := d.fanState;
    assert d.pinHigh;
    var s2, b2 := d.SetFanState("\"off\"", "SetFanState");
    var f2 := d.fanState;
    var s3, b3 := d.SetFanState("spin", "SetFanState");
    var f3 := d.fanState;
    var s4, b4 := d.SetFanState("failed", "SetFanState");
    var f4 := d.fanState;
    var s5, b5 := d.SetFanState("on", "SetFanState");
    var f5 := d.fanState;
    statuses, bodies := [s1, s2, s3, s4, s5], [b1, b2, b3, b4, b5];
    states, pin := [f1, f2, f3, f4, f5], d.pinHigh;
  }
}
