/**
  The fan's three states (`stateEnum` of the device program), their textual
  names and the case-sensitive parse from a name back to a state.
*/
module FanStates {
  import opened Wrappers

  datatype FanState = Off | On | Failed

  /** The state the process starts in. */
  const InitialState: FanState := Off

  /** The name the enumeration's ToString gives to each state. */
  function StateName(s: FanState): string
  {
    match s
    case Off => "off"
    case On => "on"
    case Failed => "failed"
  }

  /**
    Name-to-state parse, restricted to an exact, case-sensitive match of one
    of the three enumeration names.
  */
  function ParseState(name: string): (r: Option<FanState>)
    ensures r.Some? <==> name == "off" || name == "on" || name == "failed"
    ensures r.Some? ==> StateName(r.value) == name
  {
    if name == "off" then Some(Off)
    else if name == "on" then Some(On)
    else if name == "failed" then Some(Failed)
    else None
  }

  /** Parsing accepts exactly the state names, and gives back the named state. */
  lemma ParseStateIffName(name: string, s: FanState)
    ensures ParseState(name) == Some(s) <==> name == StateName(s)
  {
    match s
    case Off =>
    case On =>
    case Failed =>
  }

  /** Distinct states have distinct names, so a reported name identifies its state. */
  lemma StateNameInjective(s: FanState, t: FanState)
    ensures StateName(s) == StateName(t) <==> s == t
  {
    ParseStateIffName(StateName(s), s);
    ParseStateIffName(StateName(s), t);
  }

  /** The parse is case-sensitive: a capitalised or unknown word is rejected. */
  lemma ParseRejectsOtherSpellings()
    ensures ParseState("On") == None
    ensures ParseState("OFF") == None
    ensures ParseState("Failed") == None
    ensures ParseState("spin") == None
    ensures ParseState("") == None
  {
  }
}
