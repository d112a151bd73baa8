/** The discrete door states of the accessory, the numeric codes the
    home-automation host uses for them, and the text used to log them. */
module DoorStates {

  datatype Option<T> = None | Some(value: T)

  /** One value of the GarageDoorStates table. Opened and Closed are seen
      directly by a sensor; Opening and Closing are inferred while the door
      moves; Stopped marks a detected obstruction; Unknown is the initial value. */
  datatype DoorState = Unknown | Opened | Closed | Opening | Closing | Stopped
  {
    /** The door is at one of the two positions a sensor can confirm. */
    predicate IsTerminal() {
      this == Opened || this == Closed
    }

    /** The numeric code of the state in the GarageDoorStates table. */
    function Code(): (n: int)
      ensures -1 <= n <= 4
      ensures n == -1 <==> this == Unknown
    {
      match this
      case Unknown => -1
      case Opened => 0
      case Closed => 1
      case Opening => 2
      case Closing => 3
      case Stopped => 4
    }

    /** The name of the state as the text table spells it. */
    function Name(): string {
      match this
      case Unknown => "Unknown"
      case Opened => "Opened"
      case Closed => "Closed"
      case Opening => "Opening"
      case Closing => "Closing"
      case Stopped => "Stopped"
    }
  }

  /** The state with the given code, if there is one. */
  function FromCode(n: int): (r: Option<DoorState>)
    ensures r.Some? <==> -1 <= n <= 4
    ensures r.Some? ==> r.value.Code() == n
  {
    if n == -1 then Some(Unknown)
    else if n == 0 then Some(Opened)
    else if n == 1 then Some(Closed)
    else if n == 2 then Some(Opening)
    else if n == 3 then Some(Closing)
    else if n == 4 then Some(Stopped)
    else None
  }

  /** Encoding a state and decoding the code gives the state back. */
  lemma CodeRoundTrip(s: DoorState)
    ensures FromCode(s.Code()) == Some(s)
  {
  }

  /** Different states have different codes. */
  lemma CodeInjective(s: DoorState, t: DoorState)
    ensures s.Code() == t.Code() <==> s == t
  {
  }

  /** The names the text helper indexes by state code. */
  const StateNames: seq<string> := ["Opened", "Closed", "Opening", "Closing", "Stopped"]

  /** The text helper as written: its guard admits codes 0 to 3 only, so
      a state's code gets the state's name unless the state is Stopped. */
  function StateText(state: int): (r: string)
    ensures r == (if FromCode(state).Some? && FromCode(state).value != Stopped
                  then FromCode(state).value.Name() else "Unknown")
  {
    if state < 0 || state > 3 then "Unknown" else StateNames[state]
  }

  /** The last entry of the table is unreachable: no code is rendered
      "Stopped", and the code of Stopped itself is rendered "Unknown". */
  lemma StoppedRendersUnknown(n: int)
    ensures StateText(n) != "Stopped"
    ensures StateText(Stopped.Code()) == "Unknown"
  {
  }

  /** The helper as written names every state correctly except Stopped. */
  lemma StateTextNamesAllButStopped(s: DoorState)
    ensures StateText(s.Code()) == s.Name() <==> s != Stopped
  {
    StoppedRendersUnknown(s.Code());
  }

  /** The text helper with the guard its table implies: codes 0 to 4, so
      every state's code gets the state's name. */
  function StateTextIntended(state: int): (r: string)
    ensures FromCode(state).Some? ==> r == FromCode(state).value.Name()
    ensures FromCode(state).None? ==> r == "Unknown"
  {
    if state < 0 || state > 4 then "Unknown" else StateNames[state]
  }

  /** The corrected helper names every state by its own name, and renders
      every code outside the table as "Unknown". */
  lemma StateTextIntendedNamesAll(s: DoorState, n: int)
    ensures StateTextIntended(s.Code()) == s.Name()
    ensures FromCode(n).None? ==> StateTextIntended(n) == "Unknown"
  {
  }
}
