/** Inference of the door state from one reading of the door node's two
    proximity sensors. */
module SensorDecoder {
  import opened DoorStates

  /** The state the accessory infers from the node's `garageOpened` and
      `garageClosed` fields (a sensor is active when its field is 1), the
      obstruction flag and the target state. A terminal reading wins over
      the obstruction flag, and the flag wins over the direction guessed
      from the target. */
  function Decode(garageOpened: int, garageClosed: int, obstructed: bool, target: DoorState): (r: DoorState)
    ensures r != Unknown
    ensures r.IsTerminal() <==> garageOpened == 1 || garageClosed == 1
    ensures r == Stopped <==> obstructed && garageOpened != 1 && garageClosed != 1
    ensures r == Opening ==> target == Opened
  {
    if garageOpened == 1 then Opened
    else if garageClosed == 1 then Closed
    else if obstructed then Stopped
    else if target == Opened then Opening
    else Closing
  }

  /** An active opened sensor decides the state, whatever else is known. */
  lemma OpenedSensorWins(garageClosed: int, obstructed: bool, target: DoorState)
    ensures Decode(1, garageClosed, obstructed, target) == Opened
  {
  }

  /** Otherwise an active closed sensor decides it. */
  lemma ClosedSensorNext(garageOpened: int, obstructed: bool, target: DoorState)
    requires garageOpened != 1
    ensures Decode(garageOpened, 1, obstructed, target) == Closed
  {
  }

  /** With neither sensor active, a flagged obstruction persists as Stopped. */
  lemma ObstructionPersists(garageOpened: int, garageClosed: int, target: DoorState)
    requires garageOpened != 1 && garageClosed != 1
    ensures Decode(garageOpened, garageClosed, true, target) == Stopped
  {
  }

  /** With neither sensor active and no obstruction, the door is assumed to
      move towards Opened when that is the target, and to be closing for
      every other target, Unknown and Closed included. */
  lemma DirectionFromTarget(garageOpened: int, garageClosed: int, target: DoorState)
    requires garageOpened != 1 && garageClosed != 1
    ensures Decode(garageOpened, garageClosed, false, target) == Opening <==> target == Opened
    ensures Decode(garageOpened, garageClosed, false, target) == Closing <==> target != Opened
  {
  }

  /** A field value other than 1 counts as an inactive sensor, the same as 0. */
  lemma OnlyOneIsActive(garageOpened: int, garageClosed: int, obstructed: bool, target: DoorState)
    ensures Decode(garageOpened, garageClosed, obstructed, target)
         == Decode(if garageOpened == 1 then 1 else 0, if garageClosed == 1 then 1 else 0, obstructed, target)
  {
  }
}
