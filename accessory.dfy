/** The garage door accessory as an object whose handlers update its fields
    in place. Each handler is proved to perform the matching transition of
    module Reconciliation and to keep the accessory's invariant. */
module Accessory {
  import opened DoorStates
  import opened SensorDecoder
  import opened CommandIssuer
  import opened Reconciliation

  class GarageDoorAccessory {
    const config: Config

    var currentDoorState: DoorState
    var targetDoorState: DoorState
    /** The value of the ObstructionDetected characteristic. */
    var obstructionDetected: bool
    /** A watch timer is armed and has not fired yet. */
    var timerPending: bool
    /** The time the armed timer fires at. */
    var timerDue: int
    var timeoutLaunch: int

    /** The fields as one value. */
    function State(): Controller
      reads this
    {
      Controller(currentDoorState, targetDoorState, obstructionDetected, timerPending, timerDue, timeoutLaunch)
    }

    ghost predicate Valid()
      reads this
    {
      Inv(State())
    }

    constructor (config: Config)
      ensures Valid()
      ensures this.config == config && State() == Initial
    {
      this.config := config;
      currentDoorState := Unknown;
      targetDoorState := Unknown;
      obstructionDetected := false;
      timerPending := false;
      timerDue := 0;
      timeoutLaunch := 0;
    }

    /** Reads the node and stores the state it implies (onGet). A reply
        that is not a status-200 response is reported as an error and
        changes nothing. */
    method OnGet(reply: SensorReply) returns (result: Result<DoorState>)
      requires Valid()
      modifies this`currentDoorState, this`obstructionDetected
      ensures Valid()
      ensures var s := Get(old(State()), reply);
        result == s.out && State() == s.next
    {
      var target, current := targetDoorState, currentDoorState;
      if reply.TransportError? || !ClientAccepts(reply.status) {
        // the HTTP client rejects the request
        return Err(TransportFailure);
      }
      if reply.status != 200 {
        return Err(CommunicationFailure);
      }
      var doorState := Decode(reply.garageOpened, reply.garageClosed, obstructionDetected, target);
      if current != doorState {
        if doorState == Opened || doorState == Closed {
          obstructionDetected := false;
        }
      }
      currentDoorState := doorState;
      return Ok(doorState);
    }

    /** Records a new target, toggles the relay and starts watching (onSet).
        `replies` are the relay's answers to the successive posts. */
    method OnSet(value: DoorState, now: int, replies: seq<PostReply>) returns (report: CommandReport)
      requires Valid()
      requires MaxAttempts <= |replies|
      modifies this
      ensures Valid()
      ensures var s := Set(old(State()), config, now, value, replies);
        report == s.out && State() == s.next
    {
      targetDoorState := value;
      report := ToggleRelay(replies);
      if report.Aborted? {
        // the rejected post propagates out of the handler
        return;
      }
      StartStateWatcher(now);
    }

    /** Cancels the pending timer, restarts the session and arms a new
        timer (startStateWatcher). */
    method StartStateWatcher(now: int)
      modifies this`timerPending, this`timerDue, this`timeoutLaunch
      ensures State() == StartWatcher(old(State()), config, now)
    {
      timerPending := false;
      timeoutLaunch := now;
      timerPending, timerDue := true, now + config.refreshTimeoutInSeconds * 1000;
    }

    /** The watch timer fires at `now` (stateWatch); `reply` is the node's
        answer to the read made when the session is still within budget. */
    method StateWatch(now: int, reply: SensorReply) returns (outcome: TickOutcome)
      requires Valid()
      modifies this
      ensures Valid()
      ensures var s := Tick(old(State()), config, now, reply);
        outcome == s.out && State() == s.next
    {
      timerPending := false;
      var runtime := now - timeoutLaunch;
      if runtime > config.maximumDurationInSeconds * 1000 {
        if currentDoorState != Opened && currentDoorState != Closed {
          obstructionDetected := true;
          currentDoorState := Stopped;
          outcome := ObstructionDeclared;
        } else if currentDoorState == Opened || currentDoorState == Closed {
          outcome := OppositeReached;
        } else {
          // the source's third, "unknown state" branch cannot be reached
          assert false;
        }
      } else {
        var result := OnGet(reply);
        if currentDoorState == targetDoorState {
          outcome := TargetReached;
        } else {
          outcome := Rescheduled;
          timerPending, timerDue := true, now + config.refreshTimeoutInSeconds * 1000;
        }
      }
    }
  }

  /** A host session: a close request with every post answered 204 (resolved
      by the client, but not 200), then a timer firing that sees the closed
      sensor. */
  method CloseDespiteRefusedPosts() returns (door: GarageDoorAccessory)
    ensures door.currentDoorState == Closed && door.targetDoorState == Closed
    ensures !door.obstructionDetected && !door.timerPending
  {
    door := new GarageDoorAccessory(Config(5, 30));
    var refused := [Answered(204), Answered(204), Answered(204), Answered(204), Answered(204)];
    var report := door.OnSet(Closed, 0, refused);
    assert AllRefused(refused, MaxAttempts);
    DescribesUnique(refused, Issue(refused), Exhausted);
    assert report == Exhausted && door.timerPending;
    var outcome := door.StateWatch(5000, Response(200, 0, 1));
    assert outcome == TargetReached;
  }
}
