/** The accessory's state and its reconciliation of the target door state
    against the observed one, as transition functions: one refresh from the
    node (onGet), a target change (onSet), the start of a watch session
    (startStateWatcher) and one firing of the watch timer (stateWatch). */
module Reconciliation {
  import opened DoorStates
  import opened SensorDecoder
  import opened CommandIssuer

  /** The two configured durations, in whole seconds. */
  datatype Config = Config(refreshTimeoutInSeconds: nat, maximumDurationInSeconds: nat)

  /** Everything the accessory remembers: the current and target door
      states, the ObstructionDetected value, whether a watch timer is armed
      and the time it fires at, and the time the watch session was started
      (`timeoutLaunch`). Times are milliseconds. */
  datatype Controller = Controller(
    current: DoorState,
    target: DoorState,
    obstructed: bool,
    pending: bool,
    due: int,
    launch: int)

  /** The node's answer to a sensor read: a status with the two sensor
      fields, or no answer at all (a network failure). */
  datatype SensorReply = Response(status: int, garageOpened: int, garageClosed: int) | TransportError

  /** What a failed read reports: the communication failure onGet raises
      for a resolved answer whose status is not 200, or the client's own
      rejection when there was no answer or its status is outside 200..299. */
  datatype ReadError = CommunicationFailure | TransportFailure

  datatype Result<T> = Ok(value: T) | Err(error: ReadError)

  /** How one firing of the watch timer ends. */
  datatype TickOutcome = ObstructionDeclared | OppositeReached | TargetReached | Rescheduled

  /** The value an operation returns together with the state it leaves. */
  datatype Step<T> = Step(out: T, next: Controller)

  /** The state of a freshly constructed accessory: both door states
      Unknown, no obstruction and no timer. */
  const Initial: Controller := Controller(Unknown, Unknown, false, false, 0, 0)

  /** The accessory's invariant: an obstruction is only ever flagged while
      the door is held to be Stopped. */
  predicate Inv(c: Controller) {
    c.obstructed ==> c.current == Stopped
  }

  /** A newly decoded state ends an obstruction when it is a change of
      state into a terminal one. */
  predicate ClearsObstruction(previous: DoorState, decoded: DoorState) {
    decoded != previous && decoded.IsTerminal()
  }

  /** The delay, in milliseconds, of every watch timer. */
  function RefreshDelay(cfg: Config): nat {
    cfg.refreshTimeoutInSeconds * 1000
  }

  /** The watch session started at `c.launch` has run longer than allowed. */
  predicate OverBudget(c: Controller, cfg: Config, now: int) {
    now - c.launch > cfg.maximumDurationInSeconds * 1000
  }

  /** One read of the node (onGet). */
  function Get(c: Controller, reply: SensorReply): (s: Step<Result<DoorState>>)
    ensures s.next.target == c.target
    ensures s.next.pending == c.pending && s.next.due == c.due && s.next.launch == c.launch
  {
    match reply
    case TransportError => Step(Err(TransportFailure), c)
    case Response(status, garageOpened, garageClosed) =>
      if !ClientAccepts(status) then Step(Err(TransportFailure), c)
      else if status != 200 then Step(Err(CommunicationFailure), c)
      else
        var decoded := Decode(garageOpened, garageClosed, c.obstructed, c.target);
        Step(Ok(decoded), c.(current := decoded, obstructed := c.obstructed && !ClearsObstruction(c.current, decoded)))
  }

  /** Arming a new watch timer (startStateWatcher): the old timer is
      cancelled, so exactly one is pending, and the session restarts now. */
  function StartWatcher(c: Controller, cfg: Config, now: int): (r: Controller)
    ensures r.pending && r.launch == now && r.due == now + RefreshDelay(cfg)
    ensures r.current == c.current && r.target == c.target && r.obstructed == c.obstructed
  {
    c.(pending := true, launch := now, due := now + RefreshDelay(cfg))
  }

  /** A target change (onSet) with the relay's replies to the toggle posts:
      the target is recorded first; a post the client rejects throws out of
      onSet before the watcher is started; otherwise the watcher is started
      whether or not some post was acknowledged. */
  function Set(c: Controller, cfg: Config, now: int, value: DoorState, replies: seq<PostReply>): (s: Step<CommandReport>)
    requires MaxAttempts <= |replies|
    ensures s.out == Issue(replies)
    ensures s.next.target == value && s.next.current == c.current && s.next.obstructed == c.obstructed
    ensures s.next.pending <==> !s.out.Aborted? || c.pending
    ensures !s.out.Aborted? ==> s.next.launch == now
  {
    var recorded := c.(target := value);
    var report := Issue(replies);
    Step(report, if report.Aborted? then recorded else StartWatcher(recorded, cfg, now))
  }

  /** One firing of the watch timer (stateWatch) at time `now`, with the
      node's reply to the read it makes when still within budget. The timer
      that fired is no longer pending. */
  function Tick(c: Controller, cfg: Config, now: int, reply: SensorReply): (s: Step<TickOutcome>)
    ensures s.next.target == c.target && s.next.launch == c.launch
    ensures s.next.pending <==> s.out == Rescheduled
    ensures s.out == Rescheduled ==> s.next.due == now + RefreshDelay(cfg)
    ensures OverBudget(c, cfg, now) <==> s.out in {ObstructionDeclared, OppositeReached}
    ensures s.out == ObstructionDeclared ==> s.next.current == Stopped && s.next.obstructed
  {
    var fired := c.(pending := false);
    if OverBudget(c, cfg, now) then
      if !c.current.IsTerminal() then
        Step(ObstructionDeclared, fired.(current := Stopped, obstructed := true))
      else
        Step(OppositeReached, fired)
    else
      var refreshed := Get(fired, reply).next;
      if refreshed.current == refreshed.target then
        Step(TargetReached, refreshed)
      else
        Step(Rescheduled, refreshed.(pending := true, due := now + RefreshDelay(cfg)))
  }

  // ---------------------------------------------------------------- onGet

  /** A read that is not a status-200 response fails and changes nothing:
      the client rejects a missing answer or a status outside 200..299, and
      onGet raises a communication failure for any other status but 200. */
  lemma GetFailure(c: Controller, reply: SensorReply)
    requires !(reply.Response? && reply.status == 200)
    ensures Get(c, reply).out.Err?
    ensures Get(c, reply).out.error
         == (if reply.TransportError? || !ClientAccepts(reply.status) then TransportFailure else CommunicationFailure)
    ensures Get(c, reply).next == c
  {
  }

  /** A status-200 read returns the decoded state and stores it as the
      current state; the obstruction flag is cleared exactly when the state
      changes into Opened or Closed, and is otherwise kept. */
  lemma GetSuccess(c: Controller, garageOpened: int, garageClosed: int)
    ensures var s := Get(c, Response(200, garageOpened, garageClosed));
      var decoded := Decode(garageOpened, garageClosed, c.obstructed, c.target);
      s.out == Ok(decoded) && s.next.current == decoded &&
      (s.next.obstructed <==> c.obstructed && !(decoded != c.current && decoded.IsTerminal()))
  {
  }

  /** A read never raises the obstruction flag. */
  lemma GetNeverFlags(c: Controller, reply: SensorReply)
    ensures Get(c, reply).next.obstructed ==> c.obstructed
  {
  }

  /** A read keeps the invariant: a terminal reading after Stopped is a
      change into a terminal state and clears the flag. */
  lemma GetKeepsInv(c: Controller, reply: SensorReply)
    requires Inv(c)
    ensures Inv(Get(c, reply).next)
  {
  }

  /** Two reads in immediate succession with the same reply return the same
      value, the second changes nothing, and the watch timer is untouched. */
  lemma GetIdempotent(c: Controller, reply: SensorReply)
    ensures var first := Get(c, reply); var second := Get(first.next, reply);
      second.out == first.out && second.next == first.next
  {
  }

  // ---------------------------------------------------------------- onSet

  /** onSet records the target, leaves the current state and the
      obstruction flag alone, makes the posts the toggle makes, and starts
      the watcher unless a post threw, whether or not some post succeeded. */
  lemma SetEffect(c: Controller, cfg: Config, now: int, value: DoorState, replies: seq<PostReply>)
    requires MaxAttempts <= |replies|
    ensures var s := Set(c, cfg, now, value, replies);
      s.out == Issue(replies) &&
      s.next.target == value && s.next.current == c.current && s.next.obstructed == c.obstructed &&
      (s.out.Aborted? ==> s.next.pending == c.pending && s.next.launch == c.launch && s.next.due == c.due) &&
      (!s.out.Aborted? ==> s.next == StartWatcher(c.(target := value), cfg, now))
  {
  }

  /** onSet keeps the invariant. */
  lemma SetKeepsInv(c: Controller, cfg: Config, now: int, value: DoorState, replies: seq<PostReply>)
    requires MaxAttempts <= |replies|
    requires Inv(c)
    ensures Inv(Set(c, cfg, now, value, replies).next)
  {
  }

  /** Five refused posts (each resolved with a 2xx status other than 200)
      still return to the caller and still start the watcher. */
  lemma SetAfterFiveRefusals(c: Controller, cfg: Config, now: int, value: DoorState, code: int)
    requires ClientAccepts(code) && code != StatusOk
    ensures var replies := [Answered(code), Answered(code), Answered(code), Answered(code), Answered(code)];
      Set(c, cfg, now, value, replies).out == Exhausted &&
      Set(c, cfg, now, value, replies).next.pending
  {
    var replies := [Answered(code), Answered(code), Answered(code), Answered(code), Answered(code)];
    assert AllRefused(replies, MaxAttempts);
    DescribesUnique(replies, Issue(replies), Exhausted);
  }

  /** A first post the client rejects (for instance a 500 answer) ends
      onSet after that one post: the target is recorded, but no watcher is
      started and the timer is left as it was. */
  lemma SetRejectedFirstPost(c: Controller, cfg: Config, now: int, value: DoorState, replies: seq<PostReply>)
    requires MaxAttempts <= |replies| && Rejected(replies[0])
    ensures var s := Set(c, cfg, now, value, replies);
      s.out == Aborted(1) && s.next == c.(target := value)
  {
    RejectedPostEndsToggle(replies, 0);
  }

  /** Two target changes in a row leave one session, the second one: its
      target, its start time and its timer. */
  lemma SetTwice(c: Controller, cfg: Config, t1: int, v1: DoorState, r1: seq<PostReply>,
                 t2: int, v2: DoorState, r2: seq<PostReply>)
    requires MaxAttempts <= |r1| && MaxAttempts <= |r2|
    requires !Issue(r2).Aborted?
    ensures var s := Set(Set(c, cfg, t1, v1, r1).next, cfg, t2, v2, r2).next;
      s.target == v2 && s.pending && s.launch == t2 && s.due == t2 + RefreshDelay(cfg)
  {
  }

  // ------------------------------------------------------------ stateWatch

  /** Over budget, the tick never reschedules and never reads the node: a
      door that is neither Opened nor Closed is declared obstructed and
      Stopped, and a door at Opened or Closed is left exactly as it was.
      There is no third outcome. */
  lemma TickOverBudget(c: Controller, cfg: Config, now: int, reply: SensorReply)
    requires OverBudget(c, cfg, now)
    ensures var s := Tick(c, cfg, now, reply);
      !s.next.pending && s.next.target == c.target && s.next.launch == c.launch &&
      (!c.current.IsTerminal() ==> s.out == ObstructionDeclared && s.next.current == Stopped && s.next.obstructed) &&
      (c.current.IsTerminal() ==> s.out == OppositeReached && s.next == c.(pending := false))
  {
  }

  /** Within budget, the tick refreshes from the node; a failed read is
      absorbed and leaves the door state unchanged. The tick then stops if
      the current state equals the target, and otherwise arms exactly one
      new timer without restarting the session. */
  lemma TickWithinBudget(c: Controller, cfg: Config, now: int, reply: SensorReply)
    requires !OverBudget(c, cfg, now)
    ensures var s := Tick(c, cfg, now, reply); var read := Get(c, reply);
      s.next.current == read.next.current && s.next.obstructed == read.next.obstructed &&
      s.next.target == c.target && s.next.launch == c.launch &&
      (read.out.Err? ==> s.next.current == c.current && s.next.obstructed == c.obstructed) &&
      (s.out == TargetReached <==> s.next.current == c.target) &&
      (s.out == TargetReached ==> !s.next.pending && s.next.due == c.due) &&
      (s.out != TargetReached ==> s.out == Rescheduled && s.next.pending && s.next.due == now + RefreshDelay(cfg))
  {
  }

  /** The tick keeps the invariant: the flag is raised only together with
      Stopped. */
  lemma TickKeepsInv(c: Controller, cfg: Config, now: int, reply: SensorReply)
    requires Inv(c)
    ensures Inv(Tick(c, cfg, now, reply).next)
  {
  }

  /** The remaining session time is measured from the last watcher start:
      no tick moves `launch`. */
  lemma TickKeepsLaunch(c: Controller, cfg: Config, now: int, reply: SensorReply)
    ensures Tick(c, cfg, now, reply).next.launch == c.launch
  {
  }

  /** The integer-millisecond budget test agrees with the source's test on
      seconds computed by division. */
  lemma OverBudgetInSeconds(c: Controller, cfg: Config, now: int)
    ensures OverBudget(c, cfg, now) <==> (now - c.launch) as real / 1000.0 > cfg.maximumDurationInSeconds as real
  {
  }
}
