/** Runs of the accessory: the host's onSet and onGet calls and the
    firings of the watch timer, applied one after another. */
module Sessions {
  import opened DoorStates
  import opened CommandIssuer
  import opened Reconciliation

  /** One thing that happens to the accessory. `TimerFires` is the clock
      reaching `now`, with the node's reply to the read the watcher may make;
      the armed timer fires then if it is due by `now`. */
  datatype Event =
    | SetTarget(now: int, value: DoorState, replies: seq<PostReply>)
    | GetCurrent(reply: SensorReply)
    | TimerFires(now: int, reply: SensorReply)

  /** The event supplies an answer to each of the five posts onSet can make. */
  predicate Complete(e: Event) {
    e.SetTarget? ==> MaxAttempts <= |e.replies|
  }

  predicate AllComplete(events: seq<Event>) {
    forall i :: 0 <= i < |events| ==> Complete(events[i])
  }

  /** The state after one event. Only the armed timer fires, and not
      before its due time: a timer that was cancelled or has already fired
      does nothing, and neither does one that is not due yet. */
  function Apply(c: Controller, cfg: Config, e: Event): (r: Controller)
    requires Complete(e)
    ensures e.TimerFires? && !(c.pending && c.due <= e.now) ==> r == c
    ensures r.pending && !c.pending ==> e.SetTarget?
    ensures r.launch != c.launch ==> e.SetTarget? && r.launch == e.now
  {
    match e
    case SetTarget(now, value, replies) => Set(c, cfg, now, value, replies).next
    case GetCurrent(reply) => Get(c, reply).next
    case TimerFires(now, reply) => if c.pending && c.due <= now then Tick(c, cfg, now, reply).next else c
  }

  /** The state after a run of events, in order. */
  function Run(c: Controller, cfg: Config, events: seq<Event>): Controller
    requires AllComplete(events)
    decreases |events|
  {
    if events == [] then c else Run(Apply(c, cfg, events[0]), cfg, events[1..])
  }

  /** No event is a target change. */
  predicate NoTargetChange(events: seq<Event>) {
    forall i :: 0 <= i < |events| ==> !events[i].SetTarget?
  }

  /** Every event keeps the invariant. */
  lemma ApplyKeepsInv(c: Controller, cfg: Config, e: Event)
    requires Complete(e) && Inv(c)
    ensures Inv(Apply(c, cfg, e))
  {
    match e
    case SetTarget(now, value, replies) => SetKeepsInv(c, cfg, now, value, replies);
    case GetCurrent(reply) => GetKeepsInv(c, reply);
    case TimerFires(now, reply) => TickKeepsInv(c, cfg, now, reply);
  }

  /** Over every run from a state that satisfies it, including the initial
      state, an obstruction is only ever flagged while the door is Stopped. */
  lemma {:induction false} RunKeepsInv(c: Controller, cfg: Config, events: seq<Event>)
    requires AllComplete(events) && Inv(c)
    ensures Inv(Run(c, cfg, events))
    decreases |events|
  {
    if events != [] {
      ApplyKeepsInv(c, cfg, events[0]);
      RunKeepsInv(Apply(c, cfg, events[0]), cfg, events[1..]);
    }
  }

  /** Without a target change, the session start time never moves and the
      target stays as it was, however many reads and timer firings happen:
      the budget is measured from the last watcher start. */
  lemma {:induction false} RunKeepsSession(c: Controller, cfg: Config, events: seq<Event>)
    requires AllComplete(events) && NoTargetChange(events)
    ensures Run(c, cfg, events).launch == c.launch
    ensures Run(c, cfg, events).target == c.target
    decreases |events|
  {
    if events != [] {
      RunKeepsSession(Apply(c, cfg, events[0]), cfg, events[1..]);
    }
  }

  /** Once no timer is armed, only a target change arms one again: reads
      and stray firings leave the watcher stopped and its times alone. */
  lemma {:induction false} StoppedWatcherStaysStopped(c: Controller, cfg: Config, events: seq<Event>)
    requires AllComplete(events) && NoTargetChange(events) && !c.pending
    ensures var r := Run(c, cfg, events);
      !r.pending && r.due == c.due && r.launch == c.launch
    decreases |events|
  {
    if events != [] {
      StoppedWatcherStaysStopped(Apply(c, cfg, events[0]), cfg, events[1..]);
    }
  }

  /** Once the budget has run out, the armed timer's firing ends the
      session; before the timer is due, nothing happens. */
  lemma LateFiringStops(c: Controller, cfg: Config, now: int, reply: SensorReply)
    requires OverBudget(c, cfg, now)
    ensures c.due <= now ==> !Apply(c, cfg, TimerFires(now, reply)).pending
    ensures now < c.due ==> Apply(c, cfg, TimerFires(now, reply)) == c
  {
  }

  /** The run from the initial state keeps the invariant throughout. */
  lemma InitialRunKeepsInv(cfg: Config, events: seq<Event>)
    requires AllComplete(events)
    ensures Inv(Run(Initial, cfg, events))
  {
    RunKeepsInv(Initial, cfg, events);
  }

  // ---------------------------------------------------------- scenarios

  /** A reply with neither sensor active. */
  const Moving: SensorReply := Response(200, 0, 0)

  /** A reply with the closed sensor active. */
  const AtClosed: SensorReply := Response(200, 0, 1)

  /** Posts all acknowledged. */
  const AllOk: seq<PostReply> := [Answered(200), Answered(200), Answered(200), Answered(200), Answered(200)]

  /** A close request with a 5 s refresh and a 30 s budget; the door is
      reported moving until the closed sensor fires at 25 s: it becomes
      Closed, equal to the target, the watcher stops, no obstruction. */
  lemma ScenarioClosedWithinBudget()
    ensures var cfg := Config(5, 30);
      var events := [SetTarget(0, Closed, AllOk), TimerFires(5000, Moving), TimerFires(10000, Moving),
                     TimerFires(15000, Moving), TimerFires(20000, Moving), TimerFires(25000, AtClosed)];
      Run(Initial, cfg, events) == Controller(Closed, Closed, false, false, 25000, 0)
  {
    var cfg := Config(5, 30);
    var events := [SetTarget(0, Closed, AllOk), TimerFires(5000, Moving), TimerFires(10000, Moving), TimerFires(15000, Moving), TimerFires(20000, Moving), TimerFires(25000, AtClosed)];
    IssueSpec(AllOk);
    assert Run(Initial, cfg, events[0..]) == Run(Controller(Unknown, Closed, false, true, 5000, 0), cfg, events[1..]);
    assert Run(Controller(Unknown, Closed, false, true, 5000, 0), cfg, events[1..]) == Run(Controller(Closing, Closed, false, true, 10000, 0), cfg, events[2..]);
    assert Run(Controller(Closing, Closed, false, true, 10000, 0), cfg, events[2..]) == Run(Controller(Closing, Closed, false, true, 15000, 0), cfg, events[3..]);
    assert Run(Controller(Closing, Closed, false, true, 15000, 0), cfg, events[3..]) == Run(Controller(Closing, Closed, false, true, 20000, 0), cfg, events[4..]);
    assert Run(Controller(Closing, Closed, false, true, 20000, 0), cfg, events[4..]) == Run(Controller(Closing, Closed, false, true, 25000, 0), cfg, events[5..]);
    assert Run(Controller(Closing, Closed, false, true, 25000, 0), cfg, events[5..]) == Run(Controller(Closed, Closed, false, false, 25000, 0), cfg, events[6..]);
  }

  /** The same request with the door reported moving until 30 s: the firing
      at 35 s is past the budget, the door is declared obstructed and
      Stopped, and the watcher stops without reading the node again. */
  lemma ScenarioObstructed()
    ensures var cfg := Config(5, 30);
      var events := [SetTarget(0, Closed, AllOk), TimerFires(5000, Moving), TimerFires(10000, Moving),
                     TimerFires(15000, Moving), TimerFires(20000, Moving), TimerFires(25000, Moving),
                     TimerFires(30000, Moving), TimerFires(35000, AtClosed)];
      Run(Initial, cfg, events) == Controller(Stopped, Closed, true, false, 35000, 0)
  {
    var cfg := Config(5, 30);
    var events := [SetTarget(0, Closed, AllOk), TimerFires(5000, Moving), TimerFires(10000, Moving), TimerFires(15000, Moving), TimerFires(20000, Moving), TimerFires(25000, Moving), TimerFires(30000, Moving), TimerFires(35000, AtClosed)];
    IssueSpec(AllOk);
    assert Run(Initial, cfg, events[0..]) == Run(Controller(Unknown, Closed, false, true, 5000, 0), cfg, events[1..]);
    assert Run(Controller(Unknown, Closed, false, true, 5000, 0), cfg, events[1..]) == Run(Controller(Closing, Closed, false, true, 10000, 0), cfg, events[2..]);
    assert Run(Controller(Closing, Closed, false, true, 10000, 0), cfg, events[2..]) == Run(Controller(Closing, Closed, false, true, 15000, 0), cfg, events[3..]);
    assert Run(Controller(Closing, Closed, false, true, 15000, 0), cfg, events[3..]) == Run(Controller(Closing, Closed, false, true, 20000, 0), cfg, events[4..]);
    assert Run(Controller(Closing, Closed, false, true, 20000, 0), cfg, events[4..]) == Run(Controller(Closing, Closed, false, true, 25000, 0), cfg, events[5..]);
    assert Run(Controller(Closing, Closed, false, true, 25000, 0), cfg, events[5..]) == Run(Controller(Closing, Closed, false, true, 30000, 0), cfg, events[6..]);
    assert Run(Controller(Closing, Closed, false, true, 30000, 0), cfg, events[6..]) == Run(Controller(Closing, Closed, false, true, 35000, 0), cfg, events[7..]);
    assert Run(Controller(Closing, Closed, false, true, 35000, 0), cfg, events[7..]) == Run(Controller(Stopped, Closed, true, false, 35000, 0), cfg, events[8..]);
  }
}
