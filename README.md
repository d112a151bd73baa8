# Garage door accessory: a Dafny model

This project models the garage door accessory of a home-automation plugin.
The accessory drives one garage door through an HTTP relay/sensor node. The
node has two proximity sensors (`garageOpened`, `garageClosed`) and a relay
that a post toggles. The accessory keeps a current and a target door state
and an obstruction flag. After every target change it runs a
self-rescheduling watch timer. The timer re-reads the node until the target
is reached, or declares an obstruction when the configured maximum duration
runs out.

Modules, one per component of the accessory:

- `DoorStates` (`door_states.dfy`): the six door states, their numeric
  codes, and the text helper used to log them.
- `SensorDecoder` (`sensor_decoder.dfy`): the decode step of `onGet`, which
  turns one sensor reading, the obstruction flag and the target into a
  door state.
- `CommandIssuer` (`command_issuer.dfy`): the relay toggle of `onSet`. It
  makes at most five posts and stops at the first status 200. It is given
  as a reference function (`Issue`), a loop proved equal to it
  (`ToggleRelay`), and an independent description of the outcome
  (`Describes`).
- `Reconciliation` (`reconciliation.dfy`): the accessory's state as a record
  (`Controller`), and the four handlers as transition functions: `Get`
  (onGet), `Set` (onSet), `StartWatcher` (startStateWatcher) and `Tick`
  (stateWatch). The lemmas beside them state what each handler promises.
- `Sessions` (`sessions.dfy`): runs of host calls and timer firings. It
  proves that the invariant holds over every run and that the budget is
  measured from the last watcher start. Two worked scenarios are included.
- `Accessory` (`accessory.dfy`): class `GarageDoorAccessory`, whose fields
  the handlers update in place as the source does. Each method is proved
  to perform the matching transition of `Reconciliation` and to keep the
  invariant. The invariant is that an obstruction is flagged only while the
  door is `Stopped`.

Time, HTTP and timers are inputs:

- The clock is a parameter `now`, in integer milliseconds.
- A sensor read is a `SensorReply`: a status with the two sensor fields, or
  no answer at all.
- The relay posts are a sequence of `PostReply` values. Entry `i` is the
  answer to post `i + 1`: a status, or no answer at all.
- The HTTP client is built with `axios.create()` (garageDoorAccessory.ts:83)
  and keeps its default status validation. It resolves a request only for
  a status in 200..299 and throws for any other status or a missing answer
  (`CommandIssuer.ClientAccepts`).
- The watch timer is a "pending" flag plus the time it is due. A timer that
  was cancelled, or has already fired, never fires. An armed timer fires
  only once the clock has reached its due time (`Sessions.Apply`).

Consequences of the code that the model keeps:

- `onSet` does not touch the obstruction flag (garageDoorAccessory.ts:109-135).
  Only a terminal reading in `onGet` clears it.
- The post at garageDoorAccessory.ts:120 is not caught. So a post the client
  rejects ends `onSet` before the watcher starts (`CommandReport.Aborted`).
  That includes any status outside 200..299, a 500 for instance. The loop
  retries only posts resolved with a 2xx status other than 200.
- Likewise a read whose status lies outside 200..299 throws from the client
  at line 218. The communication failure of line 221 is raised only for the
  other 2xx statuses.

## Model

| member | source | states |
|---|---|---|
| `DoorStates.DoorState.Code` | homebridge-plugin/src/garageDoorAccessory.ts:14-21 | codes lie in -1..4, and only Unknown has code -1 |
| `DoorStates.FromCode` | homebridge-plugin/src/garageDoorAccessory.ts:14-21 | a code names a state exactly when it lies in -1..4, and that state carries the code |
| `DoorStates.CodeRoundTrip` | homebridge-plugin/src/garageDoorAccessory.ts:14-21 | decoding the code of a state gives the state back |
| `DoorStates.CodeInjective` | homebridge-plugin/src/garageDoorAccessory.ts:14-21 | two states share a code exactly when they are the same state |
| `DoorStates.StateText` | homebridge-plugin/src/garageDoorAccessory.ts:23-34 | as written: a state's code is rendered as that state's name unless the state is Stopped; Stopped's code and every non-code render "Unknown" |
| `DoorStates.StoppedRendersUnknown` | homebridge-plugin/src/garageDoorAccessory.ts:24-32 | no code is ever rendered "Stopped", and Stopped's own code 4 is rendered "Unknown" |
| `DoorStates.StateTextNamesAllButStopped` | homebridge-plugin/src/garageDoorAccessory.ts:23-34 | the helper as written names a state correctly exactly when the state is not Stopped |
| `DoorStates.StateTextIntended` | homebridge-plugin/src/garageDoorAccessory.ts:23-34 | corrected guard: every state's code is rendered as that state's name, and every non-code as "Unknown" |
| `DoorStates.StateTextIntendedNamesAll` | homebridge-plugin/src/garageDoorAccessory.ts:23-34 | the corrected helper names every state by its own name, and renders every code outside the table "Unknown" |
| `SensorDecoder.Decode` | homebridge-plugin/src/garageDoorAccessory.ts:223-243 | the decoded state is never Unknown; it is terminal exactly when a sensor field is 1; it is Stopped exactly when the door is obstructed and no sensor is active; Opening only when the target is Opened |
| `SensorDecoder.OpenedSensorWins` | homebridge-plugin/src/garageDoorAccessory.ts:225-227 | garageOpened = 1 decodes to Opened whatever the other sensor, the flag and the target |
| `SensorDecoder.ClosedSensorNext` | homebridge-plugin/src/garageDoorAccessory.ts:228-230 | when garageOpened is not 1, garageClosed = 1 decodes to Closed whatever the flag and the target |
| `SensorDecoder.ObstructionPersists` | homebridge-plugin/src/garageDoorAccessory.ts:231-235 | with neither sensor at 1, an obstructed door decodes to Stopped |
| `SensorDecoder.DirectionFromTarget` | homebridge-plugin/src/garageDoorAccessory.ts:236-242 | with neither sensor at 1 and no obstruction: Opening exactly when the target is Opened, Closing for every other target (Unknown and Closed included) |
| `SensorDecoder.OnlyOneIsActive` | homebridge-plugin/src/garageDoorAccessory.ts:225-228 | strict comparison with 1: every field value other than 1 decodes as an inactive sensor |
| `CommandIssuer.IssueFrom` | homebridge-plugin/src/garageDoorAccessory.ts:118-127 | the retry loop, resumed after `made` refused posts, makes at least one more post and at most five in all, and ends as the replies describe |
| `CommandIssuer.Issue` | homebridge-plugin/src/garageDoorAccessory.ts:118-127 | the whole loop makes one to five posts and ends as the replies describe: refused posts first, then an acknowledgement, a client rejection, or the fifth refusal |
| `CommandIssuer.RejectedPostEndsToggle` | homebridge-plugin/src/garageDoorAccessory.ts:118-127 | a post the client rejects (no answer or a status outside 200..299) is not retried and ends the loop at that attempt |
| `CommandIssuer.DescribesUnique` | homebridge-plugin/src/garageDoorAccessory.ts:118-127 | at most one outcome fits a given list of relay replies, so the description fixes the loop's result |
| `CommandIssuer.IssueSpec` | homebridge-plugin/src/garageDoorAccessory.ts:118-127 | the toggle makes 1 to 5 posts; every post before the last was refused; it is acknowledged exactly when the last post got 200; it is exhausted only after five refusals; a client rejection ends it |
| `CommandIssuer.ToggleRelay` | homebridge-plugin/src/garageDoorAccessory.ts:118-127 | the for/continue/break loop over attempts computes exactly the reference outcome `Issue` |
| `Reconciliation.Get` | homebridge-plugin/src/garageDoorAccessory.ts:212-265 | a read never changes the target or the watch timer (pending, due time, session start) |
| `Reconciliation.StartWatcher` | homebridge-plugin/src/garageDoorAccessory.ts:138-145 | after a start exactly one timer is pending, due one refresh period from now; the session restarts now; the door states and the flag are unchanged |
| `Reconciliation.Set` | homebridge-plugin/src/garageDoorAccessory.ts:109-135 | onSet reports the toggle's outcome, records the target, keeps the current state and the flag, leaves a timer pending unless a post was rejected, and then restarts the session now |
| `Reconciliation.Tick` | homebridge-plugin/src/garageDoorAccessory.ts:147-210 | a firing keeps the target and the session start; it leaves a timer pending exactly when it reschedules, one refresh period later; it ends in one of the two over-budget outcomes exactly when the budget is exceeded; an obstruction comes with Stopped |
| `Reconciliation.GetFailure` | homebridge-plugin/src/garageDoorAccessory.ts:218-222 | a read that is not a status-200 response fails and changes nothing: a client rejection for no answer or a status outside 200..299, a communication failure for another 2xx status |
| `Reconciliation.GetSuccess` | homebridge-plugin/src/garageDoorAccessory.ts:223-264 | a 200 read returns the decoded state and stores it; the flag is cleared exactly when the decoded state differs from the previous one and is Opened or Closed, and is otherwise kept |
| `Reconciliation.GetNeverFlags` | homebridge-plugin/src/garageDoorAccessory.ts:245-257 | a read never raises the obstruction flag |
| `Reconciliation.GetKeepsInv` | homebridge-plugin/src/garageDoorAccessory.ts:233-260 | a read keeps "obstructed implies Stopped": a terminal reading after Stopped clears the flag |
| `Reconciliation.GetIdempotent` | homebridge-plugin/src/garageDoorAccessory.ts:212-265 | a second read with the same reply returns the same value and changes nothing, the session's timer included |
| `Reconciliation.SetEffect` | homebridge-plugin/src/garageDoorAccessory.ts:109-135 | onSet records the target, keeps the current state and the flag, reports the toggle's outcome, and starts the watcher unless a post threw, even when no post succeeded |
| `Reconciliation.SetKeepsInv` | homebridge-plugin/src/garageDoorAccessory.ts:109-135 | onSet keeps the invariant |
| `Reconciliation.SetAfterFiveRefusals` | homebridge-plugin/src/garageDoorAccessory.ts:118-134 | five posts resolved with a 2xx status other than 200 end as exhausted, without an error, and the watcher is still started |
| `Reconciliation.SetRejectedFirstPost` | homebridge-plugin/src/garageDoorAccessory.ts:114-134 | a first post the client rejects ends onSet after one post: the target is recorded, no watcher is started and the timer is untouched |
| `Reconciliation.SetTwice` | homebridge-plugin/src/garageDoorAccessory.ts:138-145 | after two target changes one session is left, the second: its target, its start time and its timer |
| `Reconciliation.TickOverBudget` | homebridge-plugin/src/garageDoorAccessory.ts:150-188 | past the budget the tick never reschedules: a door neither Opened nor Closed becomes Stopped and obstructed, a door at Opened or Closed is left as it was; there is no third outcome |
| `Reconciliation.TickWithinBudget` | homebridge-plugin/src/garageDoorAccessory.ts:190-209 | within budget the tick refreshes and absorbs a failed read without changes; it stops exactly when current equals target, and otherwise arms exactly one timer one refresh period later without restarting the session |
| `Reconciliation.TickKeepsInv` | homebridge-plugin/src/garageDoorAccessory.ts:157-166 | the tick keeps the invariant; the flag is raised only together with Stopped |
| `Reconciliation.TickKeepsLaunch` | homebridge-plugin/src/garageDoorAccessory.ts:209 | rescheduling from a tick does not move the session start |
| `Reconciliation.OverBudgetInSeconds` | homebridge-plugin/src/garageDoorAccessory.ts:150-152 | the integer-millisecond budget test agrees with the test on seconds computed by division |
| `Sessions.Apply` | homebridge-plugin/src/garageDoorAccessory.ts:138-209 | a firing does nothing unless a timer is armed and due; only onSet arms a timer from idle; only onSet moves the session start, to its own time |
| `Sessions.ApplyKeepsInv` | homebridge-plugin/src/garageDoorAccessory.ts:109-265 | each host call or timer firing keeps the invariant |
| `Sessions.RunKeepsInv` | homebridge-plugin/src/garageDoorAccessory.ts:109-265 | the invariant holds after every run of calls and firings from a state that satisfies it |
| `Sessions.InitialRunKeepsInv` | homebridge-plugin/src/garageDoorAccessory.ts:62-71 | every run from the freshly constructed state keeps the invariant |
| `Sessions.RunKeepsSession` | homebridge-plugin/src/garageDoorAccessory.ts:143-209 | without a target change, no number of reads and firings moves the session start or the target |
| `Sessions.StoppedWatcherStaysStopped` | homebridge-plugin/src/garageDoorAccessory.ts:140-145 | once no timer is armed, only onSet arms one again; reads and stray firings leave the watcher stopped |
| `Sessions.LateFiringStops` | homebridge-plugin/src/garageDoorAccessory.ts:152-188 | past the budget, the due timer's firing always ends the session; before it is due nothing happens |
| `Sessions.ScenarioClosedWithinBudget` | homebridge-plugin/src/garageDoorAccessory.ts:190-203 | close request, 5 s refresh, 30 s budget, closed sensor at 25 s: the door ends Closed with no obstruction and no timer |
| `Sessions.ScenarioObstructed` | homebridge-plugin/src/garageDoorAccessory.ts:152-169 | the same request with no sensor until past 30 s: the firing at 35 s declares the door Stopped and obstructed and ends the session without reading the node |
| `Accessory.GarageDoorAccessory.constructor` | homebridge-plugin/src/garageDoorAccessory.ts:57-71 | a new accessory has both door states Unknown, no obstruction and no timer |
| `Accessory.GarageDoorAccessory.OnGet` | homebridge-plugin/src/garageDoorAccessory.ts:212-265 | the handler returns and stores what `Get` prescribes, updating only the current state and the flag |
| `Accessory.GarageDoorAccessory.OnSet` | homebridge-plugin/src/garageDoorAccessory.ts:109-135 | the handler sets the target before posting, runs the retry loop and starts the watcher, as `Set` prescribes |
| `Accessory.GarageDoorAccessory.StartStateWatcher` | homebridge-plugin/src/garageDoorAccessory.ts:138-145 | the handler cancels the old timer, records the launch time and arms one new timer, as `StartWatcher` prescribes |
| `Accessory.GarageDoorAccessory.StateWatch` | homebridge-plugin/src/garageDoorAccessory.ts:147-210 | the handler performs `Tick`, and the verifier shows the "unknown state" fall-through is unreachable |
| `Accessory.CloseDespiteRefusedPosts` | homebridge-plugin/src/garageDoorAccessory.ts:114-203 | five posts answered 204 (resolved, but not 200) still start the watcher, and a firing that sees the closed sensor ends the session Closed |

## Left out

- Homebridge wiring is not modelled: services, characteristic registration and accessory information (garageDoorAccessory.ts:82-106). The `updateValue`/`setValue` notifications are not modelled either (130-131, 162-165, 253-254, 261-263). ObstructionDetected is a plain boolean field.
- The HTTP client is not modelled beyond its default status validation (lines 83, 120, 218). Responses are parameters: a status, with two integer fields for a read, or no answer. A client configured with other status validation is not modelled.
- Real timers and `Date` are not modelled (lines 141-144, 150-151, 209). Time is an integer millisecond `now` argument, and the timer is a pending flag with a due time. A timer may fire at any time from its due time on; how late it fires is left open.
- Async interleavings across the awaits are not modelled (lines 120, 193, 218). Examples are `onSet` racing an in-flight tick, and the state captured at line 215 going stale. Each handler is one atomic step.
- Logging and `getStateLog`/`currentAsText`/`targetAsText` are not modelled (lines 65-75, 115, 123, 167-168, 178-186, 200-208, 247-255): they only build log text.
- CharacteristicValue inputs other than the six state codes are not modelled: strings, booleans, and numbers outside -1..4. For the same reason `StateText` takes only integers, and its `typeof` test (line 24) is not modelled.
- Configuration durations are modelled as whole seconds. A fractional `refreshTimeoutInSeconds` or `maximumDurationInSeconds` is not modelled.
- homebridge-plugin/src/index.ts (accessory registration) and homebridge-plugin/src/settings.ts (name constants) are not part of this model: they hold no logic.

## Findings

| source | as written | input that shows it | evidently intended | confidence | as-written member | corrected member |
|---|---|---|---|---|---|---|
| homebridge-plugin/src/garageDoorAccessory.ts:24 | the guard `state > 3` sends code 4 to 'Unknown', so the table's 'Stopped' entry (line 32) can never be returned | state = 4 (Stopped) renders 'Unknown' | the guard `state > 4`, so that every entry of the five-entry table is reachable | high for the discrepancy, medium for the intent; not executed | `DoorStates.StateText`, `DoorStates.StoppedRendersUnknown` | `DoorStates.StateTextIntended`, `DoorStates.StateTextIntendedNamesAll` |

The text helper feeds only log messages, which are not modelled. So no
other part of the model depends on either version.
