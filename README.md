# Activity completion monitor and service teardown

This project models two pieces of control logic of a self-hosting platform that manages
containerised services on remote servers. It proves properties of the models in Dafny.

- **ActivityMonitor** (`activity_monitor.dfy`, module `ActivityMonitoring`). This UI component
  is bound to a recorded activity and to an event name, then polled by an external timer.
  Each poll re-reads the activity record. Once `properties.exitCode` is present, polling stops.
  If the exit code is exactly the integer 0, the completion event is dispatched:
  - A name in the `App\Events\` namespace is dispatched as an application event carrying the
    current team id of the user who caused the activity.
  - Any other name is dispatched as a generic component event with no payload.

  A class-wide static flag guards the dispatch. PHP starts every request (one PHP execution)
  with the flag false. Within that execution, all monitors share it and nothing resets it.
  - The model has a class `ActivityMonitor` with the component's fields.
  - The flag is a separate `DispatchGuard` object that monitors share by reference.
  - Dispatched events are appended to a shared `EventBus`.
  - The activity table and the user lookup are maps.

  Each method is tied to a pure step function (`Start`, `Poll`) on a `MonitorState` value.
  The guarantees that span many monitors and many calls are proved over `Run`. `Run` drives a
  `World` (every monitor, the guard and the dispatch log of one execution) through any
  interleaving of calls. Because the guard is shared, at most one completion event is
  dispatched within one execution, even when the monitors watch different activities.
  `SharedGuardSuppressesSecond` shows this with two real monitor objects.
- **StopService::handle** (`stop_service.dfy`, module `StopService`). This stops a service and,
  on a delete, also removes its networks. The steps run in a try block, in this order:
  1. Check that the server is functional.
  2. List the containers and stop them.
  3. On a delete, delete the connected networks.
  4. On a delete with docker cleanup, enqueue an aggressive docker cleanup.

  The first exception ends the block, and its message is returned. A finally block always
  dispatches `ServiceStatusChanged` for the team.
  - A `Fault` parameter says which collaborator throws, if any, and with what message.
  - The method returns the message (`None` for PHP's null) and the ordered trace of the
    actions that completed.
  - The method is proved equal to `Expected`, an independent reference definition. `Expected`
    runs a plan of steps until the first one that throws.
  - The lemmas state the promised properties of `Expected` for every input.

Some behaviour of the code is easy to misstate, and the model follows the code:
- A poll that finds no exit code leaves polling as it was. It does not stop polling.
- The teardown's failure message is the exception's own message, which may be empty.
- The dispatch guard is scoped to the component class, not to the activity. It is a plain
  check-then-set, not an atomic operation.

`optional.dfy` holds the `Option` type that both modules use.

## Model

| member | source | states |
|---|---|---|
| ActivityMonitoring.ActivityMonitor.constructor | app/Livewire/ActivityMonitor.php:13-25 | a new monitor has no activity bound, the event `activityFinished`, polling off, and holds the shared guard it is given |
| ActivityMonitoring.DispatchGuard.constructor | app/Livewire/ActivityMonitor.php:25 | the shared dispatch flag starts false |
| ActivityMonitoring.Start | app/Livewire/ActivityMonitor.php:29-37 | binding sets the activity id and event name (either may be null), loads the activity record, and turns polling on |
| ActivityMonitoring.ActivityMonitor.NewMonitorActivity | app/Livewire/ActivityMonitor.php:29-37 | the new state is `Start` of the arguments, the event name defaults to `activityFinished`, and the guard and the dispatch log are unchanged |
| ActivityMonitoring.ActivityMonitor.HydrateActivity | app/Livewire/ActivityMonitor.php:39-42 | the hydrated activity is the store's record for the bound id, or none when the id is null or unknown |
| ActivityMonitoring.Poll | app/Livewire/ActivityMonitor.php:44-72 | a poll re-reads the record. With no exit code, nothing changes. Any exit code stops polling. A dispatch happens iff the code is the integer 0, the event name is non-null, the guard is false and, for an `App\Events\` name, the causer resolves. The guard ends up set iff it was set or a dispatch happened. A team-scoped name is dispatched only as a team event, with the causer's team id; any other name only as a generic event |
| ActivityMonitoring.CauserTeam | app/Livewire/ActivityMonitor.php:53-56 | the current team of the user who caused the activity, or none when the causer id is null or the user is not found |
| ActivityMonitoring.ActivityMonitor.Polling | app/Livewire/ActivityMonitor.php:44-72 | the new monitor state, the new guard value and the appended dispatch are exactly those of `Poll` on the old state and the old guard |
| ActivityMonitoring.SharedGuardSuppressesSecond | app/Livewire/ActivityMonitor.php:25 | two monitors sharing the guard, watching two different successful activities with generic names: only the first one polled dispatches, and both stop polling |
| ActivityMonitoring.RunKeepsGuardAccounting | app/Livewire/ActivityMonitor.php:57-67 | over any sequence of binds and polls on any monitors, the guard stays set exactly when the log is non-empty, and the log holds at most one event |
| ActivityMonitoring.AtMostOneDispatchEver | app/Livewire/ActivityMonitor.php:25-67 | from a fresh guard, across all monitor instances and all calls of one PHP execution (one request), at most one completion event is dispatched |
| ActivityMonitoring.GuardNeverResets | app/Livewire/ActivityMonitor.php:57-67 | once the guard is set, it stays set and nothing more is dispatched, whatever calls follow |
| ActivityMonitoring.PendingPollsAreQuiet | app/Livewire/ActivityMonitor.php:46-48 | any number of polls of a monitor whose activity has no exit code dispatch nothing, leave the guard alone and keep polling active as it was |
| ActivityMonitoring.TwoSessionsDispatchOnce | app/Livewire/ActivityMonitor.php:52-61 | two monitors of one execution, bound to the same successful team-scoped activity and both polled, dispatch exactly once, with the causer's current team id |
| StopService.Expected | app/Actions/Service/StopService.php:16-38 | reference definition of `handle`: run the planned steps until one throws. The message is the thrown one, else the fixed one for a server that is not functional, else null. The trace is the completed actions followed by the status event. Its properties are the StopService lemmas below |
| StopService.RunSteps | app/Actions/Service/StopService.php:18-34 | running steps until one throws: the thrown message is present iff the faulty step is among the steps, it is that step's message, and no status event is among the completed actions |
| StopService.Handle | app/Actions/Service/StopService.php:16-38 | defaults are `isDeleteOperation = false` and `dockerCleanup = true`. The result equals the reference `Expected`. The trace ends with the one and only `ServiceStatusChanged` for the team. The message is null exactly when the server is functional and no called step throws |
| StopService.StatusChangedOnceAndLast | app/Actions/Service/StopService.php:35-36 | on every exit path, the status event for the team is dispatched exactly once and is the last action |
| StopService.MessageReportsOutcome | app/Actions/Service/StopService.php:20-34 | when a called step throws, its message is returned. Otherwise an unreachable server returns `Server is not functional`. The result is null exactly when neither happens |
| StopService.UnreachableServerDoesNothing | app/Actions/Service/StopService.php:19-22 | when the server is not functional, the result is the fixed message and the status event is the only action: no stop, no network deletion, no cleanup |
| StopService.ActionsInFixedOrder | app/Actions/Service/StopService.php:24-36 | actions occur in the order stop containers, delete networks, enqueue cleanup, status event, so each occurs at most once |
| StopService.NetworkWorkOnlyOnDelete | app/Actions/Service/StopService.php:27-32 | networks are deleted only on a delete operation. A cleanup is enqueued only on a delete with docker cleanup, and always with the aggressive flag true |
| StopService.FaultStopsLaterSteps | app/Actions/Service/StopService.php:25-34 | when a called step throws, no action of that step or of a later step appears; only the status event follows |
| StopService.SuccessRunsEveryStep | app/Actions/Service/StopService.php:24-36 | when the server is functional and nothing throws, the trace is: stop, then network deletion for a delete, then one aggressive cleanup when `dockerCleanup` is also set, then the status event |

## Left out

- Livewire plumbing is not modelled: the `header`, `fullHeight` and `showWaiting` fields, `$listeners`, rendering, and the timer that calls `polling`. The timer is the caller of `Polling`; `Polling` itself does not test `isPollingActive`, as in the source.
- The component has no stop or deactivate method, so deactivation is not modelled.
- Persistence is replaced by maps. `Activity::find` becomes a lookup in a map from activity id to exit code and causer. `User::find(...)->currentTeam()->id` becomes a map from user id to team id.
- Only the integer 0 dispatches. Values of `properties.exitCode` that are not integers are one opaque case, `OtherValue`.
- The dynamic `$this->eventToDispatch::dispatch($teamId)` becomes a prefix test on the name and a `TeamScoped` entry in the dispatch log. Whether such a class exists is not modelled.
- Concurrency is not modelled. The check-then-set on the static guard is not atomic in the source. The model covers any single-threaded interleaving of binds and polls, not truly parallel polls.
- A method call on null is a PHP `Error`, which is not modelled. For `handle`, that means a destination whose server is null: `isFunctional()` is then called on null, and the `Error` escapes the catch block. A null destination is only a property read on null. It becomes an `ErrorException`, which is caught like any other exception; the model's fault at the server check covers that case.
- In `polling`, a user without a current team (`currentTeam()->id` read on null) raises an exception that is not caught there. That case is not modelled.
- The guard models one PHP execution (one request). Each request starts with the flag false, so `Run` covers the calls made within one execution. Monitors in different requests or browser sessions do not share a flag.
- The internals of `getContainersToStop`, `stopContainers`, `deleteConnectedNetworks` and the `CleanupDocker` job are remote commands. Each is a step that either completes or throws an exception with a message.
- A step that throws is treated as having no effect. Partial remote effects of a failing call are not modelled.
- `ServiceStatusChanged::dispatch` in the finally block is assumed not to throw. Its fan-out over the event bus is not modelled.
- The `AsAction` trait and the `high` job queue name are not modelled.
- The service is reduced to its team id and to whether its server is functional. Resolving `destination->server` and `environment->project->team` is not modelled.
- StopService.Handle: the returned message may be empty when the exception's own message is empty, as in the source. The model does not promise a non-empty message on failure.
