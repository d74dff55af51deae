/**
 * The activity monitor: a UI component that is told which recorded activity to watch and
 * which event to raise when it completes, and that is polled by an external timer. Each
 * poll re-reads the activity record; once an exit code is present polling stops, and an
 * exit code of exactly the integer 0 raises the completion event, either as a team-scoped
 * application event or as a generic component event.
 *
 * The "already dispatched" flag is a class-wide static in the component. Within one PHP
 * execution (one request) it is shared by every instance and nothing resets it; each
 * request starts with it false. It is modelled as a separate object, DispatchGuard, that
 * monitors share by reference; dispatched events land in a shared EventBus.
 */
module ActivityMonitoring {

  import opened Optional

  type ActivityId = int
  type UserId = int
  type TeamId = int

  /** The value stored under `properties.exitCode` once the operation has finished: an
    * integer, or any other value (a string, a float, ...) that the strict comparison with
    * the integer 0 never matches. */
  datatype ExitValue = IntCode(code: int) | OtherValue(text: string)

  /** An activity record as far as the monitor reads it. */
  datatype Activity = Activity(exitCode: Option<ExitValue>, causerId: Option<UserId>)

  /** The activity table, and each user's current team. */
  type ActivityStore = map<ActivityId, Activity>
  type CurrentTeams = map<UserId, TeamId>

  /** A completion event: an application event class dispatched with a team id, or a
    * component event dispatched by name with no payload. */
  datatype Dispatch = TeamScoped(event: string, teamId: TeamId) | Generic(event: string)

  const DefaultEvent: string := "activityFinished"

  /** Event names in this namespace are application event classes dispatched per team. */
  const TeamEventNamespace: string := "App\\Events\\"

  predicate IsTeamScoped(event: string) {
    TeamEventNamespace <= event
  }

  /** Looking an activity up by an id that may be null. */
  function Find(store: ActivityStore, id: Option<ActivityId>): Option<Activity> {
    if id.Some? && id.value in store then Some(store[id.value]) else None
  }

  /** `properties.exitCode` of a hydrated activity, null when there is no activity. */
  function ExitCodeOf(activity: Option<Activity>): Option<ExitValue> {
    if activity.Some? then activity.value.exitCode else None
  }

  predicate Succeeded(activity: Option<Activity>) {
    ExitCodeOf(activity) == Some(IntCode(0))
  }

  /** The team of the user who caused the activity, when that user can be found. */
  function CauserTeam(activity: Option<Activity>, teams: CurrentTeams): Option<TeamId> {
    if activity.Some? && activity.value.causerId.Some? && activity.value.causerId.value in teams
    then Some(teams[activity.value.causerId.value])
    else None
  }

  function Sent(d: Option<Dispatch>): seq<Dispatch> {
    if d.Some? then [d.value] else []
  }

  /** The instance state of one monitor. */
  datatype MonitorState = MonitorState(
    activityId: Option<ActivityId>,
    eventToDispatch: Option<string>,
    isPollingActive: bool,
    activity: Option<Activity>)

  /** A freshly created monitor: no activity bound, the default event, polling off. */
  const Idle := MonitorState(None, Some(DefaultEvent), false, None)

  /** Binding a monitor to an activity and an event name; the previous state is overwritten
    * field by field, so the result depends only on the arguments. */
  function Start(id: Option<ActivityId>, event: Option<string>, store: ActivityStore): (m: MonitorState)
    ensures m.activityId == id && m.eventToDispatch == event
    ensures m.isPollingActive
    ensures m.activity == Find(store, id)
  {
    MonitorState(id, event, true, Find(store, id))
  }

  /** What one poll does: the new monitor state, the new value of the shared guard, and
    * the event dispatched, if any. */
  datatype PollResult = PollResult(monitor: MonitorState, dispatched: bool, sent: Option<Dispatch>)

  function Poll(m: MonitorState, dispatched: bool, store: ActivityStore, teams: CurrentTeams): (r: PollResult)
    // the binding is kept and the activity re-read
    ensures r.monitor.activityId == m.activityId && r.monitor.eventToDispatch == m.eventToDispatch
    ensures r.monitor.activity == Find(store, m.activityId)
    // no exit code yet: nothing happens
    ensures ExitCodeOf(r.monitor.activity).None? ==>
              r.monitor.isPollingActive == m.isPollingActive && r.dispatched == dispatched && r.sent.None?
    // any exit code stops polling
    ensures ExitCodeOf(r.monitor.activity).Some? ==> !r.monitor.isPollingActive
    // the guard is set exactly by a dispatch, and never cleared
    ensures r.dispatched == (dispatched || r.sent.Some?)
    // when a dispatch happens
    ensures r.sent.Some? <==>
              && Succeeded(r.monitor.activity)
              && m.eventToDispatch.Some?
              && !dispatched
              && (IsTeamScoped(m.eventToDispatch.value) ==> CauserTeam(r.monitor.activity, teams).Some?)
    // what is dispatched
    ensures r.sent.Some? ==> r.sent.value.event == m.eventToDispatch.value
    ensures r.sent.Some? ==> (r.sent.value.TeamScoped? <==> IsTeamScoped(r.sent.value.event))
    ensures r.sent.Some? && r.sent.value.TeamScoped? ==>
              CauserTeam(r.monitor.activity, teams) == Some(r.sent.value.teamId)
  {
    var activity := Find(store, m.activityId);
    var exitCode := ExitCodeOf(activity);
    if exitCode.None? then
      PollResult(m.(activity := activity), dispatched, None)
    else
      var stopped := m.(activity := activity, isPollingActive := false);
      if exitCode.value != IntCode(0) || m.eventToDispatch.None? then
        PollResult(stopped, dispatched, None)
      else
        var event := m.eventToDispatch.value;
        if IsTeamScoped(event) then
          var team := CauserTeam(activity, teams);
          if team.Some? && !dispatched then PollResult(stopped, true, Some(TeamScoped(event, team.value)))
          else PollResult(stopped, dispatched, None)
        else if !dispatched then PollResult(stopped, true, Some(Generic(event)))
        else PollResult(stopped, dispatched, None)
  }

  /** The class-wide "event dispatched" flag, shared by every monitor that holds it. */
  class DispatchGuard {
    var eventDispatched: bool

    constructor ()
      ensures !eventDispatched
    {
      eventDispatched := false;
    }
  }

  /** Where dispatched completion events are recorded, in order. */
  class EventBus {
    var sent: seq<Dispatch>

    constructor ()
      ensures sent == []
    {
      sent := [];
    }
  }

  class ActivityMonitor {
    var activityId: Option<ActivityId>
    var eventToDispatch: Option<string>
    var isPollingActive: bool
    var activity: Option<Activity>
    const guard: DispatchGuard
    const bus: EventBus

    function State(): MonitorState
      reads this
    {
      MonitorState(activityId, eventToDispatch, isPollingActive, activity)
    }

    constructor (guard: DispatchGuard, bus: EventBus)
      ensures State() == Idle
      ensures this.guard == guard && this.bus == bus
    {
      activityId := None;
      eventToDispatch := Some(DefaultEvent);
      isPollingActive := false;
      activity := None;
      this.guard := guard;
      this.bus := bus;
    }

    method NewMonitorActivity(id: Option<ActivityId>, store: ActivityStore, event: Option<string> := Some(DefaultEvent))
      modifies this
      ensures State() == Start(id, event, store)
      ensures guard.eventDispatched == old(guard.eventDispatched) && bus.sent == old(bus.sent)
    {
      activityId := id;
      eventToDispatch := event;
      HydrateActivity(store);
      isPollingActive := true;
    }

    method HydrateActivity(store: ActivityStore)
      modifies this`activity
      ensures activity == Find(store, activityId)
    {
      activity := Find(store, activityId);
    }

    /** One tick of the external timer. It does not look at isPollingActive itself. */
    method Polling(store: ActivityStore, teams: CurrentTeams)
      modifies this`activity, this`isPollingActive, guard, bus
      ensures var r := Poll(old(State()), old(guard.eventDispatched), store, teams);
              && State() == r.monitor
              && guard.eventDispatched == r.dispatched
              && bus.sent == old(bus.sent) + Sent(r.sent)
    {
      HydrateActivity(store);
      var exitCode := ExitCodeOf(activity);
      if exitCode.Some? {
        isPollingActive := false;
        if exitCode.value == IntCode(0) {
          if eventToDispatch.Some? {
            var event := eventToDispatch.value;
            if IsTeamScoped(event) {
              var team := CauserTeam(activity, teams);
              if team.Some? {
                if !guard.eventDispatched {
                  bus.sent := bus.sent + [TeamScoped(event, team.value)];
                  guard.eventDispatched := true;
                }
              }
              return;
            }
            if !guard.eventDispatched {
              bus.sent := bus.sent + [Generic(event)];
              guard.eventDispatched := true;
            }
          }
        }
      }
    }
  }

  /** Two monitors updated in one request, watching two different activities that both succeeded
    * with generic event names: because they share the guard, only the first to be polled
    * dispatches, and the second one's event is lost. */
  method SharedGuardSuppressesSecond(
    first: ActivityId, second: ActivityId, firstEvent: string, secondEvent: string,
    store: ActivityStore, teams: CurrentTeams)
    returns (sent: seq<Dispatch>, stillPolling: bool)
    requires Succeeded(Find(store, Some(first))) && Succeeded(Find(store, Some(second)))
    requires !IsTeamScoped(firstEvent) && !IsTeamScoped(secondEvent)
    ensures sent == [Generic(firstEvent)]
    ensures !stillPolling
  {
    var guard := new DispatchGuard();
    var bus := new EventBus();
    var a := new ActivityMonitor(guard, bus);
    var b := new ActivityMonitor(guard, bus);
    a.NewMonitorActivity(Some(first), store, Some(firstEvent));
    b.NewMonitorActivity(Some(second), store, Some(secondEvent));
    a.Polling(store, teams);
    b.Polling(store, teams);
    sent := bus.sent;
    stillPolling := a.isPollingActive || b.isPollingActive;
  }

  // ---------------------------------------------------------------------------
  // Every monitor updated within one PHP execution (one request), which shares one guard,
  // driven by an arbitrary interleaving of calls.

  type MonitorId = nat

  /** A call made on one monitor, with the activity table and team lookup as they are at
    * the time of the call (other processes keep writing to them). */
  datatype Call =
    | Open(monitor: MonitorId, id: Option<ActivityId>, event: Option<string>, store: ActivityStore)
    | Tick(monitor: MonitorId, store: ActivityStore, teams: CurrentTeams)

  /** The monitors created so far, the shared guard and the events dispatched so far. */
  datatype World = World(monitors: map<MonitorId, MonitorState>, dispatched: bool, sent: seq<Dispatch>)

  const Boot := World(map[], false, [])

  function MonitorOf(w: World, i: MonitorId): MonitorState {
    if i in w.monitors then w.monitors[i] else Idle
  }

  function Apply(w: World, c: Call): World {
    match c
    case Open(i, id, event, store) =>
      w.(monitors := w.monitors[i := Start(id, event, store)])
    case Tick(i, store, teams) =>
      var r := Poll(MonitorOf(w, i), w.dispatched, store, teams);
      World(w.monitors[i := r.monitor], r.dispatched, w.sent + Sent(r.sent))
  }

  function Run(w: World, calls: seq<Call>): World
    decreases |calls|
  {
    if calls == [] then w else Run(Apply(w, calls[0]), calls[1..])
  }

  /** The guard is set exactly when something has been dispatched, and at most one thing has. */
  ghost predicate GuardAccountsForLog(w: World) {
    |w.sent| <= 1 && (w.dispatched <==> w.sent != [])
  }

  lemma {:induction false} RunKeepsGuardAccounting(w: World, calls: seq<Call>)
    requires GuardAccountsForLog(w)
    ensures GuardAccountsForLog(Run(w, calls))
    decreases |calls|
  {
    if calls != [] {
      RunKeepsGuardAccounting(Apply(w, calls[0]), calls[1..]);
    }
  }

  /** From a fresh guard, across all monitors and all calls of one execution, at most one
    * completion event is dispatched. */
  lemma AtMostOneDispatchEver(calls: seq<Call>)
    ensures |Run(Boot, calls).sent| <= 1
    ensures Run(Boot, calls).dispatched <==> Run(Boot, calls).sent != []
  {
    RunKeepsGuardAccounting(Boot, calls);
  }

  /** Once the guard is set, nothing resets it and nothing more is dispatched. */
  lemma {:induction false} GuardNeverResets(w: World, calls: seq<Call>)
    requires w.dispatched
    ensures Run(w, calls).dispatched
    ensures Run(w, calls).sent == w.sent
    decreases |calls|
  {
    if calls != [] {
      GuardNeverResets(Apply(w, calls[0]), calls[1..]);
    }
  }

  /** Polls of one monitor while its activity has no exit code dispatch nothing, leave the
    * guard alone and keep polling as it was, however many there are. */
  lemma {:induction false} PendingPollsAreQuiet(w: World, i: MonitorId, calls: seq<Call>)
    requires forall k :: 0 <= k < |calls| ==>
               calls[k].Tick? && calls[k].monitor == i &&
               ExitCodeOf(Find(calls[k].store, MonitorOf(w, i).activityId)).None?
    ensures Run(w, calls).sent == w.sent
    ensures Run(w, calls).dispatched == w.dispatched
    ensures MonitorOf(Run(w, calls), i).isPollingActive == MonitorOf(w, i).isPollingActive
    ensures MonitorOf(Run(w, calls), i).activityId == MonitorOf(w, i).activityId
    decreases |calls|
  {
    if calls != [] {
      var w' := Apply(w, calls[0]);
      assert MonitorOf(w', i).activityId == MonitorOf(w, i).activityId;
      PendingPollsAreQuiet(w', i, calls[1..]);
    }
  }

  /** Two monitors of one execution bound to the same successful team-scoped operation: exactly one dispatch, with
    * the causer's current team. */
  lemma TwoSessionsDispatchOnce(id: ActivityId, event: string, store: ActivityStore, teams: CurrentTeams)
    requires Succeeded(Find(store, Some(id)))
    requires IsTeamScoped(event) && CauserTeam(Find(store, Some(id)), teams).Some?
    ensures Run(Boot, [Open(0, Some(id), Some(event), store), Open(1, Some(id), Some(event), store),
                       Tick(0, store, teams), Tick(1, store, teams)]).sent
            == [TeamScoped(event, CauserTeam(Find(store, Some(id)), teams).value)]
  {
    var calls := [Open(0, Some(id), Some(event), store), Open(1, Some(id), Some(event), store),
                  Tick(0, store, teams), Tick(1, store, teams)];
    var w1 := Apply(Boot, calls[0]);
    var w2 := Apply(w1, calls[1]);
    var w3 := Apply(w2, calls[2]);
    var w4 := Apply(w3, calls[3]);
    assert Run(w3, calls[3..]) == w4 by { assert calls[3..][1..] == []; }
    assert Run(w2, calls[2..]) == w4 by { assert calls[2..][1..] == calls[3..]; }
    assert Run(w1, calls[1..]) == w4 by { assert calls[1..][1..] == calls[2..]; }
    assert w3.dispatched && w3.sent == [TeamScoped(event, CauserTeam(Find(store, Some(id)), teams).value)];
  }
}
