/**
 * Stopping (and optionally deleting) a service: check that its server is functional, stop
 * its containers and, for a delete, remove its connected networks and possibly enqueue an
 * aggressive docker cleanup of the server. The steps run inside a try block: the first
 * exception ends the block and its message becomes the result, and a finally block
 * dispatches ServiceStatusChanged for the service's team on every exit path.
 *
 * The collaborators are opaque: which of them throws, if any, and with which message, is a
 * parameter (a Fault). The trace lists the side effects that completed, in order; a call
 * that throws leaves nothing in it.
 */
module StopService {

  import opened Optional

  type TeamId = int

  /** The calls of the try block that may throw an exception. */
  datatype Step = CheckServer | ListContainers | StopContainers | DeleteNetworks | EnqueueCleanup

  /** The step that throws, and the exception's message. */
  datatype Fault = Fault(step: Step, message: string)

  datatype Action =
    | ContainersStopped
    | NetworksDeleted
    | CleanupEnqueued(aggressive: bool)
    | StatusChanged(teamId: TeamId)

  /** The result of handle: a message (null on success) and the actions taken. */
  datatype Outcome = Outcome(message: Option<string>, trace: seq<Action>)

  const NotFunctional: string := "Server is not functional"

  /** The message thrown when `step` is called, if `step` is the one that throws. */
  function Raise(fault: Option<Fault>, step: Step): Option<string> {
    if fault.Some? && fault.value.step == step then Some(fault.value.message) else None
  }

  /** Position of a step, and of the action it completes, in the fixed order of handle. */
  function StepRank(s: Step): nat {
    match s
    case CheckServer => 0
    case ListContainers => 1
    case StopContainers => 2
    case DeleteNetworks => 3
    case EnqueueCleanup => 4
  }

  function ActionRank(a: Action): nat {
    match a
    case ContainersStopped => 2
    case NetworksDeleted => 3
    case CleanupEnqueued(_) => 4
    case StatusChanged(_) => 5
  }

  /** The side effect a step leaves when it returns normally. */
  function Completed(s: Step): (effect: seq<Action>)
    ensures forall a :: a in effect ==> ActionRank(a) == StepRank(s) && !a.StatusChanged?
  {
    match s
    case StopContainers => [ContainersStopped]
    case DeleteNetworks => [NetworksDeleted]
    case EnqueueCleanup => [CleanupEnqueued(true)]
    case _ => []
  }

  // ---------------------------------------------------------------------------
  // Reference definition: the steps the try block would call, run until one throws.

  /** The steps handle calls when none of them throws. */
  function Plan(functional: bool, isDeleteOperation: bool, dockerCleanup: bool): seq<Step> {
    [CheckServer] +
    if functional then [ListContainers] + ([StopContainers] + DeletePlan(isDeleteOperation, dockerCleanup))
    else []
  }

  /** The steps called after the containers are stopped. */
  function DeletePlan(isDeleteOperation: bool, dockerCleanup: bool): seq<Step> {
    if isDeleteOperation then [DeleteNetworks] + (if dockerCleanup then [EnqueueCleanup] else []) else []
  }

  datatype StepsOutcome = StepsOutcome(thrown: Option<string>, done: seq<Action>)

  /** Running a plan one step at a time. */
  lemma RunStepsHead(s: Step, rest: seq<Step>, fault: Option<Fault>)
    ensures RunSteps([s] + rest, fault) ==
              if Raise(fault, s).Some? then StepsOutcome(Raise(fault, s), [])
              else StepsOutcome(RunSteps(rest, fault).thrown, Completed(s) + RunSteps(rest, fault).done)
  {
  }

  function RunSteps(steps: seq<Step>, fault: Option<Fault>): (r: StepsOutcome)
    ensures r.thrown.Some? <==> fault.Some? && fault.value.step in steps
    ensures r.thrown.Some? ==> r.thrown.value == fault.value.message
    ensures forall a :: a in r.done ==> !a.StatusChanged?
    decreases |steps|
  {
    if steps == [] then StepsOutcome(None, [])
    else if Raise(fault, steps[0]).Some? then StepsOutcome(Raise(fault, steps[0]), [])
    else
      var rest := RunSteps(steps[1..], fault);
      StepsOutcome(rest.thrown, Completed(steps[0]) + rest.done)
  }

  /** The tail of the plan for a delete, run step by step. */
  lemma DeletePlanRun(isDeleteOperation: bool, dockerCleanup: bool, fault: Option<Fault>)
    ensures RunSteps(DeletePlan(isDeleteOperation, dockerCleanup), fault) ==
      if !isDeleteOperation then StepsOutcome(None, [])
      else if Raise(fault, DeleteNetworks).Some? then StepsOutcome(Raise(fault, DeleteNetworks), [])
      else if !dockerCleanup then StepsOutcome(None, [NetworksDeleted])
      else if Raise(fault, EnqueueCleanup).Some? then StepsOutcome(Raise(fault, EnqueueCleanup), [NetworksDeleted])
      else StepsOutcome(None, [NetworksDeleted, CleanupEnqueued(true)])
  {
    RunStepsHead(DeleteNetworks, if dockerCleanup then [EnqueueCleanup] else [], fault);
    RunStepsHead(EnqueueCleanup, [], fault);
  }

  /** The whole plan run step by step, case by case. */
  lemma PlanRun(functional: bool, isDeleteOperation: bool, dockerCleanup: bool, fault: Option<Fault>)
    ensures var tail := RunSteps(DeletePlan(isDeleteOperation, dockerCleanup), fault);
      RunSteps(Plan(functional, isDeleteOperation, dockerCleanup), fault) ==
      if Raise(fault, CheckServer).Some? then StepsOutcome(Raise(fault, CheckServer), [])
      else if !functional then StepsOutcome(None, [])
      else if Raise(fault, ListContainers).Some? then StepsOutcome(Raise(fault, ListContainers), [])
      else if Raise(fault, StopContainers).Some? then StepsOutcome(Raise(fault, StopContainers), [])
      else StepsOutcome(tail.thrown, [ContainersStopped] + tail.done)
  {
    var deleteTail := DeletePlan(isDeleteOperation, dockerCleanup);
    var listTail := if functional then [ListContainers] + ([StopContainers] + deleteTail) else [];
    RunStepsHead(CheckServer, listTail, fault);
    RunStepsHead(ListContainers, [StopContainers] + deleteTail, fault);
    RunStepsHead(StopContainers, deleteTail, fault);
  }

  /** What handle returns and does, defined from the plan. */
  function Expected(functional: bool, isDeleteOperation: bool, dockerCleanup: bool,
                    teamId: TeamId, fault: Option<Fault>): Outcome
  {
    var run := RunSteps(Plan(functional, isDeleteOperation, dockerCleanup), fault);
    Outcome(
      if run.thrown.Some? then run.thrown else if !functional then Some(NotFunctional) else None,
      run.done + [StatusChanged(teamId)])
  }

  /** Whether the step that throws is one handle calls. */
  predicate Reached(fault: Option<Fault>, functional: bool, isDeleteOperation: bool, dockerCleanup: bool) {
    fault.Some? && fault.value.step in Plan(functional, isDeleteOperation, dockerCleanup)
  }

  // ---------------------------------------------------------------------------
  // What handle promises, on every input.

  /** ServiceStatusChanged for the team is dispatched once, after everything else. */
  lemma StatusChangedOnceAndLast(functional: bool, isDeleteOperation: bool, dockerCleanup: bool,
                                 teamId: TeamId, fault: Option<Fault>)
    ensures var t := Expected(functional, isDeleteOperation, dockerCleanup, teamId, fault).trace;
      && |t| > 0 && t[|t| - 1] == StatusChanged(teamId)
      && forall k :: 0 <= k < |t| - 1 ==> !t[k].StatusChanged?
  {
  }

  /** The returned message: the exception's when a called step throws, the fixed one for an
    * unreachable server, and null exactly when neither happens. */
  lemma MessageReportsOutcome(functional: bool, isDeleteOperation: bool, dockerCleanup: bool,
                              teamId: TeamId, fault: Option<Fault>)
    ensures var m := Expected(functional, isDeleteOperation, dockerCleanup, teamId, fault).message;
      && (Reached(fault, functional, isDeleteOperation, dockerCleanup) ==> m == Some(fault.value.message))
      && (!Reached(fault, functional, isDeleteOperation, dockerCleanup) && !functional ==> m == Some(NotFunctional))
      && (m.None? <==> functional && !Reached(fault, functional, isDeleteOperation, dockerCleanup))
  {
  }

  /** A server that is not functional: the fixed message, and no container, network or
    * cleanup work, only the status event. */
  lemma UnreachableServerDoesNothing(isDeleteOperation: bool, dockerCleanup: bool, teamId: TeamId, fault: Option<Fault>)
    requires Raise(fault, CheckServer).None?
    ensures Expected(false, isDeleteOperation, dockerCleanup, teamId, fault)
            == Outcome(Some(NotFunctional), [StatusChanged(teamId)])
  {
    PlanRun(false, isDeleteOperation, dockerCleanup, fault);
  }

  /** Actions happen in the fixed order stop, delete networks, enqueue cleanup, status
    * event; so each of them happens at most once. */
  lemma ActionsInFixedOrder(functional: bool, isDeleteOperation: bool, dockerCleanup: bool,
                            teamId: TeamId, fault: Option<Fault>)
    ensures var t := Expected(functional, isDeleteOperation, dockerCleanup, teamId, fault).trace;
      forall i, j :: 0 <= i < j < |t| ==> ActionRank(t[i]) < ActionRank(t[j])
  {
    PlanRun(functional, isDeleteOperation, dockerCleanup, fault);
    DeletePlanRun(isDeleteOperation, dockerCleanup, fault);
  }

  /** Networks are deleted only for a delete, and the cleanup is enqueued only for a delete
    * with docker cleanup, always in aggressive mode. */
  lemma NetworkWorkOnlyOnDelete(functional: bool, isDeleteOperation: bool, dockerCleanup: bool,
                                teamId: TeamId, fault: Option<Fault>)
    ensures var t := Expected(functional, isDeleteOperation, dockerCleanup, teamId, fault).trace;
      && (NetworksDeleted in t ==> isDeleteOperation)
      && (forall a :: a in t && a.CleanupEnqueued? ==> isDeleteOperation && dockerCleanup && a.aggressive)
  {
    PlanRun(functional, isDeleteOperation, dockerCleanup, fault);
    DeletePlanRun(isDeleteOperation, dockerCleanup, fault);
  }

  /** A step that throws ends the try block: nothing of a later step happens. */
  lemma FaultStopsLaterSteps(functional: bool, isDeleteOperation: bool, dockerCleanup: bool,
                             teamId: TeamId, fault: Option<Fault>)
    requires Reached(fault, functional, isDeleteOperation, dockerCleanup)
    ensures var t := Expected(functional, isDeleteOperation, dockerCleanup, teamId, fault).trace;
      forall a :: a in t ==> a.StatusChanged? || ActionRank(a) < StepRank(fault.value.step)
  {
    PlanRun(functional, isDeleteOperation, dockerCleanup, fault);
    DeletePlanRun(isDeleteOperation, dockerCleanup, fault);
  }

  /** When nothing throws, every step of the plan leaves its effect. */
  lemma SuccessRunsEveryStep(functional: bool, isDeleteOperation: bool, dockerCleanup: bool,
                             teamId: TeamId, fault: Option<Fault>)
    requires functional && !Reached(fault, functional, isDeleteOperation, dockerCleanup)
    ensures Expected(functional, isDeleteOperation, dockerCleanup, teamId, fault).trace ==
      [ContainersStopped] +
      (if isDeleteOperation then [NetworksDeleted] + (if dockerCleanup then [CleanupEnqueued(true)] else []) else []) +
      [StatusChanged(teamId)]
  {
    PlanRun(functional, isDeleteOperation, dockerCleanup, fault);
    DeletePlanRun(isDeleteOperation, dockerCleanup, fault);
  }

  // ---------------------------------------------------------------------------
  // The operation.

  method Handle(functional: bool, teamId: TeamId, fault: Option<Fault>,
                isDeleteOperation: bool := false, dockerCleanup: bool := true)
    returns (message: Option<string>, trace: seq<Action>)
    ensures Outcome(message, trace) == Expected(functional, isDeleteOperation, dockerCleanup, teamId, fault)
    // the finally block: the team's status event, once, last
    ensures |trace| > 0 && trace[|trace| - 1] == StatusChanged(teamId)
    ensures forall k :: 0 <= k < |trace| - 1 ==> !trace[k].StatusChanged?
    // null exactly when the server works and no step that is called throws
    ensures message.None? <==> functional && !Reached(fault, functional, isDeleteOperation, dockerCleanup)
  {
    trace := [];
    message := None;
    // try
    var thrown := Raise(fault, CheckServer);
    if thrown.None? && !functional {
      message := Some(NotFunctional);
    } else if thrown.None? {
      thrown := Raise(fault, ListContainers);
      if thrown.None? {
        thrown := Raise(fault, StopContainers);
      }
      if thrown.None? {
        trace := trace + [ContainersStopped];
        if isDeleteOperation {
          thrown := Raise(fault, DeleteNetworks);
          if thrown.None? {
            trace := trace + [NetworksDeleted];
            if dockerCleanup {
              thrown := Raise(fault, EnqueueCleanup);
              if thrown.None? {
                trace := trace + [CleanupEnqueued(true)];
              }
            }
          }
        }
      }
    }
    // catch
    if thrown.Some? {
      message := thrown;
    }
    // finally
    trace := trace + [StatusChanged(teamId)];

    PlanRun(functional, isDeleteOperation, dockerCleanup, fault);
    DeletePlanRun(isDeleteOperation, dockerCleanup, fault);
    StatusChangedOnceAndLast(functional, isDeleteOperation, dockerCleanup, teamId, fault);
    MessageReportsOutcome(functional, isDeleteOperation, dockerCleanup, teamId, fault);
  }
}
