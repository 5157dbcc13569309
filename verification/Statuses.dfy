/** The status columns of the assignments, missions, service requests and run lists. */
module Statuses {

  datatype AssignmentStatus =
    | ToDispatch | Executing | Succeeded | Completed | Rejected | Failed | Aborted
    | Canceling | Canceled | WaitDependencies | NotReadyToDispatch | Active

  datatype MissionStatus =
    | MissionDraft | MissionDispatched | MissionPreparing | MissionCalculating | MissionExecuting
    | MissionAssignmentsCompleted | MissionSucceeded | MissionAssignmentFailed | MissionPlanningFailed
    | MissionFailed | MissionCanceling | MissionCanceled

  datatype ServiceStatus =
    | NotReadyForService | WaitDependenciesService | ReadyForService | DispatchingService | PendingService
    | Ready | TimedOut | Skipped | CanceledService | FailedService

  datatype FailureAction = FailMission | ContinueMission | ReleaseFailed | DefaultAction

  predicate IsUnsent(s: AssignmentStatus) { s.ToDispatch? || s.NotReadyToDispatch? || s.WaitDependencies? }

  predicate IsRunning(s: AssignmentStatus) { s.Executing? || s.Active? }

  predicate IsFailure(s: AssignmentStatus) { s.Failed? || s.Aborted? || s.Rejected? }

  /** The five uncompleted assignment statuses. */
  predicate IsOpen(s: AssignmentStatus) { IsUnsent(s) || IsRunning(s) }

  predicate IsPlanning(m: MissionStatus) { m.MissionPreparing? || m.MissionCalculating? || m.MissionExecuting? }

  predicate IsUncomplete(m: MissionStatus) {
    m.MissionDraft? || m.MissionDispatched? || IsPlanning(m) || m.MissionCanceling?
  }

  /** Mission statuses in which an agent's ordinary status report is stored. */
  predicate AcceptsReports(m: MissionStatus) {
    m.MissionExecuting? || m.MissionDispatched? || m.MissionCalculating? || m.MissionCanceling? || m.MissionFailed?
  }
}
