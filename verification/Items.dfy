/** The values the harness stores: work items, history entries, timers, hooks, processes. */
module Items {
  import opened Base
  import opened Ids
  import Utf8

  datatype ItemKind =
    | UserMessage(chatId: string, user: string, content: string)
    | TimerFired(timerId: AgentId, every: Option<nat>, description: string)
    | ProcessCompleted(pid: AgentId, exitCode: int, preview: Option<Utf8.Bytes>, description: string)
    | ProcessFailed(pid: AgentId, error: string, preview: Option<Utf8.Bytes>, description: string)
    | ProcessTimeout(pid: AgentId)
    | ChildAgentCompleted(childName: string, success: bool, summary: string)
    | AgentMessage(from: string, content: string)
    | ExternalEvent(source: string, eventType: string)
    | View(paths: seq<string>)
    | Compaction
    | AgentStartup
    | HookException(hookName: string, error: string, original: WorkItem)

  datatype WorkItem = WorkItem(id: AgentId, priority: u8, time: nat, kind: ItemKind, attachments: seq<string>)

  datatype HistoryEntry =
    | Execution(id: AgentId, time: nat, code: string, output: string, isError: bool)
    | Summary(id: AgentId, time: nat, description: string)
    | SystemAlert(id: AgentId, time: nat, message: string)

  datatype Schedule = OneShot(at: nat) | Recurring(every: nat, nextFire: nat)

  datatype Timer = Timer(id: AgentId, description: string, priority: u8, schedule: Schedule, pendingAck: bool)

  datatype Hook = Hook(name: string, priority: int, matchExpr: string, process: string)

  datatype HookStats = HookStats(fired: nat, consumed: nat, passed: nat, raised: nat)

  datatype ProcessStatus = Running | Completed(exitCode: int) | Failed(error: string)

  datatype ManagedProcess = ManagedProcess(
    id: AgentId, cmd: string, description: string, status: ProcessStatus, successPrio: u8, failPrio: u8)
}
