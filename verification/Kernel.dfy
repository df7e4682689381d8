/**
 * One agent's state, and every way it changes outside a turn: the hook pipeline in front of the queue,
 * events, timers, hook telemetry, and the compaction trigger (src/agent_loop.rs, src/compaction.rs).
 */
module Kernels {
  import opened Base
  import opened Ids
  import opened Items
  import Q = WorkQueues
  import T = Timers
  import HT = HookTables
  import R = Registries
  import S = SseParsing
  import Utf8

  /**
   * The agent's state. The last four fields are history variables that the program does not have:
   * `issued` lists the ids drawn, `lasting` those of them that the counter has not gone back on, `moves`
   * what was done to the queue, and `raises` counts hooks that raised and still committed. A script works
   * on a copy of all of it.
   */
  datatype Harness = Harness(
    queue: seq<WorkItem>, history: seq<HistoryEntry>, window: nat, timers: seq<Timer>,
    processes: seq<ManagedProcess>, memory: map<string, string>, priorities: map<string, u8>,
    hooks: seq<Hook>, stats: map<string, HookStats>, counter: nat, lastInput: nat, lastTotal: nat,
    issued: seq<AgentId>, lasting: seq<AgentId>, moves: seq<Q.QueueOp>, raises: nat)

  datatype Compaction = Compaction(active: bool, script: string)

  datatype HookReply = Listing(hooks: seq<Hook>) | Disabled(name: string) | NoSuchHook(name: string) | Cleared(n: nat) | Usage

  /** What leaves the agent; `Launched` and `Refused` are the two ends of an attempt to start a process. */
  datatype Effect =
    | Launched(pid: AgentId)
    | Refused(pid: AgentId)
    | Outbound(chatId: string, content: string)
    | Reply(chatId: string, reply: HookReply)
    | Routed(recipient: string, delivery: R.Delivery, content: string, priority: u8)
    | KillSent(name: string, delivery: R.Delivery)
    | Pinned(key: string, value: string)
    | Unpinned(key: string)
    | KillProcess(pid: AgentId)
    | WriteStdin(pid: AgentId, text: string)
    | CloseStdin(pid: AgentId)
    | ChildStarted(name: string, channel: nat, lineage: seq<string>)

  datatype Event =
    | UserMessageEvent(chatId: string, user: string, content: string, attachments: seq<string>)
    | Exited(pid: AgentId, exitCode: int)
    | Crashed(pid: AgentId, error: string)
    | TimedOut(pid: AgentId)
    | ChildCompleted(name: string, success: bool, summary: string, priority: u8)
    | Incoming(from: string, content: string, priority: u8)
    | External(source: string, eventType: string, priority: u8)
    | KillSignal

  /** `crashed`: the agent's task has panicked, and nothing more happens to it. */
  datatype Kernel = Kernel(
    s: Harness, compaction: Compaction, turn: nat, doneResult: map<string, string>, killed: bool,
    registry: R.Registry, active: nat, nextChannel: nat, inbox: seq<Event>, log: seq<Effect>, crashed: bool)

  // ---- What the surroundings decide ----

  datatype HookOp =
    | Remember(key: string, value: string, priority: Option<u8>)
    | Forget(key: string)
    | Launch(cmd: string, description: string, successPrio: u8, failPrio: u8)
    | Tell(chatId: string, content: string)

  datatype HookEnding = Consume | Pass(priority: u8, note: Option<string>) | Raise(error: string)

  datatype Plan = InitFailed(error: string) | Ran(ops: seq<HookOp>, ending: HookEnding)

  /**
   * The parts of the world that answer questions: the id stream, what hooks accept and do, which
   * processes fail to start, who is subscribed, what a process has written. `commitFirst` is false for the program as it is written.
   */
  datatype World = World(
    draw: nat -> AgentId, commitFirst: bool,
    accepts: (Hook, WorkItem) -> bool,
    plan: (Hook, WorkItem, map<string, string>) -> Plan,
    launchFails: AgentId -> bool,
    output: AgentId -> Utf8.Bytes,
    reaches: string -> bool,
    isFile: string -> bool,
    compiles: string -> bool,
    clientFails: string -> bool,
    telemetry: map<string, HookStats> -> string)

  /** Fixed for the life of an agent. */
  datatype Config = Config(
    name: string, lineage: seq<string>, depth: nat, maxChildren: nat, maxTurns: Option<nat>, canCompact: bool, compactAt: nat)

  // ---- Ids and the queue ----

  function Issue(w: World, s: Harness): Harness {
    s.(counter := s.counter + 1, issued := s.issued + [w.draw(s.counter)], lasting := s.lasting + [w.draw(s.counter)])
  }

  function Enqueue(s: Harness, item: WorkItem): Harness {
    s.(queue := Q.Insert(s.queue, item), moves := s.moves + [Q.Push(item)])
  }

  function Dequeue(s: Harness, id: AgentId): Harness {
    s.(queue := Q.RemoveItem(s.queue, id), moves := s.moves + [Q.Remove(id)])
  }

  function Record(s: Harness, entry: HistoryEntry): Harness {
    s.(history := s.history + [entry])
  }

  /** An entry whose id has just been drawn. */
  function RecordNew(w: World, s: Harness, entry: HistoryEntry): Harness {
    Record(Issue(w, s), entry)
  }

  // ---- A hook's own transaction ----

  datatype HookTxn = HookTxn(
    memory: map<string, string>, priorities: map<string, u8>, counter: nat, drawn: seq<AgentId>,
    processes: seq<ManagedProcess>, messages: seq<Effect>)

  function OpenHook(s: Harness): HookTxn {
    HookTxn(s.memory, s.priorities, s.counter, [], [], [])
  }

  /** A new key gets priority 5; an existing one keeps its own unless one is given. */
  function Priorities(priorities: map<string, u8>, key: string, priority: Option<u8>): map<string, u8> {
    match priority
    case Some(p) => priorities[key := p]
    case None => if key in priorities then priorities else priorities[key := 5]
  }

  /** One call of the hook; a call that raises and is caught has no effect. */
  function HookStep(w: World, t: HookTxn, op: HookOp): HookTxn {
    match op
    case Remember(key, value, priority) =>
      t.(memory := t.memory[key := value], priorities := Priorities(t.priorities, key, priority))
    case Forget(key) => t.(memory := t.memory - {key}, priorities := t.priorities - {key})
    case Launch(cmd, description, successPrio, failPrio) =>
      var pid := w.draw(t.counter);
      t.(counter := t.counter + 1, drawn := t.drawn + [pid],
         processes := t.processes + [ManagedProcess(pid, cmd, description, Running, successPrio, failPrio)])
    case Tell(chatId, content) =>
      if w.reaches(chatId) then t.(messages := t.messages + [Outbound(chatId, content)]) else t
  }

  function HookRun(w: World, t: HookTxn, ops: seq<HookOp>): HookTxn {
    if ops == [] then t else HookStep(w, HookRun(w, t, ops[..|ops| - 1]), ops[|ops| - 1])
  }

  /** The attempts to start `processes`, in order. */
  function Launches(w: World, processes: seq<ManagedProcess>): seq<Effect> {
    seq(|processes|, i requires 0 <= i < |processes| =>
      if w.launchFails(processes[i].id) then Refused(processes[i].id) else Launched(processes[i].id))
  }

  /** The hook's memory and id generator replace the agent's; its processes are added. */
  function Merged(s: Harness, t: HookTxn): Harness {
    s.(memory := t.memory, priorities := t.priorities, counter := t.counter,
       issued := s.issued + t.drawn, lasting := s.lasting + t.drawn, processes := s.processes + t.processes)
  }

  /** The whole commit: the state, then the processes to start and the messages to send. */
  function ApplyHookCommit(w: World, k: Kernel, t: HookTxn): Kernel {
    k.(s := Merged(k.s, t), log := k.log + Launches(w, t.processes) + t.messages)
  }

  datatype Verdict = Consumed | PassedOn | Raised

  function Tally(stats: map<string, HookStats>, name: string, v: Verdict): map<string, HookStats> {
    var old' := if name in stats then stats[name] else HookStats(0, 0, 0, 0);
    stats[name := HookStats(old'.fired + 1,
                            old'.consumed + if v.Consumed? then 1 else 0,
                            old'.passed + if v.PassedOn? then 1 else 0,
                            old'.raised + if v.Raised? then 1 else 0)]
  }

  function ExceptionItem(id: AgentId, item: WorkItem, hook: string, error: string, now: nat): WorkItem {
    WorkItem(id, if item.priority >= 8 then item.priority else 8, now, HookException(hook, error, item), [])
  }

  function PushException(w: World, k: Kernel, item: WorkItem, hook: string, error: string, now: nat): Kernel {
    var id := w.draw(k.s.counter);
    k.(s := Enqueue(Issue(w, k.s), ExceptionItem(id, item, hook, error, now)))
  }

  /** A draw that the commit to come undoes. */
  function TakenBack(s: Harness, lasting: seq<AgentId>): Harness {
    s.(raises := s.raises + 1, lasting := lasting)
  }

  /**
   * A hook that raised: its side effects still apply. As written the exception item takes its id from
   * the generator the hook was given, and the commit then puts the hook's generator back over it.
   */
  function PushRaised(w: World, k: Kernel, t: HookTxn, item: WorkItem, hook: string, error: string, now: nat): Kernel {
    if w.commitFirst then PushException(w, ApplyHookCommit(w, k, t), item, hook, error, now)
    else
      var queued := PushException(w, k, item, hook, error, now);
      ApplyHookCommit(w, queued.(s := TakenBack(queued.s, k.s.lasting)), t)
  }

  function Annotated(item: WorkItem, hook: string, priority: u8, note: Option<string>): WorkItem {
    var raised := item.(priority := priority);
    match note
    case None => raised
    case Some(text) => raised.(attachments := item.attachments + ["hook:" + hook + ":" + text])
  }

  const HOOKS_PREFIX := "!hooks "

  predicate IsHooksCommand(item: WorkItem) {
    item.kind.UserMessage? && HOOKS_PREFIX <= item.kind.content
  }

  const DISABLE := "disable "

  /** The way out of a bad hook: never goes through the hooks. */
  function HooksCommand(k: Kernel, cmd: string, chatId: string): Kernel {
    if cmd == "list" then k.(log := k.log + [Reply(chatId, Listing(k.s.hooks))])
    else if DISABLE <= cmd then
      var name := cmd[|DISABLE|..];
      var left := HT.Without(k.s.hooks, name);
      k.(s := k.s.(hooks := left),
         log := k.log + [Reply(chatId, if |left| < |k.s.hooks| then Disabled(name) else NoSuchHook(name))])
    else if cmd == "clear" then
      k.(s := k.s.(hooks := [], stats := map[]), log := k.log + [Reply(chatId, Cleared(|k.s.hooks|))])
    else k.(log := k.log + [Reply(chatId, Usage)])
  }

  function Matched(w: World, s: Harness, item: WorkItem): Option<nat> {
    Position(s.hooks, (h: Hook) => w.accepts(h, item))
  }

  /** What a hook decided about the item it was given. */
  function Settle(w: World, k: Kernel, hook: Hook, plan: Plan, item: WorkItem, now: nat): Kernel {
    match plan
    case InitFailed(error) =>
      PushException(w, k.(s := k.s.(stats := Tally(k.s.stats, hook.name, Raised))), item, hook.name, error, now)
    case Ran(ops, ending) =>
      var t := HookRun(w, OpenHook(k.s), ops);
      match ending
      case Consume => ApplyHookCommit(w, k.(s := k.s.(stats := Tally(k.s.stats, hook.name, Consumed))), t)
      case Pass(priority, note) =>
        var done := ApplyHookCommit(w, k.(s := k.s.(stats := Tally(k.s.stats, hook.name, PassedOn))), t);
        done.(s := Enqueue(done.s, Annotated(item, hook.name, priority, note)))
      case Raise(error) =>
        PushRaised(w, k.(s := k.s.(stats := Tally(k.s.stats, hook.name, Raised))), t, item, hook.name, error, now)
  }

  /** Every item reaches the queue through here, except hook exceptions and compaction items. */
  function PushItem(w: World, k: Kernel, item: WorkItem, now: nat): Kernel {
    if IsHooksCommand(item) then HooksCommand(k, S.Trim(item.kind.content[|HOOKS_PREFIX|..]), item.kind.chatId)
    else if k.s.hooks == [] then k.(s := Enqueue(k.s, item))
    else match Matched(w, k.s, item)
      case None => k.(s := Enqueue(k.s, item))
      case Some(i) => var hook := k.s.hooks[i]; Settle(w, k, hook, w.plan(hook, item, k.s.memory), item, now)
  }

  function PushAll(w: World, k: Kernel, items: seq<WorkItem>, now: nat): Kernel {
    if items == [] then k else PushItem(w, PushAll(w, k, items[..|items| - 1], now), items[|items| - 1], now)
  }

  /** Draws an id for a new item and pushes it. */
  function PushNew(w: World, k: Kernel, priority: u8, kind: ItemKind, attachments: seq<string>, now: nat): Kernel {
    PushItem(w, k.(s := Issue(w, k.s)), WorkItem(w.draw(k.s.counter), priority, now, kind, attachments), now)
  }

  // ---- Events ----

  function FindProcess(ps: seq<ManagedProcess>, pid: AgentId): (r: Option<nat>)
    ensures r.Some? ==> r.value < |ps| && ps[r.value].id == pid && forall i :: 0 <= i < r.value ==> ps[i].id != pid
    ensures r.None? ==> forall i :: 0 <= i < |ps| ==> ps[i].id != pid
  {
    Position(ps, (x: ManagedProcess) => x.id == pid)
  }

  function SetStatus(ps: seq<ManagedProcess>, pid: AgentId, status: ProcessStatus): seq<ManagedProcess> {
    match FindProcess(ps, pid) case None => ps case Some(p) => ps[p := ps[p].(status := status)]
  }

  function Mark(k: Kernel, pid: AgentId, status: ProcessStatus): Kernel {
    k.(s := k.s.(processes := SetStatus(k.s.processes, pid, status)))
  }

  /** What the agent notes before it makes the item: a status, or a place that has become free. */
  function Noted(k: Kernel, e: Event): Kernel {
    match e
    case Exited(pid, exitCode) => Mark(k, pid, Completed(exitCode))
    case Crashed(pid, error) => Mark(k, pid, Failed(error))
    case ChildCompleted(_, _, _, _) => k.(active := SaturatingPred(k.active))
    case _ => k
  }

  function SuccessPrio(ps: seq<ManagedProcess>, pid: AgentId): u8 {
    match FindProcess(ps, pid) case None => 5 case Some(p) => ps[p].successPrio
  }

  function FailPrio(ps: seq<ManagedProcess>, pid: AgentId): u8 {
    match FindProcess(ps, pid) case None => 7 case Some(p) => ps[p].failPrio
  }

  function Description(ps: seq<ManagedProcess>, pid: AgentId): string {
    match FindProcess(ps, pid) case None => "" case Some(p) => ps[p].description
  }

  function PriorityOf(ps: seq<ManagedProcess>, e: Event): u8 {
    match e
    case Exited(pid, _) => SuccessPrio(ps, pid)
    case Crashed(pid, _) => FailPrio(ps, pid)
    case TimedOut(pid) => FailPrio(ps, pid)
    case ChildCompleted(_, _, _, priority) => priority
    case Incoming(_, _, priority) => priority
    case External(_, _, priority) => priority
    case _ => 9
  }

  /** How much of a process's output an item shows, in bytes. */
  const PREVIEW: nat := 500

  /** Where a long output is cut must be between two characters; the program panics otherwise. */
  predicate Previewable(output: Utf8.Bytes) {
    |output| <= PREVIEW || Utf8.IsBoundary(output, |output| - PREVIEW)
  }

  const DOTS: Utf8.Bytes := [46, 46, 46]

  /** The end of the output, its trailing white space already removed. */
  function Preview(output: Utf8.Bytes): Option<Utf8.Bytes> {
    if output == [] then None
    else if |output| <= PREVIEW then Some(output)
    else Some(DOTS + output[|output| - PREVIEW..])
  }

  /** Whether the event can be turned into an item at all. */
  predicate Readable(w: World, e: Event) {
    match e
    case Exited(pid, _) => Previewable(w.output(pid))
    case Crashed(pid, _) => Previewable(w.output(pid))
    case _ => true
  }

  /** The kind of item an event becomes; a kill signal becomes none. */
  function KindOf(w: World, ps: seq<ManagedProcess>, e: Event): ItemKind
    requires !e.KillSignal?
  {
    match e
    case UserMessageEvent(chatId, user, content, _) => UserMessage(chatId, user, content)
    case Exited(pid, exitCode) => ProcessCompleted(pid, exitCode, Preview(w.output(pid)), Description(ps, pid))
    case Crashed(pid, error) => ProcessFailed(pid, error, Preview(w.output(pid)), Description(ps, pid))
    case TimedOut(pid) => ProcessTimeout(pid)
    case ChildCompleted(name, success, summary, _) => ChildAgentCompleted(name, success, summary)
    case Incoming(from, content, _) => AgentMessage(from, content)
    case External(source, eventType, _) => ExternalEvent(source, eventType)
  }

  function AttachmentsOf(e: Event): seq<string> {
    if e.UserMessageEvent? then e.attachments else []
  }

  /** An event about a process is noted before its output is cut; if that panics, nothing is queued. */
  function ApplyEvent(w: World, k: Kernel, e: Event, now: nat): Kernel {
    if k.crashed then k
    else if e.KillSignal? then k.(killed := true)
    else if !Readable(w, e) then Noted(k, e).(crashed := true)
    else PushNew(w, Noted(k, e), PriorityOf(k.s.processes, e), KindOf(w, k.s.processes, e), AttachmentsOf(e), now)
  }

  function ApplyEvents(w: World, k: Kernel, events: seq<Event>, now: nat): Kernel {
    if events == [] then k
    else ApplyEvent(w, ApplyEvents(w, k, events[..|events| - 1], now), events[|events| - 1], now)
  }

  /** `drain_events`: applies everything waiting in the channel. */
  function Drain(w: World, k: Kernel, now: nat): Kernel {
    ApplyEvents(w, k.(inbox := []), k.inbox, now)
  }

  // ---- Timers, telemetry, the compaction trigger ----

  function DrawnIds(w: World, counter: nat, n: nat): seq<AgentId> {
    seq(n, i requires 0 <= i < n => w.draw(counter + i))
  }

  function Firing(w: World, s: Harness, now: nat): seq<WorkItem> {
    T.FiredItems(s.timers, now, w.draw, s.counter)
  }

  /** The state after `check_and_fire`: timers marked or spent, ids drawn. */
  function Fired(w: World, s: Harness, now: nat): Harness {
    var n := |Firing(w, s, now)|;
    s.(timers := T.AfterCheck(s.timers, now), counter := s.counter + n,
       issued := s.issued + DrawnIds(w, s.counter, n), lasting := s.lasting + DrawnIds(w, s.counter, n))
  }

  function CheckTimers(w: World, k: Kernel, now: nat): Kernel {
    PushAll(w, k.(s := Fired(w, k.s, now)), Firing(w, k.s, now), now)
  }

  predicate AnyFired(stats: map<string, HookStats>) {
    exists name :: name in stats && stats[name].fired > 0
  }

  /** On waking: one alert about the hooks that fired, and the counts start again. */
  function FlushTelemetry(w: World, k: Kernel, now: nat): Kernel {
    if !AnyFired(k.s.stats) then k
    else
      var s := RecordNew(w, k.s, SystemAlert(w.draw(k.s.counter), now, w.telemetry(k.s.stats)));
      k.(s := s.(stats := map name | name in s.stats :: HookStats(0, 0, 0, 0)))
  }

  predicate ShouldTrigger(c: Config, k: Kernel) {
    k.s.lastTotal > c.compactAt
  }

  function Trigger(w: World, k: Kernel, now: nat): Kernel {
    var item := WorkItem(w.draw(k.s.counter), 10, now, ItemKind.Compaction, []);
    k.(compaction := Compaction.Compaction(true, ""), s := Enqueue(Issue(w, k.s), item))
  }

  function CheckThreshold(w: World, c: Config, k: Kernel, now: nat): Kernel {
    if c.canCompact && !k.compaction.active && ShouldTrigger(c, k) then Trigger(w, k, now) else k
  }
}
