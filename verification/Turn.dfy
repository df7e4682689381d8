/**
 * One turn: a script runs on a copy of the state, and its copy and effects are committed or dropped
 * (src/python.rs `execute_inner`; src/agent_loop.rs `run_turn`, `apply_side_effects`).
 */
module Turns {
  import opened Base
  import opened Ids
  import opened Items
  import opened Kernels
  import Q = WorkQueues
  import H = Histories
  import T = Timers
  import HT = HookTables
  import R = Registries
  import F = Forks

  // ---- The script's interface ----

  datatype ScriptOp =
    | PopFront
    | RemoveFromQueue(id: AgentId)
    | SetMemory(key: string, value: string, given: Option<u8>)
    | DeleteMemory(key: string)
    | SetPriority(key: string, priority: u8)
    | AddTimer(every: Option<nat>, at: Option<nat>, priority: u8, description: string)
    | CancelTimer(id: AgentId)
    | AckTimer(id: AgentId)
    | ReplaceEntry(id: AgentId, description: string)
    | RemoveEntry(id: AgentId)
    | AddEntry(text: string)
    | RegisterHook(hook: Hook)
    | RemoveHook(name: string)
    | ShellExec(cmd: string, description: string, successPrio: u8, failPrio: u8, blocks: bool)
    | ShellKill(pid: AgentId)
    | SendMessage(chatId: string, content: string)
    | MessageAgent(name: string, content: string, priority: u8)
    | KillChild(name: string)
    | ViewFiles(paths: seq<string>)
    | ForkAgents(names: seq<string>)
    | Pin(key: string, value: string)
    | Unpin(key: string)
    | Done(result: map<string, string>)
    | Compact
    | RequestCompaction
    | ShellInput(pid: AgentId, text: string)
    | ShellCloseStdin(pid: AgentId)

  /** `appended` is what the script left in `compaction_script`. */
  datatype ScriptEnding = Finished(stdout: string, appended: string) | Aborted(error: string)

  /** What a piece of code does, call by call. A call that raises and is caught has no effect. */
  datatype Script = Script(ops: seq<ScriptOp>, ending: ScriptEnding)

  /** What other agents do to the registry before each of the turn's own operations on it, by kind. */
  datatype Others = Others(validating: R.Between, killing: R.Between, forking: R.Between, telling: R.Between)

  /**
   * A reply of the model, and what goes on while it is carried out: `compactionRun` is what the accumulated
   * compaction script does if it is run, `others` what other agents do meanwhile.
   */
  datatype Response = Response(
    inputTokens: nat, cacheWrites: nat, cacheReads: nat, code: string, script: Script, compactionRun: Script, others: Others)

  datatype Mode = Mode(compaction: bool, depth: nat)

  datatype LaunchRequest = LaunchRequest(pid: AgentId, description: string, failPrio: u8, blocks: bool)

  datatype AgentNote = AgentNote(recipient: string, content: string, priority: u8)

  /** Collected while the script runs, applied only if it succeeds. */
  datatype Effects = Effects(
    messages: seq<Effect>, notes: seq<AgentNote>, launches: seq<LaunchRequest>, kills: seq<AgentId>,
    childKills: seq<string>, views: seq<string>, forks: seq<seq<string>>, pins: seq<(string, string)>,
    unpins: seq<string>, doneCalled: bool, doneResult: map<string, string>, compactCalled: bool,
    requested: bool, appends: seq<string>, writes: seq<(AgentId, string)>, closes: seq<AgentId>)

  datatype Txn = Txn(s: Harness, fx: Effects)

  const NO_EFFECTS := Effects([], [], [], [], [], [], [], [], [], false, map[], false, false, [], [], [])

  /** One minute: when a timer is given no schedule. */
  const DEFAULT_DELAY: nat := 60

  function Scheduled(every: Option<nat>, at: Option<nat>, now: nat): Schedule {
    match every
    case Some(secs) => Recurring(secs, now + T.Period(secs))
    case None => OneShot(match at case Some(epoch) => epoch case None => now + DEFAULT_DELAY)
  }

  predicate ValidChildName(name: string) {
    name != "" && name != "root"
  }

  function Pop(s: Harness): Harness {
    if s.queue == [] then s else Dequeue(s, s.queue[0].id)
  }

  function Edit(s: Harness, compaction: bool, op: H.HistoryOp): Harness {
    s.(history := H.Apply(s.history, s.window, compaction, op))
  }

  function Retime(s: Harness, timers: seq<Timer>): Harness {
    s.(timers := timers)
  }

  function Rehook(s: Harness, op: HT.TableOp): Harness {
    s.(hooks := HT.Step(s.hooks, op))
  }

  function StartTimer(w: World, s: Harness, timer: Timer): Harness {
    Issue(w, s).(timers := s.timers + [timer])
  }

  function StartProcess(w: World, s: Harness, p: ManagedProcess): Harness {
    Issue(w, s).(processes := s.processes + [p])
  }

  function Recall(s: Harness, memory: map<string, string>, priorities: map<string, u8>): Harness {
    s.(memory := memory, priorities := priorities)
  }

  /** Calls on `work_queue` and `memory`. */
  function StoreStep(s: Harness, op: ScriptOp): Harness {
    match op
    case PopFront => Pop(s)
    case RemoveFromQueue(id) => Dequeue(s, id)
    case SetMemory(key, value, given) => Recall(s, s.memory[key := value], Priorities(s.priorities, key, given))
    case DeleteMemory(key) => Recall(s, s.memory - {key}, s.priorities - {key})
    case SetPriority(key, priority) => Recall(s, s.memory, s.priorities[key := priority])
    case _ => s
  }

  /** Calls on `timers`. */
  function TimerStep(w: World, now: nat, s: Harness, op: ScriptOp): Harness {
    match op
    case AddTimer(every, at, priority, description) =>
      StartTimer(w, s, Timer(w.draw(s.counter), description, priority, Scheduled(every, at, now), false))
    case CancelTimer(id) => Retime(s, T.Cancel(s.timers, id))
    case AckTimer(id) => Retime(s, T.Acknowledge(s.timers, id, now))
    case _ => s
  }

  /** Calls on `history`. */
  function HistoryStep(w: World, m: Mode, now: nat, s: Harness, op: ScriptOp): Harness {
    match op
    case ReplaceEntry(id, description) => Edit(s, m.compaction, H.Replace(id, description))
    case RemoveEntry(id) => Edit(s, m.compaction, H.Remove(id))
    case AddEntry(text) => if m.compaction then RecordNew(w, s, Summary(w.draw(s.counter), now, text)) else s
    case _ => s
  }

  /** Calls on the harness itself that change the state. */
  function HarnessStep(w: World, s: Harness, op: ScriptOp): Harness {
    match op
    case RegisterHook(hook) =>
      if w.compiles(hook.matchExpr) && w.compiles(hook.process) then Rehook(s, HT.Register(hook)) else s
    case RemoveHook(name) => Rehook(s, HT.Drop(name))
    case ShellExec(cmd, description, successPrio, failPrio, _) =>
      StartProcess(w, s, ManagedProcess(w.draw(s.counter), cmd, description, Running, successPrio, failPrio))
    case _ => s
  }

  predicate OnStores(op: ScriptOp) {
    op.PopFront? || op.RemoveFromQueue? || op.SetMemory? || op.DeleteMemory? || op.SetPriority?
  }

  predicate OnTimers(op: ScriptOp) {
    op.AddTimer? || op.CancelTimer? || op.AckTimer?
  }

  predicate OnHistory(op: ScriptOp) {
    op.ReplaceEntry? || op.RemoveEntry? || op.AddEntry?
  }

  /** A call that changes the copied state. */
  function StateStep(w: World, m: Mode, now: nat, s: Harness, op: ScriptOp): Harness {
    if OnStores(op) then StoreStep(s, op)
    else if OnTimers(op) then TimerStep(w, now, s, op)
    else if OnHistory(op) then HistoryStep(w, m, now, s, op)
    else HarnessStep(w, s, op)
  }

  /** A call that asks for something outside the state. */
  function EffectStep(w: World, m: Mode, s: Harness, fx: Effects, op: ScriptOp): Effects {
    match op
    case ShellExec(_, description, _, failPrio, blocks) =>
      fx.(launches := fx.launches + [LaunchRequest(w.draw(s.counter), description, failPrio, blocks)])
    case ShellKill(pid) => fx.(kills := fx.kills + [pid])
    case SendMessage(chatId, content) =>
      if w.reaches(chatId) then fx.(messages := fx.messages + [Outbound(chatId, content)]) else fx
    case MessageAgent(name, content, priority) => fx.(notes := fx.notes + [AgentNote(name, content, priority)])
    case KillChild(name) => fx.(childKills := fx.childKills + [name])
    case ViewFiles(paths) =>
      if forall p :: p in paths ==> w.isFile(p) then fx.(views := fx.views + paths) else fx
    case ForkAgents(names) =>
      var allowed := m.depth > 0 && names != [] && forall n :: n in names ==> ValidChildName(n);
      if allowed then fx.(forks := fx.forks + [names]) else fx
    case Pin(key, value) => fx.(pins := fx.pins + [(key, value)])
    case Unpin(key) => fx.(unpins := fx.unpins + [key])
    case Done(result) => fx.(doneCalled := true, doneResult := fx.doneResult + result)
    case Compact => fx.(compactCalled := true)
    case RequestCompaction => fx.(requested := true)
    case ShellInput(pid, text) => fx.(writes := fx.writes + [(pid, text)])
    case ShellCloseStdin(pid) => fx.(closes := fx.closes + [pid])
    case _ => fx
  }

  function ScriptStep(w: World, m: Mode, now: nat, t: Txn, op: ScriptOp): Txn {
    Txn(StateStep(w, m, now, t.s, op), EffectStep(w, m, t.s, t.fx, op))
  }

  function Exec(w: World, m: Mode, now: nat, t: Txn, ops: seq<ScriptOp>): Txn {
    if ops == [] then t else ScriptStep(w, m, now, Exec(w, m, now, t, ops[..|ops| - 1]), ops[|ops| - 1])
  }

  /** The whole execution: the copy and the effects as the script leaves them, if it does not abort. */
  function Execute(w: World, m: Mode, now: nat, s: Harness, script: Script): Txn {
    var t := Exec(w, m, now, Txn(s, NO_EFFECTS), script.ops);
    if m.compaction && script.ending.Finished? && script.ending.appended != ""
    then t.(fx := t.fx.(appends := [script.ending.appended]))
    else t
  }

  // ---- The stages of a commit, in order ----

  function Names(hooks: seq<Hook>): set<string> {
    set h | h in hooks :: h.name
  }

  /** The copy replaces the state; counts of hooks that are gone are dropped. */
  function Install(k: Kernel, s: Harness): Kernel {
    var gone := Names(k.s.hooks) - Names(s.hooks);
    k.(s := s.(stats := s.stats - gone))
  }

  function LaunchOne(w: World, k: Kernel, req: LaunchRequest, now: nat): Kernel {
    if w.launchFails(req.pid) then
      var failed := Mark(k.(log := k.log + [Refused(req.pid)]), req.pid, Failed("spawn failed"));
      PushNew(w, failed, req.failPrio, ProcessFailed(req.pid, "spawn failed", None, req.description), [], now)
    else k.(log := k.log + [Launched(req.pid)])
  }

  function LaunchAll(w: World, k: Kernel, reqs: seq<LaunchRequest>, now: nat): Kernel {
    if reqs == [] then k else LaunchOne(w, LaunchAll(w, k, reqs[..|reqs| - 1], now), reqs[|reqs| - 1], now)
  }

  /** Each signal is sent by the registry as it then is. */
  function SentKills(registry: R.Registry, names: seq<string>, between: R.Between): seq<Effect> {
    SignalsBy(R.Views(registry, between, |names|), names)
  }

  function SignalsBy(views: seq<R.Registry>, names: seq<string>): seq<Effect>
    requires |views| == |names|
  {
    seq(|names|, i requires 0 <= i < |names| => KillSent(names[i], R.Route(views[i], names[i])))
  }

  function WithRegistry(k: Kernel, registry: R.Registry): Kernel {
    k.(registry := registry)
  }

  function KillChildren(k: Kernel, names: seq<string>, between: R.Between): Kernel {
    Emit(WithRegistry(k, R.AsOf(k.registry, between, |names|)), SentKills(k.registry, names, between))
  }

  function QueueView(w: World, k: Kernel, paths: seq<string>, now: nat): Kernel {
    if paths == [] then k else PushNew(w, k, 10, View(paths), [], now)
  }

  function ReportText(r: F.Report): string {
    match r.cause case NoRoom => "Could not spawn: max concurrent children reached" case ClientFailed => "Failed to create API client"
  }

  function ReportChild(w: World, k: Kernel, r: F.Report, now: nat): Kernel {
    PushNew(w, k, 7, ChildAgentCompleted(r.name, false, ReportText(r)), [], now)
  }

  function ReportAll(w: World, k: Kernel, reports: seq<F.Report>, now: nat): Kernel {
    if reports == [] then k else ReportChild(w, ReportAll(w, k, reports[..|reports| - 1], now), reports[|reports| - 1], now)
  }

  function Started(spawned: seq<F.Spawn>): seq<Effect> {
    seq(|spawned|, i requires 0 <= i < |spawned| => ChildStarted(spawned[i].name, spawned[i].channel, spawned[i].lineage))
  }

  function ForkAlert(names: seq<string>): string {
    if names == [] then "Forked:" else ForkAlert(names[..|names| - 1]) + " " + names[|names| - 1]
  }

  /** An accepted request: the registry, the places and the new agents, and an alert in the history. */
  function Forked(w: World, k: Kernel, p: F.Progress, names: seq<string>, now: nat): Kernel {
    UseChannels(k, |names|).(registry := p.registry, active := p.active, log := k.log + Started(p.spawned),
       s := RecordNew(w, k.s, SystemAlert(w.draw(k.s.counter), now, ForkAlert(names))))
  }

  function ForkFailure(): ItemKind {
    ChildAgentCompleted("fork-failed", false, "Fork failed")
  }

  /** Channels are made before the registry is asked, so they are used up either way. */
  function UseChannels(k: Kernel, n: nat): Kernel {
    k.(nextChannel := k.nextChannel + n)
  }

  function ForkOne(w: World, c: Config, k: Kernel, names: seq<string>, now: nat): Kernel {
    var out := F.Fork(c.maxChildren, w.clientFails, c.lineage, k.registry, k.active, k.nextChannel, names);
    ApplyFork(w, k, out, names, now)
  }

  function ApplyFork(w: World, k: Kernel, out: F.Outcome, names: seq<string>, now: nat): Kernel {
    match out
    case Rejected(_) => PushNew(w, UseChannels(k, |names|), 7, ForkFailure(), [], now)
    case Accepted(p) => ReportAll(w, Forked(w, k, p, names, now), p.reports, now)
  }

  function LetOthers(k: Kernel, ops: seq<R.OthersOp>): Kernel {
    WithRegistry(k, R.OthersDoAll(k.registry, ops))
  }

  /** The requests, in order; others have the registry before each. */
  function ForkAll(w: World, c: Config, k: Kernel, forks: seq<seq<string>>, between: R.Between, now: nat): Kernel {
    if forks == [] then k
    else
      var n := |forks| - 1;
      ForkOne(w, c, LetOthers(ForkAll(w, c, k, forks[..n], between, now), R.Before(between, n)), forks[n], now)
  }

  function Emit(k: Kernel, effects: seq<Effect>): Kernel {
    k.(log := k.log + effects)
  }

  function RoutedNotes(registry: R.Registry, notes: seq<AgentNote>, between: R.Between): seq<Effect> {
    NotesBy(R.Views(registry, between, |notes|), notes)
  }

  function RoutedBy(view: R.Registry, note: AgentNote): Effect {
    Routed(note.recipient, R.Route(view, note.recipient), note.content, note.priority)
  }

  function NotesBy(views: seq<R.Registry>, notes: seq<AgentNote>): seq<Effect>
    requires |views| == |notes|
  {
    seq(|notes|, i requires 0 <= i < |notes| => RoutedBy(views[i], notes[i]))
  }

  function Pinneds(pins: seq<(string, string)>): seq<Effect> {
    seq(|pins|, i requires 0 <= i < |pins| => Pinned(pins[i].0, pins[i].1))
  }

  function Unpinneds(unpins: seq<string>): seq<Effect> {
    seq(|unpins|, i requires 0 <= i < |unpins| => Unpinned(unpins[i]))
  }

  function PinEffects(pins: seq<(string, string)>, unpins: seq<string>): seq<Effect> {
    Pinneds(pins) + Unpinneds(unpins)
  }

  function HonourRequest(w: World, c: Config, k: Kernel, requested: bool, now: nat): Kernel {
    if requested && c.canCompact && !k.compaction.active then Trigger(w, k, now) else k
  }

  function Appended(script: string, appends: seq<string>): string {
    if appends == [] then script else Appended(script, appends[..|appends| - 1]) + appends[|appends| - 1]
  }

  function AppendScript(k: Kernel, appends: seq<string>): Kernel {
    k.(compaction := k.compaction.(script := Appended(k.compaction.script, appends)))
  }

  function CompactionIds(q: seq<WorkItem>): seq<AgentId> {
    if q == [] then []
    else
      var last := q[|q| - 1];
      CompactionIds(q[..|q| - 1]) + if last.kind.Compaction? then [last.id] else []
  }

  function DequeueAll(s: Harness, ids: seq<AgentId>): Harness {
    if ids == [] then s else Dequeue(DequeueAll(s, ids[..|ids| - 1]), ids[|ids| - 1])
  }

  /** What a compaction script's copy gives back. */
  function BroughtBack(s: Harness, copy: Harness): Harness {
    s.(history := copy.history, counter := copy.counter, issued := copy.issued, lasting := copy.lasting)
  }

  /** `compact()` was called: the accumulated script runs on a copy, and only history and ids come back. */
  function RunCompaction(w: World, k: Kernel, run: Script, now: nat): Kernel {
    match run.ending
    case Aborted(error) =>
      k.(s := RecordNew(w, k.s, Execution(w.draw(k.s.counter), now, "compact()", ErrorOutput(error), true)))
    case Finished(_, _) =>
      var t := Execute(w, Mode(true, 0), now, k.s, run);
      var s := BroughtBack(k.s, t.s);
      k.(s := DequeueAll(s, CompactionIds(s.queue)), compaction := Compaction.Compaction(false, ""))
  }

  function HonourCompact(w: World, k: Kernel, called: bool, run: Script, now: nat): Kernel {
    if called && k.compaction.active then RunCompaction(w, k, run, now) else k
  }

  /** The stages up to the external effects. */
  function CommitWork(w: World, c: Config, k: Kernel, t: Txn, resp: Response, now: nat): Kernel {
    var launched := LaunchAll(w, Install(k, t.s), t.fx.launches, now);
    var viewed := QueueView(w, KillChildren(launched, t.fx.childKills, resp.others.killing), t.fx.views, now);
    ForkAll(w, c, viewed, t.fx.forks, resp.others.forking, now)
  }

  /** Messages to agents, each by the registry as it then is. */
  function Told(k: Kernel, notes: seq<AgentNote>, between: R.Between): Kernel {
    Emit(WithRegistry(k, R.AsOf(k.registry, between, |notes|)), RoutedNotes(k.registry, notes, between))
  }

  /** Then messages to chats, and pins. */
  function Sent(k: Kernel, fx: Effects, resp: Response): Kernel {
    Emit(Told(k, fx.notes, resp.others.telling), fx.messages + PinEffects(fx.pins, fx.unpins))
  }

  /** What follows once all messages and pins are out. */
  function Closing(w: World, c: Config, k: Kernel, fx: Effects, run: Script, now: nat): Kernel {
    HonourCompact(w, AppendScript(HonourRequest(w, c, k, fx.requested, now), fx.appends), fx.compactCalled, run, now)
  }

  /** The stages from the external effects on. */
  function CommitRest(w: World, c: Config, k: Kernel, fx: Effects, resp: Response, now: nat): Kernel {
    Closing(w, c, Sent(k, fx, resp), fx, resp.compactionRun, now)
  }

  function Commit(w: World, c: Config, k: Kernel, t: Txn, resp: Response, now: nat): Kernel {
    CommitRest(w, c, CommitWork(w, c, k, t, resp, now), t.fx, resp, now)
  }

  predicate Blocks(w: World, launches: seq<LaunchRequest>) {
    exists l :: l in launches && l.blocks && !w.launchFails(l.pid)
  }

  function Kills(kills: seq<AgentId>): seq<Effect> {
    seq(|kills|, i requires 0 <= i < |kills| => KillProcess(kills[i]))
  }

  function Inputs(writes: seq<(AgentId, string)>): seq<Effect> {
    seq(|writes|, i requires 0 <= i < |writes| => WriteStdin(writes[i].0, writes[i].1))
  }

  function InputEnds(closes: seq<AgentId>): seq<Effect> {
    seq(|closes|, i requires 0 <= i < |closes| => CloseStdin(closes[i]))
  }

  /** Process kills, then input to processes, then ends of input. */
  function Performed(fx: Effects): seq<Effect> {
    Kills(fx.kills) + Inputs(fx.writes) + InputEnds(fx.closes)
  }

  /** After the commit: events that arrived meanwhile are applied if some process was waited for; then the rest is performed. */
  function Deferred(w: World, k: Kernel, fx: Effects, now: nat): Kernel {
    var waited := if Blocks(w, fx.launches) then Drain(w, k, now) else k;
    if waited.crashed then waited else Emit(waited, Performed(fx))
  }

  // ---- The turn ----

  function Begin(k: Kernel, resp: Response): Kernel {
    k.(turn := k.turn + 1,
       s := k.s.(lastInput := resp.inputTokens, lastTotal := resp.inputTokens + resp.cacheWrites + resp.cacheReads))
  }

  function Run(w: World, c: Config, k: Kernel, resp: Response, now: nat): Txn {
    Execute(w, Mode(k.compaction.active, c.depth), now, Begin(k, resp).s, resp.script)
  }

  /** For each recipient, whether it is registered when it is looked up. */
  function Known(registry: R.Registry, notes: seq<AgentNote>, between: R.Between): seq<bool> {
    KnownBy(R.Views(registry, between, |notes|), notes)
  }

  function KnownBy(views: seq<R.Registry>, notes: seq<AgentNote>): seq<bool>
    requires |views| == |notes|
  {
    seq(|notes|, i requires 0 <= i < |notes| => notes[i].recipient in views[i])
  }

  /** The first recipient that is not. */
  function Missing(registry: R.Registry, notes: seq<AgentNote>, between: R.Between): (r: Option<nat>)
    ensures r.Some? ==> r.value < |notes|
  {
    Position(Known(registry, notes, between), (known: bool) => !known)
  }

  function Unknown(registry: R.Registry, notes: seq<AgentNote>, between: R.Between): Option<string> {
    match Missing(registry, notes, between) case None => None case Some(i) => Some(notes[i].recipient)
  }

  lemma MissingAt(registry: R.Registry, notes: seq<AgentNote>, between: R.Between, n: nat)
    requires n <= |notes| && forall i :: 0 <= i < n ==> Known(registry, notes, between)[i]
    requires n < |notes| ==> !Known(registry, notes, between)[n]
    ensures Missing(registry, notes, between) == if n < |notes| then Some(n) else None
  {}

  /** The registry when the recipients have been looked up, or one was missing. */
  function LookedUp(registry: R.Registry, notes: seq<AgentNote>, between: R.Between): R.Registry {
    R.AsOf(registry, between, match Missing(registry, notes, between) case None => |notes| case Some(i) => i + 1)
  }

  function UnknownAgent(name: string): string {
    "message_agent failed: agent '" + name + "' not found"
  }

  /** Why the turn fails, if it does. */
  function Failure(w: World, c: Config, k: Kernel, resp: Response, now: nat): Option<string> {
    match resp.script.ending
    case Aborted(error) => Some(error)
    case Finished(_, _) =>
      match Unknown(k.registry, Run(w, c, k, resp, now).fx.notes, resp.others.validating)
      case None => None
      case Some(name) => Some(UnknownAgent(name))
  }

  function ErrorOutput(error: string): string {
    "[ERROR]\n" + error
  }

  function Conclude(w: World, k: Kernel, code: string, output: string, isError: bool, now: nat): Kernel {
    k.(s := RecordNew(w, k.s, Execution(w.draw(k.s.counter), now, code, output, isError)))
  }

  /** A script has ended: if it ended well `done()`'s result is kept, and then the recipients are looked up. */
  function Prepared(k: Kernel, resp: Response, fx: Effects): Kernel {
    if resp.script.ending.Aborted? then k
    else
      k.(doneResult := if fx.doneCalled then fx.doneResult else k.doneResult,
         registry := LookedUp(k.registry, fx.notes, resp.others.validating))
  }

  /** A committed turn is recorded, unless the agent has not survived it. */
  function Recorded(w: World, k: Kernel, resp: Response, now: nat): Kernel
    requires resp.script.ending.Finished?
  {
    if k.crashed then k else Conclude(w, k, resp.code, resp.script.ending.stdout, false, now)
  }

  function Turn(w: World, c: Config, k: Kernel, resp: Response, now: nat): Kernel {
    var t := Run(w, c, k, resp, now);
    var begun := Prepared(Begin(k, resp), resp, t.fx);
    match Failure(w, c, k, resp, now)
    case Some(error) => Conclude(w, begun, resp.code, ErrorOutput(error), true, now)
    case None => Recorded(w, Deferred(w, Commit(w, c, begun, t, resp, now), t.fx, now), resp, now)
  }

  /** Whether the agent is finished: `done()` counts only in a turn that committed. */
  predicate IsDone(w: World, c: Config, k: Kernel, resp: Response, now: nat) {
    Failure(w, c, k, resp, now).None? && Run(w, c, k, resp, now).fx.doneCalled && !Turn(w, c, k, resp, now).crashed
  }

  // ---- One pass of the loop ----

  datatype Decision = Dead | Shutdown | Wait | ExitKilled | ExitMaxTurns | Proceed

  /** What the loop does once events, timers and the threshold have been looked at; the order matters. */
  function Decide(c: Config, k: Kernel, shutdown: bool): Decision {
    if k.crashed then Dead
    else if shutdown then Shutdown
    else if k.s.queue == [] then Wait
    else if k.killed then ExitKilled
    else if c.maxTurns.Some? && k.turn >= c.maxTurns.value then ExitMaxTurns
    else Proceed
  }

  /** What a pass looks at before it decides. */
  function Look(w: World, c: Config, k: Kernel, now: nat): Kernel {
    var drained := Drain(w, k, now);
    if drained.crashed then drained else CheckThreshold(w, c, CheckTimers(w, drained, now), now)
  }

  /** A pass that finds work after idling reports what the hooks did meanwhile. */
  function Wake(w: World, c: Config, k: Kernel, now: nat, shutdown: bool, idle: bool): Kernel {
    var looked := Look(w, c, k, now);
    if idle && !shutdown && !looked.crashed && looked.s.queue != [] then FlushTelemetry(w, looked, now) else looked
  }
}
