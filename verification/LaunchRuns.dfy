/** From a launch in a script to the item for the process's end, through whatever happens in between. */
module LaunchRuns {
  import opened Base
  import opened Ids
  import opened Items
  import opened Kernels
  import opened Turns
  import opened Pipelines
  import opened Ledgers
  import opened TurnLedgers
  import opened KernelRuns
  import CM = CompactionMode
  import opened Frames
  import R = Registries
  import Utf8
  import Q = WorkQueues
  import F = Forks
  import S = SseParsing

  /** The table finds the process under its id, as it was launched; only its status may have changed. */
  ghost predicate Listed(ps: seq<ManagedProcess>, l: ManagedProcess) {
    match FindProcess(ps, l.id)
    case None => false
    case Some(p) => ps[p] == l.(status := ps[p].status)
  }

  lemma AddedIsListed(ps: seq<ManagedProcess>, l: ManagedProcess)
    requires forall p :: p in ps ==> p.id != l.id
    ensures Listed(ps + [l], l)
  {
    assert (ps + [l])[|ps|] == l;
    assert forall i :: 0 <= i < |ps| ==> (ps + [l])[i] in ps;
  }

  /** What is added behind it and what statuses are set, its own among them, does not unlist a process. */
  lemma ListedStays(ps: seq<ManagedProcess>, more: seq<ManagedProcess>, other: AgentId, status: ProcessStatus, l: ManagedProcess)
    requires Listed(ps, l)
    ensures Listed(ps + more, l)
    ensures Listed(SetStatus(ps, other, status), l)
  {
    var p := FindProcess(ps, l.id).value;
    assert forall i :: 0 <= i <= p ==> (ps + more)[i] == ps[i];
    var changed := SetStatus(ps, other, status);
    assert forall i :: 0 <= i < |ps| ==> changed[i].id == ps[i].id;
    assert changed[p].id == l.id;
  }

  /** What the table of `k` lists of `l`, that of `after` lists too. */
  ghost predicate Remembers(k: Kernel, after: Kernel, l: ManagedProcess) {
    Listed(k.s.processes, l) ==> Listed(after.s.processes, l)
  }

  /** Reading events also leaves the timers alone. */
  ghost predicate Reads(k: Kernel, after: Kernel, l: ManagedProcess) {
    Remembers(k, after, l) && after.s.timers == k.s.timers
  }

  /** Feeding the queue, besides, does not crash the agent. */
  ghost predicate Feeds(k: Kernel, after: Kernel, l: ManagedProcess) {
    Reads(k, after, l) && after.crashed == k.crashed
  }

  // ---- Feeding the queue ----

  lemma RaisedProcesses(w: World, k: Kernel, t: HookTxn, item: WorkItem, hook: string, error: string, now: nat)
    ensures PushRaised(w, k, t, item, hook, error, now).s.processes == k.s.processes + t.processes
    ensures PushRaised(w, k, t, item, hook, error, now).s.timers == k.s.timers
    ensures PushRaised(w, k, t, item, hook, error, now).crashed == k.crashed
  {}

  /** A hook that ran, however it ended, adds its processes; it has no timers. */
  lemma SettleProcesses(w: World, k: Kernel, hook: Hook, plan: Plan, item: WorkItem, now: nat)
    ensures Settle(w, k, hook, plan, item, now).s.processes
            == k.s.processes + if plan.Ran? then HookRun(w, OpenHook(k.s), plan.ops).processes else []
    ensures Settle(w, k, hook, plan, item, now).s.timers == k.s.timers
    ensures Settle(w, k, hook, plan, item, now).crashed == k.crashed
  {
    if plan.Ran? && plan.ending.Raise? {
      var tallied := k.(s := k.s.(stats := Tally(k.s.stats, hook.name, Raised)));
      RaisedProcesses(w, tallied, HookRun(w, OpenHook(k.s), plan.ops), item, hook.name, plan.ending.error, now);
    }
  }

  lemma SettleRemembers(w: World, k: Kernel, hook: Hook, plan: Plan, item: WorkItem, now: nat, l: ManagedProcess)
    ensures Feeds(k, Settle(w, k, hook, plan, item, now), l)
  {
    SettleProcesses(w, k, hook, plan, item, now);
    if plan.Ran? && Listed(k.s.processes, l) {
      ListedStays(k.s.processes, HookRun(w, OpenHook(k.s), plan.ops).processes, l.id, Running, l);
    }
  }

  lemma PushItemRemembers(w: World, k: Kernel, item: WorkItem, now: nat, l: ManagedProcess)
    ensures Feeds(k, PushItem(w, k, item, now), l)
  {
    if !IsHooksCommand(item) && k.s.hooks != [] && Matched(w, k.s, item).Some? {
      var hook := k.s.hooks[Matched(w, k.s, item).value];
      SettleRemembers(w, k, hook, w.plan(hook, item, k.s.memory), item, now, l);
    }
  }

  lemma PushNewRemembers(w: World, k: Kernel, priority: u8, kind: ItemKind, attachments: seq<string>, now: nat, l: ManagedProcess)
    ensures Feeds(k, PushNew(w, k, priority, kind, attachments, now), l)
  {
    PushItemRemembers(w, k.(s := Issue(w, k.s)), WorkItem(w.draw(k.s.counter), priority, now, kind, attachments), now, l);
  }

  lemma {:induction false} PushAllRemembers(w: World, k: Kernel, items: seq<WorkItem>, now: nat, l: ManagedProcess)
    ensures Feeds(k, PushAll(w, k, items, now), l)
  {
    if items != [] {
      PushAllRemembers(w, k, items[..|items| - 1], now, l);
      PushItemRemembers(w, PushAll(w, k, items[..|items| - 1], now), items[|items| - 1], now, l);
    }
  }

  lemma MarkRemembers(k: Kernel, pid: AgentId, status: ProcessStatus, l: ManagedProcess)
    ensures Feeds(k, Mark(k, pid, status), l)
  {
    if Listed(k.s.processes, l) { ListedStays(k.s.processes, [], pid, status, l); }
  }

  lemma NotedRemembers(k: Kernel, e: Event, l: ManagedProcess)
    ensures Feeds(k, Noted(k, e), l)
  {
    match e {
      case Exited(pid, exitCode) => MarkRemembers(k, pid, Completed(exitCode), l);
      case Crashed(pid, error) => MarkRemembers(k, pid, Failed(error), l);
      case _ =>
    }
  }

  lemma ApplyEventRemembers(w: World, k: Kernel, e: Event, now: nat, l: ManagedProcess)
    ensures Reads(k, ApplyEvent(w, k, e, now), l)
  {
    if !k.crashed && !e.KillSignal? {
      NotedRemembers(k, e, l);
      PushNewRemembers(w, Noted(k, e), PriorityOf(k.s.processes, e), KindOf(w, k.s.processes, e), AttachmentsOf(e), now, l);
    }
  }

  lemma {:induction false} ApplyEventsRemember(w: World, k: Kernel, events: seq<Event>, now: nat, l: ManagedProcess)
    ensures Reads(k, ApplyEvents(w, k, events, now), l)
  {
    if events != [] {
      ApplyEventsRemember(w, k, events[..|events| - 1], now, l);
      ApplyEventRemembers(w, ApplyEvents(w, k, events[..|events| - 1], now), events[|events| - 1], now, l);
    }
  }

  // ---- Surviving ----

  lemma EventCrashIff(w: World, k: Kernel, e: Event, now: nat)
    ensures ApplyEvent(w, k, e, now).crashed <==> k.crashed || !Readable(w, e)
  {
    if !k.crashed && !e.KillSignal? && Readable(w, e) {
      PushNewRemembers(w, Noted(k, e), PriorityOf(k.s.processes, e), KindOf(w, k.s.processes, e), AttachmentsOf(e), now,
                       ManagedProcess("", "", "", Running, 0, 0));
    }
  }

  ghost predicate AllReadable(w: World, events: seq<Event>) {
    forall e :: e in events ==> Readable(w, e)
  }

  /** The agent survives what it reads exactly if every event can be made an item. */
  lemma {:induction false} EventsCrashIff(w: World, k: Kernel, events: seq<Event>, now: nat)
    ensures ApplyEvents(w, k, events, now).crashed <==> k.crashed || !AllReadable(w, events)
  {
    if events != [] {
      var front, last := events[..|events| - 1], events[|events| - 1];
      EventsCrashIff(w, k, front, now);
      EventCrashIff(w, ApplyEvents(w, k, front, now), last, now);
      assert events == front + [last];
    }
  }

  // ---- The turn ----

  lemma StepLists(w: World, m: Mode, now: nat, s: Harness, op: ScriptOp, l: ManagedProcess)
    requires Listed(s.processes, l)
    ensures Listed(StateStep(w, m, now, s, op).processes, l)
  {
    OthersKeepProcesses(w, m, now, s, op);
    match op {
      case ShellExec(_, _, _, _, _) => ListedStays(s.processes, [LaunchAt(w, s, op)], l.id, Running, l);
      case _ =>
    }
  }

  lemma OthersKeepProcesses(w: World, m: Mode, now: nat, s: Harness, op: ScriptOp)
    ensures StoreStep(s, op).processes == s.processes
    ensures TimerStep(w, now, s, op).processes == s.processes && HistoryStep(w, m, now, s, op).processes == s.processes
  {}

  /** The process that the `i`th call launches, if it is a launch. */
  function LaunchAt(w: World, s: Harness, op: ScriptOp): ManagedProcess
    requires op.ShellExec?
  {
    ManagedProcess(w.draw(s.counter), op.cmd, op.description, Running, op.successPrio, op.failPrio)
  }

  lemma LaunchLists(w: World, m: Mode, now: nat, s: Harness, op: ScriptOp)
    requires op.ShellExec? && forall p :: p in s.processes ==> p.id != w.draw(s.counter)
    ensures Listed(StateStep(w, m, now, s, op).processes, LaunchAt(w, s, op))
  {
    AddedIsListed(s.processes, LaunchAt(w, s, op));
  }

  lemma {:induction false} ExecRemembers(w: World, m: Mode, now: nat, t: Txn, ops: seq<ScriptOp>, l: ManagedProcess)
    requires Listed(t.s.processes, l)
    ensures Listed(Exec(w, m, now, t, ops).s.processes, l)
  {
    if ops != [] {
      ExecRemembers(w, m, now, t, ops[..|ops| - 1], l);
      StepLists(w, m, now, Exec(w, m, now, t, ops[..|ops| - 1]).s, ops[|ops| - 1], l);
    }
  }

  lemma {:induction false} ExecAppend(w: World, m: Mode, now: nat, t: Txn, a: seq<ScriptOp>, b: seq<ScriptOp>)
    ensures Exec(w, m, now, t, a + b) == Exec(w, m, now, Exec(w, m, now, t, a), b)
  {
    if b == [] {
      assert a + b == a;
    } else {
      assert (a + b)[..|a + b| - 1] == a + b[..|b| - 1];
      ExecAppend(w, m, now, t, a, b[..|b| - 1]);
    }
  }

  /** A launch is still listed when the script ends. */
  lemma ExecLists(w: World, m: Mode, now: nat, t: Txn, ops: seq<ScriptOp>, i: nat, mid: Harness)
    requires i < |ops| && ops[i].ShellExec?
    requires mid == Exec(w, m, now, t, ops[..i]).s && forall p :: p in mid.processes ==> p.id != w.draw(mid.counter)
    ensures Listed(Exec(w, m, now, t, ops).s.processes, LaunchAt(w, mid, ops[i]))
  {
    LaunchLists(w, m, now, mid, ops[i]);
    var done := Exec(w, m, now, t, ops[..i + 1]);
    assert ops[..i + 1][..i] == ops[..i];
    assert done.s == StateStep(w, m, now, mid, ops[i]);
    assert ops == ops[..i + 1] + ops[i + 1..];
    ExecAppend(w, m, now, t, ops[..i + 1], ops[i + 1..]);
    ExecRemembers(w, m, now, done, ops[i + 1..], LaunchAt(w, mid, ops[i]));
  }

  lemma LaunchOneRemembers(w: World, k: Kernel, req: LaunchRequest, now: nat, l: ManagedProcess)
    ensures Feeds(k, LaunchOne(w, k, req, now), l)
  {
    var refused := k.(log := k.log + [Refused(req.pid)]);
    MarkRemembers(refused, req.pid, Failed("spawn failed"), l);
    PushNewRemembers(w, Mark(refused, req.pid, Failed("spawn failed")), req.failPrio,
                     ProcessFailed(req.pid, "spawn failed", None, req.description), [], now, l);
  }

  lemma {:induction false} LaunchAllRemembers(w: World, k: Kernel, reqs: seq<LaunchRequest>, now: nat, l: ManagedProcess)
    ensures Feeds(k, LaunchAll(w, k, reqs, now), l)
  {
    if reqs != [] {
      LaunchAllRemembers(w, k, reqs[..|reqs| - 1], now, l);
      LaunchOneRemembers(w, LaunchAll(w, k, reqs[..|reqs| - 1], now), reqs[|reqs| - 1], now, l);
    }
  }

  lemma {:induction false} ReportAllRemembers(w: World, k: Kernel, reports: seq<F.Report>, now: nat, l: ManagedProcess)
    ensures Feeds(k, ReportAll(w, k, reports, now), l)
  {
    if reports != [] {
      var r := reports[|reports| - 1];
      ReportAllRemembers(w, k, reports[..|reports| - 1], now, l);
      PushNewRemembers(w, ReportAll(w, k, reports[..|reports| - 1], now), 7, ChildAgentCompleted(r.name, false, ReportText(r)), [], now, l);
    }
  }

  lemma ApplyForkRemembers(w: World, k: Kernel, out: F.Outcome, names: seq<string>, now: nat, l: ManagedProcess)
    ensures Feeds(k, ApplyFork(w, k, out, names, now), l)
  {
    match out {
      case Rejected(_) => PushNewRemembers(w, UseChannels(k, |names|), 7, ForkFailure(), [], now, l);
      case Accepted(p) => ReportAllRemembers(w, Forked(w, k, p, names, now), p.reports, now, l);
    }
  }

  lemma {:induction false} ForkAllRemembers(w: World, c: Config, k: Kernel, forks: seq<seq<string>>, between: R.Between, now: nat, l: ManagedProcess)
    ensures Feeds(k, ForkAll(w, c, k, forks, between, now), l)
  {
    if forks != [] {
      var n := |forks| - 1;
      var before, names := LetOthers(ForkAll(w, c, k, forks[..n], between, now), R.Before(between, n)), forks[n];
      ForkAllRemembers(w, c, k, forks[..|forks| - 1], between, now, l);
      var out := F.Fork(c.maxChildren, w.clientFails, c.lineage, before.registry, before.active, before.nextChannel, names);
      ApplyForkRemembers(w, before, out, names, now, l);
    }
  }

  lemma CommitWorkRemembers(w: World, c: Config, k: Kernel, t: Txn, resp: Response, now: nat, l: ManagedProcess)
    ensures Listed(t.s.processes, l) ==> Listed(CommitWork(w, c, k, t, resp, now).s.processes, l)
    ensures CommitWork(w, c, k, t, resp, now).s.timers == t.s.timers && CommitWork(w, c, k, t, resp, now).crashed == k.crashed
  {
    var installed := Install(k, t.s);
    var launched := LaunchAll(w, installed, t.fx.launches, now);
    LaunchAllRemembers(w, installed, t.fx.launches, now, l);
    var killed := KillChildren(launched, t.fx.childKills, resp.others.killing);
    PushNewRemembers(w, killed, 10, View(t.fx.views), [], now, l);
    ForkAllRemembers(w, c, QueueView(w, killed, t.fx.views, now), t.fx.forks, resp.others.forking, now, l);
  }

  /** Compaction touches neither processes nor timers. */
  lemma CommitRestKeeps(w: World, c: Config, k: Kernel, fx: Effects, resp: Response, now: nat)
    ensures CommitRest(w, c, k, fx, resp, now).s.processes == k.s.processes
    ensures CommitRest(w, c, k, fx, resp, now).s.timers == k.s.timers && CommitRest(w, c, k, fx, resp, now).crashed == k.crashed
  {
    var sent := Sent(k, fx, resp);
    CompactKeeps(w, AppendScript(HonourRequest(w, c, sent, fx.requested, now), fx.appends), fx.compactCalled, resp.compactionRun, now);
  }

  lemma CompactKeeps(w: World, k: Kernel, called: bool, run: Script, now: nat)
    ensures HonourCompact(w, k, called, run, now).s.processes == k.s.processes
    ensures HonourCompact(w, k, called, run, now).s.timers == k.s.timers
  {
    if called && k.compaction.active && run.ending.Finished? {
      var copy := Execute(w, Mode(true, 0), now, k.s, run).s;
      CM.DequeueAllFrame(BroughtBack(k.s, copy), CompactionIds(k.s.queue));
    }
  }

  lemma CommitRemembers(w: World, c: Config, k: Kernel, t: Txn, resp: Response, now: nat, l: ManagedProcess)
    ensures Listed(t.s.processes, l) ==> Listed(Commit(w, c, k, t, resp, now).s.processes, l)
    ensures Commit(w, c, k, t, resp, now).s.timers == t.s.timers && Commit(w, c, k, t, resp, now).crashed == k.crashed
  {
    CommitWorkRemembers(w, c, k, t, resp, now, l);
    CommitRestKeeps(w, c, CommitWork(w, c, k, t, resp, now), t.fx, resp, now);
  }

  lemma DeferredRemembers(w: World, k: Kernel, fx: Effects, now: nat, l: ManagedProcess)
    ensures Reads(k, Deferred(w, k, fx, now), l)
  {
    ApplyEventsRemember(w, k.(inbox := []), k.inbox, now, l);
  }

  lemma TurnRemembers(w: World, c: Config, k: Kernel, resp: Response, now: nat, l: ManagedProcess)
    ensures Remembers(k, Turn(w, c, k, resp, now), l)
    ensures Failure(w, c, k, resp, now).None? && Listed(Run(w, c, k, resp, now).s.processes, l)
            ==> Listed(Turn(w, c, k, resp, now).s.processes, l)
    ensures Turn(w, c, k, resp, now).s.timers
            == if Failure(w, c, k, resp, now).None? then Run(w, c, k, resp, now).s.timers else k.s.timers
  {
    if Failure(w, c, k, resp, now).None? {
      var t := Run(w, c, k, resp, now);
      var begun := Prepared(Begin(k, resp), resp, t.fx);
      if Listed(k.s.processes, l) {
        ExecRemembers(w, Mode(k.compaction.active, c.depth), now, Txn(Begin(k, resp).s, NO_EFFECTS), resp.script.ops, l);
      }
      CommitRemembers(w, c, begun, t, resp, now, l);
      DeferredRemembers(w, Commit(w, c, begun, t, resp, now), t.fx, now, l);
    }
  }

  // ---- Any run ----

  lemma DoRemembers(w: World, c: Config, k: Kernel, step: Step, l: ManagedProcess)
    ensures Remembers(k, Do(w, c, k, step), l)
  {
    match step {
      case DrainEvents(v, now) => ApplyEventsRemember(In(w, v), k.(inbox := []), k.inbox, now, l);
      case TimerCheck(v, now) => PushAllRemembers(In(w, v), k.(s := Fired(In(w, v), k.s, now)), Firing(In(w, v), k.s, now), now, l);
      case TakeTurn(v, resp, now) => TurnRemembers(In(w, v), c, k, resp, now, l);
      case _ =>
    }
  }

  lemma {:induction false} WalkRemembers(w: World, c: Config, k: Kernel, steps: seq<Step>, l: ManagedProcess)
    ensures Remembers(k, Walk(w, c, k, steps), l)
  {
    if steps != [] {
      WalkRemembers(w, c, k, steps[..|steps| - 1], l);
      DoRemembers(w, c, Walk(w, c, k, steps[..|steps| - 1]), steps[|steps| - 1], l);
    }
  }

  // ---- When an agent crashes ----

  /** What a turn reads while it waits. */
  function ReadByTurn(w: World, c: Config, k: Kernel, resp: Response, now: nat): seq<Event> {
    if Failure(w, c, k, resp, now).None? && Blocks(w, Run(w, c, k, resp, now).fx.launches) then k.inbox else []
  }

  lemma TurnCrashIff(w: World, c: Config, k: Kernel, resp: Response, now: nat)
    ensures Turn(w, c, k, resp, now).crashed <==> k.crashed || !AllReadable(w, ReadByTurn(w, c, k, resp, now))
  {
    if Failure(w, c, k, resp, now).None? {
      var t := Run(w, c, k, resp, now);
      var begun := Prepared(Begin(k, resp), resp, t.fx);
      CommitRemembers(w, c, begun, t, resp, now, ManagedProcess("", "", "", Running, 0, 0));
      CommitInbox(w, c, begun, t, resp, now, k.inbox);
      assert WithInbox(begun, k.inbox) == begun;
      CommittedCrashIff(w, Commit(w, c, begun, t, resp, now), t.fx, resp, now);
    }
  }

  lemma CommittedCrashIff(w: World, k: Kernel, fx: Effects, resp: Response, now: nat)
    requires resp.script.ending.Finished?
    ensures Recorded(w, Deferred(w, k, fx, now), resp, now).crashed
            <==> k.crashed || (Blocks(w, fx.launches) && !AllReadable(w, k.inbox))
  {
    EventsCrashIff(w, k.(inbox := []), k.inbox, now);
  }

  /** The events that a step reads, and in which surroundings. */
  ghost predicate StepReadable(w: World, c: Config, k: Kernel, step: Step) {
    match step
    case DrainEvents(v, _) => AllReadable(In(w, v), k.inbox)
    case TakeTurn(v, resp, now) => AllReadable(In(w, v), ReadByTurn(In(w, v), c, k, resp, now))
    case _ => true
  }

  lemma StepCrashIff(w: World, c: Config, k: Kernel, step: Step)
    requires !k.crashed
    ensures Do(w, c, k, step).crashed <==> !StepReadable(w, c, k, step)
  {
    match step {
      case DrainEvents(v, now) => EventsCrashIff(In(w, v), k.(inbox := []), k.inbox, now);
      case TimerCheck(v, now) =>
        var s := Fired(In(w, v), k.s, now);
        PushAllRemembers(In(w, v), k.(s := s), Firing(In(w, v), k.s, now), now, ManagedProcess("", "", "", Running, 0, 0));
      case TakeTurn(v, resp, now) => TurnCrashIff(In(w, v), c, k, resp, now);
      case _ =>
    }
  }

  ghost predicate RunReadable(w: World, c: Config, k: Kernel, steps: seq<Step>) {
    steps != [] ==>
      var before := steps[..|steps| - 1];
      RunReadable(w, c, k, before) && StepReadable(w, c, Walk(w, c, k, before), steps[|steps| - 1])
  }

  /**
   * An agent survives a run exactly if, of every process whose end it reads, the output is at most 500
   * bytes long or has a character boundary 500 bytes before its end.
   */
  lemma {:induction false} SurvivesIff(w: World, c: Config, k: Kernel, steps: seq<Step>)
    requires !k.crashed
    ensures !Walk(w, c, k, steps).crashed <==> RunReadable(w, c, k, steps)
  {
    if steps != [] {
      var before := steps[..|steps| - 1];
      SurvivesIff(w, c, k, before);
      if !Walk(w, c, k, before).crashed { StepCrashIff(w, c, Walk(w, c, k, before), steps[|steps| - 1]); }
    }
  }

  /** Accented letters, two bytes each. */
  function Accents(n: nat): Utf8.Bytes {
    if n == 0 then [] else [0xC3, 0xA9] + Accents(n - 1)
  }

  lemma {:induction false} AccentsAreText(n: nat)
    ensures Utf8.IsUtf8(Accents(n)) && |Accents(n)| == 2 * n
    ensures n > 0 ==> Accents(n)[1] == 0xA9
  {
    if n > 0 {
      AccentsAreText(n - 1);
      assert Accents(n)[2..] == Accents(n - 1);
    }
  }

  /** The output that does it: 250 accented letters and a plain one are 501 bytes of well-formed text, cut within a letter. */
  lemma UnreadableOutput(pid: AgentId, code: int, w: World)
    requires w.output(pid) == Accents(250) + [97]
    ensures Utf8.IsUtf8(w.output(pid)) && |w.output(pid)| == 501
    ensures !Readable(w, Exited(pid, code))
  {
    AccentsAreText(250);
    assert Utf8.IsUtf8([97]);
    Utf8.JoinUtf8(Accents(250), [97]);
    assert w.output(pid)[1] == 0xA9;
  }

  /** A preview that can be made of a text is text. */
  lemma PreviewIsText(output: Utf8.Bytes)
    requires Utf8.IsUtf8(output) && Previewable(output)
    ensures Preview(output).Some? ==> Utf8.IsUtf8(Preview(output).value) && |Preview(output).value| <= |DOTS| + PREVIEW
  {
    if |output| > PREVIEW {
      Utf8.CutAtBoundary(output, |output| - PREVIEW);
      DotsAreText();
      Utf8.JoinUtf8(DOTS, output[|output| - PREVIEW..]);
    }
  }

  lemma DotsAreText()
    ensures Utf8.IsUtf8(DOTS)
  {
    var dot: Utf8.Bytes := [46];
    assert Utf8.StartsWithChar(dot) && dot[1..] == [];
    Utf8.JoinUtf8(dot, dot);
    Utf8.JoinUtf8(dot + dot, dot);
    assert DOTS == dot + dot + dot;
  }

  // ---- The end of a process ----

  predicate Ends(e: Event, pid: AgentId) {
    match e
    case Exited(p, _) => p == pid
    case Crashed(p, _) => p == pid
    case TimedOut(p) => p == pid
    case _ => false
  }

  /** The item that the end of a process launched as `l`, and that wrote `output`, should become. */
  function EndItem(id: AgentId, l: ManagedProcess, e: Event, output: Utf8.Bytes, now: nat): WorkItem
    requires Ends(e, l.id)
  {
    match e
    case Exited(_, exitCode) => WorkItem(id, l.successPrio, now, ProcessCompleted(l.id, exitCode, Preview(output), l.description), [])
    case Crashed(_, error) => WorkItem(id, l.failPrio, now, ProcessFailed(l.id, error, Preview(output), l.description), [])
    case TimedOut(_) => WorkItem(id, l.failPrio, now, ProcessTimeout(l.id), [])
  }

  lemma EndBecomesItem(w: World, k: Kernel, e: Event, l: ManagedProcess, now: nat)
    requires Listed(k.s.processes, l) && Ends(e, l.id) && !k.crashed && Readable(w, e)
    ensures ApplyEvent(w, k, e, now)
            == PushItem(w, Noted(k, e).(s := Issue(w, Noted(k, e).s)), EndItem(w.draw(k.s.counter), l, e, w.output(l.id), now), now)
  {}

  /** A drain applies the events before the `j`th, then the `j`th, then the others. */
  lemma DrainSplits(w: World, k: Kernel, j: nat, now: nat)
    requires j < |k.inbox|
    ensures var found := ApplyEvents(w, k.(inbox := []), k.inbox[..j], now);
            Drain(w, k, now) == ApplyEvents(w, ApplyEvent(w, found, k.inbox[j], now), k.inbox[j + 1..], now)
  {
    var upTo := k.inbox[..j + 1];
    assert upTo[..|upTo| - 1] == k.inbox[..j];
    assert k.inbox == upTo + k.inbox[j + 1..];
    ApplyEventsAppend(w, k.(inbox := []), upTo, k.inbox[j + 1..], now);
  }

  /**
   * The end of the process launched as `l` is `j`th in the channel, and the channel is drained. If every
   * event up to it can be read, one item, with the description and the success or fail priority that the
   * launch asked for and a preview of the output, meets exactly one fate, whichever hook `name` is asked
   * for its counts. If the output cannot be cut where the program cuts it, nothing is queued for it, nor
   * for anything behind it: the agent has crashed.
   */
  ghost predicate EndIsQueued(w: World, k: Kernel, j: nat, l: ManagedProcess, now: nat, name: string)
    requires j < |k.inbox| && Ends(k.inbox[j], l.id)
  {
    var e := k.inbox[j];
    var found := ApplyEvents(w, k.(inbox := []), k.inbox[..j], now);
    var after := ApplyEvent(w, found, e, now);
    var item := EndItem(w.draw(found.s.counter), l, e, w.output(l.id), now);
    && Drain(w, k, now) == ApplyEvents(w, after, k.inbox[j + 1..], now)
    && (found.crashed <==> k.crashed || !AllReadable(w, k.inbox[..j]))
    && (after.crashed <==> found.crashed || (!e.TimedOut? && !Previewable(w.output(l.id))))
    && (!after.crashed ==>
          !FateOf(w, found.s, item).Command? && Follows(FateOf(w, found.s, item), found.s, after.s, item, now, name))
    && (after.crashed ==> after.s.queue == found.s.queue && Drain(w, k, now) == after)
  }

  lemma ListedEndIsQueued(w: World, k: Kernel, j: nat, l: ManagedProcess, now: nat, name: string)
    requires Listed(k.s.processes, l) && j < |k.inbox| && Ends(k.inbox[j], l.id)
    ensures EndIsQueued(w, k, j, l, now, name)
  {
    var e := k.inbox[j];
    var found := ApplyEvents(w, k.(inbox := []), k.inbox[..j], now);
    ApplyEventsRemember(w, k.(inbox := []), k.inbox[..j], now, l);
    EventsCrashIff(w, k.(inbox := []), k.inbox[..j], now);
    DrainSplits(w, k, j, now);
    EventCrashIff(w, found, e, now);
    if ApplyEvent(w, found, e, now).crashed {
      CrashedReadsNothing(w, ApplyEvent(w, found, e, now), k.inbox[j + 1..], now);
    } else {
      EndFollows(w, found, e, l, now, name);
    }
  }

  lemma {:induction false} CrashedReadsNothing(w: World, k: Kernel, events: seq<Event>, now: nat)
    requires k.crashed
    ensures ApplyEvents(w, k, events, now) == k
  {
    if events != [] { CrashedReadsNothing(w, k, events[..|events| - 1], now); }
  }

  lemma EndFollows(w: World, k: Kernel, e: Event, l: ManagedProcess, now: nat, name: string)
    requires Listed(k.s.processes, l) && Ends(e, l.id) && !k.crashed && Readable(w, e)
    ensures var item := EndItem(w.draw(k.s.counter), l, e, w.output(l.id), now);
            && !FateOf(w, k.s, item).Command?
            && Follows(FateOf(w, k.s, item), k.s, ApplyEvent(w, k, e, now).s, item, now, name)
  {
    var item := EndItem(w.draw(k.s.counter), l, e, w.output(l.id), now);
    EndBecomesItem(w, k, e, l, now);
    NotedFate(w, k, e, item);
    OneFate(w, Noted(k, e).(s := Issue(w, Noted(k, e).s)), item, now, name);
  }

  /** Noting an event does not change what becomes of an item, nor the queue and the counts. */
  lemma NotedFate(w: World, k: Kernel, e: Event, item: WorkItem)
    ensures var s := Issue(w, Noted(k, e).s);
            && FateOf(w, s, item) == FateOf(w, k.s, item)
            && s.queue == k.s.queue && s.stats == k.s.stats && s.moves == k.s.moves
  {}

  // ---- From launch to end ----

  /** What the turn's script has made of the copy before its `i`th call. */
  function Midway(w: World, c: Config, k: Kernel, resp: Response, now: nat, i: nat): Harness
    requires i <= |resp.script.ops|
  {
    Exec(w, Mode(k.compaction.active, c.depth), now, Txn(Begin(k, resp).s, NO_EFFECTS), resp.script.ops[..i]).s
  }

  /** The `i`th call of the turn's script launches `l`, under an id that no process has, and the turn commits. */
  ghost predicate LaunchedBy(w: World, c: Config, k: Kernel, resp: Response, now: nat, i: nat, l: ManagedProcess) {
    && Failure(w, c, k, resp, now).None?
    && i < |resp.script.ops| && resp.script.ops[i].ShellExec?
    && var mid := Midway(w, c, k, resp, now, i);
    && l == LaunchAt(w, mid, resp.script.ops[i])
    && forall p :: p in mid.processes ==> p.id != l.id
  }

  lemma RunLists(w: World, c: Config, k: Kernel, resp: Response, now: nat, i: nat, l: ManagedProcess)
    requires LaunchedBy(w, c, k, resp, now, i, l)
    ensures Listed(Run(w, c, k, resp, now).s.processes, l)
  {
    ExecLists(w, Mode(k.compaction.active, c.depth), now, Txn(Begin(k, resp).s, NO_EFFECTS), resp.script.ops, i, Midway(w, c, k, resp, now, i));
  }

  /**
   * From launch to completion. A process launched in a turn that commits, whatever happens between, has
   * its end queued as the launch asked for, exactly if its output can be cut for the preview: with its
   * description and its success or fail priority. Surroundings may differ from step to step.
   */
  lemma LaunchMeetsItsEnd(w: World, v: World, c: Config, k: Kernel, resp: Response, now: nat, i: nat, l: ManagedProcess,
                          steps: seq<Step>, u: World, j: nat, later: nat, name: string)
    requires LaunchedBy(v, c, k, resp, now, i, l)
    requires var inbox := Walk(w, c, Turn(v, c, k, resp, now), steps).inbox; j < |inbox| && Ends(inbox[j], l.id)
    ensures EndIsQueued(u, Walk(w, c, Turn(v, c, k, resp, now), steps), j, l, later, name)
  {
    RunLists(v, c, k, resp, now, i, l);
    TurnRemembers(v, c, k, resp, now, l);
    WalkRemembers(w, c, Turn(v, c, k, resp, now), steps, l);
    ListedEndIsQueued(u, Walk(w, c, Turn(v, c, k, resp, now), steps), j, l, later, name);
  }

  /** Likewise when the turn that launched the process waits for it, and drains the channel itself. */
  lemma AwaitedLaunchMeetsItsEnd(w: World, c: Config, k: Kernel, resp: Response, now: nat, i: nat, l: ManagedProcess,
                                 j: nat, name: string)
    requires LaunchedBy(w, c, k, resp, now, i, l) && j < |k.inbox| && Ends(k.inbox[j], l.id)
    ensures var t := Run(w, c, k, resp, now);
            var committed := Commit(w, c, Prepared(Begin(k, resp), resp, t.fx), t, resp, now);
            j < |committed.inbox| && Ends(committed.inbox[j], l.id) && EndIsQueued(w, committed, j, l, now, name)
  {
    var t := Run(w, c, k, resp, now);
    var begun := Prepared(Begin(k, resp), resp, t.fx);
    RunLists(w, c, k, resp, now, i, l);
    CommitRemembers(w, c, begun, t, resp, now, l);
    CommitInbox(w, c, begun, t, resp, now, k.inbox);
    assert WithInbox(begun, k.inbox) == begun;
    ListedEndIsQueued(w, Commit(w, c, begun, t, resp, now), j, l, now, name);
  }

  // ---- The launch's id ----

  lemma NextIsNew(w: World, o: Origin, s: Harness, p: ManagedProcess)
    requires Young(w, o, s) && s.counter < o.start + PERIOD && p in s.processes
    ensures p.id != w.draw(s.counter)
  {
    NextIsUnowned(w, o, s);
    var q :| 0 <= q < |s.processes| && s.processes[q] == p;
    assert ProcessIds(s.processes)[q] == p.id;
  }

  /** In a new agent, up to 65536 ids into its life, whatever its hooks do, every launch's id is one no process has. */
  lemma FreshAgentLaunches(w: World, v: World, c: Config, k: Kernel, steps: seq<Step>, resp: Response, now: nat, i: nat)
    requires FreshStart(k) && IsIdStream(w.draw) && v.draw == w.draw && v.commitFirst == w.commitFirst
    requires i < |resp.script.ops| && resp.script.ops[i].ShellExec?
    requires var p := Walk(w, c, k, steps);
             Failure(v, c, p, resp, now).None? && Midway(v, c, p, resp, now, i).counter < k.s.counter + PERIOD
    ensures var p := Walk(w, c, k, steps);
            LaunchedBy(v, c, p, resp, now, i, LaunchAt(v, Midway(v, c, p, resp, now, i), resp.script.ops[i]))
  {
    var p := Walk(w, c, k, steps);
    var mid := Midway(v, c, p, resp, now, i);
    FreshOrigin(k);
    forall x ensures Sound(v, OriginOf(k), mid, x, 0) {
      WalkSound(w, c, k, steps, x);
      SoundAround(w, v, OriginOf(k), p.s, x);
      MidwaySound(v, OriginOf(k), c, p, resp, now, i, x);
    }
    forall process | process in mid.processes ensures process.id != v.draw(mid.counter) {
      NextIsNew(v, OriginOf(k), mid, process);
    }
  }

  lemma MidwaySound(w: World, o: Origin, c: Config, k: Kernel, resp: Response, now: nat, i: nat, x: AgentId)
    requires Sound(w, o, k.s, x, 0) && i <= |resp.script.ops|
    ensures Sound(w, o, Midway(w, c, k, resp, now, i), x, 0)
  {
    ExecSound(w, Mode(k.compaction.active, c.depth), now, o, Txn(Begin(k, resp).s, NO_EFFECTS), resp.script.ops[..i], x);
  }
}
