/** A turn keeps what the other steps keep: see the ledger. */
module TurnLedgers {
  import opened Base
  import opened Ids
  import opened Items
  import opened Kernels
  import opened Turns
  import opened Ledgers
  import Q = WorkQueues
  import H = Histories
  import T = Timers
  import HT = HookTables
  import R = Registries
  import F = Forks

  // ---- The script on its copy ----

  lemma AddTimerSound(w: World, o: Origin, s: Harness, timer: Timer, x: AgentId)
    requires Sound(w, o, s, x, 0) && timer.id == w.draw(s.counter)
    ensures Sound(w, o, StartTimer(w, s, timer), x, 0)
  {
    IssueSound(w, o, s, x, 0);
    assert TimerIds(s.timers + [timer]) == TimerIds(s.timers) + [timer.id];
    TimesAppend(TimerIds(s.timers), [timer.id], x);
    TimesOne(timer.id, x);
  }

  lemma AddProcessSound(w: World, o: Origin, s: Harness, p: ManagedProcess, x: AgentId)
    requires Sound(w, o, s, x, 0) && p.id == w.draw(s.counter)
    ensures Sound(w, o, StartProcess(w, s, p), x, 0)
  {
    IssueSound(w, o, s, x, 0);
    assert ProcessIds(s.processes + [p]) == ProcessIds(s.processes) + [p.id];
    TimesAppend(ProcessIds(s.processes), [p.id], x);
    TimesOne(p.id, x);
  }

  lemma EditSound(w: World, o: Origin, s: Harness, compaction: bool, op: H.HistoryOp, x: AgentId)
    requires Sound(w, o, s, x, 0)
    ensures Sound(w, o, Edit(s, compaction, op), x, 0)
  {
    HistoryEditIds(s.history, s.window, compaction, op);
  }

  lemma RetimeSound(w: World, o: Origin, s: Harness, timers: seq<Timer>, x: AgentId)
    requires Sound(w, o, s, x, 0) && Times(TimerIds(timers), x) <= Times(TimerIds(s.timers), x)
    ensures Sound(w, o, Retime(s, timers), x, 0)
  {}

  lemma RehookSound(w: World, o: Origin, s: Harness, op: HT.TableOp, x: AgentId)
    requires Sound(w, o, s, x, 0)
    ensures Sound(w, o, Rehook(s, op), x, 0)
  {
    HookTableKeeps(o, s, op, x, 0);
  }

  lemma DequeueSound(w: World, o: Origin, s: Harness, id: AgentId, x: AgentId)
    requires Sound(w, o, s, x, 0)
    ensures Sound(w, o, Dequeue(s, id), x, 0)
  {
    DequeueKeeps(o, s, id, x, 0);
  }

  lemma RecallSound(w: World, o: Origin, s: Harness, memory: map<string, string>, priorities: map<string, u8>, x: AgentId)
    requires Sound(w, o, s, x, 0)
    ensures Sound(w, o, Recall(s, memory, priorities), x, 0)
  {}

  lemma PopSound(w: World, o: Origin, s: Harness, x: AgentId)
    requires Sound(w, o, s, x, 0)
    ensures Sound(w, o, Pop(s), x, 0)
  {
    if s.queue != [] { DequeueSound(w, o, s, s.queue[0].id, x); }
  }

  lemma StoreStepSound(w: World, o: Origin, s: Harness, op: ScriptOp, x: AgentId)
    requires Sound(w, o, s, x, 0)
    ensures Sound(w, o, StoreStep(s, op), x, 0)
  {
    var after := StoreStep(s, op);
    if op.PopFront? {
      PopSound(w, o, s, x);
    } else if op.RemoveFromQueue? {
      DequeueSound(w, o, s, op.id, x);
    } else if op.SetMemory? || op.DeleteMemory? || op.SetPriority? {
      RecallSound(w, o, s, after.memory, after.priorities, x);
    }
  }

  lemma TimerStepSound(w: World, now: nat, o: Origin, s: Harness, op: ScriptOp, x: AgentId)
    requires Sound(w, o, s, x, 0)
    ensures Sound(w, o, TimerStep(w, now, s, op), x, 0)
  {
    match op {
      case AddTimer(every, at, priority, description) =>
        AddTimerSound(w, o, s, Timer(w.draw(s.counter), description, priority, Scheduled(every, at, now), false), x);
      case CancelTimer(id) => CancelIds(s.timers, id); RetimeSound(w, o, s, T.Cancel(s.timers, id), x);
      case AckTimer(id) => AcknowledgeIds(s.timers, id, now); RetimeSound(w, o, s, T.Acknowledge(s.timers, id, now), x);
      case _ =>
    }
  }

  lemma HistoryStepSound(w: World, m: Mode, now: nat, o: Origin, s: Harness, op: ScriptOp, x: AgentId)
    requires Sound(w, o, s, x, 0)
    ensures Sound(w, o, HistoryStep(w, m, now, s, op), x, 0)
  {
    match op {
      case ReplaceEntry(id, description) => EditSound(w, o, s, m.compaction, H.Replace(id, description), x);
      case RemoveEntry(id) => EditSound(w, o, s, m.compaction, H.Remove(id), x);
      case AddEntry(text) => RecordNewSound(w, o, s, Summary(w.draw(s.counter), now, text), x);
      case _ =>
    }
  }

  lemma HarnessStepSound(w: World, o: Origin, s: Harness, op: ScriptOp, x: AgentId)
    requires Sound(w, o, s, x, 0)
    ensures Sound(w, o, HarnessStep(w, s, op), x, 0)
  {
    match op {
      case RegisterHook(hook) => RehookSound(w, o, s, HT.Register(hook), x);
      case RemoveHook(name) => RehookSound(w, o, s, HT.Drop(name), x);
      case ShellExec(cmd, description, successPrio, failPrio, _) =>
        AddProcessSound(w, o, s, ManagedProcess(w.draw(s.counter), cmd, description, Running, successPrio, failPrio), x);
      case _ =>
    }
  }

  lemma StateStepSound(w: World, m: Mode, now: nat, o: Origin, s: Harness, op: ScriptOp, x: AgentId)
    requires Sound(w, o, s, x, 0)
    ensures Sound(w, o, StateStep(w, m, now, s, op), x, 0)
  {
    if OnStores(op) {
      StoreStepSound(w, o, s, op, x);
    } else if OnTimers(op) {
      TimerStepSound(w, now, o, s, op, x);
    } else if OnHistory(op) {
      HistoryStepSound(w, m, now, o, s, op, x);
    } else {
      HarnessStepSound(w, o, s, op, x);
    }
  }

  lemma {:induction false} ExecSound(w: World, m: Mode, now: nat, o: Origin, t: Txn, ops: seq<ScriptOp>, x: AgentId)
    requires Sound(w, o, t.s, x, 0)
    ensures Sound(w, o, Exec(w, m, now, t, ops).s, x, 0)
  {
    if ops != [] {
      ExecSound(w, m, now, o, t, ops[..|ops| - 1], x);
      StateStepSound(w, m, now, o, Exec(w, m, now, t, ops[..|ops| - 1]).s, ops[|ops| - 1], x);
    }
  }

  lemma ExecuteSound(w: World, m: Mode, now: nat, o: Origin, s: Harness, script: Script, x: AgentId)
    requires Sound(w, o, s, x, 0)
    ensures Sound(w, o, Execute(w, m, now, s, script).s, x, 0)
  {
    ExecSound(w, m, now, o, Txn(s, NO_EFFECTS), script.ops, x);
  }

  predicate Grows(held: nat, heldAfter: nat, drawn: nat, drawnAfter: nat) {
    heldAfter + drawn <= held + drawnAfter && drawn <= drawnAfter
  }

  /** A script's entries carry ids it drew: its history gains no more of an id than it issued. */
  ghost predicate PaysItsWay(before: Harness, after: Harness, x: AgentId) {
    && after.raises == before.raises
    && Grows(Times(HistoryIds(before.history), x), Times(HistoryIds(after.history), x), Times(before.issued, x), Times(after.issued, x))
    && Grows(Times(HistoryIds(before.history), x), Times(HistoryIds(after.history), x), Times(before.lasting, x), Times(after.lasting, x))
  }

  lemma IssuePays(w: World, s: Harness, x: AgentId)
    ensures PaysItsWay(s, Issue(w, s), x)
  {
    TimesAppend(s.issued, [w.draw(s.counter)], x);
    TimesAppend(s.lasting, [w.draw(s.counter)], x);
  }

  lemma RecordNewPays(w: World, s: Harness, entry: HistoryEntry, x: AgentId)
    requires entry.id == w.draw(s.counter)
    ensures PaysItsWay(s, RecordNew(w, s, entry), x)
  {
    TimesAppend(s.issued, [entry.id], x);
    TimesAppend(s.lasting, [entry.id], x);
    assert HistoryIds(s.history + [entry]) == HistoryIds(s.history) + [entry.id];
    TimesAppend(HistoryIds(s.history), [entry.id], x);
  }

  lemma EditPays(s: Harness, compaction: bool, op: H.HistoryOp, x: AgentId)
    ensures PaysItsWay(s, Edit(s, compaction, op), x)
  {
    HistoryEditIds(s.history, s.window, compaction, op);
  }

  lemma HistoryStepPays(w: World, m: Mode, now: nat, s: Harness, op: ScriptOp, x: AgentId)
    ensures PaysItsWay(s, HistoryStep(w, m, now, s, op), x)
  {
    match op {
      case ReplaceEntry(id, description) => EditPays(s, m.compaction, H.Replace(id, description), x);
      case RemoveEntry(id) => EditPays(s, m.compaction, H.Remove(id), x);
      case AddEntry(text) => RecordNewPays(w, s, Summary(w.draw(s.counter), now, text), x);
      case _ =>
    }
  }

  lemma StorePays(s: Harness, op: ScriptOp, x: AgentId)
    ensures PaysItsWay(s, StoreStep(s, op), x)
  {}

  lemma TimerStepPays(w: World, now: nat, s: Harness, op: ScriptOp, x: AgentId)
    ensures PaysItsWay(s, TimerStep(w, now, s, op), x)
  {
    IssuePays(w, s, x);
  }

  lemma HarnessStepPays(w: World, s: Harness, op: ScriptOp, x: AgentId)
    ensures PaysItsWay(s, HarnessStep(w, s, op), x)
  {
    IssuePays(w, s, x);
  }

  lemma StepPaysItsWay(w: World, m: Mode, now: nat, s: Harness, op: ScriptOp, x: AgentId)
    ensures PaysItsWay(s, StateStep(w, m, now, s, op), x)
  {
    if OnStores(op) {
      StorePays(s, op, x);
    } else if OnTimers(op) {
      TimerStepPays(w, now, s, op, x);
    } else if OnHistory(op) {
      HistoryStepPays(w, m, now, s, op, x);
    } else {
      HarnessStepPays(w, s, op, x);
    }
  }

  lemma {:induction false} ExecPaysItsWay(w: World, m: Mode, now: nat, t: Txn, ops: seq<ScriptOp>, x: AgentId)
    ensures PaysItsWay(t.s, Exec(w, m, now, t, ops).s, x)
  {
    if ops != [] {
      ExecPaysItsWay(w, m, now, t, ops[..|ops| - 1], x);
      StepPaysItsWay(w, m, now, Exec(w, m, now, t, ops[..|ops| - 1]).s, ops[|ops| - 1], x);
    }
  }

  // ---- The stages of the commit ----

  lemma LaunchOneSound(w: World, o: Origin, k: Kernel, req: LaunchRequest, now: nat, x: AgentId)
    requires Sound(w, o, k.s, x, 0)
    ensures Sound(w, o, LaunchOne(w, k, req, now).s, x, 0)
  {
    var status := Failed("spawn failed");
    var refused := k.(log := k.log + [Refused(req.pid)]);
    StatusKeeps(o, refused, req.pid, status, x, 0);
    PushNewSound(w, o, Mark(refused, req.pid, status), req.failPrio, ProcessFailed(req.pid, "spawn failed", None, req.description), [], now, x);
  }

  lemma {:induction false} LaunchAllSound(w: World, o: Origin, k: Kernel, reqs: seq<LaunchRequest>, now: nat, x: AgentId)
    requires Sound(w, o, k.s, x, 0)
    ensures Sound(w, o, LaunchAll(w, k, reqs, now).s, x, 0)
  {
    if reqs != [] {
      LaunchAllSound(w, o, k, reqs[..|reqs| - 1], now, x);
      LaunchOneSound(w, o, LaunchAll(w, k, reqs[..|reqs| - 1], now), reqs[|reqs| - 1], now, x);
    }
  }

  lemma {:induction false} ReportAllSound(w: World, o: Origin, k: Kernel, reports: seq<F.Report>, now: nat, x: AgentId)
    requires Sound(w, o, k.s, x, 0)
    ensures Sound(w, o, ReportAll(w, k, reports, now).s, x, 0)
  {
    if reports != [] {
      ReportAllSound(w, o, k, reports[..|reports| - 1], now, x);
      var r := reports[|reports| - 1];
      PushNewSound(w, o, ReportAll(w, k, reports[..|reports| - 1], now), 7, ChildAgentCompleted(r.name, false, ReportText(r)), [], now, x);
    }
  }

  lemma ForkedSound(w: World, o: Origin, k: Kernel, p: F.Progress, names: seq<string>, now: nat, x: AgentId)
    requires Sound(w, o, k.s, x, 0)
    ensures Sound(w, o, Forked(w, k, p, names, now).s, x, 0)
  {
    RecordNewSound(w, o, k.s, SystemAlert(w.draw(k.s.counter), now, ForkAlert(names)), x);
  }

  lemma ApplyForkSound(w: World, o: Origin, k: Kernel, out: F.Outcome, names: seq<string>, now: nat, x: AgentId)
    requires Sound(w, o, k.s, x, 0)
    ensures Sound(w, o, ApplyFork(w, k, out, names, now).s, x, 0)
  {
    match out {
      case Rejected(_) => PushNewSound(w, o, UseChannels(k, |names|), 7, ForkFailure(), [], now, x);
      case Accepted(p) =>
        ForkedSound(w, o, k, p, names, now, x);
        ReportAllSound(w, o, Forked(w, k, p, names, now), p.reports, now, x);
    }
  }

  lemma ForkOneSound(w: World, o: Origin, c: Config, k: Kernel, names: seq<string>, now: nat, x: AgentId)
    requires Sound(w, o, k.s, x, 0)
    ensures Sound(w, o, ForkOne(w, c, k, names, now).s, x, 0)
  {
    var out := F.Fork(c.maxChildren, w.clientFails, c.lineage, k.registry, k.active, k.nextChannel, names);
    ApplyForkSound(w, o, k, out, names, now, x);
  }

  lemma {:induction false} ForkAllSound(w: World, o: Origin, c: Config, k: Kernel, forks: seq<seq<string>>, between: R.Between, now: nat, x: AgentId)
    requires Sound(w, o, k.s, x, 0)
    ensures Sound(w, o, ForkAll(w, c, k, forks, between, now).s, x, 0)
  {
    if forks != [] {
      ForkAllSound(w, o, c, k, forks[..|forks| - 1], between, now, x);
      var n := |forks| - 1;
      ForkOneSound(w, o, c, LetOthers(ForkAll(w, c, k, forks[..n], between, now), R.Before(between, n)), forks[n], now, x);
    }
  }

  lemma InstallSound(w: World, o: Origin, k: Kernel, s: Harness, x: AgentId)
    requires Sound(w, o, s, x, 0)
    ensures Sound(w, o, Install(k, s).s, x, 0)
  {
    assert Balanced(s.stats - (Names(k.s.hooks) - Names(s.hooks)));
  }

  lemma CommitWorkSound(w: World, o: Origin, c: Config, k: Kernel, t: Txn, resp: Response, now: nat, x: AgentId)
    requires Sound(w, o, t.s, x, 0)
    ensures Sound(w, o, CommitWork(w, c, k, t, resp, now).s, x, 0)
  {
    InstallSound(w, o, k, t.s, x);
    LaunchAllSound(w, o, Install(k, t.s), t.fx.launches, now, x);
    var killed := KillChildren(LaunchAll(w, Install(k, t.s), t.fx.launches, now), t.fx.childKills, resp.others.killing);
    PushNewSound(w, o, killed, 10, View(t.fx.views), [], now, x);
    ForkAllSound(w, o, c, QueueView(w, killed, t.fx.views, now), t.fx.forks, resp.others.forking, now, x);
  }

  lemma {:induction false} DequeueAllSound(w: World, o: Origin, s: Harness, ids: seq<AgentId>, x: AgentId)
    requires Sound(w, o, s, x, 0)
    ensures Sound(w, o, DequeueAll(s, ids), x, 0)
  {
    if ids != [] {
      DequeueAllSound(w, o, s, ids[..|ids| - 1], x);
      DequeueSound(w, o, DequeueAll(s, ids[..|ids| - 1]), ids[|ids| - 1], x);
    }
  }

  lemma CompactionFinishedSound(w: World, o: Origin, s: Harness, run: Script, now: nat, x: AgentId)
    requires Sound(w, o, s, x, 0)
    ensures var t := Execute(w, Mode(true, 0), now, s, run);
            Sound(w, o, BroughtBack(s, t.s), x, 0)
  {
    ExecuteSound(w, Mode(true, 0), now, o, s, run, x);
    ExecPaysItsWay(w, Mode(true, 0), now, Txn(s, NO_EFFECTS), run.ops, x);
  }

  lemma RunCompactionSound(w: World, o: Origin, k: Kernel, run: Script, now: nat, x: AgentId)
    requires Sound(w, o, k.s, x, 0)
    ensures Sound(w, o, RunCompaction(w, k, run, now).s, x, 0)
  {
    match run.ending {
      case Aborted(error) =>
        RecordNewSound(w, o, k.s, Execution(w.draw(k.s.counter), now, "compact()", ErrorOutput(error), true), x);
      case Finished(_, _) =>
        CompactionFinishedSound(w, o, k.s, run, now, x);
        var t := Execute(w, Mode(true, 0), now, k.s, run);
        var s := BroughtBack(k.s, t.s);
        DequeueAllSound(w, o, s, CompactionIds(s.queue), x);
    }
  }

  lemma CommitRestSound(w: World, o: Origin, c: Config, k: Kernel, fx: Effects, resp: Response, now: nat, x: AgentId)
    requires Sound(w, o, k.s, x, 0)
    ensures Sound(w, o, CommitRest(w, c, k, fx, resp, now).s, x, 0)
  {
    var sent := Sent(k, fx, resp);
    TriggerSound(w, o, sent, now, x);
    RunCompactionSound(w, o, AppendScript(HonourRequest(w, c, sent, fx.requested, now), fx.appends), resp.compactionRun, now, x);
  }

  lemma DeferredSound(w: World, o: Origin, k: Kernel, fx: Effects, now: nat, x: AgentId)
    requires Sound(w, o, k.s, x, 0)
    ensures Sound(w, o, Deferred(w, k, fx, now).s, x, 0)
  {
    ApplyEventsSound(w, o, k.(inbox := []), k.inbox, now, x);
  }

  lemma ConcludeSound(w: World, o: Origin, k: Kernel, code: string, output: string, isError: bool, now: nat, x: AgentId)
    requires Sound(w, o, k.s, x, 0)
    ensures Sound(w, o, Conclude(w, k, code, output, isError, now).s, x, 0)
  {
    RecordNewSound(w, o, k.s, Execution(w.draw(k.s.counter), now, code, output, isError), x);
  }

  lemma CommittedSound(w: World, o: Origin, c: Config, k: Kernel, t: Txn, resp: Response, now: nat, x: AgentId)
    requires Sound(w, o, t.s, x, 0) && resp.script.ending.Finished?
    ensures Sound(w, o, Recorded(w, Deferred(w, Commit(w, c, k, t, resp, now), t.fx, now), resp, now).s, x, 0)
  {
    var worked, committed := CommitWork(w, c, k, t, resp, now), Commit(w, c, k, t, resp, now);
    CommitWorkSound(w, o, c, k, t, resp, now, x);
    CommitRestSound(w, o, c, worked, t.fx, resp, now, x);
    DeferredSound(w, o, committed, t.fx, now, x);
    ConcludeSound(w, o, Deferred(w, committed, t.fx, now), resp.code, resp.script.ending.stdout, false, now, x);
  }

  lemma TurnSound(w: World, o: Origin, c: Config, k: Kernel, resp: Response, now: nat, x: AgentId)
    requires Sound(w, o, k.s, x, 0)
    ensures Sound(w, o, Turn(w, c, k, resp, now).s, x, 0)
  {
    var t := Run(w, c, k, resp, now);
    var begun := Prepared(Begin(k, resp), resp, t.fx);
    match Failure(w, c, k, resp, now) {
      case Some(error) => ConcludeSound(w, o, begun, resp.code, ErrorOutput(error), true, now, x);
      case None =>
        ExecuteSound(w, Mode(k.compaction.active, c.depth), now, o, Begin(k, resp).s, resp.script, x);
        CommittedSound(w, o, c, begun, t, resp, now, x);
    }
  }
}
