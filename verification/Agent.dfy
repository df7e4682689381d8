/** The agent loop itself: the state it owns, updated step by step (src/agent_loop.rs, `AgentLoop`). */
module Agents {
  import opened Base
  import opened Ids
  import opened Items
  import opened Kernels
  import opened Turns
  import Q = WorkQueues
  import H = Histories
  import T = Timers
  import HT = HookTables
  import R = Registries
  import F = Forks
  import S = SseParsing

  class AgentLoop {
    const w: World
    const c: Config
    const forker: F.Forker
    var state: Harness
    var compaction: Compaction
    var turnCounter: nat
    var doneResult: map<string, string>
    var killed: bool
    var inbox: seq<Event>
    var log: seq<Effect>
    var crashed: bool

    constructor (w: World, c: Config, forker: F.Forker, state: Harness)
      requires forker.max == c.maxChildren && forker.lineage == c.lineage
      ensures Valid() && this.w == w && this.c == c && this.forker == forker
      ensures View() == Kernel(state, Compaction.Compaction(false, ""), 0, map[], false,
                               forker.registry.agents, forker.active, forker.nextChannel, [], [], false)
    {
      this.w, this.c, this.forker, this.state := w, c, forker, state;
      compaction := Compaction.Compaction(false, "");
      turnCounter, doneResult, killed, inbox, log, crashed := 0, map[], false, [], [], false;
    }

    ghost predicate Valid() {
      forker.max == c.maxChildren && forker.lineage == c.lineage
    }

    ghost function View(): Kernel
      reads this, forker, forker.registry
    {
      Kernel(state, compaction, turnCounter, doneResult, killed, forker.registry.agents, forker.active,
             forker.nextChannel, inbox, log, crashed)
    }

    // ---- The pipeline in front of the queue ----

    method NextId() returns (id: AgentId)
      modifies this`state
      ensures View() == old(View()).(s := Issue(w, old(state))) && id == w.draw(old(state.counter))
    {
      id := w.draw(state.counter);
      state := state.(counter := state.counter + 1, issued := state.issued + [id], lasting := state.lasting + [id]);
    }

    /** Runs a hook's calls on its own copy of memory and id generator. */
    method RunHookOps(ops: seq<HookOp>) returns (t: HookTxn)
      ensures t == HookRun(w, OpenHook(state), ops)
    {
      t := OpenHook(state);
      for i := 0 to |ops|
        invariant t == HookRun(w, OpenHook(state), ops[..i])
      {
        assert ops[..i + 1][..i] == ops[..i];
        t := HookStep(w, t, ops[i]);
      }
      assert ops[..|ops|] == ops;
    }

    method CommitHook(t: HookTxn)
      modifies this`state, this`log
      ensures View() == ApplyHookCommit(w, old(View()), t)
    {
      state := state.(memory := t.memory, priorities := t.priorities, counter := t.counter,
                      issued := state.issued + t.drawn, lasting := state.lasting + t.drawn, processes := state.processes + t.processes);
      log := log + Launches(w, t.processes);
      log := log + t.messages;
    }

    method QueueException(item: WorkItem, hook: string, error: string, now: nat)
      modifies this`state
      ensures View() == PushException(w, old(View()), item, hook, error, now)
    {
      var id := NextId();
      state := Enqueue(state, ExceptionItem(id, item, hook, error, now));
    }

    /** The raising arm. The exception item is queued under an id of the old generator; then the commit replaces it. */
    method QueueRaised(t: HookTxn, item: WorkItem, hook: string, error: string, now: nat)
      modifies this`state, this`log
      ensures View() == PushRaised(w, old(View()), t, item, hook, error, now)
    {
      if w.commitFirst {
        CommitHook(t);
        QueueException(item, hook, error, now);
      } else {
        var lasting := state.lasting;
        QueueException(item, hook, error, now);
        state := TakenBack(state, lasting);
        CommitHook(t);
      }
    }

    method SettleItem(hook: Hook, plan: Plan, item: WorkItem, now: nat)
      modifies this`state, this`log
      ensures View() == Settle(w, old(View()), hook, plan, item, now)
    {
      match plan {
        case InitFailed(error) =>
          state := state.(stats := Tally(state.stats, hook.name, Raised));
          QueueException(item, hook.name, error, now);
        case Ran(ops, ending) =>
          var t := RunHookOps(ops);
          match ending {
            case Consume =>
              state := state.(stats := Tally(state.stats, hook.name, Consumed));
              CommitHook(t);
            case Pass(priority, note) =>
              state := state.(stats := Tally(state.stats, hook.name, PassedOn));
              CommitHook(t);
              state := Enqueue(state, Annotated(item, hook.name, priority, note));
            case Raise(error) =>
              state := state.(stats := Tally(state.stats, hook.name, Raised));
              QueueRaised(t, item, hook.name, error, now);
          }
      }
    }

    method HandleHooksCommand(cmd: string, chatId: string)
      modifies this`state, this`log
      ensures View() == HooksCommand(old(View()), cmd, chatId)
    {
      var reply: HookReply;
      if cmd == "list" {
        reply := Listing(state.hooks);
      } else if DISABLE <= cmd {
        var before := |state.hooks|;
        var name := cmd[|DISABLE|..];
        state := state.(hooks := HT.Without(state.hooks, name));
        reply := if |state.hooks| < before then Disabled(name) else NoSuchHook(name);
      } else if cmd == "clear" {
        reply := Cleared(|state.hooks|);
        state := state.(hooks := [], stats := map[]);
      } else {
        reply := Usage;
      }
      log := log + [Reply(chatId, reply)];
    }

    method Push(item: WorkItem, now: nat)
      modifies this`state, this`log
      ensures View() == PushItem(w, old(View()), item, now)
    {
      if IsHooksCommand(item) {
        HandleHooksCommand(S.Trim(item.kind.content[|HOOKS_PREFIX|..]), item.kind.chatId);
        return;
      }
      if state.hooks == [] {
        state := Enqueue(state, item);
        return;
      }
      var matched := Matched(w, state, item);
      if matched.None? {
        state := Enqueue(state, item);
      } else {
        var hook := state.hooks[matched.value];
        SettleItem(hook, w.plan(hook, item, state.memory), item, now);
      }
    }

    method PushFresh(priority: u8, kind: ItemKind, attachments: seq<string>, now: nat)
      modifies this`state, this`log
      ensures View() == PushNew(w, old(View()), priority, kind, attachments, now)
    {
      var id := NextId();
      Push(WorkItem(id, priority, now, kind, attachments), now);
    }

    // ---- Events, timers, telemetry ----

    method Note(e: Event)
      modifies this`state, forker`active
      ensures View() == Noted(old(View()), e)
    {
      match e {
        case Exited(pid, exitCode) => state := state.(processes := SetStatus(state.processes, pid, Completed(exitCode)));
        case Crashed(pid, error) => state := state.(processes := SetStatus(state.processes, pid, Failed(error)));
        case ChildCompleted(_, _, _, _) => forker.active := SaturatingPred(forker.active);
        case _ =>
      }
    }

    method Apply(e: Event, now: nat)
      modifies this, forker`active
      ensures View() == ApplyEvent(w, old(View()), e, now)
    {
      if crashed {
        return;
      }
      if e.KillSignal? {
        killed := true;
        return;
      }
      if !Readable(w, e) {
        Note(e);
        crashed := true;
        return;
      }
      var priority := PriorityOf(state.processes, e);
      var kind := KindOf(w, state.processes, e);
      Note(e);
      PushFresh(priority, kind, AttachmentsOf(e), now);
    }

    method ApplyAll(events: seq<Event>, now: nat)
      modifies this, forker`active
      ensures View() == ApplyEvents(w, old(View()), events, now)
    {
      for i := 0 to |events|
        invariant View() == ApplyEvents(w, old(View()), events[..i], now)
      {
        assert events[..i + 1][..i] == events[..i];
        Apply(events[i], now);
      }
      assert events[..|events|] == events;
    }

    method DrainEvents(now: nat)
      modifies this, forker`active
      ensures View() == Drain(w, old(View()), now)
    {
      var events := inbox;
      inbox := [];
      ApplyAll(events, now);
    }

    method FireTimers(now: nat)
      modifies this`state, this`log
      ensures View() == CheckTimers(w, old(View()), now)
    {
      var items := Firing(w, state, now);
      state := Fired(w, state, now);
      ghost var start := View();
      for i := 0 to |items|
        invariant View() == PushAll(w, start, items[..i], now)
      {
        assert items[..i + 1][..i] == items[..i];
        Push(items[i], now);
      }
      assert items[..|items|] == items;
    }

    method FlushHookTelemetry(now: nat)
      modifies this`state
      ensures View() == FlushTelemetry(w, old(View()), now)
    {
      if !AnyFired(state.stats) {
        return;
      }
      var message := w.telemetry(state.stats);
      var id := NextId();
      state := state.(history := state.history + [SystemAlert(id, now, message)]);
      state := state.(stats := map name | name in state.stats :: HookStats(0, 0, 0, 0));
    }

    method TriggerCompaction(now: nat)
      modifies this`state, this`compaction
      ensures View() == Trigger(w, old(View()), now)
    {
      compaction := Compaction.Compaction(true, "");
      var id := NextId();
      state := Enqueue(state, WorkItem(id, 10, now, ItemKind.Compaction, []));
    }

    method LookAtThreshold(now: nat)
      modifies this`state, this`compaction
      ensures View() == CheckThreshold(w, c, old(View()), now)
    {
      if c.canCompact && !compaction.active && state.lastTotal > c.compactAt {
        TriggerCompaction(now);
      }
    }

    // ---- The turn ----

    /** Runs a script call by call on a copy of the state. */
    method Interpret(m: Mode, now: nat, copied: Harness, script: Script) returns (t: Txn)
      ensures t == Execute(w, m, now, copied, script)
    {
      t := Txn(copied, NO_EFFECTS);
      ghost var start := t;
      for i := 0 to |script.ops|
        invariant t == Exec(w, m, now, start, script.ops[..i])
      {
        assert script.ops[..i + 1][..i] == script.ops[..i];
        t := ScriptStep(w, m, now, t, script.ops[i]);
      }
      assert script.ops[..|script.ops|] == script.ops;
      if m.compaction && script.ending.Finished? && script.ending.appended != "" {
        t := t.(fx := t.fx.(appends := [script.ending.appended]));
      }
    }

    method IsRegistered(name: string, meanwhile: seq<R.OthersOp>) returns (known: bool)
      modifies forker.registry
      ensures forker.registry.agents == R.OthersDoAll(old(forker.registry.agents), meanwhile)
      ensures known <==> name in forker.registry.agents
    {
      forker.registry.LetOthers(meanwhile);
      known := forker.registry.Exists(name);
    }

    /** Looks recipients up in order until one is missing; others have the registry before each look. */
    method FindMissing(notes: seq<AgentNote>, between: R.Between, ghost views: seq<R.Registry>) returns (n: nat)
      requires views == R.Views(forker.registry.agents, between, |notes|)
      modifies forker.registry
      ensures n <= |notes| && forall i :: 0 <= i < n ==> notes[i].recipient in views[i]
      ensures n < |notes| ==> notes[n].recipient !in views[n]
      ensures forker.registry.agents == R.After(old(forker.registry.agents), views, if n < |notes| then n + 1 else n)
    {
      ghost var start := forker.registry.agents;
      n := 0;
      while n < |notes|
        invariant n <= |notes| && forker.registry.agents == R.After(start, views, n)
        invariant forall i :: 0 <= i < n ==> notes[i].recipient in views[i]
      {
        R.ViewNext(start, between, |notes|, n);
        var known := IsRegistered(notes[n].recipient, R.Before(between, n));
        if !known {
          return;
        }
        n := n + 1;
      }
    }

    /** Whether every recipient is known, before anything is committed. */
    method Validate(notes: seq<AgentNote>, between: R.Between) returns (unknown: Option<string>)
      modifies forker.registry
      ensures unknown == Unknown(old(forker.registry.agents), notes, between)
      ensures forker.registry.agents == LookedUp(old(forker.registry.agents), notes, between)
    {
      ghost var start := forker.registry.agents;
      var n := FindMissing(notes, between, R.Views(start, between, |notes|));
      MissingAt(start, notes, between, n);
      R.AfterIsAsOf(start, between, |notes|, if n < |notes| then n + 1 else n);
      unknown := if n < |notes| then Some(notes[n].recipient) else None;
    }

    method InstallCopy(copied: Harness)
      modifies this`state
      ensures View() == Install(old(View()), copied)
    {
      var oldNames := Names(state.hooks);
      state := copied;
      state := state.(stats := state.stats - (oldNames - Names(state.hooks)));
    }

    method LaunchProcess(req: LaunchRequest, now: nat)
      modifies this`state, this`log
      ensures View() == LaunchOne(w, old(View()), req, now)
    {
      if w.launchFails(req.pid) {
        log := log + [Refused(req.pid)];
        state := state.(processes := SetStatus(state.processes, req.pid, Failed("spawn failed")));
        PushFresh(req.failPrio, ProcessFailed(req.pid, "spawn failed", None, req.description), [], now);
      } else {
        log := log + [Launched(req.pid)];
      }
    }

    method LaunchProcesses(reqs: seq<LaunchRequest>, now: nat)
      modifies this`state, this`log
      ensures View() == LaunchAll(w, old(View()), reqs, now)
    {
      for i := 0 to |reqs|
        invariant View() == LaunchAll(w, old(View()), reqs[..i], now)
      {
        assert reqs[..i + 1][..i] == reqs[..i];
        LaunchProcess(reqs[i], now);
      }
      assert reqs[..|reqs|] == reqs;
    }

    method SignalChildren(names: seq<string>, between: R.Between)
      modifies this`log, forker.registry
      ensures View() == KillChildren(old(View()), names, between)
    {
      ghost var start := forker.registry.agents;
      ghost var views := R.Views(start, between, |names|);
      var sent: seq<Effect> := [];
      for i := 0 to |names|
        invariant |sent| == i && log == old(log) && forker.registry.agents == R.After(start, views, i)
        invariant forall j :: 0 <= j < i ==> sent[j] == KillSent(names[j], R.Route(views[j], names[j]))
      {
        R.ViewNext(start, between, |names|, i);
        forker.registry.LetOthers(R.Before(between, i));
        var delivery := forker.registry.SendTo(names[i]);
        sent := sent + [KillSent(names[i], delivery)];
      }
      R.AfterIsAsOf(start, between, |names|, |names|);
      assert sent == SentKills(start, names, between);
      log := log + sent;
    }

    method ReportChildren(reports: seq<F.Report>, now: nat)
      modifies this`state, this`log
      ensures View() == ReportAll(w, old(View()), reports, now)
    {
      for i := 0 to |reports|
        invariant View() == ReportAll(w, old(View()), reports[..i], now)
      {
        assert reports[..i + 1][..i] == reports[..i];
        PushFresh(7, ChildAgentCompleted(reports[i].name, false, ReportText(reports[i])), [], now);
      }
      assert reports[..|reports|] == reports;
    }

    method RecordFork(spawned: seq<F.Spawn>, names: seq<string>, now: nat)
      modifies this`state, this`log
      ensures View() == old(View()).(log := old(log) + Started(spawned),
                                     s := RecordNew(w, old(state), SystemAlert(w.draw(old(state.counter)), now, ForkAlert(names))))
    {
      var id := NextId();
      state := state.(history := state.history + [SystemAlert(id, now, ForkAlert(names))]);
      log := log + Started(spawned);
    }

    /** What the parent does with the forker's answer. */
    method AnswerFork(collisions: seq<string>, spawned: seq<F.Spawn>, reports: seq<F.Report>, names: seq<string>, now: nat)
      modifies this`state, this`log
      ensures collisions != [] ==> View() == PushNew(w, old(View()), 7, ForkFailure(), [], now)
      ensures collisions == [] ==>
                View() == ReportAll(w, old(View()).(log := old(log) + Started(spawned),
                                                    s := RecordNew(w, old(state), SystemAlert(w.draw(old(state.counter)), now, ForkAlert(names)))),
                                    reports, now)
    {
      if collisions != [] {
        PushFresh(7, ForkFailure(), [], now);
        return;
      }
      RecordFork(spawned, names, now);
      ReportChildren(reports, now);
    }

    method ForkRequest(names: seq<string>, now: nat)
      requires Valid()
      modifies this`state, this`log, forker`active, forker`nextChannel, forker.registry
      ensures View() == ForkOne(w, c, old(View()), names, now)
    {
      ghost var k := View();
      ghost var out := F.Fork(c.maxChildren, w.clientFails, c.lineage, k.registry, k.active, k.nextChannel, names);
      var collisions, spawned, reports := forker.ForkChildren(names, w.clientFails);
      assert out.Rejected? ==> View() == UseChannels(k, |names|);
      assert out.Accepted? ==> View() == UseChannels(k, |names|).(registry := out.progress.registry, active := out.progress.active);
      AnswerFork(collisions, spawned, reports, names, now);
    }

    method ForkRequests(forks: seq<seq<string>>, between: R.Between, now: nat)
      requires Valid()
      modifies this`state, this`log, forker`active, forker`nextChannel, forker.registry
      ensures View() == ForkAll(w, c, old(View()), forks, between, now)
    {
      for i := 0 to |forks|
        invariant View() == ForkAll(w, c, old(View()), forks[..i], between, now)
      {
        assert forks[..i + 1][..i] == forks[..i];
        forker.registry.LetOthers(R.Before(between, i));
        ForkRequest(forks[i], now);
      }
      assert forks[..|forks|] == forks;
    }

    method RouteNotes(notes: seq<AgentNote>, between: R.Between)
      modifies this`log, forker.registry
      ensures View() == Told(old(View()), notes, between)
    {
      ghost var start := forker.registry.agents;
      ghost var views := R.Views(start, between, |notes|);
      var sent: seq<Effect> := [];
      for i := 0 to |notes|
        invariant |sent| == i && log == old(log) && forker.registry.agents == R.After(start, views, i)
        invariant forall j :: 0 <= j < i ==> sent[j] == RoutedBy(views[j], notes[j])
      {
        R.ViewNext(start, between, |notes|, i);
        forker.registry.LetOthers(R.Before(between, i));
        var delivery := forker.registry.SendTo(notes[i].recipient);
        sent := sent + [Routed(notes[i].recipient, delivery, notes[i].content, notes[i].priority)];
      }
      R.AfterIsAsOf(start, between, |notes|, |notes|);
      assert sent == RoutedNotes(start, notes, between);
      log := log + sent;
    }

    method DequeueEach(ids: seq<AgentId>)
      modifies this`state
      ensures View() == old(View()).(s := DequeueAll(old(state), ids))
    {
      for i := 0 to |ids|
        invariant View() == old(View()).(s := DequeueAll(old(state), ids[..i]))
      {
        assert ids[..i + 1][..i] == ids[..i];
        state := Dequeue(state, ids[i]);
      }
      assert ids[..|ids|] == ids;
    }

    method FindCompactionItems() returns (ids: seq<AgentId>)
      ensures ids == CompactionIds(state.queue)
    {
      ids := [];
      for i := 0 to |state.queue|
        invariant ids == CompactionIds(state.queue[..i])
      {
        assert state.queue[..i + 1][..i] == state.queue[..i];
        if state.queue[i].kind.Compaction? { ids := ids + [state.queue[i].id]; }
      }
      assert state.queue[..|state.queue|] == state.queue;
    }

    /** Runs the accumulated compaction script; on success history and id counter are taken from the copy. */
    method ExecuteCompaction(run: Script, now: nat)
      modifies this`state, this`compaction
      ensures View() == RunCompaction(w, old(View()), run, now)
    {
      var t := Interpret(Mode(true, 0), now, state, run);
      match run.ending {
        case Aborted(error) =>
          var id := NextId();
          state := state.(history := state.history + [Execution(id, now, "compact()", ErrorOutput(error), true)]);
        case Finished(_, _) =>
          state := BroughtBack(state, t.s);
          var items := FindCompactionItems();
          DequeueEach(items);
          compaction := Compaction.Compaction(false, "");
      }
    }

    method AppendToScript(appends: seq<string>)
      modifies this`compaction
      ensures View() == AppendScript(old(View()), appends)
    {
      for i := 0 to |appends|
        invariant compaction == old(compaction).(script := Appended(old(compaction).script, appends[..i]))
      {
        assert appends[..i + 1][..i] == appends[..i];
        compaction := compaction.(script := compaction.script + appends[i]);
      }
      assert appends[..|appends|] == appends;
    }

    method ApplyWork(t: Txn, resp: Response, now: nat)
      requires Valid()
      modifies this`state, this`log, forker`active, forker`nextChannel, forker.registry
      ensures View() == CommitWork(w, c, old(View()), t, resp, now)
    {
      InstallCopy(t.s);
      LaunchProcesses(t.fx.launches, now);
      SignalChildren(t.fx.childKills, resp.others.killing);
      if t.fx.views != [] {
        PushFresh(10, ItemKind.View(t.fx.views), [], now);
      }
      ForkRequests(t.fx.forks, resp.others.forking, now);
    }

    method SendAll(fx: Effects, resp: Response)
      modifies this`log, forker.registry
      ensures View() == Sent(old(View()), fx, resp)
    {
      RouteNotes(fx.notes, resp.others.telling);
      ghost var told := log;
      log := log + fx.messages;
      log := log + PinEffects(fx.pins, fx.unpins);
      assert log == told + (fx.messages + PinEffects(fx.pins, fx.unpins));
    }

    method ApplyRest(fx: Effects, resp: Response, now: nat)
      modifies this`state, this`log, this`compaction, forker.registry
      ensures View() == CommitRest(w, c, old(View()), fx, resp, now)
    {
      SendAll(fx, resp);
      LookAtRequest(fx.requested, now);
      AppendToScript(fx.appends);
      LookAtCompact(fx.compactCalled, resp.compactionRun, now);
    }

    method LookAtRequest(requested: bool, now: nat)
      modifies this`state, this`compaction
      ensures View() == HonourRequest(w, c, old(View()), requested, now)
    {
      if requested && c.canCompact && !compaction.active {
        TriggerCompaction(now);
      }
    }

    method LookAtCompact(called: bool, run: Script, now: nat)
      modifies this`state, this`compaction
      ensures View() == HonourCompact(w, old(View()), called, run, now)
    {
      if called && compaction.active {
        ExecuteCompaction(run, now);
      }
    }

    /** Validates, then commits; on an error nothing has been applied. */
    method ApplySideEffects(t: Txn, resp: Response, now: nat) returns (unknown: Option<string>)
      requires Valid()
      modifies this, forker`active, forker`nextChannel, forker.registry
      ensures unknown == Unknown(old(forker.registry.agents), t.fx.notes, resp.others.validating)
      ensures var looked := WithRegistry(old(View()), LookedUp(old(forker.registry.agents), t.fx.notes, resp.others.validating));
              View() == if unknown.Some? then looked else Commit(w, c, looked, t, resp, now)
    {
      unknown := Validate(t.fx.notes, resp.others.validating);
      if unknown.None? {
        ApplyWork(t, resp, now);
        ApplyRest(t.fx, resp, now);
      }
    }

    /** Waits, then kills processes, writes to them, and closes their input; if the agent survives the waiting. */
    method PerformDeferred(fx: Effects, now: nat)
      modifies this, forker`active
      ensures View() == Deferred(w, old(View()), fx, now)
    {
      if Blocks(w, fx.launches) {
        DrainEvents(now);
      }
      if !crashed {
        log := log + Performed(fx);
      }
    }

    method RecordTurn(code: string, output: string, isError: bool, now: nat)
      modifies this`state
      ensures View() == Conclude(w, old(View()), code, output, isError, now)
    {
      var id := NextId();
      state := state.(history := state.history + [Execution(id, now, code, output, isError)]);
    }

    method CountUsage(resp: Response)
      modifies this`state, this`turnCounter
      ensures View() == Begin(old(View()), resp)
    {
      state := state.(lastInput := resp.inputTokens, lastTotal := resp.inputTokens + resp.cacheWrites + resp.cacheReads);
      turnCounter := turnCounter + 1;
    }

    /** A script that ended well: its result is kept, its copy validated and committed, and the turn recorded. */
    method FinishTurn(t: Txn, resp: Response, now: nat) returns (done: bool)
      requires Valid() && resp.script.ending.Finished?
      modifies this, forker`active, forker`nextChannel, forker.registry
      ensures done <==> Unknown(old(forker.registry.agents), t.fx.notes, resp.others.validating).None? && t.fx.doneCalled && !crashed
      ensures var begun := Prepared(old(View()), resp, t.fx);
              View() == match Unknown(old(forker.registry.agents), t.fx.notes, resp.others.validating)
                        case Some(name) => Conclude(w, begun, resp.code, ErrorOutput(UnknownAgent(name)), true, now)
                        case None => Recorded(w, Deferred(w, Commit(w, c, begun, t, resp, now), t.fx, now), resp, now)
      ensures Unknown(old(forker.registry.agents), t.fx.notes, resp.others.validating).Some? ==> crashed == old(crashed)
    {
      if t.fx.doneCalled {
        doneResult := t.fx.doneResult;
      }
      var unknown := ApplySideEffects(t, resp, now);
      if unknown.Some? {
        RecordTurn(resp.code, ErrorOutput(UnknownAgent(unknown.value)), true, now);
        return false;
      }
      PerformDeferred(t.fx, now);
      if crashed {
        return false;
      }
      RecordTurn(resp.code, resp.script.ending.stdout, false, now);
      done := t.fx.doneCalled;
    }

    /** One turn, from the model's reply on. */
    method RunTurn(resp: Response, now: nat) returns (done: bool)
      requires Valid()
      modifies this, forker`active, forker`nextChannel, forker.registry
      ensures View() == Turn(w, c, old(View()), resp, now)
      ensures done <==> IsDone(w, c, old(View()), resp, now)
    {
      CountUsage(resp);
      var t := Interpret(Mode(compaction.active, c.depth), now, state, resp.script);
      if resp.script.ending.Aborted? {
        RecordTurn(resp.code, ErrorOutput(resp.script.ending.error), true, now);
        done := false;
      } else {
        done := FinishTurn(t, resp, now);
      }
    }

    /** One pass of the loop up to the point where it waits, exits or takes a turn. */
    method Pass(now: nat, shutdown: bool, idle: bool) returns (decision: Decision)
      modifies this, forker`active
      ensures View() == Wake(w, c, old(View()), now, shutdown, idle)
      ensures decision == Decide(c, Look(w, c, old(View()), now), shutdown)
      ensures decision == Proceed <==>
                !crashed && !shutdown && state.queue != [] && !killed && (c.maxTurns.None? || turnCounter < c.maxTurns.value)
      ensures decision == ExitMaxTurns <==>
                !crashed && !shutdown && state.queue != [] && !killed && c.maxTurns.Some? && c.maxTurns.value <= turnCounter
      ensures decision == ExitKilled <==> !crashed && !shutdown && state.queue != [] && killed
      ensures decision == Wait <==> !crashed && !shutdown && state.queue == []
    {
      DrainEvents(now);
      if crashed {
        return Dead;
      }
      FireTimers(now);
      LookAtThreshold(now);
      if shutdown {
        return Shutdown;
      }
      if state.queue == [] {
        return Wait;
      }
      decision := DecideWork();
      if idle {
        FlushHookTelemetry(now);
      }
    }

    method DecideWork() returns (decision: Decision)
      requires state.queue != [] && !crashed
      ensures decision == Decide(c, View(), false)
    {
      if killed {
        decision := ExitKilled;
      } else if c.maxTurns.Some? && turnCounter >= c.maxTurns.value {
        decision := ExitMaxTurns;
      } else {
        decision := Proceed;
      }
    }
  }
}
