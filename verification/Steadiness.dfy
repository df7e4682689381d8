/** What feeding the queue leaves alone: the history only grows, and compaction is not touched. */
module Steadiness {
  import opened Base
  import opened Ids
  import opened Items
  import opened Kernels
  import opened Ledgers
  import opened Turns
  import Q = WorkQueues
  import H = Histories
  import T = Timers
  import HT = HookTables
  import R = Registries
  import F = Forks
  import S = SseParsing

  /** From `k` to `after`: entries and effects are only added, the counter does not fall, a kill or a crash is not taken back, and compaction, turns and results are as they were. */
  ghost predicate Steady(k: Kernel, after: Kernel) {
    && k.s.history <= after.s.history
    && after.s.window == k.s.window
    && after.s.lastTotal == k.s.lastTotal
    && k.s.raises <= after.s.raises
    && k.s.counter <= after.s.counter
    && CompactionIds(after.s.queue) == CompactionIds(k.s.queue)
    && after.compaction == k.compaction
    && (k.killed ==> after.killed) && (k.crashed ==> after.crashed)
    && k.log <= after.log
    && after.turn == k.turn
    && after.doneResult == k.doneResult
  }

  lemma {:induction false} CompactionIdsAppend(a: seq<WorkItem>, b: seq<WorkItem>)
    ensures CompactionIds(a + b) == CompactionIds(a) + CompactionIds(b)
  {
    if b == [] {
      assert a + b == a;
    } else {
      assert (a + b)[..|a + b| - 1] == a + b[..|b| - 1];
      CompactionIdsAppend(a, b[..|b| - 1]);
    }
  }

  lemma CompactionIdsOne(item: WorkItem)
    ensures CompactionIds([item]) == if item.kind.Compaction? then [item.id] else []
  {
    assert [item][..0] == [];
  }

  /** Inserting an item of another kind leaves the compaction items as they were. */
  lemma {:induction false} InsertOther(q: seq<WorkItem>, item: WorkItem)
    requires !item.kind.Compaction?
    ensures CompactionIds(Q.Insert(q, item)) == CompactionIds(q)
  {
    if q != [] && Q.Ahead(q[0], item) {
      InsertOther(q[1..], item);
      CompactionIdsAppend([q[0]], q[1..]);
      CompactionIdsAppend([q[0]], Q.Insert(q[1..], item));
      assert q == [q[0]] + q[1..];
    } else {
      CompactionIdsAppend([item], q);
      CompactionIdsOne(item);
    }
  }

  lemma CommandReplies(k: Kernel, cmd: string, chatId: string)
    ensures var after := HooksCommand(k, cmd, chatId);
            && |after.log| == |k.log| + 1
            && after == k.(s := k.s.(hooks := after.s.hooks, stats := after.s.stats), log := k.log + [after.log[|k.log|]])
  {}

  lemma ReplySteady(k: Kernel, hooks: seq<Hook>, stats: map<string, HookStats>, reply: Effect)
    ensures Steady(k, k.(s := k.s.(hooks := hooks, stats := stats), log := k.log + [reply]))
  {}

  lemma CommandSteady(k: Kernel, cmd: string, chatId: string)
    ensures Steady(k, HooksCommand(k, cmd, chatId))
  {
    var after := HooksCommand(k, cmd, chatId);
    CommandReplies(k, cmd, chatId);
    ReplySteady(k, after.s.hooks, after.s.stats, after.log[|k.log|]);
  }

  lemma EnqueueSteady(k: Kernel, item: WorkItem)
    requires !item.kind.Compaction?
    ensures Steady(k, k.(s := Enqueue(k.s, item)))
  {
    InsertOther(k.s.queue, item);
  }

  lemma ExceptionSteady(w: World, k: Kernel, item: WorkItem, hook: string, error: string, now: nat)
    ensures Steady(k, PushException(w, k, item, hook, error, now))
  {
    InsertOther(k.s.queue, ExceptionItem(w.draw(k.s.counter), item, hook, error, now));
  }

  lemma RaisedSteady(w: World, k: Kernel, t: HookTxn, item: WorkItem, hook: string, error: string, now: nat)
    requires k.s.counter <= t.counter
    ensures Steady(k, PushRaised(w, k, t, item, hook, error, now))
  {
    ExceptionSteady(w, k, item, hook, error, now);
    ExceptionSteady(w, ApplyHookCommit(w, k, t), item, hook, error, now);
  }

  lemma SettleSteady(w: World, k: Kernel, hook: Hook, plan: Plan, item: WorkItem, now: nat)
    requires !item.kind.Compaction?
    ensures Steady(k, Settle(w, k, hook, plan, item, now))
  {
    match plan {
      case InitFailed(error) =>
        ExceptionSteady(w, k.(s := k.s.(stats := Tally(k.s.stats, hook.name, Raised))), item, hook.name, error, now);
      case Ran(ops, ending) =>
        var t := HookRun(w, OpenHook(k.s), ops);
        HookDrawsInOrder(w, k.s, ops);
        match ending {
          case Consume =>
          case Pass(priority, note) => InsertOther(k.s.queue, Annotated(item, hook.name, priority, note));
          case Raise(error) =>
            RaisedSteady(w, k.(s := k.s.(stats := Tally(k.s.stats, hook.name, Raised))), t, item, hook.name, error, now);
        }
    }
  }

  lemma PushItemSteady(w: World, k: Kernel, item: WorkItem, now: nat)
    requires !item.kind.Compaction?
    ensures Steady(k, PushItem(w, k, item, now))
  {
    if IsHooksCommand(item) {
      CommandSteady(k, S.Trim(item.kind.content[|HOOKS_PREFIX|..]), item.kind.chatId);
    } else if k.s.hooks == [] || Matched(w, k.s, item).None? {
      EnqueueSteady(k, item);
    } else {
      var hook := k.s.hooks[Matched(w, k.s, item).value];
      SettleSteady(w, k, hook, w.plan(hook, item, k.s.memory), item, now);
    }
  }

  lemma PushNewSteady(w: World, k: Kernel, priority: u8, kind: ItemKind, attachments: seq<string>, now: nat)
    requires !kind.Compaction?
    ensures Steady(k, PushNew(w, k, priority, kind, attachments, now))
  {
    PushItemSteady(w, k.(s := Issue(w, k.s)), WorkItem(w.draw(k.s.counter), priority, now, kind, attachments), now);
  }

  lemma {:induction false} PushAllSteady(w: World, k: Kernel, items: seq<WorkItem>, now: nat)
    requires forall i :: 0 <= i < |items| ==> !items[i].kind.Compaction?
    ensures Steady(k, PushAll(w, k, items, now))
  {
    if items != [] {
      PushAllSteady(w, k, items[..|items| - 1], now);
      PushItemSteady(w, PushAll(w, k, items[..|items| - 1], now), items[|items| - 1], now);
    }
  }

  lemma {:induction false} FiredKinds(ts: seq<Timer>, n: nat, now: nat, draw: nat -> AgentId, counter: nat)
    requires n <= |ts|
    ensures forall item :: item in T.FiredUpTo(ts, n, now, draw, counter) ==> item.kind.TimerFired?
  {
    if n > 0 { FiredKinds(ts, n - 1, now, draw, counter); }
  }

  lemma CheckTimersSteady(w: World, k: Kernel, now: nat)
    ensures Steady(k, CheckTimers(w, k, now))
  {
    FiredKinds(k.s.timers, |k.s.timers|, now, w.draw, k.s.counter);
    PushAllSteady(w, k.(s := Fired(w, k.s, now)), Firing(w, k.s, now), now);
  }

  lemma ApplyEventSteady(w: World, k: Kernel, e: Event, now: nat)
    ensures Steady(k, ApplyEvent(w, k, e, now))
  {
    if !e.KillSignal? {
      PushNewSteady(w, Noted(k, e), PriorityOf(k.s.processes, e), KindOf(w, k.s.processes, e), AttachmentsOf(e), now);
    }
  }

  lemma {:induction false} ApplyEventsSteady(w: World, k: Kernel, events: seq<Event>, now: nat)
    ensures Steady(k, ApplyEvents(w, k, events, now))
  {
    if events != [] {
      ApplyEventsSteady(w, k, events[..|events| - 1], now);
      ApplyEventSteady(w, ApplyEvents(w, k, events[..|events| - 1], now), events[|events| - 1], now);
    }
  }

  lemma FlushTelemetrySteady(w: World, k: Kernel, now: nat)
    ensures Steady(k, FlushTelemetry(w, k, now))
  {}

  lemma LaunchOneSteady(w: World, k: Kernel, req: LaunchRequest, now: nat)
    ensures Steady(k, LaunchOne(w, k, req, now))
  {
    var failed := Mark(k.(log := k.log + [Refused(req.pid)]), req.pid, Failed("spawn failed"));
    PushNewSteady(w, failed, req.failPrio, ProcessFailed(req.pid, "spawn failed", None, req.description), [], now);
  }

  lemma {:induction false} LaunchAllSteady(w: World, k: Kernel, reqs: seq<LaunchRequest>, now: nat)
    ensures Steady(k, LaunchAll(w, k, reqs, now))
  {
    if reqs != [] {
      LaunchAllSteady(w, k, reqs[..|reqs| - 1], now);
      LaunchOneSteady(w, LaunchAll(w, k, reqs[..|reqs| - 1], now), reqs[|reqs| - 1], now);
    }
  }

  lemma {:induction false} ReportAllSteady(w: World, k: Kernel, reports: seq<F.Report>, now: nat)
    ensures Steady(k, ReportAll(w, k, reports, now))
  {
    if reports != [] {
      ReportAllSteady(w, k, reports[..|reports| - 1], now);
      var r := reports[|reports| - 1];
      PushNewSteady(w, ReportAll(w, k, reports[..|reports| - 1], now), 7, ChildAgentCompleted(r.name, false, ReportText(r)), [], now);
    }
  }

  lemma ForkedSteady(w: World, k: Kernel, p: F.Progress, names: seq<string>, now: nat)
    ensures Steady(k, Forked(w, k, p, names, now))
  {}

  lemma ApplyForkSteady(w: World, k: Kernel, out: F.Outcome, names: seq<string>, now: nat)
    ensures Steady(k, ApplyFork(w, k, out, names, now))
  {
    match out {
      case Rejected(_) => PushNewSteady(w, UseChannels(k, |names|), 7, ForkFailure(), [], now);
      case Accepted(p) =>
        ForkedSteady(w, k, p, names, now);
        ReportAllSteady(w, Forked(w, k, p, names, now), p.reports, now);
    }
  }

  lemma {:induction false} ForkAllSteady(w: World, c: Config, k: Kernel, forks: seq<seq<string>>, between: R.Between, now: nat)
    ensures Steady(k, ForkAll(w, c, k, forks, between, now))
  {
    if forks != [] {
      var n := |forks| - 1;
      var before, names := LetOthers(ForkAll(w, c, k, forks[..n], between, now), R.Before(between, n)), forks[n];
      ForkAllSteady(w, c, k, forks[..|forks| - 1], between, now);
      var out := F.Fork(c.maxChildren, w.clientFails, c.lineage, before.registry, before.active, before.nextChannel, names);
      ApplyForkSteady(w, before, out, names, now);
    }
  }

  /** The first stages of a commit leave what the script made of history, queue and compaction alone. */
  lemma CommitWorkSteady(w: World, c: Config, k: Kernel, t: Txn, resp: Response, now: nat)
    ensures Steady(Install(k, t.s), CommitWork(w, c, k, t, resp, now))
  {
    var installed := Install(k, t.s);
    LaunchAllSteady(w, installed, t.fx.launches, now);
    var killed := KillChildren(LaunchAll(w, installed, t.fx.launches, now), t.fx.childKills, resp.others.killing);
    PushNewSteady(w, killed, 10, View(t.fx.views), [], now);
    ForkAllSteady(w, c, QueueView(w, killed, t.fx.views, now), t.fx.forks, resp.others.forking, now);
  }

  lemma DeferredSteady(w: World, k: Kernel, fx: Effects, now: nat)
    ensures Steady(k, Deferred(w, k, fx, now))
  {
    ApplyEventsSteady(w, k.(inbox := []), k.inbox, now);
  }
}
