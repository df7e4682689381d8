/** Only a drain looks at an agent's channel, and only the registry's own users look at the registry. */
module Frames {
  import opened Base
  import opened Ids
  import opened Items
  import opened Kernels
  import opened Turns
  import R = Registries
  import F = Forks
  import S = SseParsing

  function WithInbox(k: Kernel, inbox: seq<Event>): Kernel {
    k.(inbox := inbox)
  }

  function WithOuter(k: Kernel, b: seq<Event>, r: R.Registry): Kernel {
    k.(inbox := b, registry := r)
  }

  lemma CommandOuter(k: Kernel, cmd: string, chatId: string, b: seq<Event>, r: R.Registry)
    ensures HooksCommand(WithOuter(k, b, r), cmd, chatId) == WithOuter(HooksCommand(k, cmd, chatId), b, r)
  {}

  lemma RaisedOuter(w: World, k: Kernel, t: HookTxn, item: WorkItem, hook: string, error: string, now: nat, b: seq<Event>,
                    r: R.Registry)
    ensures PushRaised(w, WithOuter(k, b, r), t, item, hook, error, now)
         == WithOuter(PushRaised(w, k, t, item, hook, error, now), b, r)
  {}

  lemma SettleOuter(w: World, k: Kernel, hook: Hook, plan: Plan, item: WorkItem, now: nat, b: seq<Event>, r: R.Registry)
    ensures Settle(w, WithOuter(k, b, r), hook, plan, item, now)
         == WithOuter(Settle(w, k, hook, plan, item, now), b, r)
  {
    match plan {
      case InitFailed(_) =>
      case Ran(ops, ending) =>
        if ending.Raise? {
          var tallied := k.(s := k.s.(stats := Tally(k.s.stats, hook.name, Raised)));
          RaisedOuter(w, tallied, HookRun(w, OpenHook(k.s), ops), item, hook.name, ending.error, now, b, r);
        }
    }
  }

  lemma PushItemOuter(w: World, k: Kernel, item: WorkItem, now: nat, b: seq<Event>, r: R.Registry)
    ensures PushItem(w, WithOuter(k, b, r), item, now) == WithOuter(PushItem(w, k, item, now), b, r)
  {
    if IsHooksCommand(item) {
      CommandOuter(k, S.Trim(item.kind.content[|HOOKS_PREFIX|..]), item.kind.chatId, b, r);
    } else if k.s.hooks != [] && Matched(w, k.s, item).Some? {
      var hook := k.s.hooks[Matched(w, k.s, item).value];
      SettleOuter(w, k, hook, w.plan(hook, item, k.s.memory), item, now, b, r);
    }
  }

  lemma PushNewOuter(w: World, k: Kernel, priority: u8, kind: ItemKind, attachments: seq<string>, now: nat, b: seq<Event>,
                     r: R.Registry)
    ensures PushNew(w, WithOuter(k, b, r), priority, kind, attachments, now)
         == WithOuter(PushNew(w, k, priority, kind, attachments, now), b, r)
  {
    PushItemOuter(w, k.(s := Issue(w, k.s)), WorkItem(w.draw(k.s.counter), priority, now, kind, attachments), now, b, r);
  }

  lemma ApplyEventOuter(w: World, k: Kernel, e: Event, now: nat, b: seq<Event>, r: R.Registry)
    ensures ApplyEvent(w, WithOuter(k, b, r), e, now) == WithOuter(ApplyEvent(w, k, e, now), b, r)
  {
    if !e.KillSignal? {
      PushNewOuter(w, Noted(k, e), PriorityOf(k.s.processes, e), KindOf(w, k.s.processes, e), AttachmentsOf(e), now, b, r);
    }
  }

  lemma {:induction false} ApplyEventsOuter(w: World, k: Kernel, events: seq<Event>, now: nat, b: seq<Event>, r: R.Registry)
    ensures ApplyEvents(w, WithOuter(k, b, r), events, now) == WithOuter(ApplyEvents(w, k, events, now), b, r)
  {
    if events != [] {
      ApplyEventsOuter(w, k, events[..|events| - 1], now, b, r);
      ApplyEventOuter(w, ApplyEvents(w, k, events[..|events| - 1], now), events[|events| - 1], now, b, r);
    }
  }

  lemma PushNewInbox(w: World, k: Kernel, priority: u8, kind: ItemKind, attachments: seq<string>, now: nat, b: seq<Event>)
    ensures PushNew(w, WithInbox(k, b), priority, kind, attachments, now) == WithInbox(PushNew(w, k, priority, kind, attachments, now), b)
  {
    PushNewOuter(w, k, priority, kind, attachments, now, b, k.registry);
    PushNewOuter(w, k, priority, kind, attachments, now, k.inbox, k.registry);
    assert WithOuter(k, k.inbox, k.registry) == k && WithOuter(k, b, k.registry) == WithInbox(k, b);
  }

  /** Applying events changes neither channel nor registry. */
  lemma ApplyEventsKeepOuter(w: World, k: Kernel, events: seq<Event>, now: nat)
    ensures ApplyEvents(w, k, events, now).inbox == k.inbox && ApplyEvents(w, k, events, now).registry == k.registry
  {
    ApplyEventsOuter(w, k, events, now, k.inbox, k.registry);
    assert WithOuter(k, k.inbox, k.registry) == k;
  }

  /** Applying two stretches of events one after the other is applying them as one. */
  lemma {:induction false} ApplyEventsAppend(w: World, k: Kernel, a: seq<Event>, b: seq<Event>, now: nat)
    ensures ApplyEvents(w, k, a + b, now) == ApplyEvents(w, ApplyEvents(w, k, a, now), b, now)
  {
    if b == [] {
      assert a + b == a;
    } else {
      assert (a + b)[..|a + b| - 1] == a + b[..|b| - 1];
      ApplyEventsAppend(w, k, a, b[..|b| - 1], now);
    }
  }

  lemma {:induction false} LaunchAllOuter(w: World, k: Kernel, reqs: seq<LaunchRequest>, now: nat, b: seq<Event>, r: R.Registry)
    ensures LaunchAll(w, WithOuter(k, b, r), reqs, now) == WithOuter(LaunchAll(w, k, reqs, now), b, r)
  {
    if reqs != [] {
      LaunchAllOuter(w, k, reqs[..|reqs| - 1], now, b, r);
      LaunchOneOuter(w, LaunchAll(w, k, reqs[..|reqs| - 1], now), reqs[|reqs| - 1], now, b, r);
    }
  }

  lemma LaunchOneOuter(w: World, k: Kernel, req: LaunchRequest, now: nat, b: seq<Event>, r: R.Registry)
    ensures LaunchOne(w, WithOuter(k, b, r), req, now) == WithOuter(LaunchOne(w, k, req, now), b, r)
  {
    var failed := Mark(k.(log := k.log + [Refused(req.pid)]), req.pid, Failed("spawn failed"));
    PushNewOuter(w, failed, req.failPrio, ProcessFailed(req.pid, "spawn failed", None, req.description), [], now, b, r);
  }

  lemma LaunchAllInbox(w: World, k: Kernel, reqs: seq<LaunchRequest>, now: nat, b: seq<Event>)
    ensures LaunchAll(w, WithInbox(k, b), reqs, now) == WithInbox(LaunchAll(w, k, reqs, now), b)
  {
    LaunchAllOuter(w, k, reqs, now, b, k.registry);
    LaunchAllOuter(w, k, reqs, now, k.inbox, k.registry);
    assert WithOuter(k, k.inbox, k.registry) == k && WithOuter(k, b, k.registry) == WithInbox(k, b);
  }

  lemma {:induction false} ReportAllInbox(w: World, k: Kernel, reports: seq<F.Report>, now: nat, b: seq<Event>)
    ensures ReportAll(w, WithInbox(k, b), reports, now) == WithInbox(ReportAll(w, k, reports, now), b)
  {
    if reports != [] {
      ReportAllInbox(w, k, reports[..|reports| - 1], now, b);
      var r := reports[|reports| - 1];
      PushNewInbox(w, ReportAll(w, k, reports[..|reports| - 1], now), 7, ChildAgentCompleted(r.name, false, ReportText(r)), [], now, b);
    }
  }

  lemma ForkedInbox(w: World, k: Kernel, p: F.Progress, names: seq<string>, now: nat, b: seq<Event>)
    ensures Forked(w, WithInbox(k, b), p, names, now) == WithInbox(Forked(w, k, p, names, now), b)
  {}

  lemma ApplyForkInbox(w: World, k: Kernel, out: F.Outcome, names: seq<string>, now: nat, b: seq<Event>)
    ensures ApplyFork(w, WithInbox(k, b), out, names, now) == WithInbox(ApplyFork(w, k, out, names, now), b)
  {
    match out {
      case Rejected(_) =>
        var numbered := UseChannels(k, |names|);
        PushNewInbox(w, numbered, 7, ForkFailure(), [], now, b);
        assert UseChannels(WithInbox(k, b), |names|) == WithInbox(numbered, b);
      case Accepted(p) =>
        ForkedInbox(w, k, p, names, now, b);
        ReportAllInbox(w, Forked(w, k, p, names, now), p.reports, now, b);
    }
  }

  lemma ForkOneInbox(w: World, c: Config, k: Kernel, names: seq<string>, now: nat, b: seq<Event>)
    ensures ForkOne(w, c, WithInbox(k, b), names, now) == WithInbox(ForkOne(w, c, k, names, now), b)
  {
    var out := F.Fork(c.maxChildren, w.clientFails, c.lineage, k.registry, k.active, k.nextChannel, names);
    ApplyForkInbox(w, k, out, names, now, b);
  }

  lemma {:induction false} ForkAllInbox(w: World, c: Config, k: Kernel, forks: seq<seq<string>>, between: R.Between, now: nat, b: seq<Event>)
    ensures ForkAll(w, c, WithInbox(k, b), forks, between, now) == WithInbox(ForkAll(w, c, k, forks, between, now), b)
  {
    if forks != [] {
      var n := |forks| - 1;
      ForkAllInbox(w, c, k, forks[..n], between, now, b);
      ForkOneInbox(w, c, LetOthers(ForkAll(w, c, k, forks[..n], between, now), R.Before(between, n)), forks[n], now, b);
    }
  }

  lemma CommitWorkInbox(w: World, c: Config, k: Kernel, t: Txn, resp: Response, now: nat, b: seq<Event>)
    ensures CommitWork(w, c, WithInbox(k, b), t, resp, now) == WithInbox(CommitWork(w, c, k, t, resp, now), b)
  {
    var installed := Install(k, t.s);
    LaunchAllInbox(w, installed, t.fx.launches, now, b);
    var killed := KillChildren(LaunchAll(w, installed, t.fx.launches, now), t.fx.childKills, resp.others.killing);
    PushNewInbox(w, killed, 10, View(t.fx.views), [], now, b);
    ForkAllInbox(w, c, QueueView(w, killed, t.fx.views, now), t.fx.forks, resp.others.forking, now, b);
  }

  lemma CompactOuter(w: World, k: Kernel, called: bool, run: Script, now: nat, b: seq<Event>, r: R.Registry)
    ensures HonourCompact(w, WithOuter(k, b, r), called, run, now) == WithOuter(HonourCompact(w, k, called, run, now), b, r)
  {}

  lemma ClosingOuter(w: World, c: Config, k: Kernel, fx: Effects, run: Script, now: nat, b: seq<Event>, r: R.Registry)
    ensures Closing(w, c, WithOuter(k, b, r), fx, run, now) == WithOuter(Closing(w, c, k, fx, run, now), b, r)
  {
    CompactOuter(w, AppendScript(HonourRequest(w, c, k, fx.requested, now), fx.appends), fx.compactCalled, run, now, b, r);
  }

  lemma CommitInbox(w: World, c: Config, k: Kernel, t: Txn, resp: Response, now: nat, b: seq<Event>)
    ensures Commit(w, c, WithInbox(k, b), t, resp, now) == WithInbox(Commit(w, c, k, t, resp, now), b)
  {
    CommitWorkInbox(w, c, k, t, resp, now, b);
    var sent := Sent(CommitWork(w, c, k, t, resp, now), t.fx, resp);
    ClosingOuter(w, c, sent, t.fx, resp.compactionRun, now, b, sent.registry);
    ClosingOuter(w, c, sent, t.fx, resp.compactionRun, now, sent.inbox, sent.registry);
    assert WithOuter(sent, sent.inbox, sent.registry) == sent && WithOuter(sent, b, sent.registry) == WithInbox(sent, b);
  }
}
