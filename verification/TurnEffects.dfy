/** What a committed turn causes outside the agent (src/agent_loop.rs, `apply_side_effects`). */
module TurnEffects {
  import opened Base
  import opened Ids
  import opened Items
  import opened Kernels
  import opened Turns
  import opened Steadiness
  import opened Places
  import F = Forks
  import C = Calls
  import CM = CompactionMode
  import TurnFacts
  import opened Frames
  import R = Registries

  /**
   * From `k` to `after` the effects `so` were caused, in order. Without hooks they are all that was
   * caused; hooks may put effects of their own in between.
   */
  ghost predicate Emits(k: Kernel, so: seq<Effect>, after: Kernel) {
    && IsSubsequence(k.log + so, after.log)
    && (k.s.hooks == [] ==> after.log == k.log + so && after.s.hooks == [])
  }

  lemma EmitsGrown(k: Kernel, so: seq<Effect>, after: Kernel)
    requires k.log + so <= after.log
    requires k.s.hooks == [] ==> after.log == k.log + so && after.s.hooks == []
    ensures Emits(k, so, after)
  {
    SubsequenceRefl(k.log + so);
    SubsequenceGrow(k.log + so, k.log + so, after.log);
  }

  lemma EmitsNothing(k: Kernel)
    ensures Emits(k, [], k)
  {
    assert k.log + [] == k.log;
    EmitsGrown(k, [], k);
  }

  lemma EmitsThen(k: Kernel, a: seq<Effect>, mid: Kernel, b: seq<Effect>, after: Kernel)
    requires Emits(k, a, mid) && Emits(mid, b, after)
    ensures Emits(k, a + b, after)
  {
    SubsequenceThen(k.log + a, mid.log, b);
    SubsequenceTrans(k.log + a + b, mid.log + b, after.log);
    assert k.log + (a + b) == k.log + a + b;
  }

  // ---- The stages ----

  lemma PushItemHookless(w: World, k: Kernel, item: WorkItem, now: nat)
    requires k.s.hooks == [] && !IsHooksCommand(item)
    ensures PushItem(w, k, item, now).log == k.log && PushItem(w, k, item, now).s.hooks == []
  {}

  lemma PushNewEmits(w: World, k: Kernel, priority: u8, kind: ItemKind, attachments: seq<string>, now: nat)
    requires !kind.Compaction? && (kind.UserMessage? ==> !(HOOKS_PREFIX <= kind.content))
    ensures Emits(k, [], PushNew(w, k, priority, kind, attachments, now))
  {
    PushNewSteady(w, k, priority, kind, attachments, now);
    if k.s.hooks == [] {
      PushItemHookless(w, k.(s := Issue(w, k.s)), WorkItem(w.draw(k.s.counter), priority, now, kind, attachments), now);
    }
    assert k.log + [] == k.log;
    EmitsGrown(k, [], PushNew(w, k, priority, kind, attachments, now));
  }

  function OutcomeOf(w: World, req: LaunchRequest): Effect {
    if w.launchFails(req.pid) then Refused(req.pid) else Launched(req.pid)
  }

  /** How each requested launch turns out. */
  function LaunchOutcomes(w: World, reqs: seq<LaunchRequest>): seq<Effect> {
    seq(|reqs|, i requires 0 <= i < |reqs| => OutcomeOf(w, reqs[i]))
  }

  lemma LaunchOneEmits(w: World, k: Kernel, req: LaunchRequest, now: nat)
    ensures Emits(k, [OutcomeOf(w, req)], LaunchOne(w, k, req, now))
  {
    var tried := k.(log := k.log + [OutcomeOf(w, req)]);
    EmitsGrown(k, [OutcomeOf(w, req)], tried);
    if w.launchFails(req.pid) {
      var failed := Mark(tried, req.pid, Failed("spawn failed"));
      assert k.log + [OutcomeOf(w, req)] == failed.log;
      EmitsGrown(k, [OutcomeOf(w, req)], failed);
      PushNewEmits(w, failed, req.failPrio, ProcessFailed(req.pid, "spawn failed", None, req.description), [], now);
      EmitsThen(k, [OutcomeOf(w, req)], failed, [], LaunchOne(w, k, req, now));
      assert [OutcomeOf(w, req)] + [] == [OutcomeOf(w, req)];
    }
  }

  lemma OutcomesSnoc(w: World, reqs: seq<LaunchRequest>)
    requires reqs != []
    ensures LaunchOutcomes(w, reqs) == LaunchOutcomes(w, reqs[..|reqs| - 1]) + [OutcomeOf(w, reqs[|reqs| - 1])]
  {}

  lemma {:induction false} LaunchAllEmits(w: World, k: Kernel, reqs: seq<LaunchRequest>, now: nat)
    ensures Emits(k, LaunchOutcomes(w, reqs), LaunchAll(w, k, reqs, now))
  {
    if reqs == [] {
      EmitsNothing(k);
      assert LaunchOutcomes(w, reqs) == [];
    } else {
      var front, req := reqs[..|reqs| - 1], reqs[|reqs| - 1];
      var mid := LaunchAll(w, k, front, now);
      LaunchAllEmits(w, k, front, now);
      LaunchOneEmits(w, mid, req, now);
      EmitsThen(k, LaunchOutcomes(w, front), mid, [OutcomeOf(w, req)], LaunchOne(w, mid, req, now));
      OutcomesSnoc(w, reqs);
    }
  }

  lemma {:induction false} ReportAllEmits(w: World, k: Kernel, reports: seq<F.Report>, now: nat)
    ensures Emits(k, [], ReportAll(w, k, reports, now))
  {
    if reports == [] {
      EmitsNothing(k);
    } else {
      var mid, r := ReportAll(w, k, reports[..|reports| - 1], now), reports[|reports| - 1];
      ReportAllEmits(w, k, reports[..|reports| - 1], now);
      PushNewEmits(w, mid, 7, ChildAgentCompleted(r.name, false, ReportText(r)), [], now);
      EmitsThen(k, [], mid, [], ReportAll(w, k, reports, now));
    }
  }

  function StartedBy(out: F.Outcome): seq<Effect> {
    match out case Rejected(_) => [] case Accepted(p) => ChildrenOf(p.spawned)
  }

  /** Each child that was spawned is started on its own channel, with its own lineage. */
  function ChildrenOf(spawned: seq<F.Spawn>): seq<Effect> {
    seq(|spawned|, i requires 0 <= i < |spawned| => ChildStarted(spawned[i].name, spawned[i].channel, spawned[i].lineage))
  }

  function Answer(w: World, c: Config, p: Place, names: seq<string>): F.Outcome {
    F.Fork(c.maxChildren, w.clientFails, c.lineage, p.registry, p.active, p.nextChannel, names)
  }

  /** The children that the requests start, each request asked where the ones before it, and others, have left off. */
  function StartedAll(w: World, c: Config, p: Place, forks: seq<seq<string>>, between: R.Between): seq<Effect> {
    if forks == [] then []
    else
      var n := |forks| - 1;
      StartedAll(w, c, p, forks[..n], between)
      + StartedBy(Answer(w, c, LaterPlace(RequestedAll(w, c, p, forks[..n], between), R.Before(between, n)), forks[n]))
  }

  lemma ApplyForkEmits(w: World, k: Kernel, out: F.Outcome, names: seq<string>, now: nat)
    ensures Emits(k, StartedBy(out), ApplyFork(w, k, out, names, now))
  {
    match out {
      case Rejected(_) =>
        var used := UseChannels(k, |names|);
        PushNewEmits(w, used, 7, ForkFailure(), [], now);
        assert used.log == k.log && used.s == k.s;
      case Accepted(p) =>
        var forked := Forked(w, k, p, names, now);
        assert Started(p.spawned) == ChildrenOf(p.spawned);
        EmitsGrown(k, ChildrenOf(p.spawned), forked);
        ReportAllEmits(w, forked, p.reports, now);
        EmitsThen(k, ChildrenOf(p.spawned), forked, [], ApplyFork(w, k, out, names, now));
        assert ChildrenOf(p.spawned) + [] == ChildrenOf(p.spawned);
    }
  }

  lemma {:induction false} ForkAllEmits(w: World, c: Config, k: Kernel, forks: seq<seq<string>>, between: R.Between, now: nat)
    ensures Emits(k, StartedAll(w, c, PlaceOf(k), forks, between), ForkAll(w, c, k, forks, between, now))
  {
    if forks == [] {
      EmitsNothing(k);
    } else {
      var n := |forks| - 1;
      var mid := LetOthers(ForkAll(w, c, k, forks[..n], between, now), R.Before(between, n));
      var started := StartedAll(w, c, PlaceOf(k), forks[..n], between);
      ForkAllEmits(w, c, k, forks[..n], between, now);
      ForkAllPlace(w, c, k, forks[..n], between, now);
      ApplyForkEmits(w, mid, Answer(w, c, PlaceOf(mid), forks[n]), forks[n], now);
      EmitsThen(k, started, mid, StartedBy(Answer(w, c, PlaceOf(mid), forks[n])), ForkAll(w, c, k, forks, between, now));
    }
  }

  lemma QueueViewEmits(w: World, k: Kernel, paths: seq<string>, now: nat)
    ensures Emits(k, [], QueueView(w, k, paths, now))
  {
    if paths == [] { EmitsNothing(k); } else { PushNewEmits(w, k, 10, View(paths), [], now); }
  }

  function Signalled(p: Place, fx: Effects, resp: Response): Place {
    p.(registry := R.AsOf(p.registry, resp.others.killing, |fx.childKills|))
  }

  /** Launches, kill signals to children, and children started, each by the registry as it then is. */
  function WorkDemanded(w: World, c: Config, p: Place, fx: Effects, resp: Response): seq<Effect> {
    LaunchOutcomes(w, fx.launches) + SentKills(p.registry, fx.childKills, resp.others.killing)
    + StartedAll(w, c, Signalled(p, fx, resp), fx.forks, resp.others.forking)
  }

  lemma CommitWorkEmits(w: World, c: Config, k: Kernel, t: Txn, resp: Response, now: nat)
    ensures Emits(Install(k, t.s), WorkDemanded(w, c, PlaceOf(k), t.fx, resp), CommitWork(w, c, k, t, resp, now))
  {
    var installed := Install(k, t.s);
    var launched := LaunchAll(w, installed, t.fx.launches, now);
    var killed := KillChildren(launched, t.fx.childKills, resp.others.killing);
    var viewed := QueueView(w, killed, t.fx.views, now);
    var launches, kills := LaunchOutcomes(w, t.fx.launches), SentKills(k.registry, t.fx.childKills, resp.others.killing);
    LaunchAllEmits(w, installed, t.fx.launches, now);
    LaunchAllPlace(w, installed, t.fx.launches, now);
    EmitsGrown(launched, kills, killed);
    EmitsThen(installed, launches, launched, kills, killed);
    QueueViewEmits(w, killed, t.fx.views, now);
    PushNewPlace(w, killed, 10, View(t.fx.views), [], now);
    EmitsThen(installed, launches + kills, killed, [], viewed);
    assert launches + kills + [] == launches + kills;
    ForkAllEmits(w, c, viewed, t.fx.forks, resp.others.forking, now);
    EmitsThen(installed, launches + kills, viewed, StartedAll(w, c, PlaceOf(viewed), t.fx.forks, resp.others.forking),
              CommitWork(w, c, k, t, resp, now));
  }

  /** Messages to agents, likewise; messages to chats; pins. */
  function RestDemanded(registry: R.Registry, fx: Effects, resp: Response): seq<Effect> {
    RoutedNotes(registry, fx.notes, resp.others.telling) + (fx.messages + PinEffects(fx.pins, fx.unpins))
  }

  lemma RestKeepsHooks(w: World, k: Kernel, called: bool, run: Script, now: nat)
    ensures HonourCompact(w, k, called, run, now).s.hooks == k.s.hooks
  {
    if called && k.compaction.active && run.ending.Finished? {
      var copy := Execute(w, Mode(true, 0), now, k.s, run).s;
      CM.DequeueAllFrame(BroughtBack(k.s, copy), CompactionIds(k.s.queue));
    }
  }

  lemma CommitRestEmits(w: World, c: Config, k: Kernel, fx: Effects, resp: Response, now: nat)
    ensures Emits(k, RestDemanded(k.registry, fx, resp), CommitRest(w, c, k, fx, resp, now))
  {
    var so, sent := RestDemanded(k.registry, fx, resp), Sent(k, fx, resp);
    var notes := RoutedNotes(k.registry, fx.notes, resp.others.telling);
    RestKeepsHooks(w, AppendScript(HonourRequest(w, c, sent, fx.requested, now), fx.appends), fx.compactCalled, resp.compactionRun, now);
    assert k.log + so == k.log + notes + (fx.messages + PinEffects(fx.pins, fx.unpins));
    EmitsGrown(k, so, CommitRest(w, c, k, fx, resp, now));
  }

  function CommitDemanded(w: World, c: Config, p: Place, fx: Effects, resp: Response): seq<Effect> {
    WorkDemanded(w, c, p, fx, resp) + RestDemanded(WorkedPlace(w, c, p, fx, resp).registry, fx, resp)
  }

  lemma CommitEmits(w: World, c: Config, k: Kernel, t: Txn, resp: Response, now: nat)
    ensures Emits(Install(k, t.s), CommitDemanded(w, c, PlaceOf(k), t.fx, resp), Commit(w, c, k, t, resp, now))
  {
    var worked := CommitWork(w, c, k, t, resp, now);
    CommitWorkEmits(w, c, k, t, resp, now);
    CommitWorkPlace(w, c, k, t, resp, now);
    CommitRestEmits(w, c, worked, t.fx, resp, now);
    EmitsThen(Install(k, t.s), WorkDemanded(w, c, PlaceOf(k), t.fx, resp), worked, RestDemanded(worked.registry, t.fx, resp),
              Commit(w, c, k, t, resp, now));
  }

  // ---- Late events ----

  /** No `!hooks` command among the events. */
  predicate Plain(events: seq<Event>) {
    forall e :: e in events && e.UserMessageEvent? ==> !(HOOKS_PREFIX <= e.content)
  }

  lemma ApplyEventEmits(w: World, k: Kernel, e: Event, now: nat)
    requires e.UserMessageEvent? ==> !(HOOKS_PREFIX <= e.content)
    ensures Emits(k, [], ApplyEvent(w, k, e, now))
  {
    if k.crashed || e.KillSignal? || !Readable(w, e) {
      assert k.log + [] == k.log;
      EmitsGrown(k, [], ApplyEvent(w, k, e, now));
    } else {
      PushNewEmits(w, Noted(k, e), PriorityOf(k.s.processes, e), KindOf(w, k.s.processes, e), AttachmentsOf(e), now);
    }
  }

  lemma {:induction false} ApplyEventsEmit(w: World, k: Kernel, events: seq<Event>, now: nat)
    requires Plain(events)
    ensures Emits(k, [], ApplyEvents(w, k, events, now))
  {
    if events == [] {
      EmitsNothing(k);
    } else {
      var mid := ApplyEvents(w, k, events[..|events| - 1], now);
      ApplyEventsEmit(w, k, events[..|events| - 1], now);
      ApplyEventEmits(w, mid, events[|events| - 1], now);
      EmitsThen(k, [], mid, [], ApplyEvents(w, k, events, now));
    }
  }

  /** What comes last: everything, or nothing if the agent did not survive what it read while it waited. */
  function LastDemanded(fx: Effects, crashed: bool): seq<Effect> {
    if crashed then [] else Performed(fx)
  }

  lemma DeferredEmits(w: World, k: Kernel, fx: Effects, now: nat)
    ensures var after := Deferred(w, k, fx, now);
            && IsSubsequence(k.log + LastDemanded(fx, after.crashed), after.log)
            && (k.s.hooks == [] && (Blocks(w, fx.launches) ==> Plain(k.inbox)) ==> after.log == k.log + LastDemanded(fx, after.crashed))
  {
    var waited := if Blocks(w, fx.launches) then Drain(w, k, now) else k;
    ApplyEventsSteady(w, k.(inbox := []), k.inbox, now);
    SubsequenceRefl(k.log);
    SubsequenceGrow(k.log, k.log, waited.log);
    SubsequenceThen(k.log, waited.log, Performed(fx));
    assert k.log + [] == k.log;
    if k.s.hooks == [] && Blocks(w, fx.launches) && Plain(k.inbox) { ApplyEventsEmit(w, k.(inbox := []), k.inbox, now); }
  }

  // ---- The turn ----

  /** Everything a script that committed asked for: the commit, then what is performed after it. */
  function Demanded(w: World, c: Config, p: Place, fx: Effects, resp: Response, crashed: bool): seq<Effect> {
    CommitDemanded(w, c, p, fx, resp) + LastDemanded(fx, crashed)
  }

  /** What a commit has caused, followed by what is caused after it. */
  lemma EmitsLast(k: Kernel, so: seq<Effect>, mid: Kernel, last: seq<Effect>, log: seq<Effect>)
    requires Emits(k, so, mid) && IsSubsequence(mid.log + last, log)
    ensures IsSubsequence(k.log + (so + last), log)
    ensures mid.log == k.log + so && log == mid.log + last ==> log == k.log + (so + last)
  {
    SubsequenceThen(k.log + so, mid.log, last);
    SubsequenceTrans(k.log + so + last, mid.log + last, log);
    assert k.log + (so + last) == k.log + so + last;
  }

  lemma CommittedEmits(w: World, c: Config, k: Kernel, t: Txn, resp: Response, now: nat)
    ensures var after := Deferred(w, Commit(w, c, k, t, resp, now), t.fx, now);
            var so := Demanded(w, c, PlaceOf(k), t.fx, resp, after.crashed);
            && IsSubsequence(k.log + so, after.log)
            && (t.s.hooks == [] && (Blocks(w, t.fx.launches) ==> Plain(k.inbox)) ==> after.log == k.log + so)
  {
    var committed := Commit(w, c, k, t, resp, now);
    var after := Deferred(w, committed, t.fx, now);
    CommitEmits(w, c, k, t, resp, now);
    CommitKeepsInbox(w, c, k, t, resp, now);
    DeferredEmits(w, committed, t.fx, now);
    EmitsLast(Install(k, t.s), CommitDemanded(w, c, PlaceOf(k), t.fx, resp), committed, LastDemanded(t.fx, after.crashed), after.log);
  }

  lemma CommitKeepsInbox(w: World, c: Config, k: Kernel, t: Txn, resp: Response, now: nat)
    ensures Commit(w, c, k, t, resp, now).inbox == k.inbox
  {
    CommitInbox(w, c, k, t, resp, now, k.inbox);
    assert WithInbox(k, k.inbox) == k;
  }

  lemma CommittedTurn(w: World, c: Config, k: Kernel, resp: Response, now: nat)
    requires Failure(w, c, k, resp, now).None?
    ensures var t := Run(w, c, k, resp, now);
            var after := Deferred(w, Commit(w, c, Prepared(Begin(k, resp), resp, t.fx), t, resp, now), t.fx, now);
            Turn(w, c, k, resp, now).log == after.log && Turn(w, c, k, resp, now).crashed == after.crashed
  {}

  lemma CollectedTurnEmits(w: World, c: Config, k: Kernel, resp: Response, now: nat)
    requires Failure(w, c, k, resp, now).None?
    ensures var t, after := Run(w, c, k, resp, now), Turn(w, c, k, resp, now);
            var so := Demanded(w, c, PlaceOf(Prepared(Begin(k, resp), resp, t.fx)), t.fx, resp, after.crashed);
            && IsSubsequence(k.log + so, after.log)
            && (t.s.hooks == [] && (Blocks(w, t.fx.launches) ==> Plain(k.inbox)) ==> after.log == k.log + so)
  {
    var t := Run(w, c, k, resp, now);
    CommittedTurn(w, c, k, resp, now);
    CommittedEmits(w, c, Prepared(Begin(k, resp), resp, t.fx), t, resp, now);
  }

  // ---- From the calls ----

  /** How an event for `name` fares, by what the registry says of it. */
  function Fares(view: R.Registry, name: string): R.Delivery {
    if name !in view then R.NotFound else if view[name].completed then R.Dropped else R.Delivered(view[name].channel)
  }

  function Signals(registry: R.Registry, names: seq<string>, between: R.Between): seq<Effect> {
    seq(|names|, i requires 0 <= i < |names| => KillSent(names[i], Fares(R.AsOf(registry, between, i + 1), names[i])))
  }

  function Letters(registry: R.Registry, notes: seq<AgentNote>, between: R.Between): seq<Effect> {
    seq(|notes|, i requires 0 <= i < |notes| =>
      Routed(notes[i].recipient, Fares(R.AsOf(registry, between, i + 1), notes[i].recipient), notes[i].content, notes[i].priority))
  }

  lemma SignalsAreSent(registry: R.Registry, names: seq<string>, between: R.Between)
    ensures SentKills(registry, names, between) == Signals(registry, names, between)
  {
    forall i | 0 <= i < |names| ensures SentKills(registry, names, between)[i] == Signals(registry, names, between)[i] {
      R.ViewAt(registry, between, |names|, i);
    }
  }

  lemma LettersAreRouted(registry: R.Registry, notes: seq<AgentNote>, between: R.Between)
    ensures RoutedNotes(registry, notes, between) == Letters(registry, notes, between)
  {
    forall i | 0 <= i < |notes| ensures RoutedNotes(registry, notes, between)[i] == Letters(registry, notes, between)[i] {
      R.ViewAt(registry, between, |notes|, i);
    }
  }

  function PinnedOf(op: ScriptOp): seq<Effect> {
    if op.Pin? then [Pinned(op.key, op.value)] else []
  }

  function UnpinnedOf(op: ScriptOp): seq<Effect> {
    if op.Unpin? then [Unpinned(op.key)] else []
  }

  function KilledOf(op: ScriptOp): seq<Effect> {
    if op.ShellKill? then [KillProcess(op.pid)] else []
  }

  function WrittenOf(op: ScriptOp): seq<Effect> {
    if op.ShellInput? then [WriteStdin(op.pid, op.text)] else []
  }

  function ClosedOf(op: ScriptOp): seq<Effect> {
    if op.ShellCloseStdin? then [CloseStdin(op.pid)] else []
  }

  lemma {:induction false} PinsAre(ops: seq<ScriptOp>)
    ensures Pinneds(C.Pins(ops)) == C.Each(ops, PinnedOf) && Unpinneds(C.Unpins(ops)) == C.Each(ops, UnpinnedOf)
  {
    if ops != [] { PinsAre(ops[..|ops| - 1]); }
  }

  lemma {:induction false} PerformedAre(ops: seq<ScriptOp>)
    ensures Kills(C.ProcessKills(ops)) == C.Each(ops, KilledOf)
    ensures Inputs(C.Writes(ops)) == C.Each(ops, WrittenOf)
    ensures InputEnds(C.Closes(ops)) == C.Each(ops, ClosedOf)
  {
    if ops != [] { PerformedAre(ops[..|ops| - 1]); }
  }

  /** The turn's mode, and where agent and registry stand when the recipients have been looked up. */
  function ModeOf(c: Config, k: Kernel): Mode {
    Mode(k.compaction.active, c.depth)
  }

  function LookedPlace(k: Kernel, resp: Response): Place {
    Place(R.AsOf(k.registry, resp.others.validating, |C.Notes(resp.script.ops)|), k.active, k.nextChannel)
  }

  /** When the children have been signalled, too; and when the fork requests have been answered. */
  function SignalledPlace(k: Kernel, resp: Response): Place {
    var looked := LookedPlace(k, resp);
    looked.(registry := R.AsOf(looked.registry, resp.others.killing, |C.ChildKills(resp.script.ops)|))
  }

  function ForkedPlace(w: World, c: Config, k: Kernel, resp: Response): Place {
    RequestedAll(w, c, SignalledPlace(k, resp), C.Forks(ModeOf(c, k), resp.script.ops), resp.others.forking)
  }

  /** What the calls of a script that commits ask for: in the order in which it is brought about. */
  function Asked(w: World, c: Config, k: Kernel, resp: Response, crashed: bool): seq<Effect> {
    var ops, m := resp.script.ops, ModeOf(c, k);
    LaunchOutcomes(w, C.LaunchRequests(w, m, k.s.counter, ops))
    + Signals(LookedPlace(k, resp).registry, C.ChildKills(ops), resp.others.killing)
    + StartedAll(w, c, SignalledPlace(k, resp), C.Forks(m, ops), resp.others.forking)
    + (Letters(ForkedPlace(w, c, k, resp).registry, C.Notes(ops), resp.others.telling)
       + (C.Messages(w, ops) + (C.Each(ops, PinnedOf) + C.Each(ops, UnpinnedOf))))
    + if crashed then [] else C.Each(ops, KilledOf) + C.Each(ops, WrittenOf) + C.Each(ops, ClosedOf)
  }

  /** The script ends well, and each recipient its calls name is registered when it is looked up. */
  ghost predicate Succeeds(k: Kernel, resp: Response) {
    var notes := C.Notes(resp.script.ops);
    resp.script.ending.Finished?
    && forall i :: 0 <= i < |notes| ==> notes[i].recipient in R.AsOf(k.registry, resp.others.validating, i + 1)
  }

  lemma SucceedsIff(w: World, c: Config, k: Kernel, resp: Response, now: nat)
    ensures Failure(w, c, k, resp, now).None? <==> Succeeds(k, resp)
  {
    TurnFacts.FailsIff(w, c, k, resp, now);
    C.EffectsAreTheCalls(w, ModeOf(c, k), now, Begin(k, resp).s, resp.script);
  }

  /** The turn launches a process that starts and is to be waited for. */
  ghost predicate WaitsForOne(w: World, c: Config, k: Kernel, resp: Response) {
    var reqs := C.LaunchRequests(w, ModeOf(c, k), k.s.counter, resp.script.ops);
    exists i :: 0 <= i < |reqs| && reqs[i].blocks && !w.launchFails(reqs[i].pid)
  }

  lemma BlocksIff(w: World, c: Config, k: Kernel, resp: Response, now: nat)
    ensures Blocks(w, Run(w, c, k, resp, now).fx.launches) <==> WaitsForOne(w, c, k, resp)
  {
    C.EffectsAreTheCalls(w, ModeOf(c, k), now, Begin(k, resp).s, resp.script);
    var reqs := Run(w, c, k, resp, now).fx.launches;
    if l :| l in reqs && l.blocks && !w.launchFails(l.pid) {
      var i :| 0 <= i < |reqs| && reqs[i] == l;
    }
  }

  lemma PreparedPlace(w: World, c: Config, k: Kernel, resp: Response, now: nat)
    requires Failure(w, c, k, resp, now).None?
    ensures PlaceOf(Prepared(Begin(k, resp), resp, Run(w, c, k, resp, now).fx)) == LookedPlace(k, resp)
  {
    PreparedRegistry(w, c, k, resp, now);
    C.EffectsAreTheCalls(w, ModeOf(c, k), now, Begin(k, resp).s, resp.script);
  }

  lemma DemandedIsAsked(w: World, c: Config, k: Kernel, resp: Response, now: nat, crashed: bool)
    requires Failure(w, c, k, resp, now).None?
    ensures var fx := Run(w, c, k, resp, now).fx;
            Demanded(w, c, PlaceOf(Prepared(Begin(k, resp), resp, fx)), fx, resp, crashed) == Asked(w, c, k, resp, crashed)
  {
    var fx, ops := Run(w, c, k, resp, now).fx, resp.script.ops;
    C.EffectsAreTheCalls(w, ModeOf(c, k), now, Begin(k, resp).s, resp.script);
    PreparedPlace(w, c, k, resp, now);
    SignalsAreSent(LookedPlace(k, resp).registry, fx.childKills, resp.others.killing);
    LettersAreRouted(ForkedPlace(w, c, k, resp).registry, fx.notes, resp.others.telling);
    PinsAre(ops);
    PerformedAre(ops);
  }

  lemma HooksAfterRun(w: World, c: Config, k: Kernel, resp: Response, now: nat)
    ensures Run(w, c, k, resp, now).s.hooks == C.TableAfter(k.s.hooks, C.HookCalls(w, resp.script.ops))
  {
    C.HooksAreTheCalls(w, ModeOf(c, k), now, Txn(Begin(k, resp).s, NO_EFFECTS), resp.script.ops);
  }

  /**
   * From the calls to what happens. A turn whose script ends well, and names only registered agents, causes
   * every launch, kill, child, message, pin and input that its calls ask for, in this order, each addressed
   * by the registry as it is at that moment. If the calls leave no hooks, and no `!hooks` command is read
   * while the turn waits for a process, it causes nothing else. Only if the agent does not survive what it
   * reads while it waits are process kills and input left out. (A failed turn causes nothing: see the
   * rollback.)
   */
  lemma CommittedTurnEmits(w: World, c: Config, k: Kernel, resp: Response, now: nat)
    requires Succeeds(k, resp)
    ensures var after := Turn(w, c, k, resp, now);
            var so := Asked(w, c, k, resp, after.crashed);
            && IsSubsequence(k.log + so, after.log)
            && (C.TableAfter(k.s.hooks, C.HookCalls(w, resp.script.ops)) == [] && (WaitsForOne(w, c, k, resp) ==> Plain(k.inbox))
                ==> after.log == k.log + so)
  {
    SucceedsIff(w, c, k, resp, now);
    CollectedTurnEmits(w, c, k, resp, now);
    DemandedIsAsked(w, c, k, resp, now, Turn(w, c, k, resp, now).crashed);
    HooksAfterRun(w, c, k, resp, now);
    BlocksIff(w, c, k, resp, now);
  }
}
