/**
 * The registry and the places for children, through an agent's whole run: only forks take places, and
 * they take them exactly as the fork loop does.
 */
module Places {
  import opened Base
  import opened Ids
  import opened Items
  import opened Kernels
  import opened Turns
  import opened KernelRuns
  import R = Registries
  import F = Forks
  import S = SseParsing

  /** The part of an agent that forking works on. */
  datatype Place = Place(registry: R.Registry, active: nat, nextChannel: nat)

  function PlaceOf(k: Kernel): Place {
    Place(k.registry, k.active, k.nextChannel)
  }

  /** One request, as the fork loop decides it. */
  function Requested(w: World, c: Config, p: Place, names: seq<string>): Place {
    match F.Fork(c.maxChildren, w.clientFails, c.lineage, p.registry, p.active, p.nextChannel, names)
    case Rejected(_) => p.(nextChannel := p.nextChannel + |names|)
    case Accepted(progress) => Place(progress.registry, progress.active, p.nextChannel + |names|)
  }

  function LaterPlace(p: Place, ops: seq<R.OthersOp>): Place {
    p.(registry := R.OthersDoAll(p.registry, ops))
  }

  /** The requests in order, others having the registry before each. */
  function RequestedAll(w: World, c: Config, p: Place, forks: seq<seq<string>>, between: R.Between): Place {
    if forks == [] then p
    else
      var n := |forks| - 1;
      Requested(w, c, LaterPlace(RequestedAll(w, c, p, forks[..n], between), R.Before(between, n)), forks[n])
  }

  /** The place when the kill signals have been sent and the fork requests answered. */
  function WorkedPlace(w: World, c: Config, p: Place, fx: Effects, resp: Response): Place {
    var signalled := p.(registry := R.AsOf(p.registry, resp.others.killing, |fx.childKills|));
    RequestedAll(w, c, signalled, fx.forks, resp.others.forking)
  }

  /** And when the messages have been sent. */
  function CommittedPlace(w: World, c: Config, p: Place, fx: Effects, resp: Response): Place {
    var worked := WorkedPlace(w, c, p, fx, resp);
    worked.(registry := R.AsOf(worked.registry, resp.others.telling, |fx.notes|))
  }

  lemma SettlePlace(w: World, k: Kernel, hook: Hook, plan: Plan, item: WorkItem, now: nat)
    ensures PlaceOf(Settle(w, k, hook, plan, item, now)) == PlaceOf(k)
  {}

  lemma PushItemPlace(w: World, k: Kernel, item: WorkItem, now: nat)
    ensures PlaceOf(PushItem(w, k, item, now)) == PlaceOf(k)
  {
    if !IsHooksCommand(item) && k.s.hooks != [] && Matched(w, k.s, item).Some? {
      var hook := k.s.hooks[Matched(w, k.s, item).value];
      SettlePlace(w, k, hook, w.plan(hook, item, k.s.memory), item, now);
    }
  }

  lemma PushNewPlace(w: World, k: Kernel, priority: u8, kind: ItemKind, attachments: seq<string>, now: nat)
    ensures PlaceOf(PushNew(w, k, priority, kind, attachments, now)) == PlaceOf(k)
  {
    PushItemPlace(w, k.(s := Issue(w, k.s)), WorkItem(w.draw(k.s.counter), priority, now, kind, attachments), now);
  }

  lemma {:induction false} PushAllPlace(w: World, k: Kernel, items: seq<WorkItem>, now: nat)
    ensures PlaceOf(PushAll(w, k, items, now)) == PlaceOf(k)
  {
    if items != [] {
      PushAllPlace(w, k, items[..|items| - 1], now);
      PushItemPlace(w, PushAll(w, k, items[..|items| - 1], now), items[|items| - 1], now);
    }
  }

  lemma {:induction false} LaunchAllPlace(w: World, k: Kernel, reqs: seq<LaunchRequest>, now: nat)
    ensures PlaceOf(LaunchAll(w, k, reqs, now)) == PlaceOf(k)
  {
    if reqs != [] {
      var before, req := LaunchAll(w, k, reqs[..|reqs| - 1], now), reqs[|reqs| - 1];
      LaunchAllPlace(w, k, reqs[..|reqs| - 1], now);
      var failed := Mark(before.(log := before.log + [Refused(req.pid)]), req.pid, Failed("spawn failed"));
      PushNewPlace(w, failed, req.failPrio, ProcessFailed(req.pid, "spawn failed", None, req.description), [], now);
    }
  }

  lemma {:induction false} ReportAllPlace(w: World, k: Kernel, reports: seq<F.Report>, now: nat)
    ensures PlaceOf(ReportAll(w, k, reports, now)) == PlaceOf(k)
  {
    if reports != [] {
      var r := reports[|reports| - 1];
      ReportAllPlace(w, k, reports[..|reports| - 1], now);
      PushNewPlace(w, ReportAll(w, k, reports[..|reports| - 1], now), 7, ChildAgentCompleted(r.name, false, ReportText(r)), [], now);
    }
  }

  lemma ApplyForkPlace(w: World, c: Config, k: Kernel, names: seq<string>, now: nat, out: F.Outcome)
    requires out == F.Fork(c.maxChildren, w.clientFails, c.lineage, k.registry, k.active, k.nextChannel, names)
    ensures PlaceOf(ApplyFork(w, k, out, names, now)) == Requested(w, c, PlaceOf(k), names)
  {
    match out {
      case Rejected(_) => PushNewPlace(w, UseChannels(k, |names|), 7, ForkFailure(), [], now);
      case Accepted(p) => ReportAllPlace(w, Forked(w, k, p, names, now), p.reports, now);
    }
  }

  lemma {:induction false} ForkAllPlace(w: World, c: Config, k: Kernel, forks: seq<seq<string>>, between: R.Between, now: nat)
    ensures PlaceOf(ForkAll(w, c, k, forks, between, now)) == RequestedAll(w, c, PlaceOf(k), forks, between)
  {
    if forks != [] {
      var n := |forks| - 1;
      var before, names := LetOthers(ForkAll(w, c, k, forks[..n], between, now), R.Before(between, n)), forks[n];
      ForkAllPlace(w, c, k, forks[..n], between, now);
      ApplyForkPlace(w, c, before, names, now,
                     F.Fork(c.maxChildren, w.clientFails, c.lineage, before.registry, before.active, before.nextChannel, names));
    }
  }

  lemma CommitWorkPlace(w: World, c: Config, k: Kernel, t: Txn, resp: Response, now: nat)
    ensures PlaceOf(CommitWork(w, c, k, t, resp, now)) == WorkedPlace(w, c, PlaceOf(k), t.fx, resp)
  {
    var installed := Install(k, t.s);
    LaunchAllPlace(w, installed, t.fx.launches, now);
    var killed := KillChildren(LaunchAll(w, installed, t.fx.launches, now), t.fx.childKills, resp.others.killing);
    PushNewPlace(w, killed, 10, View(t.fx.views), [], now);
    ForkAllPlace(w, c, QueueView(w, killed, t.fx.views, now), t.fx.forks, resp.others.forking, now);
  }

  lemma CommitRestPlace(w: World, c: Config, k: Kernel, fx: Effects, resp: Response, now: nat)
    ensures PlaceOf(CommitRest(w, c, k, fx, resp, now))
            == PlaceOf(k).(registry := R.AsOf(k.registry, resp.others.telling, |fx.notes|))
  {}

  /**
   * What a commit does to registry and places: exactly its fork requests, in order, each answered by the
   * registry as it then is, whatever other agents do to it before each of the commit's operations.
   */
  lemma CommitPlace(w: World, c: Config, k: Kernel, t: Txn, resp: Response, now: nat)
    ensures PlaceOf(Commit(w, c, k, t, resp, now)) == CommittedPlace(w, c, PlaceOf(k), t.fx, resp)
  {
    CommitWorkPlace(w, c, k, t, resp, now);
    CommitRestPlace(w, c, CommitWork(w, c, k, t, resp, now), t.fx, resp, now);
  }

  // ---- Recipients stay known ----

  lemma RequestedKeepsName(w: World, c: Config, p: Place, names: seq<string>, n: string)
    requires n in p.registry
    ensures n in Requested(w, c, p, names).registry
  {
    if F.Fork(c.maxChildren, w.clientFails, c.lineage, p.registry, p.active, p.nextChannel, names).Accepted? {
      F.ForkKeepsName(c.maxChildren, w.clientFails, c.lineage, p.registry, p.active, p.nextChannel, names, n);
    }
  }

  lemma {:induction false} RequestsKeepName(w: World, c: Config, p: Place, forks: seq<seq<string>>, between: R.Between, n: string)
    requires n in p.registry
    ensures n in RequestedAll(w, c, p, forks, between).registry
  {
    if forks != [] {
      var last := |forks| - 1;
      var before := RequestedAll(w, c, p, forks[..last], between);
      RequestsKeepName(w, c, p, forks[..last], between, n);
      R.OthersKeepName(before.registry, R.Before(between, last), n);
      RequestedKeepsName(w, c, LaterPlace(before, R.Before(between, last)), forks[last], n);
    }
  }

  lemma KnownStays(w: World, c: Config, p: Place, fx: Effects, resp: Response, i: nat, n: string)
    requires n in p.registry
    ensures n in R.AsOf(WorkedPlace(w, c, p, fx, resp).registry, resp.others.telling, i)
  {
    var signalled := p.(registry := R.AsOf(p.registry, resp.others.killing, |fx.childKills|));
    R.NameStaysAsOf(p.registry, resp.others.killing, 0, |fx.childKills|, n);
    RequestsKeepName(w, c, signalled, fx.forks, resp.others.forking, n);
    R.NameStaysAsOf(WorkedPlace(w, c, p, fx, resp).registry, resp.others.telling, 0, i, n);
  }

  lemma FoundIsKnown(registry: R.Registry, notes: seq<AgentNote>, between: R.Between, i: nat)
    requires Unknown(registry, notes, between).None? && i < |notes|
    ensures notes[i].recipient in R.AsOf(registry, between, |notes|)
  {
    FoundInTime(registry, notes, between, i);
    R.NameStaysAsOf(registry, between, i + 1, |notes|, notes[i].recipient);
  }

  lemma FoundInTime(registry: R.Registry, notes: seq<AgentNote>, between: R.Between, i: nat)
    requires Unknown(registry, notes, between).None? && i < |notes|
    ensures notes[i].recipient in R.AsOf(registry, between, i + 1)
  {
    assert Known(registry, notes, between)[i];
    R.ViewAt(registry, between, |notes|, i);
  }

  lemma PreparedRegistry(w: World, c: Config, k: Kernel, resp: Response, now: nat)
    requires Failure(w, c, k, resp, now).None?
    ensures var notes := Run(w, c, k, resp, now).fx.notes;
            && Unknown(k.registry, notes, resp.others.validating).None?
            && Prepared(Begin(k, resp), resp, Run(w, c, k, resp, now).fx).registry == R.AsOf(k.registry, resp.others.validating, |notes|)
  {}

  /**
   * A recipient that was found when the turn was validated is still known when its message is sent,
   * whatever other agents have done in between: the message is delivered, or dropped by an agent that has
   * completed, but never without an addressee.
   */
  lemma ValidatedIsNeverNotFound(w: World, c: Config, k: Kernel, resp: Response, now: nat, i: nat)
    requires Failure(w, c, k, resp, now).None? && i < |Run(w, c, k, resp, now).fx.notes|
    ensures var fx := Run(w, c, k, resp, now).fx;
            var place := WorkedPlace(w, c, PlaceOf(Prepared(Begin(k, resp), resp, fx)), fx, resp);
            !R.Route(R.AsOf(place.registry, resp.others.telling, i + 1), fx.notes[i].recipient).NotFound?
  {
    var fx := Run(w, c, k, resp, now).fx;
    FoundIsKnown(k.registry, fx.notes, resp.others.validating, i);
    PreparedRegistry(w, c, k, resp, now);
    KnownStays(w, c, PlaceOf(Prepared(Begin(k, resp), resp, fx)), fx, resp, i + 1, fx.notes[i].recipient);
  }

  /** Two messages to one agent in one turn, the first delivered and the second dropped: it completed in between. */
  lemma DeliveredThenDropped(registry: R.Registry, first: AgentNote, second: AgentNote)
    requires first.recipient == second.recipient && R.RunningIn(registry, first.recipient)
    ensures var name := first.recipient;
            RoutedNotes(registry, [first, second], [[], [R.Leaves(name)]])
            == [Routed(name, R.Delivered(registry[name].channel), first.content, first.priority),
                Routed(name, R.Dropped, second.content, second.priority)]
  {
    var name, between := first.recipient, [[], [R.Leaves(first.recipient)]];
    assert R.AsOf(registry, between, 0) == registry;
    assert R.AsOf(registry, between, 1) == R.OthersDoAll(registry, []) == registry;
    R.OthersSnoc(registry, [], R.Leaves(name));
    assert [] + [R.Leaves(name)] == [R.Leaves(name)];
    assert R.AsOf(registry, between, 2) == R.Completed(registry, name);
    R.ViewAt(registry, between, 2, 0);
    R.ViewAt(registry, between, 2, 1);
  }

  /** The same fork request twice in one turn, refused and then accepted: the holder of the name completed in between. */
  lemma RefusedThenAccepted(w: World, c: Config, p: Place, name: string)
    requires R.RunningIn(p.registry, name)
    ensures var between := [[], [R.Leaves(name)]];
            var first := RequestedAll(w, c, p, [[name]], between);
            && first == p.(nextChannel := p.nextChannel + 1)
            && F.Fork(c.maxChildren, w.clientFails, c.lineage, LaterPlace(first, between[1]).registry, first.active, first.nextChannel,
                      [name]).Accepted?
  {
    var between := [[], [R.Leaves(name)]];
    var forks := [[name]];
    assert forks[..0] == [] && LaterPlace(p, []) == p;
    F.RejectedIff(c.maxChildren, w.clientFails, c.lineage, p.registry, p.active, p.nextChannel, [name]);
    assert [name][0] == name;
    var first := RequestedAll(w, c, p, forks, between);
    R.OthersSnoc(first.registry, [], R.Leaves(name));
    assert [] + [R.Leaves(name)] == [R.Leaves(name)];
    F.RejectedIff(c.maxChildren, w.clientFails, c.lineage, R.Completed(p.registry, name), first.active, first.nextChannel, [name]);
  }

  function Completions(events: seq<Event>): nat {
    if events == [] then 0
    else Completions(events[..|events| - 1]) + if events[|events| - 1].ChildCompleted? then 1 else 0
  }

  lemma ApplyEventPlace(w: World, k: Kernel, e: Event, now: nat)
    ensures var after := ApplyEvent(w, k, e, now);
            && PlaceOf(after) == PlaceOf(k).(active := if e.ChildCompleted? && !k.crashed then SaturatingPred(k.active) else k.active)
  {
    if !e.KillSignal? {
      PushNewPlace(w, Noted(k, e), PriorityOf(k.s.processes, e), KindOf(w, k.s.processes, e), AttachmentsOf(e), now);
    }
  }

  /** Events only ever free places: one for each completion, never below zero, and none once the agent has crashed. */
  lemma {:induction false} ApplyEventsPlace(w: World, k: Kernel, events: seq<Event>, now: nat)
    ensures var after, n := ApplyEvents(w, k, events, now), Completions(events);
            && PlaceOf(after) == PlaceOf(k).(active := after.active) && after.active <= k.active
            && (!after.crashed ==> !k.crashed && after.active == if n <= k.active then k.active - n else 0)
  {
    if events != [] {
      ApplyEventsPlace(w, k, events[..|events| - 1], now);
      ApplyEventPlace(w, ApplyEvents(w, k, events[..|events| - 1], now), events[|events| - 1], now);
      EventKeepsCrash(w, ApplyEvents(w, k, events[..|events| - 1], now), events[|events| - 1], now);
    }
  }

  lemma EventKeepsCrash(w: World, k: Kernel, e: Event, now: nat)
    ensures k.crashed ==> ApplyEvent(w, k, e, now).crashed
  {}

  lemma {:induction false} RequestsWithinLimit(w: World, c: Config, p: Place, forks: seq<seq<string>>, between: R.Between)
    requires p.active <= c.maxChildren
    ensures RequestedAll(w, c, p, forks, between).active <= c.maxChildren
  {
    if forks != [] {
      var n := |forks| - 1;
      var before := LaterPlace(RequestedAll(w, c, p, forks[..n], between), R.Before(between, n));
      RequestsWithinLimit(w, c, p, forks[..n], between);
      if F.Fork(c.maxChildren, w.clientFails, c.lineage, before.registry, before.active, before.nextChannel, forks[n]).Accepted? {
        F.ForkCounts(c.maxChildren, w.clientFails, c.lineage, before.registry, before.active, before.nextChannel, forks[n]);
      }
    }
  }

  lemma CommitWithinLimit(w: World, c: Config, k: Kernel, t: Txn, resp: Response, now: nat)
    requires k.active <= c.maxChildren
    ensures Commit(w, c, k, t, resp, now).active <= c.maxChildren
  {
    var signalled := PlaceOf(k).(registry := R.AsOf(k.registry, resp.others.killing, |t.fx.childKills|));
    CommitPlace(w, c, k, t, resp, now);
    RequestsWithinLimit(w, c, signalled, t.fx.forks, resp.others.forking);
  }

  lemma TurnWithinLimit(w: World, c: Config, k: Kernel, resp: Response, now: nat)
    requires k.active <= c.maxChildren
    ensures Turn(w, c, k, resp, now).active <= c.maxChildren
  {
    if Failure(w, c, k, resp, now).None? {
      var t := Run(w, c, k, resp, now);
      var committed := Commit(w, c, Prepared(Begin(k, resp), resp, t.fx), t, resp, now);
      CommitWithinLimit(w, c, Prepared(Begin(k, resp), resp, t.fx), t, resp, now);
      ApplyEventsPlace(w, committed.(inbox := []), committed.inbox, now);
    }
  }

  lemma StepWithinLimit(w: World, c: Config, k: Kernel, step: Step)
    requires k.active <= c.maxChildren
    ensures Do(w, c, k, step).active <= c.maxChildren
  {
    match step {
      case DrainEvents(v, now) => ApplyEventsPlace(In(w, v), k.(inbox := []), k.inbox, now);
      case TimerCheck(v, now) => PushAllPlace(In(w, v), k.(s := Fired(In(w, v), k.s, now)), Firing(In(w, v), k.s, now), now);
      case TakeTurn(v, resp, now) => TurnWithinLimit(In(w, v), c, k, resp, now);
      case _ =>
    }
  }

  /** In every state an agent reaches, whatever its scripts ask for, no more children run than it may have. */
  lemma {:induction false} ActiveWithinLimit(w: World, c: Config, k: Kernel, steps: seq<Step>)
    requires k.active <= c.maxChildren
    ensures Walk(w, c, k, steps).active <= c.maxChildren
  {
    if steps != [] {
      ActiveWithinLimit(w, c, k, steps[..|steps| - 1]);
      StepWithinLimit(w, c, Walk(w, c, k, steps[..|steps| - 1]), steps[|steps| - 1]);
    }
  }

  ghost predicate Allowed(m: Mode, forks: seq<seq<string>>) {
    forall names :: names in forks ==> m.depth > 0 && names != [] && forall n :: n in names ==> ValidChildName(n)
  }

  lemma StepAllowed(w: World, m: Mode, s: Harness, fx: Effects, op: ScriptOp)
    requires Allowed(m, fx.forks)
    ensures Allowed(m, EffectStep(w, m, s, fx, op).forks)
  {}

  /** Depth: an agent that may not fork, or asks for an invalid name, requests nothing. */
  lemma {:induction false} ForksAreAllowed(w: World, m: Mode, now: nat, t: Txn, ops: seq<ScriptOp>)
    requires Allowed(m, t.fx.forks)
    ensures Allowed(m, Exec(w, m, now, t, ops).fx.forks)
  {
    if ops != [] {
      var before := Exec(w, m, now, t, ops[..|ops| - 1]);
      ForksAreAllowed(w, m, now, t, ops[..|ops| - 1]);
      StepAllowed(w, m, before.s, before.fx, ops[|ops| - 1]);
    }
  }
}
