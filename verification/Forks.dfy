/**
 * Forking child agents: the loop over one request, and the life of the children
 * (src/agent_loop.rs, the fork part of `apply_side_effects`, and `run_child_agent_loop`).
 */
module Forks {
  import opened Base
  import opened Registries

  /** One element of `child_channels`: the receiving end made for a child, and the lineage it will carry. */
  datatype Slot = Slot(channel: nat, lineage: seq<string>)

  datatype Spawn = Spawn(name: string, channel: nat, lineage: seq<string>)

  datatype Cause = NoRoom | ClientFailed

  /** A completion reported at once, for a child that never ran. */
  datatype Report = Report(name: string, cause: Cause)

  datatype Progress = Progress(registry: Registry, active: nat, slots: seq<Slot>, spawned: seq<Spawn>, reports: seq<Report>)

  /** One child of an accepted request; `slots` is popped only when a place is free. */
  function Child(max: nat, clientFails: string -> bool, p: Progress, name: string): Progress {
    if p.active >= max then
      p.(registry := Completed(p.registry, name), reports := p.reports + [Report(name, NoRoom)])
    else if p.slots == [] then p
    else if clientFails(name) then
      p.(registry := Completed(p.registry, name), slots := p.slots[1..], reports := p.reports + [Report(name, ClientFailed)])
    else
      p.(active := p.active + 1, slots := p.slots[1..],
         spawned := p.spawned + [Spawn(name, p.slots[0].channel, p.slots[0].lineage)])
  }

  function Children(max: nat, clientFails: string -> bool, p: Progress, names: seq<string>): Progress {
    if names == [] then p
    else Child(max, clientFails, Children(max, clientFails, p, names[..|names| - 1]), names[|names| - 1])
  }

  /** Channels are numbered as they are created, so no two are ever the same. */
  function Batch(names: seq<string>, firstChannel: nat): seq<Enrolment> {
    seq(|names|, i requires 0 <= i < |names| => Enrolment(names[i], firstChannel + i))
  }

  function Slots(names: seq<string>, firstChannel: nat, lineage: seq<string>): seq<Slot> {
    seq(|names|, i requires 0 <= i < |names| => Slot(firstChannel + i, lineage + [names[i]]))
  }

  datatype Outcome = Rejected(collisions: seq<string>) | Accepted(progress: Progress)

  /** A whole request against the registry. */
  function Fork(
    max: nat, clientFails: string -> bool, lineage: seq<string>, registry: Registry, active: nat, firstChannel: nat,
    names: seq<string>): Outcome
  {
    var collisions := Collisions(registry, Batch(names, firstChannel));
    if collisions != [] then Rejected(collisions)
    else
      var start := Progress(EnrolAll(registry, Batch(names, firstChannel)), active, Slots(names, firstChannel, lineage), [], []);
      Accepted(Children(max, clientFails, start, names))
  }

  /** The parent's side of forking: its place count, and the registry it shares. */
  class Forker {
    const max: nat
    const lineage: seq<string>
    const registry: AgentRegistry
    var active: nat
    var nextChannel: nat

    constructor (max: nat, lineage: seq<string>, registry: AgentRegistry)
      ensures this.max == max && this.lineage == lineage && this.registry == registry
      ensures active == 0 && nextChannel == 0
    {
      this.max := max;
      this.lineage := lineage;
      this.registry := registry;
      active := 0;
      nextChannel := 0;
    }

    /** Makes the channel pairs and the registration entries side by side. */
    method MakeChannels(names: seq<string>) returns (batch: seq<Enrolment>, slots: seq<Slot>)
      modifies this`nextChannel
      ensures batch == Batch(names, old(nextChannel)) && slots == Slots(names, old(nextChannel), lineage)
      ensures nextChannel == old(nextChannel) + |names|
    {
      batch, slots := [], [];
      for i := 0 to |names|
        invariant nextChannel == old(nextChannel) + i && |batch| == i && |slots| == i
        invariant forall j :: 0 <= j < i ==> batch[j] == Enrolment(names[j], old(nextChannel) + j)
        invariant forall j :: 0 <= j < i ==> slots[j] == Slot(old(nextChannel) + j, lineage + [names[j]])
      {
        batch := batch + [Enrolment(names[i], nextChannel)];
        slots := slots + [Slot(nextChannel, lineage + [names[i]])];
        nextChannel := nextChannel + 1;
      }
    }

    /** One request: the batch is registered, then each child is spawned, refused or fails to start. */
    method ForkChildren(names: seq<string>, clientFails: string -> bool)
      returns (collisions: seq<string>, spawned: seq<Spawn>, reports: seq<Report>)
      modifies this`active, this`nextChannel, registry
      ensures var out := Fork(max, clientFails, lineage, old(registry.agents), old(active), old(nextChannel), names);
              && (out.Rejected? ==> collisions == out.collisions != [] && spawned == [] && reports == [])
              && (out.Rejected? ==> registry.agents == old(registry.agents) && active == old(active))
              && (out.Accepted? ==> collisions == [] && spawned == out.progress.spawned && reports == out.progress.reports)
              && (out.Accepted? ==> registry.agents == out.progress.registry && active == out.progress.active)
      ensures nextChannel == old(nextChannel) + |names|
    {
      var batch, childChannels := MakeChannels(names);
      spawned, reports := [], [];
      collisions := registry.RegisterBatch(batch);
      if collisions != [] {
        return;
      }
      ghost var start := Progress(registry.agents, active, childChannels, [], []);
      for i := 0 to |names|
        invariant Progress(registry.agents, active, childChannels, spawned, reports)
               == Children(max, clientFails, start, names[..i])
        invariant active < max ==> |childChannels| == |names| - i
        invariant nextChannel == old(nextChannel) + |names|
      {
        var name := names[i];
        assert names[..i + 1][..i] == names[..i];
        if active >= max {
          registry.Deregister(name);
          reports := reports + [Report(name, NoRoom)];
          continue;
        }
        active := active + 1;
        var slot := childChannels[0];
        childChannels := childChannels[1..];
        if clientFails(name) {
          active := SaturatingPred(active);
          registry.Deregister(name);
          reports := reports + [Report(name, ClientFailed)];
          continue;
        }
        spawned := spawned + [Spawn(name, slot.channel, slot.lineage)];
      }
      assert names[..|names|] == names;
    }
  }

  // ---- One request ----

  /** The number of leading children that found a place. */
  function Admitted(max: nat, clientFails: string -> bool, p: Progress, names: seq<string>): nat {
    if names == [] then 0
    else
      var before := names[..|names| - 1];
      Admitted(max, clientFails, p, before) + if Children(max, clientFails, p, before).active >= max then 0 else 1
  }

  /** What the loop knows after some children: how the lists relate to the ones already handled. */
  ghost predicate Aligned(max: nat, start: Progress, p: Progress, names: seq<string>, admitted: nat) {
    && admitted <= |names| <= |start.slots|
    && (admitted < |names| ==> p.active >= max)
    && p.slots == start.slots[admitted..]
    && p.active == start.active + |p.spawned|
    && (start.active <= max ==> p.active <= max)
    && |p.spawned| + |p.reports| == |names|
    && multiset(SpawnNames(p.spawned)) + multiset(ReportNames(p.reports)) == multiset(names)
  }

  function SpawnNames(spawned: seq<Spawn>): seq<string> {
    seq(|spawned|, i requires 0 <= i < |spawned| => spawned[i].name)
  }

  function ReportNames(reports: seq<Report>): seq<string> {
    seq(|reports|, i requires 0 <= i < |reports| => reports[i].name)
  }

  lemma SpawnNamesSnoc(spawned: seq<Spawn>, s: Spawn)
    ensures SpawnNames(spawned + [s]) == SpawnNames(spawned) + [s.name]
  {}

  lemma ReportNamesSnoc(reports: seq<Report>, r: Report)
    ensures ReportNames(reports + [r]) == ReportNames(reports) + [r.name]
  {}

  /**
   * Skipped children do not pop a slot, yet slots and children stay in step: once one child is refused,
   * all later ones of the request are. Every child is spawned or reported, once.
   */
  lemma {:induction false} ChildrenStayAligned(max: nat, clientFails: string -> bool, start: Progress, names: seq<string>)
    requires |names| <= |start.slots| && start.spawned == [] && start.reports == []
    ensures Aligned(max, start, Children(max, clientFails, start, names), names, Admitted(max, clientFails, start, names))
  {
    if names == [] {
      assert SpawnNames([]) == [] && ReportNames([]) == [];
    } else {
      var before, name := names[..|names| - 1], names[|names| - 1];
      ChildrenStayAligned(max, clientFails, start, before);
      assert names == before + [name];
      var p := Children(max, clientFails, start, before);
      ChildStaysAligned(max, clientFails, start, p, before, Admitted(max, clientFails, start, before), name);
    }
  }

  lemma ChildStaysAligned(
    max: nat, clientFails: string -> bool, start: Progress, p: Progress, before: seq<string>, admitted: nat, name: string)
    requires Aligned(max, start, p, before, admitted) && |before| < |start.slots|
    ensures Aligned(max, start, Child(max, clientFails, p, name), before + [name],
                    admitted + if p.active >= max then 0 else 1)
  {
    if p.active >= max {
      ReportNamesSnoc(p.reports, Report(name, NoRoom));
    } else if clientFails(name) {
      ReportNamesSnoc(p.reports, Report(name, ClientFailed));
    } else {
      SpawnNamesSnoc(p.spawned, Spawn(name, p.slots[0].channel, p.slots[0].lineage));
    }
  }

  /** Within one request a freed place is never offered again: refusals form a suffix. */
  lemma {:induction false} RefusalsAreSuffix(max: nat, clientFails: string -> bool, start: Progress, names: seq<string>, k: nat)
    requires k <= |names| && Children(max, clientFails, start, names[..k]).active >= max
    ensures Children(max, clientFails, start, names).active >= max
    decreases |names| - k
  {
    if k == |names| {
      assert names[..k] == names;
    } else {
      assert names[..k + 1][..k] == names[..k];
      RefusalsAreSuffix(max, clientFails, start, names, k + 1);
    }
  }

  /** A spawned child is the child whose slot it got. */
  ghost predicate OwnSlot(s: Spawn, names: seq<string>, slots: seq<Slot>) {
    exists i :: 0 <= i < |names| && i < |slots| && s == Spawn(names[i], slots[i].channel, slots[i].lineage)
  }

  lemma {:induction false} SpawnedOwnSlots(max: nat, clientFails: string -> bool, start: Progress, names: seq<string>)
    requires |names| <= |start.slots| && start.spawned == [] && start.reports == []
    ensures forall s :: s in Children(max, clientFails, start, names).spawned ==> OwnSlot(s, names, start.slots)
  {
    if names != [] {
      var before, name := names[..|names| - 1], names[|names| - 1];
      SpawnedOwnSlots(max, clientFails, start, before);
      ChildrenStayAligned(max, clientFails, start, before);
      var p, after := Children(max, clientFails, start, before), Children(max, clientFails, start, names);
      forall s | s in after.spawned ensures OwnSlot(s, names, start.slots) {
        if s in p.spawned {
          var i :| 0 <= i < |before| && i < |start.slots|
                && s == Spawn(before[i], start.slots[i].channel, start.slots[i].lineage);
          assert names[i] == before[i];
        } else {
          var i := |names| - 1;
          assert start.slots[i..][0] == start.slots[i];
          assert s == Spawn(names[i], start.slots[i].channel, start.slots[i].lineage);
        }
      }
    }
  }

  /** Only reported children are deregistered. */
  lemma {:induction false} OnlyReportedDeregistered(
    max: nat, clientFails: string -> bool, start: Progress, names: seq<string>, n: string)
    requires |names| <= |start.slots| && start.spawned == [] && start.reports == []
    ensures var p := Children(max, clientFails, start, names);
            && (n in p.registry <==> n in start.registry)
            && (n !in ReportNames(p.reports) && n in start.registry ==> p.registry[n] == start.registry[n])
            && (n in start.registry ==> p.registry[n].channel == start.registry[n].channel)
            && (n in ReportNames(p.reports) && n in start.registry ==> p.registry[n].completed)
  {
    if names != [] {
      var before, name := names[..|names| - 1], names[|names| - 1];
      OnlyReportedDeregistered(max, clientFails, start, before, n);
      var p := Children(max, clientFails, start, before);
      ReportNamesSnoc(p.reports, Report(name, NoRoom));
      ReportNamesSnoc(p.reports, Report(name, ClientFailed));
    }
  }

  lemma SpawnNamesIn(spawned: seq<Spawn>, s: Spawn)
    requires s in spawned
    ensures s.name in SpawnNames(spawned)
  {
    var i :| 0 <= i < |spawned| && spawned[i] == s;
    assert SpawnNames(spawned)[i] == s.name;
  }

  lemma DistinctSpread(names: seq<string>, a: seq<string>, b: seq<string>, x: string)
    requires NoDuplicates(names) && multiset(a) + multiset(b) == multiset(names)
    ensures NoDuplicates(a)
    ensures x in a ==> x !in b
    ensures x in names <==> x in a || x in b
  {
    forall y ensures multiset(a)[y] + multiset(b)[y] <= 1 { AtMostOnce(names, y); }
    forall i, j | 0 <= i < j < |a| ensures a[i] != a[j] {
      if a[i] == a[j] { TwiceCounts(a, i, j); }
    }
    assert x in a <==> multiset(a)[x] >= 1;
    assert x in b <==> multiset(b)[x] >= 1;
    assert x in names <==> multiset(names)[x] >= 1;
  }

  lemma TwiceCounts(s: seq<string>, i: nat, j: nat)
    requires i < j < |s| && s[i] == s[j]
    ensures multiset(s)[s[i]] >= 2
  {
    assert s == s[..i] + [s[i]] + s[i + 1..j] + [s[j]] + s[j + 1..];
  }

  lemma {:induction false} AtMostOnce(s: seq<string>, x: string)
    requires NoDuplicates(s)
    ensures multiset(s)[x] <= 1
  {
    if s != [] {
      AtMostOnce(s[1..], x);
      assert s == [s[0]] + s[1..];
    }
  }

  /** The state in which an accepted request starts its loop. */
  function Begin(lineage: seq<string>, registry: Registry, active: nat, firstChannel: nat, names: seq<string>): Progress {
    Progress(EnrolAll(registry, Batch(names, firstChannel)), active, Slots(names, firstChannel, lineage), [], [])
  }

  lemma EnrolledByPosition(registry: Registry, names: seq<string>, firstChannel: nat)
    requires Collisions(registry, Batch(names, firstChannel)) == []
    ensures NoDuplicates(names)
    ensures var all := EnrolAll(registry, Batch(names, firstChannel));
            && (forall i :: 0 <= i < |names| ==> names[i] in all && all[names[i]] == Entry(firstChannel + i, false))
            && (forall i :: 0 <= i < |names| ==> !RunningIn(registry, names[i]))
            && (forall n :: n !in names ==> (n in all <==> n in registry) && (n in registry ==> all[n] == registry[n]))
  {
    var batch := Batch(names, firstChannel);
    BatchAcceptedIff(registry, batch);
    forall i, j | 0 <= i < j < |names| ensures names[i] != names[j] { assert batch[i].name != batch[j].name; }
    forall i | 0 <= i < |names| ensures names[i] in EnrolAll(registry, batch) && !RunningIn(registry, names[i])
                             && EnrolAll(registry, batch)[names[i]] == Entry(firstChannel + i, false) {
      EnrolledAt(registry, batch, i);
      assert batch[i].name == names[i];
    }
    forall n | n !in names
      ensures var all := EnrolAll(registry, batch); (n in all <==> n in registry) && (n in registry ==> all[n] == registry[n])
    {
      EnrolledElsewhere(registry, batch, n);
    }
  }

  /** The limit holds, and every child of the request is spawned or reported, exactly once. */
  lemma ForkCounts(
    max: nat, clientFails: string -> bool, lineage: seq<string>, registry: Registry, active: nat, firstChannel: nat,
    names: seq<string>)
    requires Fork(max, clientFails, lineage, registry, active, firstChannel, names).Accepted?
    ensures var p := Fork(max, clientFails, lineage, registry, active, firstChannel, names).progress;
            && p.active == active + |p.spawned|
            && (active <= max ==> p.active <= max)
            && NoDuplicates(SpawnNames(p.spawned))
            && multiset(SpawnNames(p.spawned)) + multiset(ReportNames(p.reports)) == multiset(names)
  {
    EnrolledByPosition(registry, names, firstChannel);
    var start := Begin(lineage, registry, active, firstChannel, names);
    ChildrenStayAligned(max, clientFails, start, names);
    var p := Children(max, clientFails, start, names);
    DistinctSpread(names, SpawnNames(p.spawned), ReportNames(p.reports), "");
  }

  /**
   * Every spawned child runs on the channel and carries the lineage registered under its own name;
   * every other child of the request is deregistered and reported; and no other agent is touched.
   */
  lemma ForkAligns(
    max: nat, clientFails: string -> bool, lineage: seq<string>, registry: Registry, active: nat, firstChannel: nat,
    names: seq<string>, n: string)
    requires Fork(max, clientFails, lineage, registry, active, firstChannel, names).Accepted?
    ensures var p := Fork(max, clientFails, lineage, registry, active, firstChannel, names).progress;
            && (forall s :: s in p.spawned && s.name == n ==>
                  n in p.registry && p.registry[n] == Entry(s.channel, false) && s.lineage == lineage + [n])
            && (n in ReportNames(p.reports) ==> n in p.registry && p.registry[n].completed)
            && (n !in names ==> (n in p.registry <==> n in registry) && (n in registry ==> p.registry[n] == registry[n]))
            && (n in names ==> !RunningIn(registry, n))
            && (n in names <==> n in SpawnNames(p.spawned) || n in ReportNames(p.reports))
  {
    EnrolledByPosition(registry, names, firstChannel);
    var start := Begin(lineage, registry, active, firstChannel, names);
    var p := Children(max, clientFails, start, names);
    ChildrenStayAligned(max, clientFails, start, names);
    OnlyReportedDeregistered(max, clientFails, start, names, n);
    DistinctSpread(names, SpawnNames(p.spawned), ReportNames(p.reports), n);
    forall s | s in p.spawned && s.name == n
      ensures n in p.registry && p.registry[n] == Entry(s.channel, false) && s.lineage == lineage + [n]
    {
      SpawnedOwnSlots(max, clientFails, start, names);
      SpawnNamesIn(p.spawned, s);
      var i :| 0 <= i < |names| && i < |start.slots|
            && s == Spawn(names[i], start.slots[i].channel, start.slots[i].lineage);
      assert names[i] == n;
    }
  }

  /** No name is lost. */
  lemma ForkKeepsName(
    max: nat, clientFails: string -> bool, lineage: seq<string>, registry: Registry, active: nat, firstChannel: nat,
    names: seq<string>, n: string)
    requires Fork(max, clientFails, lineage, registry, active, firstChannel, names).Accepted? && n in registry
    ensures n in Fork(max, clientFails, lineage, registry, active, firstChannel, names).progress.registry
  {
    ForkAligns(max, clientFails, lineage, registry, active, firstChannel, names, n);
    if n in names {
      var spawned := Fork(max, clientFails, lineage, registry, active, firstChannel, names).progress.spawned;
      if n in SpawnNames(spawned) {
        var i :| 0 <= i < |spawned| && SpawnNames(spawned)[i] == n;
        assert spawned[i] in spawned && spawned[i].name == n;
      }
    }
  }

  /** A rejected request changes no registry entry and takes no place: it is refused before the first step. */
  lemma RejectedIff(
    max: nat, clientFails: string -> bool, lineage: seq<string>, registry: Registry, active: nat, firstChannel: nat,
    names: seq<string>)
    ensures Fork(max, clientFails, lineage, registry, active, firstChannel, names).Rejected?
        <==> !NoDuplicates(names) || exists i :: 0 <= i < |names| && RunningIn(registry, names[i])
  {
    var batch := Batch(names, firstChannel);
    BatchAcceptedIff(registry, batch);
    if NoDuplicates(names) {
      forall i, j | 0 <= i < j < |batch| ensures batch[i].name != batch[j].name {
        assert names[i] != names[j];
      }
    }
    if DistinctNames(batch) {
      forall i, j | 0 <= i < j < |names| ensures names[i] != names[j] {
        assert batch[i].name != batch[j].name;
      }
    }
    if i :| 0 <= i < |names| && RunningIn(registry, names[i]) { assert batch[i].name == names[i]; }
    if i :| 0 <= i < |batch| && RunningIn(registry, batch[i].name) { assert batch[i].name == names[i]; }
  }

  // ---- Others during the loop ----

  function Letting(p: Progress, ops: seq<OthersOp>): Progress {
    p.(registry := OthersDoAll(p.registry, ops))
  }

  /** The loop, with others having the registry before each child's step. */
  function ChildrenAmong(max: nat, clientFails: string -> bool, p: Progress, names: seq<string>, between: Between): Progress {
    if names == [] then p
    else
      var n := |names| - 1;
      Child(max, clientFails, Letting(ChildrenAmong(max, clientFails, p, names[..n], between), Before(between, n)), names[n])
  }

  /** One child's step on a registry that others have changed. */
  lemma ChildAmong(max: nat, clientFails: string -> bool, p: Progress, ops: seq<OthersOp>, name: string) returns (after: seq<OthersOp>)
    requires RunningIn(p.registry, name) && Spares(ops, name)
    ensures Child(max, clientFails, Letting(p, ops), name) == Letting(Child(max, clientFails, p, name), after)
    ensures forall op :: op in after ==> op in ops
  {
    OthersCommuteAll(p.registry, ops, name);
    UnrefusedIn(ops, name);
    after := if Child(max, clientFails, p, name).registry == p.registry then ops else Unrefused(ops, name);
    assert Letting(p, ops).registry == OthersDoAll(p.registry, ops);
  }

  lemma {:induction false} UnrefusedIn(ops: seq<OthersOp>, name: string)
    ensures forall op :: op in Unrefused(ops, name) ==> op in ops
  {
    if ops != [] { UnrefusedIn(ops[..|ops| - 1], name); }
  }

  /** The child's step leaves the entries of the others of its request alone. */
  lemma ChildElsewhere(max: nat, clientFails: string -> bool, p: Progress, name: string, other: string)
    requires name != other && RunningIn(p.registry, other)
    ensures RunningIn(Child(max, clientFails, p, name).registry, other)
  {}

  lemma {:induction false} ChildrenElsewhere(max: nat, clientFails: string -> bool, p: Progress, names: seq<string>, other: string)
    requires other !in names && RunningIn(p.registry, other)
    ensures RunningIn(Children(max, clientFails, p, names).registry, other)
  {
    if names != [] {
      ChildrenElsewhere(max, clientFails, p, names[..|names| - 1], other);
      ChildElsewhere(max, clientFails, Children(max, clientFails, p, names[..|names| - 1]), names[|names| - 1], other);
    }
  }

  /** No agent but its own ends a child that has not yet been spawned. */
  ghost predicate SparesUnspawned(names: seq<string>, between: Between) {
    forall i, j :: 0 <= i < |between| && i <= j < |names| ==> Spares(between[i], names[j])
  }

  /**
   * A request sees the registry once. Whatever others do between the steps of its loop, its children fare
   * exactly as if others had waited until the loop was over, and then done, of all that, what was not
   * refused: nobody can register the name of a child that is about to be started or refused.
   */
  lemma {:induction false} LoopSeesOneRegistry(max: nat, clientFails: string -> bool, p: Progress, names: seq<string>, between: Between)
    returns (after: seq<OthersOp>)
    requires NoDuplicates(names) && (forall i :: 0 <= i < |names| ==> RunningIn(p.registry, names[i]))
    requires SparesUnspawned(names, between)
    ensures ChildrenAmong(max, clientFails, p, names, between) == Letting(Children(max, clientFails, p, names), after)
    ensures forall op :: op in after ==> exists i :: 0 <= i < |between| && i < |names| && op in between[i]
  {
    if names == [] {
      return [];
    }
    var n := |names| - 1;
    var front, plain := names[..n], Children(max, clientFails, p, names[..n]);
    assert SparesUnspawned(front, between);
    var before := LoopSeesOneRegistry(max, clientFails, p, front, between);
    var ops := before + Before(between, n);
    OthersJoin(plain.registry, before, Before(between, n));
    assert names[n] !in front;
    ChildrenElsewhere(max, clientFails, p, front, names[n]);
    forall op | op in before ensures op != Leaves(names[n]) {
      var i :| 0 <= i < |between| && i < |front| && op in between[i];
      assert Spares(between[i], names[n]);
    }
    after := ChildAmong(max, clientFails, plain, ops, names[n]);
  }

  // ---- Any run of one parent, its children, and the other agents that share the registry ----

  /**
   * `running` children were spawned and have not finished; `inbox` holds their completion events not yet
   * applied. `accepted` and `reported` count, by name, children of accepted requests and the
   * ChildAgentCompleted events made for them.
   */
  datatype System = System(
    registry: Registry, active: nat, running: seq<Spawn>, inbox: seq<Spawn>,
    accepted: multiset<string>, reported: multiset<string>, nextChannel: nat)

  datatype Event =
    | Request(names: seq<string>, clientFails: string -> bool)
    | Finish(child: nat)
    | ApplyCompletion
    | OthersRegister(name: string, channel: nat)
    | OthersDeregister(name: string)

  function Do(max: nat, lineage: seq<string>, s: System, e: Event): System {
    match e
    case Request(names, clientFails) =>
      (match Fork(max, clientFails, lineage, s.registry, s.active, s.nextChannel, names)
       case Rejected(_) => s.(nextChannel := s.nextChannel + |names|)
       case Accepted(p) =>
         s.(registry := p.registry, active := p.active, running := s.running + p.spawned,
            accepted := s.accepted + multiset(names), reported := s.reported + multiset(ReportNames(p.reports)),
            nextChannel := s.nextChannel + |names|))
    case Finish(child) =>
      if child >= |s.running| then s
      else
        s.(registry := Completed(s.registry, s.running[child].name), running := RemoveAt(s.running, child),
           inbox := s.inbox + [s.running[child]])
    case ApplyCompletion =>
      if s.inbox == [] then s
      else
        s.(active := SaturatingPred(s.active), inbox := s.inbox[1..],
           reported := s.reported + multiset{s.inbox[0].name})
    case OthersRegister(name, channel) =>
      if RunningIn(s.registry, name) then s else s.(registry := s.registry[name := Entry(channel, false)])
    case OthersDeregister(name) =>
      if name in SpawnNames(s.running) then s else s.(registry := Completed(s.registry, name))
  }

  function Run(max: nat, lineage: seq<string>, s: System, events: seq<Event>): System {
    if |events| == 0 then s
    else Do(max, lineage, Run(max, lineage, s, events[..|events| - 1]), events[|events| - 1])
  }

  function Fresh(registry: Registry): System {
    System(registry, 0, [], [], multiset{}, multiset{}, 0)
  }

  ghost predicate Counted(max: nat, s: System) {
    && s.active == |s.running| + |s.inbox|
    && s.active <= max
    && s.accepted == multiset(SpawnNames(s.running)) + multiset(SpawnNames(s.inbox)) + s.reported
  }

  ghost predicate Addressable(s: System) {
    && NoDuplicates(SpawnNames(s.running))
    && forall c :: c in s.running ==> c.name in s.registry && s.registry[c.name] == Entry(c.channel, false)
  }

  lemma SpawnNamesAppend(a: seq<Spawn>, b: seq<Spawn>)
    ensures SpawnNames(a + b) == SpawnNames(a) + SpawnNames(b)
  {}

  lemma SpawnNamesRemove(a: seq<Spawn>, k: nat)
    requires k < |a|
    ensures SpawnNames(RemoveAt(a, k)) == RemoveAt(SpawnNames(a), k)
    ensures multiset(SpawnNames(a)) == multiset(SpawnNames(RemoveAt(a, k))) + multiset{a[k].name}
  {
    var names := SpawnNames(a);
    assert names == names[..k] + [names[k]] + names[k + 1..];
    assert SpawnNames(RemoveAt(a, k)) == RemoveAt(names, k);
  }

  lemma RequestKeepsCount(max: nat, lineage: seq<string>, s: System, names: seq<string>, clientFails: string -> bool)
    requires Counted(max, s)
    ensures Counted(max, Do(max, lineage, s, Request(names, clientFails)))
  {
    var out := Fork(max, clientFails, lineage, s.registry, s.active, s.nextChannel, names);
    if out.Accepted? {
      ForkCounts(max, clientFails, lineage, s.registry, s.active, s.nextChannel, names);
      SpawnNamesAppend(s.running, out.progress.spawned);
    }
  }

  lemma RequestKeepsAddresses(max: nat, lineage: seq<string>, s: System, names: seq<string>, clientFails: string -> bool)
    requires Addressable(s)
    ensures Addressable(Do(max, lineage, s, Request(names, clientFails)))
  {
    var out := Fork(max, clientFails, lineage, s.registry, s.active, s.nextChannel, names);
    if out.Accepted? {
      var p := out.progress;
      SpawnNamesAppend(s.running, p.spawned);
      ForkCounts(max, clientFails, lineage, s.registry, s.active, s.nextChannel, names);
      forall c | c in s.running + p.spawned ensures c.name in p.registry && p.registry[c.name] == Entry(c.channel, false) {
        ForkAligns(max, clientFails, lineage, s.registry, s.active, s.nextChannel, names, c.name);
      }
      forall i, j | 0 <= i < |s.running| && 0 <= j < |p.spawned| ensures s.running[i].name != p.spawned[j].name {
        var c := p.spawned[j];
        ForkAligns(max, clientFails, lineage, s.registry, s.active, s.nextChannel, names, c.name);
        SpawnNamesIn(p.spawned, c);
        assert s.running[i] in s.running;
      }
    }
  }

  lemma FinishKeepsAll(max: nat, lineage: seq<string>, s: System, child: nat)
    requires Counted(max, s) && Addressable(s)
    ensures Counted(max, Do(max, lineage, s, Finish(child))) && Addressable(Do(max, lineage, s, Finish(child)))
  {
    if child < |s.running| {
      SpawnNamesRemove(s.running, child);
      SpawnNamesSnoc(s.inbox, s.running[child]);
      var rest := RemoveAt(s.running, child);
      forall c | c in rest ensures c.name != s.running[child].name {
        var i :| 0 <= i < |rest| && rest[i] == c;
        var k := if i < child then i else i + 1;
        assert s.running[k] == c && SpawnNames(s.running)[k] == c.name;
        assert SpawnNames(s.running)[child] == s.running[child].name;
      }
    }
  }

  lemma ApplyKeepsAll(max: nat, lineage: seq<string>, s: System)
    requires Counted(max, s) && Addressable(s)
    ensures Counted(max, Do(max, lineage, s, ApplyCompletion)) && Addressable(Do(max, lineage, s, ApplyCompletion))
    ensures s.inbox != [] ==> s.active >= 1
  {
    if s.inbox != [] {
      SpawnNamesRemove(s.inbox, 0);
      assert RemoveAt(s.inbox, 0) == s.inbox[1..];
    }
  }

  lemma OthersKeepAll(max: nat, lineage: seq<string>, s: System, e: Event)
    requires Counted(max, s) && Addressable(s) && (e.OthersRegister? || e.OthersDeregister?)
    ensures Counted(max, Do(max, lineage, s, e)) && Addressable(Do(max, lineage, s, e))
  {
    forall c | c in s.running ensures c.name in SpawnNames(s.running) { SpawnNamesIn(s.running, c); }
  }

  /**
   * In every reachable state: the place count is the number of spawned children whose completion has not
   * been applied, and never exceeds the limit; every running child is registered under its own name on
   * its own channel; and each child of an accepted request is, exactly once, running, finished, or reported.
   */
  lemma {:induction false} ForkLedger(max: nat, lineage: seq<string>, registry: Registry, events: seq<Event>)
    ensures Counted(max, Run(max, lineage, Fresh(registry), events))
    ensures Addressable(Run(max, lineage, Fresh(registry), events))
  {
    if |events| == 0 {
      assert SpawnNames([]) == [];
    } else {
      var s := Run(max, lineage, Fresh(registry), events[..|events| - 1]);
      ForkLedger(max, lineage, registry, events[..|events| - 1]);
      match events[|events| - 1] {
        case Request(names, clientFails) =>
          RequestKeepsCount(max, lineage, s, names, clientFails);
          RequestKeepsAddresses(max, lineage, s, names, clientFails);
        case Finish(child) => FinishKeepsAll(max, lineage, s, child);
        case ApplyCompletion => ApplyKeepsAll(max, lineage, s);
        case OthersRegister(_, _) => OthersKeepAll(max, lineage, s, events[|events| - 1]);
        case OthersDeregister(_) => OthersKeepAll(max, lineage, s, events[|events| - 1]);
      }
    }
  }

  /** When every child has finished and every completion has been applied, each accepted child was reported once. */
  lemma EveryChildReported(max: nat, lineage: seq<string>, registry: Registry, events: seq<Event>)
    requires var s := Run(max, lineage, Fresh(registry), events); s.running == [] && s.inbox == []
    ensures var s := Run(max, lineage, Fresh(registry), events); s.active == 0 && s.reported == s.accepted
  {
    ForkLedger(max, lineage, registry, events);
    assert SpawnNames([]) == [];
  }
}
