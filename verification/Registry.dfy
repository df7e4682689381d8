/** The agent registry: names, channels, and all-or-nothing batches (src/types.rs, `AgentRegistry`). */
module Registries {
  import opened Base

  /** A completed agent keeps its name, so that siblings can still address it. */
  datatype Entry = Entry(channel: nat, completed: bool)

  datatype Enrolment = Enrolment(name: string, channel: nat)

  type Registry = map<string, Entry>

  datatype Delivery = Delivered(channel: nat) | Dropped | NotFound

  const DUPLICATE := " (duplicate in batch)"

  predicate RunningIn(agents: Registry, name: string) {
    name in agents && !agents[name].completed
  }

  /** Names of the batch that a running agent holds. */
  function Taken(agents: Registry, batch: seq<Enrolment>): seq<string> {
    if batch == [] then []
    else
      var last := batch[|batch| - 1];
      Taken(agents, batch[..|batch| - 1]) + if RunningIn(agents, last.name) then [last.name] else []
  }

  /** The `HashSet` of names seen so far. */
  function Seen(batch: seq<Enrolment>): (names: set<string>)
    ensures forall n :: n in names <==> exists i :: 0 <= i < |batch| && batch[i].name == n
  {
    if batch == [] then {}
    else
      var names := Seen(batch[..|batch| - 1]) + {batch[|batch| - 1].name};
      assert forall n :: n in names && n != batch[|batch| - 1].name ==> exists i :: 0 <= i < |batch| - 1 && batch[i].name == n;
      names
  }

  function Repeats(batch: seq<Enrolment>): seq<string> {
    if batch == [] then []
    else
      var front, last := batch[..|batch| - 1], batch[|batch| - 1];
      Repeats(front) + if last.name in Seen(front) then [last.name + DUPLICATE] else []
  }

  function Collisions(agents: Registry, batch: seq<Enrolment>): seq<string> {
    Taken(agents, batch) + Repeats(batch)
  }

  function EnrolAll(agents: Registry, batch: seq<Enrolment>): Registry {
    if batch == [] then agents
    else
      var last := batch[|batch| - 1];
      EnrolAll(agents, batch[..|batch| - 1])[last.name := Entry(last.channel, false)]
  }

  function Completed(agents: Registry, name: string): Registry {
    if name in agents then agents[name := agents[name].(completed := true)] else agents
  }

  function Route(agents: Registry, name: string): Delivery {
    if name !in agents then NotFound
    else if agents[name].completed then Dropped
    else Delivered(agents[name].channel)
  }

  // ---- Other agents ----

  /** What another agent can do to the registry: fork children, or finish. */
  datatype OthersOp = Enrols(batch: seq<Enrolment>) | Leaves(name: string)

  function OthersDo(agents: Registry, op: OthersOp): Registry {
    match op
    case Enrols(batch) => if Collisions(agents, batch) == [] then EnrolAll(agents, batch) else agents
    case Leaves(name) => Completed(agents, name)
  }

  function OthersDoAll(agents: Registry, ops: seq<OthersOp>): Registry {
    if ops == [] then agents else OthersDo(OthersDoAll(agents, ops[..|ops| - 1]), ops[|ops| - 1])
  }

  /** What others do before each of one agent's own operations on the registry, nothing from some point on. */
  type Between = seq<seq<OthersOp>>

  function Before(between: Between, i: nat): seq<OthersOp> {
    if i < |between| then between[i] else []
  }

  /** The registry after the first `n` of these, if the agent's own operations leave it alone. */
  function AsOf(agents: Registry, between: Between, n: nat): Registry {
    if n == 0 then agents else OthersDoAll(AsOf(agents, between, n - 1), Before(between, n - 1))
  }

  /** The registry as each of `n` such operations finds it. */
  function Views(agents: Registry, between: Between, n: nat): (views: seq<Registry>)
    ensures |views| == n
  {
    if n == 0 then [] else Views(agents, between, n - 1) + [AsOf(agents, between, n)]
  }

  class AgentRegistry {
    var agents: map<string, Entry>

    constructor ()
      ensures agents == map[]
    {
      agents := map[];
    }

    /** Registers a single agent; refused when a running agent holds the name. */
    method Register(name: string, channel: nat) returns (ok: bool)
      modifies this
      ensures ok <==> !RunningIn(old(agents), name)
      ensures agents == if ok then old(agents)[name := Entry(channel, false)] else old(agents)
    {
      if name in agents && !agents[name].completed {
        return false;
      }
      agents := agents[name := Entry(channel, false)];
      ok := true;
    }

    /** Registers the whole batch, or, when anything collides, nothing. */
    method RegisterBatch(batch: seq<Enrolment>) returns (collisions: seq<string>)
      modifies this
      ensures collisions == Collisions(old(agents), batch)
      ensures collisions == [] ==> agents == EnrolAll(old(agents), batch)
      ensures collisions != [] ==> agents == old(agents)
    {
      var taken := FindTaken(batch);
      var repeats := FindRepeats(batch);
      collisions := taken + repeats;
      if collisions == [] {
        EnrolEach(batch);
      }
    }

    method FindTaken(batch: seq<Enrolment>) returns (taken: seq<string>)
      ensures taken == Taken(agents, batch)
    {
      taken := [];
      for i := 0 to |batch|
        invariant taken == Taken(agents, batch[..i])
      {
        assert batch[..i + 1][..i] == batch[..i];
        if batch[i].name in agents && !agents[batch[i].name].completed {
          taken := taken + [batch[i].name];
        }
      }
      assert batch[..|batch|] == batch;
    }

    method FindRepeats(batch: seq<Enrolment>) returns (repeats: seq<string>)
      ensures repeats == Repeats(batch)
    {
      repeats := [];
      var seen: set<string> := {};
      for i := 0 to |batch|
        invariant seen == Seen(batch[..i]) && repeats == Repeats(batch[..i])
      {
        assert batch[..i + 1][..i] == batch[..i];
        if batch[i].name in seen {
          repeats := repeats + [batch[i].name + DUPLICATE];
        }
        seen := seen + {batch[i].name};
      }
      assert batch[..|batch|] == batch;
    }

    method EnrolEach(batch: seq<Enrolment>)
      modifies this
      ensures agents == EnrolAll(old(agents), batch)
    {
      for i := 0 to |batch|
        invariant agents == EnrolAll(old(agents), batch[..i])
      {
        assert batch[..i + 1][..i] == batch[..i];
        agents := agents[batch[i].name := Entry(batch[i].channel, false)];
      }
      assert batch[..|batch|] == batch;
    }

    method Deregister(name: string)
      modifies this
      ensures agents == Completed(old(agents), name)
    {
      if name in agents {
        agents := agents[name := agents[name].(completed := true)];
      }
    }

    /** Where an event for `name` goes; a completed agent swallows it. */
    method SendTo(name: string) returns (d: Delivery)
      ensures d == Route(agents, name)
    {
      if name !in agents {
        d := NotFound;
      } else if agents[name].completed {
        d := Dropped;
      } else {
        d := Delivered(agents[name].channel);
      }
    }

    /** Other agents have the registry for a while. */
    method LetOthers(ops: seq<OthersOp>)
      modifies this
      ensures agents == OthersDoAll(old(agents), ops)
    {
      for i := 0 to |ops|
        invariant agents == OthersDoAll(old(agents), ops[..i])
      {
        assert ops[..i + 1][..i] == ops[..i];
        match ops[i] {
          case Enrols(batch) => var collisions := RegisterBatch(batch);
          case Leaves(name) => Deregister(name);
        }
      }
      assert ops[..|ops|] == ops;
    }

    method Exists(name: string) returns (yes: bool)
      ensures yes <==> name in agents
    {
      yes := name in agents;
    }
  }

  // ---- What others leave as it is ----

  /** A name, once registered, is never removed. */
  lemma {:induction false} NameStays(agents: Registry, batch: seq<Enrolment>, name: string)
    requires name in agents
    ensures name in EnrolAll(agents, batch)
  {
    if batch != [] { NameStays(agents, batch[..|batch| - 1], name); }
  }

  lemma OthersKeepOne(agents: Registry, op: OthersOp, name: string)
    requires name in agents
    ensures name in OthersDo(agents, op)
  {
    if op.Enrols? { NameStays(agents, op.batch, name); }
  }

  lemma {:induction false} OthersKeepName(agents: Registry, ops: seq<OthersOp>, name: string)
    requires name in agents
    ensures name in OthersDoAll(agents, ops)
  {
    if ops != [] {
      OthersKeepName(agents, ops[..|ops| - 1], name);
      OthersKeepOne(OthersDoAll(agents, ops[..|ops| - 1]), ops[|ops| - 1], name);
    }
  }

  lemma {:induction false} NameStaysAsOf(agents: Registry, between: Between, m: nat, n: nat, name: string)
    requires m <= n && name in AsOf(agents, between, m)
    ensures name in AsOf(agents, between, n)
  {
    if m < n {
      NameStaysAsOf(agents, between, m, n - 1, name);
      OthersKeepName(AsOf(agents, between, n - 1), Before(between, n - 1), name);
    }
  }

  /** The first `n` views do not depend on what comes later. */
  lemma {:induction false} AsOfEarlier(agents: Registry, between: Between, more: Between, n: nat)
    requires n <= |between|
    ensures AsOf(agents, between + more, n) == AsOf(agents, between, n)
  {
    if n > 0 { AsOfEarlier(agents, between, more, n - 1); }
  }

  lemma {:induction false} ViewsEarlier(agents: Registry, between: Between, more: Between, n: nat)
    requires n <= |between|
    ensures Views(agents, between + more, n) == Views(agents, between, n)
  {
    if n > 0 {
      ViewsEarlier(agents, between, more, n - 1);
      AsOfEarlier(agents, between, more, n);
    }
  }

  lemma {:induction false} ViewAt(agents: Registry, between: Between, n: nat, i: nat)
    requires i < n
    ensures Views(agents, between, n)[i] == AsOf(agents, between, i + 1)
  {
    var front := Views(agents, between, n - 1);
    assert Views(agents, between, n) == front + [AsOf(agents, between, n)];
    if i < n - 1 { ViewAt(agents, between, n - 1, i); } else { assert i + 1 == n; }
  }

  /** The registry after the first `n` of the operations that found it as `views`. */
  function After(agents: Registry, views: seq<Registry>, n: nat): Registry
    requires n <= |views|
  {
    if n == 0 then agents else views[n - 1]
  }

  lemma AfterIsAsOf(agents: Registry, between: Between, m: nat, n: nat)
    requires n <= m
    ensures After(agents, Views(agents, between, m), n) == AsOf(agents, between, n)
  {
    if n > 0 { ViewAt(agents, between, m, n - 1); }
  }

  lemma ViewNext(agents: Registry, between: Between, m: nat, n: nat)
    requires n < m
    ensures var views := Views(agents, between, m); views[n] == OthersDoAll(After(agents, views, n), Before(between, n))
  {
    ViewAt(agents, between, m, n);
    AfterIsAsOf(agents, between, m, n);
  }

  lemma BeforeLast(between: Between, ops: seq<OthersOp>)
    ensures Before(between + [ops], |between|) == ops
  {}

  lemma AsOfSnoc(agents: Registry, between: Between, ops: seq<OthersOp>)
    ensures AsOf(agents, between + [ops], |between| + 1) == OthersDoAll(AsOf(agents, between, |between|), ops)
  {
    AsOfEarlier(agents, between, [ops], |between|);
    BeforeLast(between, ops);
  }

  lemma OthersSnoc(agents: Registry, ops: seq<OthersOp>, op: OthersOp)
    ensures OthersDoAll(agents, ops + [op]) == OthersDo(OthersDoAll(agents, ops), op)
  {
    assert (ops + [op])[..|ops|] == ops;
  }

  ghost predicate DistinctNames(batch: seq<Enrolment>) {
    forall i, j :: 0 <= i < j < |batch| ==> batch[i].name != batch[j].name
  }

  lemma {:induction false} TakenIff(agents: Registry, batch: seq<Enrolment>)
    ensures Taken(agents, batch) == [] <==> forall i :: 0 <= i < |batch| ==> !RunningIn(agents, batch[i].name)
  {
    if batch != [] { TakenIff(agents, batch[..|batch| - 1]); }
  }

  lemma {:induction false} RepeatsIff(batch: seq<Enrolment>)
    ensures Repeats(batch) == [] <==> DistinctNames(batch)
  {
    if batch != [] {
      var front, last := batch[..|batch| - 1], batch[|batch| - 1];
      RepeatsIff(front);
      assert Repeats(batch) == Repeats(front) + if last.name in Seen(front) then [last.name + DUPLICATE] else [];
      if last.name in Seen(front) { assert |Repeats(batch)| > 0; }
      if DistinctNames(batch) { assert DistinctNames(front); }
    }
  }

  /** A batch is accepted exactly when its names are distinct and no running agent holds one of them. */
  lemma BatchAcceptedIff(agents: Registry, batch: seq<Enrolment>)
    ensures Collisions(agents, batch) == []
        <==> DistinctNames(batch) && forall i :: 0 <= i < |batch| ==> !RunningIn(agents, batch[i].name)
  {
    TakenIff(agents, batch);
    RepeatsIff(batch);
  }

  /** A new name can always be registered. */
  lemma NewcomerEnrols(agents: Registry, name: string, channel: nat)
    requires name !in agents
    ensures name in OthersDo(agents, Enrols([Enrolment(name, channel)]))
  {
    var batch := [Enrolment(name, channel)];
    BatchAcceptedIff(agents, batch);
    EnrolledAt(agents, batch, 0);
  }

  /** A name outside the batch is as before. */
  lemma {:induction false} EnrolledElsewhere(agents: Registry, batch: seq<Enrolment>, n: string)
    requires forall i :: 0 <= i < |batch| ==> batch[i].name != n
    ensures var all := EnrolAll(agents, batch); (n in all <==> n in agents) && (n in agents ==> all[n] == agents[n])
  {
    if batch != [] { EnrolledElsewhere(agents, batch[..|batch| - 1], n); }
  }

  /** After an accepted batch each name has its own channel. */
  lemma {:induction false} EnrolledAt(agents: Registry, batch: seq<Enrolment>, i: nat)
    requires DistinctNames(batch) && i < |batch|
    ensures var all := EnrolAll(agents, batch); batch[i].name in all && all[batch[i].name] == Entry(batch[i].channel, false)
  {
    if i < |batch| - 1 { EnrolledAt(agents, batch[..|batch| - 1], i); }
  }

  // ---- Others and a name that runs ----

  predicate Names(batch: seq<Enrolment>, name: string) {
    exists i :: 0 <= i < |batch| && batch[i].name == name
  }

  /** A running name is not registered again: a batch that asks for it is refused as a whole. */
  lemma HeldIsRefused(agents: Registry, batch: seq<Enrolment>, name: string)
    requires RunningIn(agents, name) && Names(batch, name)
    ensures OthersDo(agents, Enrols(batch)) == agents
  {
    BatchAcceptedIff(agents, batch);
  }

  lemma {:induction false} EnrolAside(agents: Registry, batch: seq<Enrolment>, name: string, entry: Entry)
    requires !Names(batch, name)
    ensures EnrolAll(agents[name := entry], batch) == EnrolAll(agents, batch)[name := entry]
  {
    if batch != [] {
      var front, last := batch[..|batch| - 1], batch[|batch| - 1];
      assert last == batch[|batch| - 1] && last.name != name;
      EnrolAside(agents, front, name, entry);
    }
  }

  /** What others do about other names can as well be done after `name` has completed. */
  lemma OthersCommute(agents: Registry, op: OthersOp, name: string)
    requires name in agents && op != Leaves(name) && (op.Enrols? ==> !Names(op.batch, name))
    ensures name in OthersDo(agents, op) && OthersDo(agents, op)[name] == agents[name]
    ensures Completed(OthersDo(agents, op), name) == OthersDo(Completed(agents, name), op)
  {
    match op {
      case Leaves(_) =>
      case Enrols(batch) =>
        BatchAcceptedIff(agents, batch);
        BatchAcceptedIff(Completed(agents, name), batch);
        EnrolAside(agents, batch, name, agents[name].(completed := true));
        EnrolledElsewhere(agents, batch, name);
    }
  }

  /** What of it is not refused while `name` runs. */
  function Unrefused(ops: seq<OthersOp>, name: string): seq<OthersOp> {
    if ops == [] then []
    else
      var last := ops[|ops| - 1];
      Unrefused(ops[..|ops| - 1], name) + if last.Enrols? && Names(last.batch, name) then [] else [last]
  }

  /** Nobody else ends the agent that runs under `name`. */
  predicate Spares(ops: seq<OthersOp>, name: string) {
    Leaves(name) !in ops
  }

  lemma {:induction false} OthersCommuteAll(agents: Registry, ops: seq<OthersOp>, name: string)
    requires RunningIn(agents, name) && Spares(ops, name)
    ensures name in OthersDoAll(agents, ops) && OthersDoAll(agents, ops)[name] == agents[name]
    ensures Completed(OthersDoAll(agents, ops), name) == OthersDoAll(Completed(agents, name), Unrefused(ops, name))
  {
    if ops != [] {
      var front, op := ops[..|ops| - 1], ops[|ops| - 1];
      var mid := OthersDoAll(agents, front);
      assert op in ops;
      OthersCommuteAll(agents, front, name);
      if op.Enrols? && Names(op.batch, name) {
        HeldIsRefused(mid, op.batch, name);
        assert Unrefused(ops, name) == Unrefused(front, name);
      } else {
        OthersCommute(mid, op, name);
        OthersSnoc(Completed(agents, name), Unrefused(front, name), op);
      }
    }
  }

  lemma {:induction false} OthersJoin(agents: Registry, a: seq<OthersOp>, b: seq<OthersOp>)
    ensures OthersDoAll(agents, a + b) == OthersDoAll(OthersDoAll(agents, a), b)
  {
    if b == [] {
      assert a + b == a;
    } else {
      assert (a + b)[..|a + b| - 1] == a + b[..|b| - 1];
      OthersJoin(agents, a, b[..|b| - 1]);
    }
  }
}
