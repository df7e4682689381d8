/** Runs of one agent: what holds in every reachable state. */
module KernelRuns {
  import opened Base
  import opened Ids
  import opened Items
  import opened Kernels
  import opened Turns
  import opened Ledgers
  import opened TurnLedgers
  import Q = WorkQueues
  import H = Histories
  import T = Timers
  import HT = HookTables
  import R = Registries

  /**
   * What can happen to an agent, in any order; a turn is taken whole here. The surroundings may answer
   * differently at every step. The registry is shared: other agents, its own children among them, may
   * change it in any way between two steps, and during a turn as its response says.
   */
  datatype Step =
    | Arrive(event: Event)
    | DrainEvents(around: World, now: nat)
    | TimerCheck(around: World, now: nat)
    | Telemetry(around: World, now: nat)
    | Threshold(now: nat)
    | TakeTurn(around: World, resp: Response, now: nat)
    | ApiFailure
    | OthersChange(registry: R.Registry)

  /** The surroundings of one step: the id stream, and the order of a commit, are the same throughout. */
  function In(w: World, around: World): World {
    around.(draw := w.draw, commitFirst := w.commitFirst)
  }

  function DoAlive(w: World, c: Config, k: Kernel, step: Step): Kernel {
    match step
    case Arrive(event) => k.(inbox := k.inbox + [event])
    case DrainEvents(around, now) => Drain(In(w, around), k, now)
    case TimerCheck(around, now) => CheckTimers(In(w, around), k, now)
    case Telemetry(around, now) => FlushTelemetry(In(w, around), k, now)
    case Threshold(now) => CheckThreshold(w, c, k, now)
    case TakeTurn(around, resp, now) => Turn(In(w, around), c, k, resp, now)
    case ApiFailure => k
    case OthersChange(registry) => k.(registry := registry)
  }

  /** Nothing happens to an agent that has crashed. */
  function Do(w: World, c: Config, k: Kernel, step: Step): Kernel {
    if k.crashed then k else DoAlive(w, c, k, step)
  }

  lemma TurnIsDone(w: World, v: World, c: Config, k: Kernel, resp: Response, now: nat)
    requires !k.crashed
    ensures Do(w, c, k, TakeTurn(v, resp, now)) == Turn(In(w, v), c, k, resp, now)
  {}

  lemma InItself(w: World)
    ensures In(w, w) == w
  {}

  function Walk(w: World, c: Config, k: Kernel, steps: seq<Step>): Kernel {
    if steps == [] then k else Do(w, c, Walk(w, c, k, steps[..|steps| - 1]), steps[|steps| - 1])
  }

  /** Any state whose tables are in order can start a run; the history variables start empty. */
  ghost predicate Starts(k: Kernel) {
    Tables(k.s.stats, k.s.hooks) && k.s.issued == [] && k.s.lasting == [] && k.s.moves == [] && k.s.raises == 0
  }

  function OriginOf(k: Kernel): Origin {
    Origin(k.s.counter, k.s.queue,
           multiset(QueueIds(k.s.queue)) + multiset(HistoryIds(k.s.history)) + multiset(TimerIds(k.s.timers))
           + multiset(ProcessIds(k.s.processes)))
  }

  lemma SoundAround(w: World, v: World, o: Origin, s: Harness, x: AgentId)
    requires v.draw == w.draw && v.commitFirst == w.commitFirst && Sound(w, o, s, x, 0)
    ensures Sound(v, o, s, x, 0)
  {}

  lemma SoundIn(w: World, around: World, o: Origin, s: Harness, x: AgentId)
    ensures Sound(In(w, around), o, s, x, 0) <==> Sound(w, o, s, x, 0)
  {}

  lemma DoSound(w: World, o: Origin, c: Config, k: Kernel, step: Step, x: AgentId)
    requires Sound(w, o, k.s, x, 0)
    ensures Sound(w, o, Do(w, c, k, step).s, x, 0)
  {
    match step {
      case Arrive(_) =>
      case DrainEvents(v, now) => SoundIn(w, v, o, k.s, x); ApplyEventsSound(In(w, v), o, k.(inbox := []), k.inbox, now, x);
      case TimerCheck(v, now) => SoundIn(w, v, o, k.s, x); CheckTimersSound(In(w, v), o, k, now, x);
      case Telemetry(v, now) => SoundIn(w, v, o, k.s, x); FlushTelemetrySound(In(w, v), o, k, now, x);
      case Threshold(now) => TriggerSound(w, o, k, now, x);
      case TakeTurn(v, resp, now) => SoundIn(w, v, o, k.s, x); TurnSound(In(w, v), o, c, k, resp, now, x);
      case ApiFailure =>
      case OthersChange(_) =>
    }
    if !step.Arrive? && !step.Threshold? && !step.ApiFailure? && !step.OthersChange? {
      SoundIn(w, step.around, o, Do(w, c, k, step).s, x);
    }
  }

  lemma {:induction false} WalkSound(w: World, c: Config, k: Kernel, steps: seq<Step>, x: AgentId)
    requires Starts(k)
    ensures Sound(w, OriginOf(k), Walk(w, c, k, steps).s, x, 0)
  {
    if steps == [] {
      PlainAtMost(k.s.queue, x);
    } else {
      WalkSound(w, c, k, steps[..|steps| - 1], x);
      DoSound(w, OriginOf(k), c, Walk(w, c, k, steps[..|steps| - 1]), steps[|steps| - 1], x);
    }
  }

  // ---- Ids ----

  lemma InOrderFresh(w: World, start: nat, counter: nat, issued: seq<AgentId>, i: nat, j: nat)
    requires InOrder(w, start, counter, 0, issued) && IsIdStream(w.draw) && i < j < |issued|
    ensures issued[i] == issued[j] <==> i % PERIOD == j % PERIOD
    ensures j < i + PERIOD ==> issued[i] != issued[j]
  {
    assert w.draw(start + i) == IdOf(start + i) && w.draw(start + j) == IdOf(start + j);
    IdCollision(start + i, start + j);
    SameResidueShift(start, i, j);
    if j < i + PERIOD { WindowDistinct(start + i, start + i, start + j); }
  }

  /**
   * Freshness. In every reachable state in which no hook has raised and committed, the ids drawn are the
   * stream from where the run started: two of them are equal exactly when their positions agree modulo
   * 65536, so any 65536 in a row are pairwise distinct. Rolled-back turns leave no gap.
   */
  lemma FreshIds(w: World, c: Config, k: Kernel, steps: seq<Step>, i: nat, j: nat)
    requires Starts(k) && IsIdStream(w.draw)
    requires var s := Walk(w, c, k, steps).s; s.raises == 0 && i < j < |s.issued|
    ensures var s := Walk(w, c, k, steps).s; s.issued[i] == s.issued[j] <==> i % PERIOD == j % PERIOD
    ensures var s := Walk(w, c, k, steps).s; j < i + PERIOD ==> s.issued[i] != s.issued[j]
  {
    WalkSound(w, c, k, steps, "");
    var s := Walk(w, c, k, steps).s;
    InOrderFresh(w, k.s.counter, s.counter, s.issued, i, j);
  }

  lemma ApartDiffer(w: World, n: nat)
    requires IsIdStream(w.draw)
    ensures w.draw(n) != w.draw(n + 1)
  {
    assert w.draw(n) == IdOf(n) && w.draw(n + 1) == IdOf(n + 1);
    WindowDistinct(n, n, n + 1);
  }

  /**
   * When a run repeats an id. In every reachable state, an id has been drawn twice in a row, or will be
   * when the next one is drawn, exactly when some hook has raised and committed.
   */
  lemma RepeatsIff(w: World, c: Config, k: Kernel, steps: seq<Step>)
    requires Starts(k) && IsIdStream(w.draw)
    ensures var s := Walk(w, c, k, steps).s; Repeats(s.issued + [w.draw(s.counter)]) <==> s.raises > 0
  {
    WalkSound(w, c, k, steps, "");
    var s := Walk(w, c, k, steps).s;
    InOrderRepeats(w, k.s.counter, s.counter, s.raises, s.issued);
  }

  lemma InOrderRepeats(w: World, start: nat, counter: nat, raises: nat, issued: seq<AgentId>)
    requires InOrder(w, start, counter, raises, issued) && IsIdStream(w.draw)
    ensures Repeats(issued + [w.draw(counter)]) <==> raises > 0
  {
    var ids := issued + [w.draw(counter)];
    if raises == 0 {
      forall i | 0 <= i < |ids| - 1 ensures ids[i] != ids[i + 1] { ApartDiffer(w, start + i); }
    }
  }

  /** With the commit made first the guarantee is unconditional: raising hooks included. */
  lemma CommitFirstIsFresh(w: World, c: Config, k: Kernel, steps: seq<Step>, i: nat, j: nat)
    requires Starts(k) && IsIdStream(w.draw) && w.commitFirst
    requires i < j < |Walk(w, c, k, steps).s.issued| && j < i + PERIOD
    ensures Walk(w, c, k, steps).s.issued[i] != Walk(w, c, k, steps).s.issued[j]
  {
    CounterShortfall(w, c, k, steps);
    FreshIds(w, c, k, steps, i, j);
  }

  lemma SameResidueShift(start: nat, i: nat, j: nat)
    ensures (start + i) % PERIOD == (start + j) % PERIOD <==> i % PERIOD == j % PERIOD
  {
    var q := start / PERIOD;
    assert start == q * PERIOD + start % PERIOD;
    assert i == (i / PERIOD) * PERIOD + i % PERIOD && j == (j / PERIOD) * PERIOD + j % PERIOD;
    ModAdd(start % PERIOD + i % PERIOD, q + i / PERIOD);
    ModAdd(start % PERIOD + j % PERIOD, q + j / PERIOD);
  }

  /**
   * The counter is exactly as far along as ids were drawn when no hook raised, and one short for every
   * hook that did; with the commit made before the exception's id is drawn it is never short.
   */
  lemma CounterShortfall(w: World, c: Config, k: Kernel, steps: seq<Step>)
    requires Starts(k)
    ensures var s := Walk(w, c, k, steps).s; k.s.counter + |s.issued| - s.counter == s.raises
    ensures var s := Walk(w, c, k, steps).s; s.counter == k.s.counter + |s.lasting|
    ensures w.commitFirst ==> Walk(w, c, k, steps).s.raises == 0
  {
    WalkSound(w, c, k, steps, "");
  }

  /**
   * What a raising hook does to the ids, as the program is written: the exception item and the first
   * process the hook started have the same id; if it started none, the next id drawn is the exception's.
   */
  lemma RaiseRepeatsId(w: World, k: Kernel, hook: Hook, ops: seq<HookOp>, error: string, item: WorkItem, now: nat)
    requires !w.commitFirst
    ensures var after := Settle(w, k, hook, Ran(ops, Raise(error)), item, now).s;
            var exc := ExceptionItem(w.draw(k.s.counter), item, hook.name, error, now);
            var t := HookRun(w, OpenHook(k.s), ops);
            && after.queue == Q.Insert(k.s.queue, exc)
            && (t.processes != [] ==> t.processes[0].id == exc.id && after.processes == k.s.processes + t.processes)
            && (t.processes == [] ==> w.draw(after.counter) == exc.id)
  {
    var t := HookRun(w, OpenHook(k.s), ops);
    HookDrawsInOrder(w, k.s, ops);
    assert |ProcessIds(t.processes)| == |t.processes|;
    if t.processes != [] { assert ProcessIds(t.processes)[0] == t.processes[0].id; }
  }

  lemma {:induction false} TimesTwice(s: seq<AgentId>, x: AgentId)
    requires NoDuplicates(s)
    ensures Times(s, x) <= 1
    ensures x !in s ==> Times(s, x) == 0
  {
    if s != [] {
      TimesTwice(s[1..], x);
      assert s == [s[0]] + s[1..];
    }
  }

  /**
   * No two things alive in the agent share an id, as long as the ids drawn in the run are distinct among
   * themselves and from those it started with.
   */
  lemma LiveIdsDistinct(w: World, c: Config, k: Kernel, steps: seq<Step>, x: AgentId)
    requires Starts(k) && Live(k.s, x) <= 1
    requires NoDuplicates(Walk(w, c, k, steps).s.issued)
    requires x in Walk(w, c, k, steps).s.issued ==> Live(k.s, x) == 0
    ensures Live(Walk(w, c, k, steps).s, x) <= 1
  {
    WalkSound(w, c, k, steps, x);
    TimesTwice(Walk(w, c, k, steps).s.issued, x);
  }

  lemma OncePerId(ids: seq<AgentId>)
    requires forall x :: Times(ids, x) <= 1
    ensures NoDuplicates(ids)
  {
    forall i, j | 0 <= i < j < |ids| ensures ids[i] != ids[j] {
      if ids[i] == ids[j] { TwiceIn(ids, i, j); }
    }
  }

  lemma TwiceIn(ids: seq<AgentId>, i: nat, j: nat)
    requires i < j < |ids| && ids[i] == ids[j]
    ensures Times(ids, ids[i]) >= 2
  {
    assert ids == ids[..i] + [ids[i]] + ids[i + 1..j] + [ids[j]] + ids[j + 1..];
  }

  ghost predicate FreshStart(k: Kernel) {
    Starts(k) && k.s.queue == [] && k.s.history == [] && k.s.timers == [] && k.s.processes == []
  }

  // ---- Live ids ----

  /** A state of a fresh agent's run, in which no more ids than one period have been drawn to stay. */
  ghost predicate Young(w: World, o: Origin, s: Harness) {
    && (forall x :: Sound(w, o, s, x, 0))
    && o.ids == multiset{} && IsIdStream(w.draw) && s.counter <= o.start + PERIOD
  }

  lemma LastingDistinct(w: World, start: nat, counter: nat, lasting: seq<AgentId>)
    requires Gapless(w, start, counter, lasting) && IsIdStream(w.draw) && counter <= start + PERIOD
    ensures NoDuplicates(lasting)
  {
    forall i, j | 0 <= i < j < |lasting| ensures lasting[i] != lasting[j] {
      assert w.draw(start + i) == IdOf(start + i) && w.draw(start + j) == IdOf(start + j);
      WindowDistinct(start, start + i, start + j);
    }
  }

  lemma YoungOwnsOnce(w: World, o: Origin, s: Harness, x: AgentId)
    requires Young(w, o, s)
    ensures Owned(s, x) <= 1
  {
    assert Sound(w, o, s, x, 0);
    LastingDistinct(w, o.start, s.counter, s.lasting);
    TimesTwice(s.lasting, x);
  }

  lemma NextNotLasting(w: World, start: nat, counter: nat, lasting: seq<AgentId>)
    requires Gapless(w, start, counter, lasting) && IsIdStream(w.draw) && counter < start + PERIOD
    ensures w.draw(counter) !in lasting
  {
    forall i | 0 <= i < |lasting| ensures lasting[i] != w.draw(counter) {
      assert w.draw(start + i) == IdOf(start + i) && w.draw(counter) == IdOf(counter);
      WindowDistinct(start, start + i, counter);
    }
  }

  /** A young state has not yet used the id it will draw next. */
  lemma NextIsUnowned(w: World, o: Origin, s: Harness)
    requires Young(w, o, s) && s.counter < o.start + PERIOD
    ensures Owned(s, w.draw(s.counter)) == 0
  {
    assert Sound(w, o, s, w.draw(s.counter), 0);
    NextNotLasting(w, o.start, s.counter, s.lasting);
  }

  /** No two items share an id, but for those that wrap what a hook raised on. */
  ghost predicate PlainDistinct(q: seq<WorkItem>) {
    forall i, j :: 0 <= i < j < |q| && q[i].id == q[j].id ==> q[i].kind.HookException? || q[j].kind.HookException?
  }

  lemma {:induction false} PlainHas(q: seq<WorkItem>, i: nat)
    requires i < |q| && !q[i].kind.HookException?
    ensures Plain(q, q[i].id) >= 1
  {
    if i < |q| - 1 { PlainHas(q[..|q| - 1], i); }
  }

  lemma {:induction false} PlainTwice(q: seq<WorkItem>, i: nat, j: nat)
    requires i < j < |q| && q[i].id == q[j].id && !q[i].kind.HookException? && !q[j].kind.HookException?
    ensures Plain(q, q[i].id) >= 2
  {
    if j < |q| - 1 { PlainTwice(q[..|q| - 1], i, j); } else { PlainHas(q[..j], i); }
  }

  lemma NotTwice(s: Harness, i: nat, j: nat)
    requires i < j < |s.queue| && !s.queue[i].kind.HookException? && !s.queue[j].kind.HookException?
    requires Owned(s, s.queue[i].id) <= 1
    ensures s.queue[i].id != s.queue[j].id
  {
    if s.queue[i].id == s.queue[j].id { PlainTwice(s.queue, i, j); }
  }

  lemma OwnedOnce(s: Harness)
    requires forall x :: Owned(s, x) <= 1
    ensures PlainDistinct(s.queue) && H.DistinctIds(s.history) && T.DistinctTimers(s.timers) && NoDuplicates(ProcessIds(s.processes))
  {
    forall x ensures Times(HistoryIds(s.history), x) <= 1 && Times(TimerIds(s.timers), x) <= 1 && Times(ProcessIds(s.processes), x) <= 1 {
      assert Owned(s, x) <= 1;
    }
    OncePerId(HistoryIds(s.history));
    OncePerId(TimerIds(s.timers));
    OncePerId(ProcessIds(s.processes));
    forall i, j | 0 <= i < j < |s.queue| && s.queue[i].id == s.queue[j].id
      ensures s.queue[i].kind.HookException? || s.queue[j].kind.HookException?
    {
      assert Owned(s, s.queue[i].id) <= 1;
      if !s.queue[i].kind.HookException? && !s.queue[j].kind.HookException? {
        NotTwice(s, i, j);
      }
    }
    forall i, j | 0 <= i < j < |s.history| ensures s.history[i].id != s.history[j].id {
      assert HistoryIds(s.history)[i] != HistoryIds(s.history)[j];
    }
    forall i, j | 0 <= i < j < |s.timers| ensures s.timers[i].id != s.timers[j].id {
      assert TimerIds(s.timers)[i] != TimerIds(s.timers)[j];
    }
  }

  /**
   * A new agent, up to 65536 ids into its life, whatever its hooks do: each id is borne by at most one of
   * its history entries, timers, processes and queued items, only the items that wrap what a hook raised
   * on left aside. This is what the frozen-history and timer theorems ask for.
   */
  lemma FreshAgentHasDistinctIds(w: World, c: Config, k: Kernel, steps: seq<Step>)
    requires FreshStart(k) && IsIdStream(w.draw) && Walk(w, c, k, steps).s.counter <= k.s.counter + PERIOD
    ensures var s := Walk(w, c, k, steps).s;
            && (forall x :: Owned(s, x) <= 1)
            && PlainDistinct(s.queue) && H.DistinctIds(s.history) && T.DistinctTimers(s.timers) && NoDuplicates(ProcessIds(s.processes))
  {
    YoungWalk(w, c, k, steps);
    var s := Walk(w, c, k, steps).s;
    forall x ensures Owned(s, x) <= 1 { YoungOwnsOnce(w, OriginOf(k), s, x); }
    OwnedOnce(s);
  }

  lemma YoungWalk(w: World, c: Config, k: Kernel, steps: seq<Step>)
    requires FreshStart(k) && IsIdStream(w.draw) && Walk(w, c, k, steps).s.counter <= k.s.counter + PERIOD
    ensures Young(w, OriginOf(k), Walk(w, c, k, steps).s)
  {
    FreshOrigin(k);
    forall x ensures Sound(w, OriginOf(k), Walk(w, c, k, steps).s, x, 0) { WalkSound(w, c, k, steps, x); }
  }

  /** Without a raising hook the exception is void: no two queued items share an id. */
  lemma SoundDistinct(w: World, o: Origin, s: Harness)
    requires Young(w, o, s) && s.raises == 0
    ensures NoDuplicates(QueueIds(s.queue))
  {
    assert Sound(w, o, s, "", 0);
    forall i, j | 0 <= i < j < |s.issued| ensures s.issued[i] != s.issued[j] {
      InOrderFresh(w, o.start, s.counter, s.issued, i, j);
    }
    forall x ensures Times(QueueIds(s.queue), x) <= 1 {
      assert Sound(w, o, s, x, 0);
      TimesTwice(s.issued, x);
    }
    OncePerId(QueueIds(s.queue));
  }

  lemma FreshOrigin(k: Kernel)
    requires FreshStart(k)
    ensures OriginOf(k).ids == multiset{}
  {}

  // ---- The queue and the hooks ----

  /**
   * In every reachable state the queue is the stable sort, by descending priority and ascending time, of
   * what was admitted and not removed; per hook, fired is consumed plus passed plus raised; and the hook
   * list has one hook per name, sorted by priority.
   */
  lemma QueueAndHooksInOrder(w: World, c: Config, k: Kernel, steps: seq<Step>)
    requires Starts(k) && Q.Sorted(k.s.queue)
    ensures var s := Walk(w, c, k, steps).s;
            && Q.IsStableSortOf(s.queue, Q.Admitted(k.s.queue, s.moves))
            && Balanced(s.stats)
            && HT.UniqueNames(s.hooks) && HT.ByPriority(s.hooks)
  {
    WalkSound(w, c, k, steps, "");
    Q.QueueIsStableSort(k.s.queue, Walk(w, c, k, steps).s.moves);
  }
}
