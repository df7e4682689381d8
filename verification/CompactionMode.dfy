/** Compaction mode: at most one Compaction item, and none outside the mode (src/compaction.rs). */
module CompactionMode {
  import opened Base
  import opened Ids
  import opened Items
  import opened Kernels
  import opened Turns
  import opened Ledgers
  import opened TurnLedgers
  import opened KernelRuns
  import opened Steadiness
  import Q = WorkQueues
  import H = Histories
  import R = Registries
  import T = Timers

  ghost predicate InMode(k: Kernel) {
    && |CompactionIds(k.s.queue)| <= 1
    && (!k.compaction.active ==> CompactionIds(k.s.queue) == [])
  }

  // ---- What a script cannot touch ----

  lemma RemoveAtCompactions(q: seq<WorkItem>, p: nat)
    requires p < |q|
    ensures |CompactionIds(RemoveAt(q, p))| == |CompactionIds(q)| - if q[p].kind.Compaction? then 1 else 0
  {
    assert q == (q[..p] + [q[p]]) + q[p + 1..];
    CompactionIdsAppend(q[..p] + [q[p]], q[p + 1..]);
    CompactionIdsAppend(q[..p], [q[p]]);
    CompactionIdsAppend(q[..p], q[p + 1..]);
    CompactionIdsOne(q[p]);
  }

  /** What a script leaves of the state's bookkeeping. */
  ghost predicate Contained(before: Harness, after: Harness) {
    && after.window == before.window
    && after.lastTotal == before.lastTotal
    && after.raises == before.raises
    && before.counter <= after.counter
    && |CompactionIds(after.queue)| <= |CompactionIds(before.queue)|
  }

  lemma DequeueContained(s: Harness, id: AgentId)
    ensures Contained(s, Dequeue(s, id))
  {
    if Q.FindItem(s.queue, id).Some? { RemoveAtCompactions(s.queue, Q.FindItem(s.queue, id).value); }
  }

  lemma StepContained(w: World, m: Mode, now: nat, s: Harness, op: ScriptOp)
    ensures Contained(s, StateStep(w, m, now, s, op))
  {
    match op {
      case PopFront => if s.queue != [] { DequeueContained(s, s.queue[0].id); }
      case RemoveFromQueue(id) => DequeueContained(s, id);
      case _ =>
    }
  }

  lemma {:induction false} ExecContained(w: World, m: Mode, now: nat, t: Txn, ops: seq<ScriptOp>)
    ensures Contained(t.s, Exec(w, m, now, t, ops).s)
  {
    if ops != [] {
      ExecContained(w, m, now, t, ops[..|ops| - 1]);
      StepContained(w, m, now, Exec(w, m, now, t, ops[..|ops| - 1]).s, ops[|ops| - 1]);
    }
  }

  // ---- Entering and leaving the mode ----

  lemma TriggerEnters(w: World, k: Kernel, now: nat)
    requires CompactionIds(k.s.queue) == []
    ensures InMode(Trigger(w, k, now))
  {
    var item := WorkItem(w.draw(k.s.counter), 10, now, ItemKind.Compaction, []);
    InsertCompaction(k.s.queue, item);
  }

  lemma {:induction false} InsertCompaction(q: seq<WorkItem>, item: WorkItem)
    requires item.kind.Compaction?
    ensures |CompactionIds(Q.Insert(q, item))| == |CompactionIds(q)| + 1
  {
    if q != [] && Q.Ahead(q[0], item) {
      InsertCompaction(q[1..], item);
      CompactionIdsAppend([q[0]], q[1..]);
      CompactionIdsAppend([q[0]], Q.Insert(q[1..], item));
      assert q == [q[0]] + q[1..];
    } else {
      CompactionIdsAppend([item], q);
      CompactionIdsOne(item);
    }
  }

  lemma {:induction false} CompactionIdsWhere(q: seq<WorkItem>, id: AgentId)
    ensures id in CompactionIds(q) <==> exists i :: 0 <= i < |q| && q[i].kind.Compaction? && q[i].id == id
  {
    if q != [] { CompactionIdsWhere(q[..|q| - 1], id); }
  }

  lemma TwoCompactions(q: seq<WorkItem>, i: nat, j: nat)
    requires i < j < |q| && q[i].kind.Compaction? && q[j].kind.Compaction?
    ensures |CompactionIds(q)| >= 2
  {
    assert q == q[..j] + q[j..];
    CompactionIdsAppend(q[..j], q[j..]);
    CompactionIdsWhere(q[..j], q[i].id);
    assert q[..j][i] == q[i] && q[j..][0] == q[j];
    CompactionIdsWhere(q[j..], q[j].id);
  }

  /** No item stands in front of a Compaction item and bears its id. */
  ghost predicate Unobscured(q: seq<WorkItem>) {
    forall i, j :: 0 <= i < j < |q| && q[j].kind.Compaction? ==> q[i].id != q[j].id
  }

  /** Completion takes the first item with the Compaction item's id. */
  lemma FirstWithId(q: seq<WorkItem>)
    requires |CompactionIds(q)| == 1
    ensures var found := Q.FindItem(q, CompactionIds(q)[0]);
            found.Some? && (q[found.value].kind.Compaction? <==> Unobscured(q))
  {
    var id := CompactionIds(q)[0];
    CompactionIdsWhere(q, id);
    var j :| 0 <= j < |q| && q[j].kind.Compaction? && q[j].id == id;
    var p := Q.FindItem(q, id).value;
    if q[p].kind.Compaction? {
      forall a, b | 0 <= a < b < |q| && q[b].kind.Compaction? ensures q[a].id != q[b].id {
        if b != p { TwoCompactions(q, if b < p then b else p, if b < p then p else b); }
      }
    } else {
      assert p < j && q[p].id == q[j].id;
    }
  }

  /**
   * Completion removes the Compaction item by its id: the item is gone exactly when no earlier item bears
   * that id. Either way one item leaves the queue, and nothing else changes.
   */
  lemma ClearedIff(s: Harness)
    requires |CompactionIds(s.queue)| <= 1
    ensures var after := DequeueAll(s, CompactionIds(s.queue));
            && (CompactionIds(after.queue) == [] <==> Unobscured(s.queue))
            && |CompactionIds(after.queue)| <= 1
            && after == s.(queue := after.queue, moves := after.moves)
            && |after.queue| == |s.queue| - |CompactionIds(s.queue)|
  {
    var ids := CompactionIds(s.queue);
    DequeueAllFrame(s, ids);
    if ids == [] {
      forall i, j | 0 <= i < j < |s.queue| && s.queue[j].kind.Compaction? ensures s.queue[i].id != s.queue[j].id {
        CompactionIdsWhere(s.queue, s.queue[j].id);
      }
    } else {
      assert ids == [ids[0]] && ids[..0] == [];
      FirstWithId(s.queue);
      RemoveAtCompactions(s.queue, Q.FindItem(s.queue, ids[0]).value);
    }
  }

  lemma DistinctIsUnobscured(q: seq<WorkItem>)
    requires NoDuplicates(QueueIds(q))
    ensures Unobscured(q)
  {
    forall i, j | 0 <= i < j < |q| && q[j].kind.Compaction? ensures q[i].id != q[j].id {
      assert QueueIds(q)[i] != QueueIds(q)[j];
    }
  }

  // ---- The turn ----

  /** The state in which `compact()` finds the agent, if the turn gets that far. */
  function BeforeCompact(w: World, c: Config, k: Kernel, resp: Response, now: nat): Kernel {
    var t := Run(w, c, k, resp, now);
    var worked := CommitWork(w, c, Prepared(Begin(k, resp), resp, t.fx), t, resp, now);
    var sent := Sent(worked, t.fx, resp);
    AppendScript(HonourRequest(w, c, sent, t.fx.requested, now), t.fx.appends)
  }

  /** What the turn has done to the mode by then. */
  lemma BeforeCompactInMode(w: World, c: Config, k: Kernel, resp: Response, now: nat)
    requires InMode(k)
    ensures var before := BeforeCompact(w, c, k, resp, now);
            && InMode(before)
            && before.s.lastTotal == Begin(k, resp).s.lastTotal
            && k.s.raises <= before.s.raises
            && k.s.counter <= before.s.counter
  {
    var t := Run(w, c, k, resp, now);
    var begun := Prepared(Begin(k, resp), resp, t.fx);
    ExecContained(w, Mode(k.compaction.active, c.depth), now, Txn(Begin(k, resp).s, NO_EFFECTS), resp.script.ops);
    CommitWorkSteady(w, c, begun, t, resp, now);
    var worked := CommitWork(w, c, begun, t, resp, now);
    var sent := Sent(worked, t.fx, resp);
    if !sent.compaction.active { TriggerEnters(w, sent, now); }
  }

  /** A compaction script that fails costs one error entry; nothing else changes, and the mode stays on. */
  lemma FailingCompaction(w: World, k: Kernel, error: string, ops: seq<ScriptOp>, now: nat)
    ensures var after := RunCompaction(w, k, Script(ops, Aborted(error)), now);
            && after.s.history == k.s.history + [Execution(w.draw(k.s.counter), now, "compact()", ErrorOutput(error), true)]
            && after == k.(s := after.s)
            && after.s == k.s.(history := after.s.history, counter := k.s.counter + 1, issued := after.s.issued, lasting := after.s.lasting)
  {}

  /**
   * One that succeeds brings back its history and the id counter, and nothing else of its copy: memory,
   * timers, hooks, processes and effects of the compaction script are dropped. The mode ends, and the queue
   * loses one item: the Compaction item, exactly if no earlier item bears its id.
   */
  lemma SucceedingCompaction(w: World, k: Kernel, run: Script, now: nat)
    requires run.ending.Finished? && |CompactionIds(k.s.queue)| <= 1
    ensures var after, copy := RunCompaction(w, k, run, now), Execute(w, Mode(true, 0), now, k.s, run).s;
            && after.s.history == copy.history && after.s.counter == copy.counter
            && after.s == BroughtBack(k.s, copy).(queue := after.s.queue, moves := after.s.moves)
            && after == k.(s := after.s, compaction := Compaction.Compaction(false, ""))
            && |after.s.queue| == |k.s.queue| - |CompactionIds(k.s.queue)|
            && (InMode(after) <==> Unobscured(k.s.queue))
  {
    var copy := Execute(w, Mode(true, 0), now, k.s, run).s;
    ClearedIff(BroughtBack(k.s, copy));
  }

  lemma {:induction false} DequeueAllFrame(s: Harness, ids: seq<AgentId>)
    ensures DequeueAll(s, ids) == s.(queue := DequeueAll(s, ids).queue, moves := DequeueAll(s, ids).moves)
  {
    if ids != [] { DequeueAllFrame(s, ids[..|ids| - 1]); }
  }

  lemma HonourCompactInMode(w: World, k: Kernel, called: bool, run: Script, now: nat)
    requires InMode(k)
    ensures var after := HonourCompact(w, k, called, run, now);
            && (InMode(after) <==> (called && k.compaction.active && run.ending.Finished? ==> Unobscured(k.s.queue)))
            && (called && k.compaction.active && run.ending.Finished? ==> !after.compaction.active)
  {
    if called && k.compaction.active && run.ending.Finished? { SucceedingCompaction(w, k, run, now); }
  }

  /** Whether the turn runs the compaction script to a good end. */
  predicate Completes(w: World, c: Config, k: Kernel, resp: Response, now: nat) {
    && Failure(w, c, k, resp, now).None?
    && Run(w, c, k, resp, now).fx.compactCalled
    && BeforeCompact(w, c, k, resp, now).compaction.active
    && resp.compactionRun.ending.Finished?
  }

  /** The queue is as it should be when `compact()` looks for the Compaction item, if the turn gets that far. */
  ghost predicate CompletesCleanly(w: World, c: Config, k: Kernel, resp: Response, now: nat) {
    Completes(w, c, k, resp, now) ==> Unobscured(BeforeCompact(w, c, k, resp, now).s.queue)
  }

  lemma SteadyInMode(k: Kernel, after: Kernel)
    requires Steady(k, after)
    ensures InMode(after) <==> InMode(k)
  {}

  /**
   * A turn keeps the mode exactly when it does not complete a compaction, or completes it with no item in
   * front of the Compaction item that bears its id. No assumption on ids.
   */
  lemma TurnKeepsModeIff(w: World, c: Config, k: Kernel, resp: Response, now: nat)
    requires InMode(k)
    ensures InMode(Turn(w, c, k, resp, now)) <==> CompletesCleanly(w, c, k, resp, now)
    ensures Completes(w, c, k, resp, now) ==> !Turn(w, c, k, resp, now).compaction.active
  {
    if Failure(w, c, k, resp, now).None? {
      var before, called := BeforeCompact(w, c, k, resp, now), Run(w, c, k, resp, now).fx.compactCalled;
      var after := HonourCompact(w, before, called, resp.compactionRun, now);
      BeforeCompactInMode(w, c, k, resp, now);
      HonourCompactInMode(w, before, called, resp.compactionRun, now);
      DeferredSteady(w, after, Run(w, c, k, resp, now).fx, now);
      SteadyInMode(after, Deferred(w, after, Run(w, c, k, resp, now).fx, now));
    }
  }

  /** A commit that queues nothing leaves the queue as the script left it. */
  lemma QuietCommit(w: World, c: Config, k: Kernel, resp: Response, now: nat)
    requires k.compaction.active
    requires var fx := Run(w, c, k, resp, now).fx; fx.launches == [] && fx.views == [] && fx.forks == []
    ensures var before := BeforeCompact(w, c, k, resp, now);
            before.s.queue == Run(w, c, k, resp, now).s.queue && before.compaction.active
  {}

  /** In a turn whose script and commit leave the queue alone, the queue before the turn can be looked at instead. */
  lemma QuietTurnKeepsModeIff(w: World, c: Config, k: Kernel, resp: Response, now: nat)
    requires InMode(k) && Completes(w, c, k, resp, now) && k.compaction.active
    requires var t := Run(w, c, k, resp, now);
             t.s.queue == k.s.queue && t.fx.launches == [] && t.fx.views == [] && t.fx.forks == []
    ensures InMode(Turn(w, c, k, resp, now)) <==> Unobscured(k.s.queue)
  {
    QuietCommit(w, c, k, resp, now);
    TurnKeepsModeIff(w, c, k, resp, now);
  }

  /** In general it cannot: a script may take the obscuring item first, and the turn then keeps the mode. */
  lemma ScriptCanUnobscure(w: World, c: Config, k: Kernel, front: WorkItem, item: WorkItem, resp: Response, now: nat)
    requires k.compaction.active && k.s.queue == [front, item]
    requires !front.kind.Compaction? && item.kind.Compaction? && front.id == item.id
    requires resp.script == Script([PopFront, Compact], Finished("", "")) && resp.compactionRun.ending.Finished?
    ensures !Unobscured(k.s.queue) && Completes(w, c, k, resp, now) && InMode(Turn(w, c, k, resp, now))
  {
    assert k.s.queue[0].id == k.s.queue[1].id;
    PopThenCompact(w, ModeNow(c, k), now, Begin(k, resp).s);
    var t := Run(w, c, k, resp, now);
    assert t.s.queue == [item];
    CompactionIdsOne(item);
    CompactionIdsOne(front);
    CompactionIdsAppend([front], [item]);
    assert [front] + [item] == k.s.queue;
    QuietCommit(w, c, k, resp, now);
    TurnKeepsModeIff(w, c, k, resp, now);
  }

  function ModeNow(c: Config, k: Kernel): Mode {
    Mode(k.compaction.active, c.depth)
  }

  lemma PopThenCompact(w: World, m: Mode, now: nat, s: Harness)
    requires s.queue != []
    ensures var t := Exec(w, m, now, Txn(s, NO_EFFECTS), [PopFront, Compact]);
            t.s.queue == s.queue[1..] && t.fx == NO_EFFECTS.(compactCalled := true)
  {
    var ops := [PopFront, Compact];
    var t0 := Txn(s, NO_EFFECTS);
    assert ops[..1] == [PopFront] && ops[..1][..0] == [];
    assert Exec(w, m, now, t0, ops[..1]) == ScriptStep(w, m, now, t0, PopFront);
    assert Q.FindItem(s.queue, s.queue[0].id) == Some(0);
    assert RemoveAt(s.queue, 0) == s.queue[1..];
  }

  /**
   * Completing a compaction leaves the token count of the turn standing: the next pass of the loop starts
   * another compaction exactly when that count is over the threshold, however short the history now is.
   */
  lemma RetriggersIff(w: World, c: Config, k: Kernel, resp: Response, now: nat, later: nat)
    requires Completes(w, c, k, resp, now)
    ensures var next := CheckThreshold(w, c, Turn(w, c, k, resp, now), later);
            next.compaction.active <==> c.canCompact && resp.inputTokens + resp.cacheWrites + resp.cacheReads > c.compactAt
  {
    TurnKeepsTotal(w, c, k, resp, now);
    var before, called := BeforeCompact(w, c, k, resp, now), Run(w, c, k, resp, now).fx.compactCalled;
    DeferredSteady(w, HonourCompact(w, before, called, resp.compactionRun, now), Run(w, c, k, resp, now).fx, now);
  }

  lemma HonourCompactKeepsTotal(w: World, k: Kernel, called: bool, run: Script, now: nat)
    ensures HonourCompact(w, k, called, run, now).s.lastTotal == k.s.lastTotal
  {
    if called && k.compaction.active && run.ending.Finished? {
      var copy := Execute(w, Mode(true, 0), now, k.s, run).s;
      DequeueAllFrame(BroughtBack(k.s, copy), CompactionIds(k.s.queue));
    }
  }

  lemma BeforeCompactKeepsTotal(w: World, c: Config, k: Kernel, resp: Response, now: nat)
    ensures BeforeCompact(w, c, k, resp, now).s.lastTotal == resp.inputTokens + resp.cacheWrites + resp.cacheReads
  {
    var t := Run(w, c, k, resp, now);
    ExecContained(w, Mode(k.compaction.active, c.depth), now, Txn(Begin(k, resp).s, NO_EFFECTS), resp.script.ops);
    CommitWorkSteady(w, c, Prepared(Begin(k, resp), resp, t.fx), t, resp, now);
  }

  /** The token count that counts for the trigger is the last response's, whatever the turn does. */
  lemma TurnKeepsTotal(w: World, c: Config, k: Kernel, resp: Response, now: nat)
    ensures Turn(w, c, k, resp, now).s.lastTotal == resp.inputTokens + resp.cacheWrites + resp.cacheReads
  {
    if Failure(w, c, k, resp, now).None? {
      var before, called := BeforeCompact(w, c, k, resp, now), Run(w, c, k, resp, now).fx.compactCalled;
      BeforeCompactKeepsTotal(w, c, k, resp, now);
      HonourCompactKeepsTotal(w, before, called, resp.compactionRun, now);
      DeferredSteady(w, HonourCompact(w, before, called, resp.compactionRun, now), Run(w, c, k, resp, now).fx, now);
    }
  }

  // ---- Any run ----

  ghost predicate Grown(before: Harness, after: Harness) {
    before.raises <= after.raises && before.counter <= after.counter
  }

  lemma HonourCompactGrows(w: World, k: Kernel, called: bool, run: Script, now: nat)
    ensures Grown(k.s, HonourCompact(w, k, called, run, now).s)
  {
    if called && k.compaction.active && run.ending.Finished? {
      ExecContained(w, Mode(true, 0), now, Txn(k.s, NO_EFFECTS), run.ops);
      var copy := Execute(w, Mode(true, 0), now, k.s, run).s;
      var s := BroughtBack(k.s, copy);
      DequeueAllFrame(s, CompactionIds(s.queue));
    }
  }

  lemma BeforeCompactGrows(w: World, c: Config, k: Kernel, resp: Response, now: nat)
    ensures Grown(k.s, BeforeCompact(w, c, k, resp, now).s)
    ensures Grown(Run(w, c, k, resp, now).s, BeforeCompact(w, c, k, resp, now).s)
  {
    var t := Run(w, c, k, resp, now);
    ExecContained(w, Mode(k.compaction.active, c.depth), now, Txn(Begin(k, resp).s, NO_EFFECTS), resp.script.ops);
    CommitWorkSteady(w, c, Prepared(Begin(k, resp), resp, t.fx), t, resp, now);
  }

  lemma TurnGrows(w: World, c: Config, k: Kernel, resp: Response, now: nat)
    ensures Grown(k.s, Turn(w, c, k, resp, now).s)
    ensures Failure(w, c, k, resp, now).None? ==>
              && Grown(Run(w, c, k, resp, now).s, Turn(w, c, k, resp, now).s)
              && Grown(BeforeCompact(w, c, k, resp, now).s, Turn(w, c, k, resp, now).s)
  {
    if Failure(w, c, k, resp, now).None? {
      var before, called := BeforeCompact(w, c, k, resp, now), Run(w, c, k, resp, now).fx.compactCalled;
      BeforeCompactGrows(w, c, k, resp, now);
      HonourCompactGrows(w, before, called, resp.compactionRun, now);
      DeferredSteady(w, HonourCompact(w, before, called, resp.compactionRun, now), Run(w, c, k, resp, now).fx, now);
    }
  }

  lemma StepGrows(w: World, c: Config, k: Kernel, step: Step)
    ensures Grown(k.s, Do(w, c, k, step).s)
  {
    match step {
      case DrainEvents(v, now) => ApplyEventsSteady(In(w, v), k.(inbox := []), k.inbox, now);
      case TimerCheck(v, now) => CheckTimersSteady(In(w, v), k, now);
      case Telemetry(v, now) => FlushTelemetrySteady(In(w, v), k, now);
      case TakeTurn(v, resp, now) => TurnGrows(In(w, v), c, k, resp, now);
      case _ =>
    }
  }

  lemma BeforeCompactSound(w: World, o: Origin, c: Config, k: Kernel, resp: Response, now: nat, x: AgentId)
    requires Sound(w, o, k.s, x, 0)
    ensures Sound(w, o, BeforeCompact(w, c, k, resp, now).s, x, 0)
  {
    var t := Run(w, c, k, resp, now);
    var begun := Prepared(Begin(k, resp), resp, t.fx);
    ExecuteSound(w, Mode(k.compaction.active, c.depth), now, o, Begin(k, resp).s, resp.script, x);
    CommitWorkSound(w, o, c, begun, t, resp, now, x);
    var worked := CommitWork(w, c, begun, t, resp, now);
    TriggerSound(w, o, Sent(worked, t.fx, resp), now, x);
  }

  /** In a fresh agent's life the ids are distinct when `compact()` looks for the Compaction item. */
  lemma DistinctAtCompact(w: World, v: World, c: Config, k: Kernel, steps: seq<Step>, resp: Response, now: nat)
    requires FreshStart(k) && IsIdStream(w.draw) && v.draw == w.draw && v.commitFirst == w.commitFirst
    requires var s := BeforeCompact(v, c, Walk(w, c, k, steps), resp, now).s; s.raises == 0 && s.counter <= k.s.counter + PERIOD
    ensures NoDuplicates(QueueIds(BeforeCompact(v, c, Walk(w, c, k, steps), resp, now).s.queue))
  {
    var p := Walk(w, c, k, steps);
    var s := BeforeCompact(v, c, p, resp, now).s;
    FreshOrigin(k);
    forall x ensures Sound(v, OriginOf(k), s, x, 0) {
      WalkSound(w, c, k, steps, x);
      SoundAround(w, v, OriginOf(k), p.s, x);
      BeforeCompactSound(v, OriginOf(k), c, p, resp, now, x);
    }
    SoundDistinct(v, OriginOf(k), s);
  }

  lemma FeedInMode(w: World, c: Config, k: Kernel, step: Step)
    requires InMode(k) && (step.DrainEvents? || step.TimerCheck? || step.Telemetry?)
    ensures InMode(Do(w, c, k, step))
  {
    match step {
      case DrainEvents(v, now) =>
        ApplyEventsSteady(In(w, v), k.(inbox := []), k.inbox, now);
        SteadyInMode(k.(inbox := []), Drain(In(w, v), k, now));
      case TimerCheck(v, now) =>
        CheckTimersSteady(In(w, v), k, now);
        SteadyInMode(k, CheckTimers(In(w, v), k, now));
      case Telemetry(v, now) =>
        FlushTelemetrySteady(In(w, v), k, now);
        SteadyInMode(k, FlushTelemetry(In(w, v), k, now));
    }
  }

  /** What a step must not do. */
  ghost predicate Clean(w: World, c: Config, k: Kernel, step: Step) {
    !k.crashed && step.TakeTurn? ==> CompletesCleanly(In(w, step.around), c, k, step.resp, step.now)
  }

  lemma StepKeepsModeIff(w: World, c: Config, k: Kernel, step: Step)
    requires InMode(k)
    ensures InMode(Do(w, c, k, step)) <==> Clean(w, c, k, step)
  {
    match step {
      case Arrive(_) =>
      case DrainEvents(_, _) => FeedInMode(w, c, k, step);
      case TimerCheck(_, _) => FeedInMode(w, c, k, step);
      case Telemetry(_, _) => FeedInMode(w, c, k, step);
      case Threshold(now) => if !k.compaction.active { TriggerEnters(w, k, now); }
      case TakeTurn(v, resp, now) => TurnKeepsModeIff(In(w, v), c, k, resp, now);
      case ApiFailure =>
      case OthersChange(_) =>
    }
  }

  /** No completion of the run finds its Compaction item obscured. */
  ghost predicate CleanRun(w: World, c: Config, k: Kernel, steps: seq<Step>) {
    steps != [] ==>
      var before := steps[..|steps| - 1];
      CleanRun(w, c, k, before) && Clean(w, c, Walk(w, c, k, before), steps[|steps| - 1])
  }

  /** The mode holds in every state of the run. */
  ghost predicate AlwaysInMode(w: World, c: Config, k: Kernel, steps: seq<Step>) {
    InMode(Walk(w, c, k, steps)) && (steps != [] ==> AlwaysInMode(w, c, k, steps[..|steps| - 1]))
  }

  /**
   * Over any run, with any ids and any hooks: in every state there is at most one Compaction item, and none
   * while compaction is not active, exactly when no completed compaction found, in front of its Compaction
   * item, an item that bears the same id.
   */
  lemma {:induction false} ModeHoldsIff(w: World, c: Config, k: Kernel, steps: seq<Step>)
    requires InMode(k)
    ensures AlwaysInMode(w, c, k, steps) <==> CleanRun(w, c, k, steps)
  {
    if steps != [] {
      var before, step := steps[..|steps| - 1], steps[|steps| - 1];
      ModeHoldsIff(w, c, k, before);
      if InMode(Walk(w, c, k, before)) {
        StepKeepsModeIff(w, c, Walk(w, c, k, before), step);
      } else {
        NotInMode(w, c, k, before);
      }
    }
  }

  lemma NotInMode(w: World, c: Config, k: Kernel, steps: seq<Step>)
    requires !InMode(Walk(w, c, k, steps))
    ensures !AlwaysInMode(w, c, k, steps)
  {}

  lemma TurnIsClean(w: World, c: Config, k: Kernel, steps: seq<Step>, step: Step)
    requires FreshStart(k) && IsIdStream(w.draw) && step.TakeTurn?
    requires var s := Do(w, c, Walk(w, c, k, steps), step).s; s.raises == 0 && s.counter <= k.s.counter + PERIOD
    ensures Clean(w, c, Walk(w, c, k, steps), step)
  {
    var p, v := Walk(w, c, k, steps), In(w, step.around);
    if !p.crashed && Completes(v, c, p, step.resp, step.now) {
      TurnGrows(v, c, p, step.resp, step.now);
      DistinctAtCompact(w, v, c, k, steps, step.resp, step.now);
      DistinctIsUnobscured(BeforeCompact(v, c, p, step.resp, step.now).s.queue);
    }
  }

  /** A fresh agent's runs are clean, up to 65536 ids into its life and without a raising hook. */
  lemma {:induction false} FreshRunIsClean(w: World, c: Config, k: Kernel, steps: seq<Step>)
    requires FreshStart(k) && IsIdStream(w.draw)
    requires var s := Walk(w, c, k, steps).s; s.raises == 0 && s.counter <= k.s.counter + PERIOD
    ensures CleanRun(w, c, k, steps)
  {
    if steps != [] {
      var before, step := steps[..|steps| - 1], steps[|steps| - 1];
      var p := Walk(w, c, k, before);
      StepGrows(w, c, p, step);
      FreshRunIsClean(w, c, k, before);
      if step.TakeTurn? && !p.crashed { TurnIsClean(w, c, k, before, step); }
    }
  }

  /** So in every state such an agent reaches the mode holds. */
  lemma CompactionDiscipline(w: World, c: Config, k: Kernel, steps: seq<Step>)
    requires FreshStart(k) && !k.compaction.active && IsIdStream(w.draw)
    requires var s := Walk(w, c, k, steps).s; s.raises == 0 && s.counter <= k.s.counter + PERIOD
    ensures InMode(Walk(w, c, k, steps))
  {
    FreshRunIsClean(w, c, k, steps);
    ModeHoldsIff(w, c, k, steps);
  }

  // ---- A run in which completion takes the wrong item ----

  /** A message whose hook raises, seen by a loop pass that also crosses the threshold. */
  function ObscuringPass(w: World, e: Event, now: nat): seq<Step> {
    [Arrive(e)] + [DrainEvents(w, now)] + [Threshold(now)]
  }

  /** The surroundings of that run: one hook, which raises on the message and starts nothing. */
  ghost predicate Obscuring(w: World, c: Config, k: Kernel, hook: Hook, error: string, e: Event, now: nat) {
    && FreshStart(k) && k.s.hooks == [hook] && k.inbox == [] && !k.compaction.active && !k.crashed
    && c.canCompact && k.s.lastTotal > c.compactAt && !w.commitFirst
    && e.Incoming? && e.priority == 10
    && var item := WorkItem(w.draw(k.s.counter), 10, now, AgentMessage(e.from, e.content), []);
    && w.accepts(hook, item)
    && w.plan(hook, item, k.s.memory) == Ran([], Raise(error))
  }

  lemma ApplyOne(w: World, k: Kernel, e: Event, now: nat)
    ensures ApplyEvents(w, k, [e], now) == ApplyEvent(w, k, e, now)
  {
    var events := [e];
    assert events[..|events| - 1] == [];
    assert ApplyEvents(w, k, [], now) == k;
  }

  lemma DrainOne(w: World, k: Kernel, e: Event, now: nat)
    requires k.inbox == []
    ensures Drain(w, k.(inbox := [e]), now) == ApplyEvent(w, k, e, now)
  {
    var waiting := k.(inbox := [e]);
    assert waiting.(inbox := []) == k;
    ApplyOne(w, k, e, now);
  }

  /** A hook that raises and did nothing else: its exception item is queued, and the counter put back. */
  lemma RaisedAlone(w: World, k: Kernel, hook: Hook, error: string, item: WorkItem, now: nat)
    requires !w.commitFirst && k.s.queue == []
    ensures var d := Settle(w, k, hook, Ran([], Raise(error)), item, now);
            && d.s.queue == [ExceptionItem(w.draw(k.s.counter), item, hook.name, error, now)]
            && d.s.counter == k.s.counter && d.compaction == k.compaction && d.s.lastTotal == k.s.lastTotal
            && d.crashed == k.crashed
  {}

  /** Such a message, drained alone, meets the hook under the id just drawn. */
  lemma DrainRaises(w: World, k: Kernel, hook: Hook, error: string, e: Event, item: WorkItem, now: nat)
    requires k.inbox == [] && !k.crashed && e.Incoming? && e.priority == 10
    requires item == WorkItem(w.draw(k.s.counter), 10, now, AgentMessage(e.from, e.content), [])
    requires k.s.hooks == [hook] && w.accepts(hook, item) && w.plan(hook, item, k.s.memory) == Ran([], Raise(error))
    ensures Drain(w, k.(inbox := [e]), now) == Settle(w, k.(s := Issue(w, k.s)), hook, Ran([], Raise(error)), item, now)
  {
    DrainOne(w, k, e, now);
    IncomingPushes(w, k, e.from, e.content, now);
    RaisedPushes(w, k.(s := Issue(w, k.s)), hook, error, item, now);
  }

  lemma IncomingPushes(w: World, k: Kernel, from: string, content: string, now: nat)
    requires !k.crashed
    ensures ApplyEvent(w, k, Incoming(from, content, 10), now)
            == PushItem(w, k.(s := Issue(w, k.s)), WorkItem(w.draw(k.s.counter), 10, now, AgentMessage(from, content), []), now)
  {}

  lemma RaisedPushes(w: World, k: Kernel, hook: Hook, error: string, item: WorkItem, now: nat)
    requires k.s.hooks == [hook] && w.accepts(hook, item) && !item.kind.UserMessage?
    requires w.plan(hook, item, k.s.memory) == Ran([], Raise(error))
    ensures PushItem(w, k, item, now) == Settle(w, k, hook, Ran([], Raise(error)), item, now)
  {
    MatchedFirst(w, k.s, hook, item);
  }

  lemma MatchedFirst(w: World, s: Harness, hook: Hook, item: WorkItem)
    requires s.hooks == [hook] && w.accepts(hook, item)
    ensures Matched(w, s, item) == Some(0)
  {
    assert s.hooks[0] == hook;
  }

  lemma AfterTrigger(w: World, k: Kernel, exc: WorkItem, now: nat)
    requires k.s.queue == [exc] && exc.priority == 10 && exc.time == now && exc.id == w.draw(k.s.counter)
    requires !exc.kind.Compaction?
    ensures var t := Trigger(w, k, now);
            && t.s.queue == [exc, WorkItem(exc.id, 10, now, ItemKind.Compaction, [])]
            && !Unobscured(t.s.queue) && t.compaction.active && InMode(t)
  {
    var item := WorkItem(exc.id, 10, now, ItemKind.Compaction, []);
    assert [exc][1..] == [];
    assert Q.Insert([exc], item) == [exc, item];
    CompactionIdsOne(exc);
    TriggerEnters(w, k, now);
    assert Trigger(w, k, now).s.queue[0].id == Trigger(w, k, now).s.queue[1].id;
  }

  /** A turn that only calls `compact()`, with an obscured Compaction item: the item outlives the mode. */
  lemma CompactObscured(w: World, c: Config, k: Kernel, resp: Response, now: nat)
    requires InMode(k) && k.compaction.active && !Unobscured(k.s.queue)
    requires resp.script == Script([Compact], Finished("", "")) && resp.compactionRun == Script([], Finished("", ""))
    ensures !Turn(w, c, k, resp, now).compaction.active && !InMode(Turn(w, c, k, resp, now))
  {
    OnlyCompact(w, ModeNow(c, k), now, Begin(k, resp).s);
    QuietCommit(w, c, k, resp, now);
    TurnKeepsModeIff(w, c, k, resp, now);
  }

  lemma OnlyCompact(w: World, m: Mode, now: nat, s: Harness)
    ensures Exec(w, m, now, Txn(s, NO_EFFECTS), [Compact]) == Txn(s, NO_EFFECTS.(compactCalled := true))
  {
    assert [Compact][..0] == [];
  }

  /** From the exception item on: the threshold check, then the turn. */
  lemma ThenObscured(w: World, c: Config, d: Kernel, exc: WorkItem, resp: Response, now: nat)
    requires d.s.queue == [exc] && exc.priority == 10 && exc.time == now && exc.id == w.draw(d.s.counter)
    requires !exc.kind.Compaction? && !d.compaction.active && !d.crashed && c.canCompact && d.s.lastTotal > c.compactAt
    requires resp.script == Script([Compact], Finished("", "")) && resp.compactionRun == Script([], Finished("", ""))
    ensures var end := Turn(w, c, CheckThreshold(w, c, d, now), resp, now);
            !end.compaction.active && CompactionIds(end.s.queue) != []
  {
    AfterTrigger(w, d, exc, now);
    CompactObscured(w, c, Trigger(w, d, now), resp, now);
    LeftOver(Turn(w, c, Trigger(w, d, now), resp, now));
  }

  lemma StepObscured(w: World, c: Config, d: Kernel, exc: WorkItem, resp: Response, now: nat)
    requires d.s.queue == [exc] && exc.priority == 10 && exc.time == now && exc.id == w.draw(d.s.counter)
    requires !exc.kind.Compaction? && !d.compaction.active && !d.crashed && c.canCompact && d.s.lastTotal > c.compactAt
    requires resp.script == Script([Compact], Finished("", "")) && resp.compactionRun == Script([], Finished("", ""))
    ensures var end := Do(w, c, CheckThreshold(w, c, d, now), TakeTurn(w, resp, now));
            !end.compaction.active && CompactionIds(end.s.queue) != []
  {
    ThenObscured(w, c, d, exc, resp, now);
    AfterTrigger(w, d, exc, now);
    TurnStep(w, c, CheckThreshold(w, c, d, now), resp, now);
  }

  lemma TurnStep(w: World, c: Config, k: Kernel, resp: Response, now: nat)
    requires !k.crashed
    ensures Do(w, c, k, TakeTurn(w, resp, now)) == Turn(w, c, k, resp, now)
  {
    TurnIsDone(w, w, c, k, resp, now);
    InItself(w);
  }

  lemma LeftOver(k: Kernel)
    requires !k.compaction.active && !InMode(k)
    ensures CompactionIds(k.s.queue) != []
  {}

  /** What reading the message leaves: the exception item alone, under the id to be drawn next. */
  lemma AfterDrain(w: World, k: Kernel, hook: Hook, error: string, e: Event, item: WorkItem, now: nat) returns (d: Kernel, exc: WorkItem)
    requires k.inbox == [] && !k.crashed && e.Incoming? && e.priority == 10 && k.s.queue == [] && !w.commitFirst
    requires item == WorkItem(w.draw(k.s.counter), 10, now, AgentMessage(e.from, e.content), [])
    requires k.s.hooks == [hook] && w.accepts(hook, item) && w.plan(hook, item, k.s.memory) == Ran([], Raise(error))
    ensures d == Drain(w, k.(inbox := [e]), now)
    ensures d.s.queue == [exc] && exc.priority == 10 && exc.time == now && exc.id == w.draw(d.s.counter) && !exc.kind.Compaction?
    ensures d.compaction == k.compaction && !d.crashed && d.s.lastTotal == k.s.lastTotal
  {
    var issued := k.(s := Issue(w, k.s));
    d := Settle(w, issued, hook, Ran([], Raise(error)), item, now);
    exc := ExceptionItem(w.draw(issued.s.counter), item, hook.name, error, now);
    DrainRaises(w, k, hook, error, e, item, now);
    RaisedAlone(w, issued, hook, error, item, now);
  }

  lemma AfterPass(w: World, c: Config, k: Kernel, hook: Hook, error: string, e: Event, now: nat) returns (d: Kernel, exc: WorkItem)
    requires Obscuring(w, c, k, hook, error, e, now)
    ensures Walk(w, c, k, ObscuringPass(w, e, now)) == CheckThreshold(w, c, d, now)
    ensures d.s.queue == [exc] && exc.priority == 10 && exc.time == now && exc.id == w.draw(d.s.counter)
    ensures !exc.kind.Compaction? && !d.compaction.active && !d.crashed && d.s.lastTotal > c.compactAt
  {
    var item := WorkItem(w.draw(k.s.counter), 10, now, AgentMessage(e.from, e.content), []);
    d, exc := AfterDrain(w, k, hook, error, e, item, now);
    WalkToThreshold(w, c, k, e, now);
  }

  /**
   * The failing run, from a fresh agent. The exception item is queued under the id that the threshold check
   * of the same pass draws again for the Compaction item; the compaction that follows takes the exception
   * item, and leaves a Compaction item in an agent that is not compacting.
   */
  lemma CompletionTakesTheWrongItem(w: World, c: Config, k: Kernel, hook: Hook, error: string, e: Event, resp: Response, now: nat)
    requires Obscuring(w, c, k, hook, error, e, now)
    requires resp.script == Script([Compact], Finished("", "")) && resp.compactionRun == Script([], Finished("", ""))
    ensures var end := Walk(w, c, k, ObscuringPass(w, e, now) + [TakeTurn(w, resp, now)]);
            !end.compaction.active && CompactionIds(end.s.queue) != []
  {
    var d, exc := AfterPass(w, c, k, hook, error, e, now);
    StepObscured(w, c, d, exc, resp, now);
    WalkSnoc(w, c, k, ObscuringPass(w, e, now), TakeTurn(w, resp, now));
  }

  lemma WalkSnoc(w: World, c: Config, k: Kernel, steps: seq<Step>, step: Step)
    ensures Walk(w, c, k, steps + [step]) == Do(w, c, Walk(w, c, k, steps), step)
  {
    assert (steps + [step])[..|steps|] == steps;
  }

  lemma WalkToThreshold(w: World, c: Config, k: Kernel, e: Event, now: nat)
    requires k.inbox == [] && !k.crashed && !Drain(w, k.(inbox := [e]), now).crashed
    ensures Walk(w, c, k, ObscuringPass(w, e, now)) == CheckThreshold(w, c, Drain(w, k.(inbox := [e]), now), now)
  {
    var arrived := [Arrive(e)];
    assert [] + arrived == arrived && In(w, w) == w;
    WalkSnoc(w, c, k, [], Arrive(e));
    WalkSnoc(w, c, k, arrived, DrainEvents(w, now));
    WalkSnoc(w, c, k, arrived + [DrainEvents(w, now)], Threshold(now));
  }

  // ---- A restart ----

  /**
   * The saved state is loaded again: queue, history, timers, memory, hooks and ids are as they were, the
   * processes are forgotten, an item announces the start, and compaction is off.
   */
  function Restarted(w: World, k: Kernel, registry: R.Registry, now: nat): Kernel {
    var s := k.s.(processes := []);
    var item := WorkItem(w.draw(s.counter), 9, now, AgentStartup, []);
    Kernel(Enqueue(Issue(w, s), item), Compaction.Compaction(false, ""), 0, map[], false, registry, 0, 0, [], [], false)
  }

  /** A restart keeps the mode exactly when no Compaction item is queued: one that is outlives its compaction. */
  lemma RestartKeepsModeIff(w: World, k: Kernel, registry: R.Registry, now: nat)
    ensures InMode(Restarted(w, k, registry, now)) <==> CompactionIds(k.s.queue) == []
  {
    InsertOther(k.s.queue, WorkItem(w.draw(k.s.counter), 9, now, AgentStartup, []));
  }

  /** Any state of a run in which compaction has been triggered and not completed loses the mode by a restart. */
  lemma RestartBreaksMode(w: World, c: Config, k: Kernel, now: nat, registry: R.Registry, later: nat)
    requires CompactionIds(k.s.queue) == []
    ensures var triggered := Trigger(w, k, now); InMode(triggered) && !InMode(Restarted(w, triggered, registry, later))
  {
    TriggerEnters(w, k, now);
    InsertCompaction(k.s.queue, WorkItem(w.draw(k.s.counter), 10, now, ItemKind.Compaction, []));
    RestartKeepsModeIff(w, Trigger(w, k, now), registry, later);
  }
}
