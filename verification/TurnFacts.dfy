/** What a turn may and may not do: rollback, the frozen history, the queue it was shown, and the loop's guards. */
module TurnFacts {
  import opened Base
  import opened Ids
  import opened Items
  import opened Kernels
  import opened Turns
  import opened Steadiness
  import opened KernelRuns
  import Q = WorkQueues
  import H = Histories
  import R = Registries
  import T = Timers

  // ---- Rollback ----

  /**
   * A turn fails exactly when its script aborts, or one of its messages names an agent that is not
   * registered when the name is looked up, other agents having had the registry before each look.
   */
  lemma FailsIff(w: World, c: Config, k: Kernel, resp: Response, now: nat)
    ensures var notes, between := Run(w, c, k, resp, now).fx.notes, resp.others.validating;
            var unknown := exists i :: 0 <= i < |notes| && notes[i].recipient !in R.AsOf(k.registry, between, i + 1);
            Failure(w, c, k, resp, now).Some? <==> (resp.script.ending.Aborted? || unknown)
  {
    UnknownIff(k.registry, Run(w, c, k, resp, now).fx.notes, resp.others.validating);
  }

  lemma UnknownIff(registry: R.Registry, notes: seq<AgentNote>, between: R.Between)
    ensures Unknown(registry, notes, between).Some?
            <==> exists i :: 0 <= i < |notes| && notes[i].recipient !in R.AsOf(registry, between, i + 1)
  {
    var known := Known(registry, notes, between);
    forall i | 0 <= i < |notes| ensures known[i] <==> notes[i].recipient in R.AsOf(registry, between, i + 1) {
      R.ViewAt(registry, between, |notes|, i);
    }
    if i :| 0 <= i < |notes| && notes[i].recipient !in R.AsOf(registry, between, i + 1) { assert !known[i]; }
  }

  /**
   * A failed turn changes the token counts and the turn counter, adds one error entry and draws its id:
   * queue, timers, memory, hooks, processes, channel, compaction and the outside world are as before, and
   * the registry is as other agents have left it. The one exception is `doneResult`.
   */
  lemma FailedTurnRollsBack(w: World, c: Config, k: Kernel, resp: Response, now: nat)
    requires Failure(w, c, k, resp, now).Some?
    ensures var entry := Execution(w.draw(k.s.counter), now, resp.code, ErrorOutput(Failure(w, c, k, resp, now).value), true);
            var fx, ended := Run(w, c, k, resp, now).fx, resp.script.ending.Finished?;
            Turn(w, c, k, resp, now)
            == k.(turn := k.turn + 1,
                  doneResult := if ended && fx.doneCalled then fx.doneResult else k.doneResult,
                  registry := if ended then LookedUp(k.registry, fx.notes, resp.others.validating) else k.registry,
                  s := k.s.(lastInput := resp.inputTokens,
                            lastTotal := resp.inputTokens + resp.cacheWrites + resp.cacheReads,
                            history := k.s.history + [entry],
                            counter := k.s.counter + 1,
                            issued := k.s.issued + [entry.id],
                            lasting := k.s.lasting + [entry.id]))
  {
    FailedTurn(w, c, k, resp, now);
  }

  lemma FailedTurn(w: World, c: Config, k: Kernel, resp: Response, now: nat)
    requires Failure(w, c, k, resp, now).Some?
    ensures Turn(w, c, k, resp, now)
            == Conclude(w, Prepared(Begin(k, resp), resp, Run(w, c, k, resp, now).fx), resp.code,
                        ErrorOutput(Failure(w, c, k, resp, now).value), true, now)
  {}

  /** A script of two calls. */
  lemma TwoCalls(w: World, m: Mode, now: nat, t: Txn, a: ScriptOp, b: ScriptOp)
    ensures Exec(w, m, now, t, [a, b]) == ScriptStep(w, m, now, ScriptStep(w, m, now, t, a), b)
  {
    assert [a, b][..1] == [a] && [a][..0] == [];
    assert Exec(w, m, now, t, [a]) == ScriptStep(w, m, now, t, a);
  }

  lemma DoneThenNote(w: World, m: Mode, now: nat, s: Harness, result: map<string, string>, nobody: string)
    ensures var fx := Exec(w, m, now, Txn(s, NO_EFFECTS), [Done(result), MessageAgent(nobody, "", 6)]).fx;
            fx.notes == [AgentNote(nobody, "", 6)] && fx.doneCalled && fx.doneResult == result
  {
    TwoCalls(w, m, now, Txn(s, NO_EFFECTS), Done(result), MessageAgent(nobody, "", 6));
  }

  /** `done()` and then a message to nobody: the turn is rolled back and the agent goes on, but the result stays. */
  lemma ResultSurvivesRollback(w: World, c: Config, k: Kernel, result: map<string, string>, nobody: string, resp: Response, now: nat)
    requires nobody !in R.AsOf(k.registry, resp.others.validating, 1)
    requires resp.script == Script([Done(result), MessageAgent(nobody, "", 6)], Finished("", ""))
    ensures Failure(w, c, k, resp, now).Some? && !IsDone(w, c, k, resp, now)
    ensures Turn(w, c, k, resp, now).doneResult == result
  {
    DoneThenNote(w, Mode(k.compaction.active, c.depth), now, Begin(k, resp).s, result, nobody);
    UnknownIff(k.registry, [AgentNote(nobody, "", 6)], resp.others.validating);
    assert [AgentNote(nobody, "", 6)][0].recipient == nobody;
    FailedTurnRollsBack(w, c, k, resp, now);
  }

  // ---- The script and the queue ----

  /** A script only takes items away, and only items of the queue it was shown; the rest keep their order. */
  lemma {:induction false} ScriptOnlyTakes(w: World, m: Mode, now: nat, t: Txn, ops: seq<ScriptOp>)
    ensures IsSubsequence(Exec(w, m, now, t, ops).s.queue, t.s.queue)
  {
    if ops == [] {
      SubsequenceRefl(t.s.queue);
    } else {
      var before := Exec(w, m, now, t, ops[..|ops| - 1]);
      ScriptOnlyTakes(w, m, now, t, ops[..|ops| - 1]);
      StepOnlyTakes(w, m, now, before.s, ops[|ops| - 1]);
      SubsequenceTrans(Exec(w, m, now, t, ops).s.queue, before.s.queue, t.s.queue);
    }
  }

  lemma DequeueOnlyTakes(q: seq<WorkItem>, id: AgentId)
    ensures IsSubsequence(Q.RemoveItem(q, id), q)
  {
    match Q.FindItem(q, id) {
      case None => SubsequenceRefl(q);
      case Some(p) => SubsequenceRemoveAt(q, p);
    }
  }

  lemma StepOnlyTakes(w: World, m: Mode, now: nat, s: Harness, op: ScriptOp)
    ensures IsSubsequence(StateStep(w, m, now, s, op).queue, s.queue)
  {
    SubsequenceRefl(s.queue);
    match op {
      case PopFront => if s.queue != [] { DequeueOnlyTakes(s.queue, s.queue[0].id); }
      case RemoveFromQueue(id) => DequeueOnlyTakes(s.queue, id);
      case _ =>
    }
  }

  // ---- The script and the memory ----

  /** What the calls leave under `key`: untouched, deleted, or the value last set. */
  datatype Trace = Unwritten | Deleted | Written(value: string)

  function Write(op: ScriptOp, key: string): Trace {
    match op
    case SetMemory(k, value, _) => if k == key then Written(value) else Unwritten
    case DeleteMemory(k) => if k == key then Deleted else Unwritten
    case _ => Unwritten
  }

  function LastWrite(ops: seq<ScriptOp>, key: string): Trace {
    if ops == [] then Unwritten
    else
      var last := Write(ops[|ops| - 1], key);
      if last.Unwritten? then LastWrite(ops[..|ops| - 1], key) else last
  }

  /** `key` reads as the trace says. */
  ghost predicate ReadsAs(before: map<string, string>, after: map<string, string>, key: string, t: Trace) {
    match t
    case Unwritten => (key in after <==> key in before) && (key in before ==> after[key] == before[key])
    case Deleted => key !in after
    case Written(value) => key in after && after[key] == value
  }

  /** Each key of the memory holds what the script last wrote to it, and nothing else has changed. */
  lemma {:induction false} MemoryIsLastWrite(w: World, m: Mode, now: nat, t: Txn, ops: seq<ScriptOp>, key: string)
    ensures ReadsAs(t.s.memory, Exec(w, m, now, t, ops).s.memory, key, LastWrite(ops, key))
  {
    if ops != [] {
      var before, op := Exec(w, m, now, t, ops[..|ops| - 1]), ops[|ops| - 1];
      MemoryIsLastWrite(w, m, now, t, ops[..|ops| - 1], key);
      StepMemory(w, m, now, before.s, op, key);
    }
  }

  lemma StoreMemory(s: Harness, op: ScriptOp, key: string)
    ensures ReadsAs(s.memory, StoreStep(s, op).memory, key, if OnStores(op) then Write(op, key) else Unwritten)
  {
    match op {
      case SetMemory(k, value, given) => assert StoreStep(s, op).memory == s.memory[k := value];
      case DeleteMemory(k) => assert StoreStep(s, op).memory == s.memory - {k};
      case _ => assert StoreStep(s, op).memory == s.memory;
    }
  }

  lemma OthersKeepMemory(w: World, m: Mode, now: nat, s: Harness, op: ScriptOp)
    ensures TimerStep(w, now, s, op).memory == s.memory && HistoryStep(w, m, now, s, op).memory == s.memory
    ensures HarnessStep(w, s, op).memory == s.memory
  {}

  lemma StepMemory(w: World, m: Mode, now: nat, s: Harness, op: ScriptOp, key: string)
    ensures ReadsAs(s.memory, StateStep(w, m, now, s, op).memory, key, Write(op, key))
  {
    StoreMemory(s, op, key);
    OthersKeepMemory(w, m, now, s, op);
  }

  /** A hook's writes, likewise; and its commit makes them the agent's. */
  function LastHookWrite(ops: seq<HookOp>, key: string): Trace {
    if ops == [] then Unwritten
    else
      match ops[|ops| - 1]
      case Remember(k, value, _) => if k == key then Written(value) else LastHookWrite(ops[..|ops| - 1], key)
      case Forget(k) => if k == key then Deleted else LastHookWrite(ops[..|ops| - 1], key)
      case _ => LastHookWrite(ops[..|ops| - 1], key)
  }

  lemma {:induction false} HookMemoryIsLastWrite(w: World, k: Kernel, ops: seq<HookOp>, key: string)
    ensures ReadsAs(k.s.memory, HookRun(w, OpenHook(k.s), ops).memory, key, LastHookWrite(ops, key))
    ensures ApplyHookCommit(w, k, HookRun(w, OpenHook(k.s), ops)).s.memory == HookRun(w, OpenHook(k.s), ops).memory
  {
    if ops != [] { HookMemoryIsLastWrite(w, k, ops[..|ops| - 1], key); }
  }

  // ---- The script and the history ----

  /** The history calls of a script. */
  function HistoryOps(ops: seq<ScriptOp>): seq<H.HistoryOp> {
    if ops == [] then []
    else
      HistoryOps(ops[..|ops| - 1]) +
      match ops[|ops| - 1]
      case ReplaceEntry(id, description) => [H.Replace(id, description)]
      case RemoveEntry(id) => [H.Remove(id)]
      case _ => []
  }

  lemma {:induction false} ScriptHistory(w: World, m: Mode, now: nat, t: Txn, ops: seq<ScriptOp>)
    requires !m.compaction
    ensures Exec(w, m, now, t, ops).s.history == H.ApplyAll(t.s.history, t.s.window, false, HistoryOps(ops))
    ensures Exec(w, m, now, t, ops).s.window == t.s.window
  {
    if ops != [] {
      var before, op := ops[..|ops| - 1], ops[|ops| - 1];
      ScriptHistory(w, m, now, t, before);
      StepHistory(w, m, now, Exec(w, m, now, t, before).s, op);
      match op {
        case ReplaceEntry(id, text) => H.ApplyAllSnoc(t.s.history, t.s.window, false, HistoryOps(before), H.Replace(id, text));
        case RemoveEntry(id) => H.ApplyAllSnoc(t.s.history, t.s.window, false, HistoryOps(before), H.Remove(id));
        case _ => assert HistoryOps(ops) == HistoryOps(before);
      }
    }
  }

  lemma StepHistory(w: World, m: Mode, now: nat, s: Harness, op: ScriptOp)
    requires !m.compaction
    ensures StateStep(w, m, now, s, op).window == s.window
    ensures StateStep(w, m, now, s, op).history
         == match op
            case ReplaceEntry(id, text) => H.Apply(s.history, s.window, false, H.Replace(id, text))
            case RemoveEntry(id) => H.Apply(s.history, s.window, false, H.Remove(id))
            case _ => s.history
  {}

  /** After a commit that does not compact, the history is what the script made of it, and more. */
  lemma CommittedHistory(w: World, c: Config, k: Kernel, resp: Response, now: nat)
    requires Failure(w, c, k, resp, now).None? && !Run(w, c, k, resp, now).fx.compactCalled
    ensures Run(w, c, k, resp, now).s.history <= Turn(w, c, k, resp, now).s.history
  {
    var t := Run(w, c, k, resp, now);
    var begun := Prepared(Begin(k, resp), resp, t.fx);
    CommitWorkSteady(w, c, begun, t, resp, now);
    DeferredSteady(w, Commit(w, c, begun, t, resp, now), t.fx, now);
  }

  lemma UntouchedGrows(h: seq<HistoryEntry>, mid: seq<HistoryEntry>, after: seq<HistoryEntry>, n: nat)
    requires H.Untouched(h, mid, n) && mid <= after
    ensures H.Untouched(h, after, n)
  {
    assert after[..n] == mid[..n];
  }

  /** The agent is not compacting, and the turn does not ask for it. */
  predicate Ordinary(w: World, c: Config, k: Kernel, resp: Response, now: nat) {
    && !k.compaction.active
    && (Failure(w, c, k, resp, now).None? ==> !Run(w, c, k, resp, now).fx.compactCalled)
  }

  /** What an ordinary turn, committed or not, makes of the history. */
  lemma TurnHistory(w: World, c: Config, k: Kernel, resp: Response, now: nat)
    requires Ordinary(w, c, k, resp, now)
    ensures var edited := H.ApplyAll(k.s.history, k.s.window, false, HistoryOps(resp.script.ops));
            edited <= Turn(w, c, k, resp, now).s.history || k.s.history <= Turn(w, c, k, resp, now).s.history
  {
    if Failure(w, c, k, resp, now).None? {
      ScriptHistory(w, Mode(false, c.depth), now, Txn(Begin(k, resp).s, NO_EFFECTS), resp.script.ops);
      CommittedHistory(w, c, k, resp, now);
    }
  }

  /** All but the window, and one more entry for every successful removal, is as it was. */
  ghost predicate FrozenUpTo(h: seq<HistoryEntry>, window: nat, ops: seq<H.HistoryOp>, after: seq<HistoryEntry>) {
    var r := H.Removals(h, window, false, ops);
    r <= |h| && H.Untouched(h, after, H.WindowStart(|h| - r, window))
  }

  lemma FrozenThrough(h: seq<HistoryEntry>, window: nat, ops: seq<H.HistoryOp>, after: seq<HistoryEntry>)
    requires H.DistinctIds(h)
    requires H.ApplyAll(h, window, false, ops) <= after || h <= after
    ensures FrozenUpTo(h, window, ops, after)
  {
    H.FrozenPrefix(h, window, ops);
    var n := H.WindowStart(|h| - H.Removals(h, window, false, ops), window);
    if H.ApplyAll(h, window, false, ops) <= after {
      UntouchedGrows(h, H.ApplyAll(h, window, false, ops), after, n);
    } else {
      UntouchedGrows(h, h, after, n);
    }
  }

  /**
   * Frozen history, for the whole turn. With distinct ids, an ordinary turn whose script makes `r`
   * successful removals leaves the first `L - w - r` entries untouched, whether it commits or fails.
   */
  lemma TurnKeepsFrozen(w: World, c: Config, k: Kernel, resp: Response, now: nat)
    requires Ordinary(w, c, k, resp, now) && H.DistinctIds(k.s.history)
    ensures FrozenUpTo(k.s.history, k.s.window, HistoryOps(resp.script.ops), Turn(w, c, k, resp, now).s.history)
  {
    TurnHistory(w, c, k, resp, now);
    FrozenThrough(k.s.history, k.s.window, HistoryOps(resp.script.ops), Turn(w, c, k, resp, now).s.history);
  }

  /** For a fresh agent the ids are distinct by themselves, whatever its hooks do: its ordinary turns keep the frozen prefix, run after run. */
  lemma FreshAgentKeepsFrozen(w: World, c: Config, k: Kernel, steps: seq<Step>, resp: Response, now: nat)
    requires FreshStart(k) && IsIdStream(w.draw)
    requires Walk(w, c, k, steps).s.counter <= k.s.counter + PERIOD
    requires Ordinary(w, c, Walk(w, c, k, steps), resp, now)
    ensures var s := Walk(w, c, k, steps).s;
            FrozenUpTo(s.history, s.window, HistoryOps(resp.script.ops), Turn(w, c, Walk(w, c, k, steps), resp, now).s.history)
  {
    FreshAgentHasDistinctIds(w, c, k, steps);
    TurnKeepsFrozen(w, c, Walk(w, c, k, steps), resp, now);
  }

  // ---- The loop's guards ----

  /**
   * What a pass decides, and exactly when. It proceeds to a turn if the agent lives, is not shut down, has
   * work, is not killed, and may take one more; a limit of `n` allows turns up to the `n`th.
   */
  lemma DecidesWhen(c: Config, k: Kernel, shutdown: bool)
    ensures var d, hasWork := Decide(c, k, shutdown), k.s.queue != [];
            && (d == Proceed <==>
                  !k.crashed && !shutdown && hasWork && !k.killed && (c.maxTurns.None? || k.turn < c.maxTurns.value))
            && (d == ExitMaxTurns <==>
                  !k.crashed && !shutdown && hasWork && !k.killed && c.maxTurns.Some? && c.maxTurns.value <= k.turn)
            && (d == ExitKilled <==> !k.crashed && !shutdown && hasWork && k.killed)
            && (d == Wait <==> !k.crashed && !shutdown && !hasWork)
            && (d == Shutdown <==> !k.crashed && shutdown)
            && (d == Dead <==> k.crashed)
  {}

  /** The loop takes a turn only when it decides to. */
  function GuardedDo(w: World, c: Config, k: Kernel, step: Step): Kernel {
    if step.TakeTurn? && !Decide(c, k, false).Proceed? then k else Do(w, c, k, step)
  }

  function GuardedWalk(w: World, c: Config, k: Kernel, steps: seq<Step>): Kernel {
    if steps == [] then k else GuardedDo(w, c, GuardedWalk(w, c, k, steps[..|steps| - 1]), steps[|steps| - 1])
  }

  lemma StepTurns(w: World, c: Config, k: Kernel, step: Step)
    requires !step.TakeTurn?
    ensures Do(w, c, k, step).turn == k.turn && (k.killed ==> Do(w, c, k, step).killed)
  {
    match step {
      case DrainEvents(v, now) => ApplyEventsSteady(In(w, v), k.(inbox := []), k.inbox, now);
      case TimerCheck(v, now) => CheckTimersSteady(In(w, v), k, now);
      case Telemetry(v, now) => FlushTelemetrySteady(In(w, v), k, now);
      case _ =>
    }
  }

  lemma CommitRestKeepsTurn(w: World, c: Config, k: Kernel, fx: Effects, resp: Response, now: nat)
    ensures CommitRest(w, c, k, fx, resp, now).turn == k.turn
  {}

  lemma CommittedTurnCounts(w: World, c: Config, k: Kernel, t: Txn, resp: Response, now: nat)
    ensures Deferred(w, Commit(w, c, k, t, resp, now), t.fx, now).turn == k.turn
  {
    CommitWorkSteady(w, c, k, t, resp, now);
    CommitRestKeepsTurn(w, c, CommitWork(w, c, k, t, resp, now), t.fx, resp, now);
    DeferredSteady(w, Commit(w, c, k, t, resp, now), t.fx, now);
  }

  lemma TurnCounts(w: World, c: Config, k: Kernel, resp: Response, now: nat)
    ensures Turn(w, c, k, resp, now).turn == k.turn + 1
  {
    var t := Run(w, c, k, resp, now);
    CommittedTurnCounts(w, c, Prepared(Begin(k, resp), resp, t.fx), t, resp, now);
  }

  /** An agent with a turn limit never takes more turns than that, however often the API fails in between. */
  lemma {:induction false} TurnLimitHolds(w: World, c: Config, k: Kernel, steps: seq<Step>)
    requires c.maxTurns.Some? && k.turn <= c.maxTurns.value
    ensures GuardedWalk(w, c, k, steps).turn <= c.maxTurns.value
  {
    if steps != [] {
      var before, step := GuardedWalk(w, c, k, steps[..|steps| - 1]), steps[|steps| - 1];
      TurnLimitHolds(w, c, k, steps[..|steps| - 1]);
      if step.TakeTurn? {
        TurnCounts(In(w, step.around), c, before, step.resp, step.now);
      } else {
        StepTurns(w, c, before, step);
      }
    }
  }

  /**
   * A killed agent takes no further turn, whatever happens to it. At its next decision, unless it has
   * crashed, it exits exactly if it has work; otherwise it goes on waiting.
   */
  lemma {:induction false} KilledTakesNoTurn(w: World, c: Config, k: Kernel, steps: seq<Step>)
    requires k.killed
    ensures var after := GuardedWalk(w, c, k, steps);
            && after.killed && after.turn == k.turn
            && Decide(c, after, false) == if after.crashed then Dead else if after.s.queue == [] then Wait else ExitKilled
  {
    if steps != [] {
      var before, step := GuardedWalk(w, c, k, steps[..|steps| - 1]), steps[|steps| - 1];
      KilledTakesNoTurn(w, c, k, steps[..|steps| - 1]);
      if !step.TakeTurn? { StepTurns(w, c, before, step); }
    }
  }

  lemma {:induction false} OnlySignals(w: World, k: Kernel, events: seq<Event>, now: nat)
    requires forall e :: e in events ==> e.KillSignal?
    requires !k.crashed
    ensures ApplyEvents(w, k, events, now) == k.(killed := k.killed || events != [])
  {
    if events != [] {
      assert events[|events| - 1] in events;
      OnlySignals(w, k, events[..|events| - 1], now);
    }
  }

  /** So kill signals alone do not end an idle agent: with nothing due, the pass that reads them waits. */
  lemma KilledIdleWaits(w: World, c: Config, k: Kernel, now: nat)
    requires !k.crashed && k.s.queue == [] && k.inbox != [] && forall e :: e in k.inbox ==> e.KillSignal?
    requires Firing(w, k.s, now) == [] && !ShouldTrigger(c, k)
    ensures Look(w, c, k, now).killed && Decide(c, Look(w, c, k, now), false) == Wait
  {
    OnlySignals(w, k.(inbox := []), k.inbox, now);
  }

  // ---- Exactly as many turns as it may take ----

  /** Where a turn is up, the agent lives, has work, and has not been killed. */
  ghost predicate Busy(w: World, c: Config, k: Kernel, steps: seq<Step>) {
    steps != [] ==>
      var before, at := steps[..|steps| - 1], GuardedWalk(w, c, k, steps[..|steps| - 1]);
      && Busy(w, c, k, before)
      && (steps[|steps| - 1].TakeTurn? ==> !at.crashed && !at.killed && at.s.queue != [])
  }

  function TurnsUp(steps: seq<Step>): nat {
    if steps == [] then 0 else TurnsUp(steps[..|steps| - 1]) + if steps[|steps| - 1].TakeTurn? then 1 else 0
  }

  /**
   * An agent that always has work when a turn is up, and is neither killed nor dead, takes every turn until
   * it has taken as many as it may, and no more: with a limit the smaller of the two numbers, without one
   * all of them. What it does in between does not count, and a call of the API that fails is not a turn.
   */
  lemma {:induction false} TakesItsTurns(w: World, c: Config, k: Kernel, steps: seq<Step>)
    requires Busy(w, c, k, steps) && (c.maxTurns.Some? ==> k.turn <= c.maxTurns.value)
    ensures var after, up := GuardedWalk(w, c, k, steps), k.turn + TurnsUp(steps);
            after.turn == if c.maxTurns.Some? && c.maxTurns.value < up then c.maxTurns.value else up
  {
    if steps != [] {
      var before, step := GuardedWalk(w, c, k, steps[..|steps| - 1]), steps[|steps| - 1];
      TakesItsTurns(w, c, k, steps[..|steps| - 1]);
      if step.TakeTurn? {
        DecidesWhen(c, before, false);
        TurnCounts(In(w, step.around), c, before, step.resp, step.now);
      } else {
        StepTurns(w, c, before, step);
      }
    }
  }

  /** So an agent that may take `n` turns takes exactly `n` and then exits for that reason: not one fewer, not one more. */
  lemma ExitsAfterItsTurns(w: World, c: Config, k: Kernel, steps: seq<Step>)
    requires c.maxTurns.Some? && k.turn == 0 && Busy(w, c, k, steps)
    requires var at := GuardedWalk(w, c, k, steps); !at.crashed && !at.killed && at.s.queue != []
    ensures var at := GuardedWalk(w, c, k, steps);
            && (Decide(c, at, false) == ExitMaxTurns <==> TurnsUp(steps) >= c.maxTurns.value)
            && (Decide(c, at, false) == ExitMaxTurns ==> at.turn == c.maxTurns.value)
            && (Decide(c, at, false) == Proceed <==> TurnsUp(steps) < c.maxTurns.value)
  {
    TakesItsTurns(w, c, k, steps);
    DecidesWhen(c, GuardedWalk(w, c, k, steps), false);
  }
}
