/** Timers through an agent's whole life: what fires, and what the scripts acknowledge. */
module TimerRuns {
  import opened Base
  import opened Ids
  import opened Items
  import opened Kernels
  import opened Turns
  import opened Ledgers
  import opened TurnLedgers
  import opened KernelRuns
  import opened Steadiness
  import CM = CompactionMode
  import C = Calls
  import L = LaunchRuns
  import T = Timers

  // ---- An observer of one timer id ----

  function WatchOp(w: World, now: nat, r: T.Record, s: Harness, op: ScriptOp, id: AgentId): T.Record {
    match op
    case AddTimer(every, at, priority, description) =>
      T.RecordOp(r, id, T.Add(Timer(w.draw(s.counter), description, priority, Scheduled(every, at, now), false)))
    case CancelTimer(gone) => T.RecordOp(r, id, T.CancelOp(gone))
    case AckTimer(acked) => T.RecordOp(r, id, T.Ack(acked, now))
    case _ => r
  }

  function WatchScript(w: World, m: Mode, now: nat, r: T.Record, t: Txn, ops: seq<ScriptOp>, id: AgentId): T.Record {
    if ops == [] then r
    else
      var before := ops[..|ops| - 1];
      WatchOp(w, now, WatchScript(w, m, now, r, t, before, id), Exec(w, m, now, t, before).s, ops[|ops| - 1], id)
  }

  function WatchTurn(w: World, c: Config, k: Kernel, r: T.Record, resp: Response, now: nat, id: AgentId): T.Record {
    if Failure(w, c, k, resp, now).Some? then r
    else WatchScript(w, Mode(k.compaction.active, c.depth), now, r, Txn(Begin(k, resp).s, NO_EFFECTS), resp.script.ops, id)
  }

  /** A failed turn is as if it had not been; other steps do not concern the timers. */
  function WatchStep(w: World, c: Config, k: Kernel, r: T.Record, step: Step, id: AgentId): T.Record {
    if k.crashed then r
    else match step
    case TimerCheck(_, now) => T.Observe(r, id, T.Check(now), w.draw, k.s.counter)
    case TakeTurn(v, resp, now) => WatchTurn(In(w, v), c, k, r, resp, now, id)
    case _ => r
  }

  function Watch(w: World, c: Config, k: Kernel, steps: seq<Step>, id: AgentId): T.Record {
    if steps == [] then T.Record(k.s.timers, 0, 0, false, false)
    else
      var before := steps[..|steps| - 1];
      WatchStep(w, c, Walk(w, c, k, before), Watch(w, c, k, before, id), steps[|steps| - 1], id)
  }

  // ---- What the observer sees ----

  ghost predicate DrawnBefore(w: World, start: nat, bound: nat, id: AgentId) {
    exists n: nat :: start <= n < bound && w.draw(n) == id
  }

  /** The observer's record is of the agent's own timers, in discipline; a timer seen added bears an id drawn by then. */
  ghost predicate Watched(w: World, o: Origin, r: T.Record, s: Harness, id: AgentId) {
    && r.timers == s.timers
    && T.Disciplined(r, id)
    && (r.added ==> DrawnBefore(w, o.start, s.counter, id))
  }

  lemma NextTimerIsNew(w: World, o: Origin, s: Harness, r: T.Record, id: AgentId, timer: Timer)
    requires Young(w, o, s) && s.counter < o.start + PERIOD && Watched(w, o, r, s, id)
    requires timer.id == w.draw(s.counter) && !timer.pendingAck
    ensures T.FreshOp(r, id, T.Add(timer))
  {
    NextIsUnowned(w, o, s);
    if T.FindTimer(s.timers, timer.id).Some? {
      TimerIsOwned(s, T.FindTimer(s.timers, timer.id).value);
    }
    if timer.id == id && r.added {
      var n: nat :| o.start <= n < s.counter && w.draw(n) == id;
      assert w.draw(n) == IdOf(n) && w.draw(s.counter) == IdOf(s.counter);
      WindowDistinct(o.start, n, s.counter);
    }
  }

  lemma TimerIsOwned(s: Harness, p: nat)
    requires p < |s.timers|
    ensures Owned(s, s.timers[p].id) >= 1
  {
    assert TimerIds(s.timers)[p] == s.timers[p].id;
  }

  lemma DrawnStays(w: World, start: nat, bound: nat, more: nat, id: AgentId)
    requires DrawnBefore(w, start, bound, id) && bound <= more
    ensures DrawnBefore(w, start, more, id)
  {
    var n: nat :| start <= n < bound && w.draw(n) == id;
    assert start <= n < more && w.draw(n) == id;
  }

  /** More ids drawn, timers as they were. */
  lemma WatchedOn(w: World, o: Origin, r: T.Record, s: Harness, after: Harness, id: AgentId)
    requires Watched(w, o, r, s, id) && after.timers == s.timers && s.counter <= after.counter
    ensures Watched(w, o, r, after, id)
  {
    if r.added { DrawnStays(w, o.start, s.counter, after.counter, id); }
  }

  lemma AddWatched(w: World, o: Origin, r: T.Record, s: Harness, timer: Timer, id: AgentId)
    requires Young(w, o, s) && s.counter < o.start + PERIOD && Watched(w, o, r, s, id)
    requires timer.id == w.draw(s.counter) && !timer.pendingAck
    ensures Watched(w, o, T.RecordOp(r, id, T.Add(timer)), StartTimer(w, s, timer), id)
  {
    assert Sound(w, o, s, "", 0);
    NextTimerIsNew(w, o, s, r, id, timer);
    T.OpKeepsDiscipline(r, id, T.Add(timer));
    if r.added { DrawnStays(w, o.start, s.counter, s.counter + 1, id); }
    if timer.id == id { assert o.start <= s.counter < s.counter + 1 && w.draw(s.counter) == id; }
  }

  lemma TimerCallWatched(w: World, o: Origin, now: nat, r: T.Record, s: Harness, op: ScriptOp, id: AgentId)
    requires OnTimers(op) && Young(w, o, s) && Watched(w, o, r, s, id) && TimerStep(w, now, s, op).counter <= o.start + PERIOD
    ensures Watched(w, o, WatchOp(w, now, r, s, op, id), TimerStep(w, now, s, op), id)
  {
    match op {
      case AddTimer(every, at, priority, description) =>
        AddWatched(w, o, r, s, Timer(w.draw(s.counter), description, priority, Scheduled(every, at, now), false), id);
      case CancelTimer(gone) => T.OpKeepsDiscipline(r, id, T.CancelOp(gone));
      case AckTimer(acked) => T.OpKeepsDiscipline(r, id, T.Ack(acked, now));
    }
  }

  lemma OtherCallUnwatched(w: World, now: nat, r: T.Record, s: Harness, op: ScriptOp, id: AgentId)
    requires !OnTimers(op)
    ensures WatchOp(w, now, r, s, op, id) == r
  {}

  lemma CallWatched(w: World, o: Origin, m: Mode, now: nat, r: T.Record, s: Harness, op: ScriptOp, id: AgentId)
    requires Young(w, o, s) && Watched(w, o, r, s, id) && StateStep(w, m, now, s, op).counter <= o.start + PERIOD
    ensures Watched(w, o, WatchOp(w, now, r, s, op, id), StateStep(w, m, now, s, op), id)
  {
    C.OthersKeepTimers(w, m, now, s, op);
    if OnTimers(op) {
      TimerCallWatched(w, o, now, r, s, op, id);
    } else {
      CM.StepContained(w, m, now, s, op);
      OtherCallUnwatched(w, now, r, s, op, id);
      WatchedOn(w, o, r, s, StateStep(w, m, now, s, op), id);
    }
  }

  lemma YoungExec(w: World, o: Origin, m: Mode, now: nat, t: Txn, ops: seq<ScriptOp>)
    requires Young(w, o, t.s) && Exec(w, m, now, t, ops).s.counter <= o.start + PERIOD
    ensures Young(w, o, Exec(w, m, now, t, ops).s)
  {
    CM.ExecContained(w, m, now, t, ops);
    forall x ensures Sound(w, o, Exec(w, m, now, t, ops).s, x, 0) { ExecSound(w, m, now, o, t, ops, x); }
  }

  lemma {:induction false} ScriptWatched(w: World, o: Origin, m: Mode, now: nat, r: T.Record, t: Txn, ops: seq<ScriptOp>, id: AgentId)
    requires Young(w, o, t.s) && Watched(w, o, r, t.s, id) && Exec(w, m, now, t, ops).s.counter <= o.start + PERIOD
    ensures Watched(w, o, WatchScript(w, m, now, r, t, ops, id), Exec(w, m, now, t, ops).s, id)
  {
    if ops != [] {
      var before, op := ops[..|ops| - 1], ops[|ops| - 1];
      var mid := Exec(w, m, now, t, before);
      CM.StepContained(w, m, now, mid.s, op);
      ScriptWatched(w, o, m, now, r, t, before, id);
      YoungExec(w, o, m, now, t, before);
      CallWatched(w, o, m, now, WatchScript(w, m, now, r, t, before, id), mid.s, op, id);
    }
  }

  lemma TurnWatched(w: World, o: Origin, c: Config, k: Kernel, r: T.Record, resp: Response, now: nat, id: AgentId)
    requires Young(w, o, k.s) && Watched(w, o, r, k.s, id) && Turn(w, c, k, resp, now).s.counter <= o.start + PERIOD
    ensures Watched(w, o, WatchTurn(w, c, k, r, resp, now, id), Turn(w, c, k, resp, now).s, id)
  {
    CM.TurnGrows(w, c, k, resp, now);
    L.TurnRemembers(w, c, k, resp, now, ManagedProcess("", "", "", Running, 0, 0));
    if Failure(w, c, k, resp, now).None? {
      var begun := Begin(k, resp).s;
      YoungBegin(w, o, k, resp);
      RunWatched(w, o, c, k, r, resp, now, id);
      WatchedOn(w, o, WatchTurn(w, c, k, r, resp, now, id), Run(w, c, k, resp, now).s, Turn(w, c, k, resp, now).s, id);
    } else {
      WatchedOn(w, o, r, k.s, Turn(w, c, k, resp, now).s, id);
    }
  }

  lemma YoungBegin(w: World, o: Origin, k: Kernel, resp: Response)
    requires Young(w, o, k.s)
    ensures Young(w, o, Begin(k, resp).s)
  {
    forall x ensures Sound(w, o, Begin(k, resp).s, x, 0) { assert Sound(w, o, k.s, x, 0); }
  }

  lemma RunWatched(w: World, o: Origin, c: Config, k: Kernel, r: T.Record, resp: Response, now: nat, id: AgentId)
    requires Young(w, o, Begin(k, resp).s) && Watched(w, o, r, k.s, id) && Run(w, c, k, resp, now).s.counter <= o.start + PERIOD
    requires Failure(w, c, k, resp, now).None?
    ensures Watched(w, o, WatchTurn(w, c, k, r, resp, now, id), Run(w, c, k, resp, now).s, id)
  {
    ScriptWatched(w, o, Mode(k.compaction.active, c.depth), now, r, Txn(Begin(k, resp).s, NO_EFFECTS), resp.script.ops, id);
  }

  lemma CheckWatched(w: World, o: Origin, k: Kernel, r: T.Record, now: nat, id: AgentId)
    requires Watched(w, o, r, k.s, id)
    ensures Watched(w, o, T.Observe(r, id, T.Check(now), w.draw, k.s.counter), CheckTimers(w, k, now).s, id)
  {
    T.CheckKeepsDiscipline(r, id, now, w.draw, k.s.counter);
    CheckTimersSteady(w, k, now);
    L.PushAllRemembers(w, k.(s := Fired(w, k.s, now)), Firing(w, k.s, now), now, ManagedProcess("", "", "", Running, 0, 0));
    if r.added { DrawnStays(w, o.start, k.s.counter, CheckTimers(w, k, now).s.counter, id); }
  }

  lemma OtherStepsKeepTimers(w: World, c: Config, k: Kernel, step: Step)
    requires !step.TimerCheck? && !step.TakeTurn?
    ensures Do(w, c, k, step).s.timers == k.s.timers
  {
    if step.DrainEvents? {
      L.ApplyEventsRemember(In(w, step.around), k.(inbox := []), k.inbox, step.now, ManagedProcess("", "", "", Running, 0, 0));
    }
  }

  lemma WatchedAround(w: World, v: World, o: Origin, r: T.Record, s: Harness, id: AgentId)
    ensures Watched(In(w, v), o, r, s, id) <==> Watched(w, o, r, s, id)
  {
    assert DrawnBefore(In(w, v), o.start, s.counter, id) <==> DrawnBefore(w, o.start, s.counter, id);
  }

  lemma YoungAround(w: World, v: World, o: Origin, s: Harness)
    requires Young(w, o, s)
    ensures Young(In(w, v), o, s)
  {
    forall x ensures Sound(In(w, v), o, s, x, 0) { assert Sound(w, o, s, x, 0); SoundIn(w, v, o, s, x); }
  }

  lemma StepWatched(w: World, o: Origin, c: Config, k: Kernel, r: T.Record, step: Step, id: AgentId)
    requires Young(w, o, k.s) && Watched(w, o, r, k.s, id) && Do(w, c, k, step).s.counter <= o.start + PERIOD
    ensures Watched(w, o, WatchStep(w, c, k, r, step, id), Do(w, c, k, step).s, id)
  {
    match step {
      case TimerCheck(v, now) => if !k.crashed { WatchedAround(w, v, o, r, k.s, id); CheckWatched(In(w, v), o, k, r, now, id); }
      case TakeTurn(v, resp, now) =>
        if !k.crashed {
          WatchedAround(w, v, o, r, k.s, id);
          YoungAround(w, v, o, k.s);
          TurnWatched(In(w, v), o, c, k, r, resp, now, id);
        }
      case _ =>
        CM.StepGrows(w, c, k, step);
        OtherStepsKeepTimers(w, c, k, step);
        WatchedOn(w, o, r, k.s, Do(w, c, k, step).s, id);
    }
  }

  lemma {:induction false} WalkWatched(w: World, c: Config, k: Kernel, steps: seq<Step>, id: AgentId)
    requires FreshStart(k) && IsIdStream(w.draw)
    requires Walk(w, c, k, steps).s.counter <= k.s.counter + PERIOD
    ensures Watched(w, OriginOf(k), Watch(w, c, k, steps, id), Walk(w, c, k, steps).s, id)
  {
    if steps != [] {
      var before, step := steps[..|steps| - 1], steps[|steps| - 1];
      CM.StepGrows(w, c, Walk(w, c, k, before), step);
      WalkWatched(w, c, k, before, id);
      YoungWalk(w, c, k, before);
      StepWatched(w, OriginOf(k), c, Walk(w, c, k, before), Watch(w, c, k, before, id), step, id);
    }
  }

  /**
   * In a fresh agent's life, up to 65536 ids, whatever its hooks do, and for every id: a recurring
   * timer that is there has fired as often as a committed turn acknowledged it while it waited, plus one
   * if it waits now. A one-shot fires at most once, and is then gone. Rolled-back turns do not count.
   */
  lemma TimersFireInStep(w: World, c: Config, k: Kernel, steps: seq<Step>, id: AgentId)
    requires FreshStart(k) && IsIdStream(w.draw)
    requires Walk(w, c, k, steps).s.counter <= k.s.counter + PERIOD
    ensures var r, timers := Watch(w, c, k, steps, id), Walk(w, c, k, steps).s.timers;
            && (r.recurring && T.FindTimer(timers, id).Some? ==> r.fires == r.acks + if T.Waits(timers, id) then 1 else 0)
            && (r.recurring ==> r.acks <= r.fires <= r.acks + 1)
            && (!r.recurring ==> r.fires <= 1 && (r.fires == 1 ==> T.FindTimer(timers, id).None?))
  {
    WalkWatched(w, c, k, steps, id);
  }

  // ---- From an acknowledgement to the next firing ----

  /** A call that acknowledges or cancels the timer. */
  predicate Touches(op: ScriptOp, id: AgentId) {
    (op.AckTimer? && op.id == id) || (op.CancelTimer? && op.id == id)
  }

  lemma YoungTimers(w: World, o: Origin, s: Harness)
    requires Young(w, o, s)
    ensures T.DistinctTimers(s.timers)
  {
    forall x ensures Owned(s, x) <= 1 { YoungOwnsOnce(w, o, s, x); }
    OwnedOnce(s);
  }

  lemma CallLeavesArmed(w: World, m: Mode, now: nat, s: Harness, op: ScriptOp, id: AgentId, every: nat, due: nat, waits: bool)
    requires T.DistinctTimers(s.timers) && T.Armed(s.timers, id, every, due, waits) && !Touches(op, id)
    ensures T.Armed(StateStep(w, m, now, s, op).timers, id, every, due, waits)
  {
    C.OthersKeepTimers(w, m, now, s, op);
    match op {
      case AddTimer(secs, at, priority, description) =>
        T.ArmedStays(s.timers, id, every, due, waits, Timer(w.draw(s.counter), description, priority, Scheduled(secs, at, now), false), id, now);
      case CancelTimer(other) => T.ArmedStays(s.timers, id, every, due, waits, Timer("", "", 0, OneShot(0), false), other, now);
      case AckTimer(other) => T.ArmedStays(s.timers, id, every, due, waits, Timer("", "", 0, OneShot(0), false), other, now);
      case _ =>
    }
  }

  /** Calls on other things leave the timer as it is. */
  lemma {:induction false} CallsLeaveArmed(w: World, o: Origin, m: Mode, now: nat, t: Txn, ops: seq<ScriptOp>, id: AgentId,
                                           every: nat, due: nat, waits: bool)
    requires Young(w, o, t.s) && Exec(w, m, now, t, ops).s.counter <= o.start + PERIOD
    requires T.Armed(t.s.timers, id, every, due, waits) && forall i :: 0 <= i < |ops| ==> !Touches(ops[i], id)
    ensures T.Armed(Exec(w, m, now, t, ops).s.timers, id, every, due, waits)
  {
    if ops != [] {
      var front := ops[..|ops| - 1];
      var mid := Exec(w, m, now, t, front);
      CM.StepContained(w, m, now, mid.s, ops[|ops| - 1]);
      CallsLeaveArmed(w, o, m, now, t, front, id, every, due, waits);
      YoungExec(w, o, m, now, t, front);
      YoungTimers(w, o, mid.s);
      CallLeavesArmed(w, m, now, mid.s, ops[|ops| - 1], id, every, due, waits);
    }
  }

  /** The last call of the script on the timer acknowledges it. */
  predicate LastAcknowledges(ops: seq<ScriptOp>, i: nat, id: AgentId) {
    i < |ops| && ops[i] == AckTimer(id) && forall j :: i < j < |ops| ==> !Touches(ops[j], id)
  }

  lemma ScriptArms(w: World, o: Origin, m: Mode, now: nat, t: Txn, ops: seq<ScriptOp>, i: nat, id: AgentId, every: nat, due: nat, waits: bool)
    requires Young(w, o, t.s) && Exec(w, m, now, t, ops).s.counter <= o.start + PERIOD && LastAcknowledges(ops, i, id)
    requires T.Armed(Exec(w, m, now, t, ops[..i]).s.timers, id, every, due, waits)
    ensures T.Armed(Exec(w, m, now, t, ops).s.timers, id, every, now + T.Seconds(every), false)
  {
    var before, acked := Exec(w, m, now, t, ops[..i]), Exec(w, m, now, t, ops[..i + 1]);
    assert ops == ops[..i + 1] + ops[i + 1..] && ops[..i + 1][..i] == ops[..i];
    L.ExecAppend(w, m, now, t, ops[..i + 1], ops[i + 1..]);
    CM.ExecContained(w, m, now, acked, ops[i + 1..]);
    CM.StepContained(w, m, now, before.s, ops[i]);
    YoungExec(w, o, m, now, t, ops[..i]);
    YoungExec(w, o, m, now, t, ops[..i + 1]);
    YoungTimers(w, o, before.s);
    assert acked.s == StateStep(w, m, now, before.s, ops[i]);
    C.OthersKeepTimers(w, m, now, before.s, ops[i]);
    T.AcknowledgedIsArmed(before.s.timers, id, every, due, waits, now);
    CallsLeaveArmed(w, o, m, now, acked, ops[i + 1..], id, every, now + T.Seconds(every), false);
  }

  /** The turn commits, and its `i`th call is its last on a recurring timer, and acknowledges it. */
  ghost predicate AcknowledgedBy(w: World, c: Config, k: Kernel, resp: Response, now: nat, i: nat, id: AgentId, every: nat, due: nat, waits: bool) {
    && Failure(w, c, k, resp, now).None? && LastAcknowledges(resp.script.ops, i, id)
    && T.Armed(L.Midway(w, c, k, resp, now, i).timers, id, every, due, waits)
  }

  /** No committed turn of the run acknowledges or cancels the timer. */
  ghost predicate LeftAlone(w: World, c: Config, k: Kernel, steps: seq<Step>, id: AgentId) {
    steps != [] ==>
      var before, step := steps[..|steps| - 1], steps[|steps| - 1];
      && LeftAlone(w, c, k, before, id)
      && (step.TakeTurn? && Failure(In(w, step.around), c, Walk(w, c, k, before), step.resp, step.now).None? ==>
            forall i :: 0 <= i < |step.resp.script.ops| ==> !Touches(step.resp.script.ops[i], id))
  }

  /** Some check of the run came at `due` or later. */
  predicate CheckedAt(steps: seq<Step>, due: nat) {
    steps != [] && (CheckedAt(steps[..|steps| - 1], due) || (steps[|steps| - 1].TimerCheck? && steps[|steps| - 1].now >= due))
  }

  lemma TurnLeavesArmed(w: World, o: Origin, c: Config, k: Kernel, resp: Response, now: nat, id: AgentId, every: nat, due: nat, waits: bool)
    requires Young(w, o, k.s) && Turn(w, c, k, resp, now).s.counter <= o.start + PERIOD
    requires T.Armed(k.s.timers, id, every, due, waits)
    requires Failure(w, c, k, resp, now).None? ==> forall i :: 0 <= i < |resp.script.ops| ==> !Touches(resp.script.ops[i], id)
    ensures T.Armed(Turn(w, c, k, resp, now).s.timers, id, every, due, waits)
  {
    L.TurnRemembers(w, c, k, resp, now, ManagedProcess("", "", "", Running, 0, 0));
    CM.TurnGrows(w, c, k, resp, now);
    if Failure(w, c, k, resp, now).None? {
      YoungBegin(w, o, k, resp);
      CallsLeaveArmed(w, o, Mode(k.compaction.active, c.depth), now, Txn(Begin(k, resp).s, NO_EFFECTS), resp.script.ops, id, every, due, waits);
    }
  }

  lemma CheckArms(w: World, o: Origin, k: Kernel, now: nat, id: AgentId, every: nat, due: nat, waits: bool)
    requires Young(w, o, k.s) && T.Armed(k.s.timers, id, every, due, waits)
    ensures T.Armed(CheckTimers(w, k, now).s.timers, id, every, due, waits || now >= due)
  {
    YoungTimers(w, o, k.s);
    T.CheckArmed(k.s.timers, id, every, due, waits, now);
    L.PushAllRemembers(w, k.(s := Fired(w, k.s, now)), Firing(w, k.s, now), now, ManagedProcess("", "", "", Running, 0, 0));
  }

  lemma StepLeavesArmed(w: World, o: Origin, c: Config, k: Kernel, step: Step, id: AgentId, every: nat, due: nat, waits: bool)
    requires Young(w, o, k.s) && !k.crashed && Do(w, c, k, step).s.counter <= o.start + PERIOD
    requires T.Armed(k.s.timers, id, every, due, waits)
    requires step.TakeTurn? && Failure(In(w, step.around), c, k, step.resp, step.now).None? ==>
               forall i :: 0 <= i < |step.resp.script.ops| ==> !Touches(step.resp.script.ops[i], id)
    ensures T.Armed(Do(w, c, k, step).s.timers, id, every, due, waits || (step.TimerCheck? && step.now >= due))
  {
    match step {
      case TimerCheck(v, now) => YoungAround(w, v, o, k.s); CheckArms(In(w, v), o, k, now, id, every, due, waits);
      case TakeTurn(v, resp, now) =>
        YoungAround(w, v, o, k.s);
        TurnLeavesArmed(In(w, v), o, c, k, resp, now, id, every, due, waits);
      case _ => OtherStepsKeepTimers(w, c, k, step);
    }
  }

  /** A state of a new agent's life, within one period of ids, and alive. */
  ghost predicate Fledgling(w: World, c: Config, k: Kernel, steps: seq<Step>) {
    && FreshStart(k) && IsIdStream(w.draw)
    && Walk(w, c, k, steps).s.counter <= k.s.counter + PERIOD
    && !Walk(w, c, k, steps).crashed
  }

  lemma FledglingBefore(w: World, c: Config, k: Kernel, steps: seq<Step>)
    requires steps != [] && Fledgling(w, c, k, steps)
    ensures Fledgling(w, c, k, steps[..|steps| - 1])
  {
    CM.StepGrows(w, c, Walk(w, c, k, steps[..|steps| - 1]), steps[|steps| - 1]);
  }

  lemma {:induction false} WalkJoin(w: World, c: Config, k: Kernel, a: seq<Step>, b: seq<Step>)
    ensures Walk(w, c, k, a + b) == Walk(w, c, Walk(w, c, k, a), b)
  {
    if b == [] {
      assert a + b == a;
    } else {
      assert (a + b)[..|a + b| - 1] == a + b[..|b| - 1];
      WalkJoin(w, c, k, a, b[..|b| - 1]);
    }
  }

  lemma OneMoreArmed(w: World, c: Config, k: Kernel, a: seq<Step>, step: Step, id: AgentId, every: nat, due: nat, waits: bool)
    requires Fledgling(w, c, k, a + [step]) && Fledgling(w, c, k, a)
    requires T.Armed(Walk(w, c, k, a).s.timers, id, every, due, waits)
    requires step.TakeTurn? && Failure(In(w, step.around), c, Walk(w, c, k, a), step.resp, step.now).None? ==>
               forall i :: 0 <= i < |step.resp.script.ops| ==> !Touches(step.resp.script.ops[i], id)
    ensures T.Armed(Walk(w, c, k, a + [step]).s.timers, id, every, due, waits || (step.TimerCheck? && step.now >= due))
  {
    CM.WalkSnoc(w, c, k, a, step);
    YoungWalk(w, c, k, a);
    StepLeavesArmed(w, OriginOf(k), c, Walk(w, c, k, a), step, id, every, due, waits);
  }

  /** Through a stretch of the agent's life in which nobody touches the timer. */
  lemma {:induction false} WalkLeavesArmed(w: World, c: Config, k: Kernel, a: seq<Step>, b: seq<Step>, id: AgentId, every: nat, due: nat)
    requires Fledgling(w, c, k, a + b) && LeftAlone(w, c, Walk(w, c, k, a), b, id)
    requires T.Armed(Walk(w, c, k, a).s.timers, id, every, due, false)
    ensures T.Armed(Walk(w, c, k, a + b).s.timers, id, every, due, CheckedAt(b, due))
  {
    if b == [] {
      assert a + b == a;
    } else {
      var front, step := b[..|b| - 1], b[|b| - 1];
      assert a + b == a + front + [step];
      FledglingFront(w, c, k, a + front, [step]);
      WalkLeavesArmed(w, c, k, a, front, id, every, due);
      WalkJoin(w, c, k, a, front);
      OneMoreArmed(w, c, k, a + front, step, id, every, due, CheckedAt(front, due));
    }
  }

  /**
   * From an acknowledgement to the next firing, through any stretch of a new agent's life. A turn that
   * commits at `now`, and whose last call on a recurring timer acknowledges it, puts its next firing off:
   * until it is touched again, a check at `t` fires it exactly if `t` is at least its period after `now`,
   * and no check before has done so.
   */
  lemma NextFiringAfterAck(w: World, v: World, c: Config, k: Kernel, a: seq<Step>, resp: Response, now: nat, i: nat,
                           upTo: seq<Step>, b: seq<Step>, id: AgentId, every: nat, due: nat, waits: bool, t: nat)
    requires upTo == a + [TakeTurn(v, resp, now)]
    requires Fledgling(w, c, k, upTo + b) && LeftAlone(w, c, Walk(w, c, k, upTo), b, id)
    requires AcknowledgedBy(In(w, v), c, Walk(w, c, k, a), resp, now, i, id, every, due, waits)
    ensures var s := Walk(w, c, k, upTo + b).s;
            T.FiresFor(s.timers, id, t, w.draw, s.counter)
            <==> t >= now + T.Seconds(every) && !CheckedAt(b, now + T.Seconds(every))
  {
    FledglingFront(w, c, k, upTo, b);
    TurnArms(w, v, c, k, a, resp, now, i, id, every, due, waits);
    ArmedThenFires(w, c, k, upTo, b, id, every, now + T.Seconds(every), t);
  }

  lemma ArmedThenFires(w: World, c: Config, k: Kernel, a: seq<Step>, b: seq<Step>, id: AgentId, every: nat, due: nat, t: nat)
    requires Fledgling(w, c, k, a + b) && LeftAlone(w, c, Walk(w, c, k, a), b, id)
    requires T.Armed(Walk(w, c, k, a).s.timers, id, every, due, false)
    ensures var s := Walk(w, c, k, a + b).s; T.FiresFor(s.timers, id, t, w.draw, s.counter) <==> t >= due && !CheckedAt(b, due)
  {
    WalkLeavesArmed(w, c, k, a, b, id, every, due);
    DistinctInLife(w, c, k, a + b);
    ArmedFires(w, Walk(w, c, k, a + b).s, id, every, due, CheckedAt(b, due), t);
  }

  lemma DistinctInLife(w: World, c: Config, k: Kernel, steps: seq<Step>)
    requires Fledgling(w, c, k, steps)
    ensures T.DistinctTimers(Walk(w, c, k, steps).s.timers)
  {
    YoungWalk(w, c, k, steps);
    YoungTimers(w, OriginOf(k), Walk(w, c, k, steps).s);
  }

  lemma ArmedFires(w: World, s: Harness, id: AgentId, every: nat, due: nat, waits: bool, t: nat)
    requires T.DistinctTimers(s.timers) && T.Armed(s.timers, id, every, due, waits)
    ensures T.FiresFor(s.timers, id, t, w.draw, s.counter) <==> t >= due && !waits
  {
    T.FiresForIff(s.timers, T.FindTimer(s.timers, id).value, t, w.draw, s.counter);
  }

  lemma {:induction false} FledglingFront(w: World, c: Config, k: Kernel, a: seq<Step>, b: seq<Step>)
    requires Fledgling(w, c, k, a + b)
    ensures Fledgling(w, c, k, a)
  {
    if b == [] {
      assert a + b == a;
    } else {
      assert (a + b)[..|a + b| - 1] == a + b[..|b| - 1];
      FledglingBefore(w, c, k, a + b);
      FledglingFront(w, c, k, a, b[..|b| - 1]);
    }
  }

  lemma TurnArmsAt(u: World, o: Origin, c: Config, p: Kernel, resp: Response, now: nat, i: nat, id: AgentId, every: nat, due: nat, waits: bool)
    requires Young(u, o, p.s) && Turn(u, c, p, resp, now).s.counter <= o.start + PERIOD
    requires AcknowledgedBy(u, c, p, resp, now, i, id, every, due, waits)
    ensures T.Armed(Turn(u, c, p, resp, now).s.timers, id, every, now + T.Seconds(every), false)
  {
    YoungBegin(u, o, p, resp);
    L.TurnRemembers(u, c, p, resp, now, ManagedProcess("", "", "", Running, 0, 0));
    CM.TurnGrows(u, c, p, resp, now);
    ScriptArms(u, o, Mode(p.compaction.active, c.depth), now, Txn(Begin(p, resp).s, NO_EFFECTS), resp.script.ops, i, id, every, due, waits);
  }

  lemma TurnArms(w: World, v: World, c: Config, k: Kernel, a: seq<Step>, resp: Response, now: nat, i: nat,
                 id: AgentId, every: nat, due: nat, waits: bool)
    requires Fledgling(w, c, k, a + [TakeTurn(v, resp, now)])
    requires AcknowledgedBy(In(w, v), c, Walk(w, c, k, a), resp, now, i, id, every, due, waits)
    ensures T.Armed(Walk(w, c, k, a + [TakeTurn(v, resp, now)]).s.timers, id, every, now + T.Seconds(every), false)
  {
    var p := Walk(w, c, k, a);
    FledglingFront(w, c, k, a, [TakeTurn(v, resp, now)]);
    TurnIsWalked(w, v, c, k, a, resp, now);
    YoungWalk(w, c, k, a);
    YoungAround(w, v, OriginOf(k), p.s);
    TurnArmsAt(In(w, v), OriginOf(k), c, p, resp, now, i, id, every, due, waits);
  }

  lemma TurnIsWalked(w: World, v: World, c: Config, k: Kernel, a: seq<Step>, resp: Response, now: nat)
    requires !Walk(w, c, k, a).crashed
    ensures Walk(w, c, k, a + [TakeTurn(v, resp, now)]) == Turn(In(w, v), c, Walk(w, c, k, a), resp, now)
  {
    CM.WalkSnoc(w, c, k, a, TakeTurn(v, resp, now));
    TurnIsDone(w, v, c, Walk(w, c, k, a), resp, now);
  }

  // ---- New timers ----

  /** When a timer that is added at `now` fires first: a minute later, if no time is given. */
  function FirstDue(every: Option<nat>, at: Option<nat>, now: nat): nat {
    if every.Some? then now + T.Seconds(every.value) else if at.Some? then at.value else now + 60
  }

  /**
   * The timer that a call adds has the call's description and priority, and a check fires it exactly if it
   * comes at its time or later: its period from now, the time given, or a minute from now.
   */
  lemma AddedTimerFires(w: World, o: Origin, m: Mode, now: nat, s: Harness, op: ScriptOp, t: nat)
    requires op.AddTimer? && Young(w, o, s) && s.counter < o.start + PERIOD
    ensures var after, id := StateStep(w, m, now, s, op), w.draw(s.counter);
            && |after.timers| == |s.timers| + 1 && after.timers[..|s.timers|] == s.timers
            && after.timers[|s.timers|] == Timer(id, op.description, op.priority, after.timers[|s.timers|].schedule, false)
            && (match op.every
                case Some(secs) => after.timers[|s.timers|].schedule.Recurring? && after.timers[|s.timers|].schedule.every == secs
                case None => after.timers[|s.timers|].schedule.OneShot?)
            && (T.FiresFor(after.timers, id, t, w.draw, after.counter) <==> t >= FirstDue(op.every, op.at, now))
  {
    var after := StateStep(w, m, now, s, op);
    C.OthersKeepTimers(w, m, now, s, op);
    YoungTimers(w, o, s);
    NextIsUnowned(w, o, s);
    forall i | 0 <= i < |s.timers| ensures s.timers[i].id != w.draw(s.counter) { TimerIsOwned(s, i); }
    T.FiresForIff(after.timers, |s.timers|, t, w.draw, after.counter);
  }
}
