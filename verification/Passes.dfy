/** What a pass of the loop does before it decides (src/agent_loop.rs, `run`). */
module Passes {
  import opened Base
  import opened Ids
  import opened Items
  import opened Kernels
  import opened Turns
  import opened KernelRuns
  import opened Steadiness
  import opened Pipelines
  import opened Frames
  import CM = CompactionMode
  import L = LaunchRuns
  import T = Timers

  // ---- A pass is a stretch of a run ----

  function Looking(w: World, now: nat): seq<Step> {
    [DrainEvents(w, now)] + [TimerCheck(w, now)] + [Threshold(now)]
  }

  /** A living agent's pass is three steps of a run: events, timers, threshold; and, on waking with work, the telemetry. */
  lemma PassIsSteps(w: World, c: Config, k: Kernel, now: nat, shutdown: bool, idle: bool)
    requires !k.crashed
    ensures var looked := Walk(w, c, k, Looking(w, now));
            Wake(w, c, k, now, shutdown, idle)
            == if idle && !shutdown && looked.s.queue != [] then Walk(w, c, k, Looking(w, now) + [Telemetry(w, now)]) else looked
  {
    LookIsSteps(w, c, k, now);
    InItself(w);
    CM.WalkSnoc(w, c, k, Looking(w, now), Telemetry(w, now));
  }

  lemma LookIsSteps(w: World, c: Config, k: Kernel, now: nat)
    requires !k.crashed
    ensures Look(w, c, k, now) == Walk(w, c, k, Looking(w, now))
  {
    InItself(w);
    var drain := [DrainEvents(w, now)];
    assert [] + drain == drain;
    CM.WalkSnoc(w, c, k, [], DrainEvents(w, now));
    CM.WalkSnoc(w, c, k, drain, TimerCheck(w, now));
    CM.WalkSnoc(w, c, k, drain + [TimerCheck(w, now)], Threshold(now));
    CheckLives(w, Drain(w, k, now), now);
  }

  lemma CheckLives(w: World, k: Kernel, now: nat)
    ensures CheckTimers(w, k, now).crashed == k.crashed
  {
    L.PushAllRemembers(w, k.(s := Fired(w, k.s, now)), Firing(w, k.s, now), now, ManagedProcess("", "", "", Running, 0, 0));
  }

  // ---- What a pass has seen to ----

  lemma {:induction false} PushAllKeepsInbox(w: World, k: Kernel, items: seq<WorkItem>, now: nat)
    ensures PushAll(w, k, items, now).inbox == k.inbox
  {
    if items != [] {
      var mid := PushAll(w, k, items[..|items| - 1], now);
      PushAllKeepsInbox(w, k, items[..|items| - 1], now);
      PushItemOuter(w, mid, items[|items| - 1], now, mid.inbox, mid.registry);
      assert WithOuter(mid, mid.inbox, mid.registry) == mid;
    }
  }

  /** Events and timers, seen to. */
  ghost predicate SeenTo(k: Kernel, after: Kernel, now: nat) {
    && after.inbox == []
    && (!after.crashed ==> after.s.timers == T.AfterCheck(k.s.timers, now))
  }

  /** And the threshold. */
  ghost predicate SeenToAll(c: Config, k: Kernel, after: Kernel, now: nat) {
    && SeenTo(k, after, now)
    && (!after.crashed && c.canCompact && after.s.lastTotal > c.compactAt ==> after.compaction.active)
  }

  lemma DrainSees(w: World, k: Kernel, now: nat)
    ensures Drain(w, k, now).inbox == [] && Drain(w, k, now).s.timers == k.s.timers
  {
    ApplyEventsKeepOuter(w, k.(inbox := []), k.inbox, now);
    L.ApplyEventsRemember(w, k.(inbox := []), k.inbox, now, ManagedProcess("", "", "", Running, 0, 0));
  }

  lemma CheckSees(w: World, k: Kernel, now: nat)
    requires k.inbox == []
    ensures SeenTo(k, CheckTimers(w, k, now), now)
  {
    PushAllKeepsInbox(w, k.(s := Fired(w, k.s, now)), Firing(w, k.s, now), now);
    L.PushAllRemembers(w, k.(s := Fired(w, k.s, now)), Firing(w, k.s, now), now, ManagedProcess("", "", "", Running, 0, 0));
  }

  lemma ThresholdSees(w: World, c: Config, k: Kernel, checked: Kernel, now: nat)
    requires SeenTo(k, checked, now)
    ensures SeenToAll(c, k, CheckThreshold(w, c, checked, now), now)
  {}

  lemma LookSees(w: World, c: Config, k: Kernel, now: nat)
    ensures SeenToAll(c, k, Look(w, c, k, now), now)
  {
    var drained := Drain(w, k, now);
    DrainSees(w, k, now);
    if !drained.crashed {
      CheckSees(w, drained, now);
      assert SeenTo(k, CheckTimers(w, drained, now), now);
      ThresholdSees(w, c, k, CheckTimers(w, drained, now), now);
    }
  }

  lemma FlushSees(w: World, c: Config, k: Kernel, looked: Kernel, now: nat)
    requires SeenToAll(c, k, looked, now)
    ensures var after := FlushTelemetry(w, looked, now);
            SeenToAll(c, k, after, now) && forall name :: Stat(after.s.stats, name).fired == 0
  {}

  /**
   * After a pass, whatever hooks have done meanwhile, the channel has been read, no timer is up, no
   * compaction is overdue, and if the agent has woken with work no hook's firing is still to be reported.
   */
  lemma PassSeesToAll(w: World, c: Config, k: Kernel, now: nat, shutdown: bool, idle: bool)
    requires T.DistinctTimers(k.s.timers)
    ensures var after := Wake(w, c, k, now, shutdown, idle);
            && after.inbox == []
            && (!after.crashed ==>
                  && (forall p :: 0 <= p < |after.s.timers| ==> !T.IsUp(after.s.timers[p], now))
                  && (c.canCompact && after.s.lastTotal > c.compactAt ==> after.compaction.active)
                  && (idle && !shutdown && after.s.queue != [] ==> forall name :: Stat(after.s.stats, name).fired == 0))
  {
    var looked, after := Look(w, c, k, now), Wake(w, c, k, now, shutdown, idle);
    LookSees(w, c, k, now);
    FlushSees(w, c, k, looked, now);
    assert SeenToAll(c, k, after, now);
    if !after.crashed {
      forall p | 0 <= p < |after.s.timers| ensures !T.IsUp(after.s.timers[p], now) { T.NothingIsUp(k.s.timers, now, p); }
    }
  }
}
