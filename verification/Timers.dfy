/** Ack-gated timers (src/types.rs, `TimerManager`). Times are instants on one clock, in one unit. */
module Timers {
  import opened Base
  import opened Ids
  import opened Items

  /** The longest period the date library represents, in seconds; a longer one re-arms after one second. */
  const MAX_PERIOD: nat := 9223372036854775

  function Period(every: nat): nat {
    if every <= MAX_PERIOD then every else 1
  }

  function Due(t: Timer): nat {
    match t.schedule case OneShot(at) => at case Recurring(_, nextFire) => nextFire
  }

  predicate Fires(t: Timer, now: nat) {
    Due(t) <= now && (t.schedule.Recurring? ==> !t.pendingAck)
  }

  function FiredItem(t: Timer, now: nat, id: AgentId): WorkItem {
    var every := if t.schedule.Recurring? then Some(t.schedule.every) else None;
    WorkItem(id, t.priority, now, TimerFired(t.id, every, t.description), [])
  }

  /** The timer as the firing loop leaves it: a recurring one waits for its acknowledgement. */
  function AfterFiring(t: Timer): Timer {
    if t.schedule.Recurring? then t.(pendingAck := true) else t
  }

  function MarkOne(t: Timer, now: nat): Timer {
    if Fires(t, now) then AfterFiring(t) else t
  }

  function Marked(ts: seq<Timer>, now: nat): seq<Timer> {
    seq(|ts|, i requires 0 <= i < |ts| => MarkOne(ts[i], now))
  }

  /** The queue items of the first `n` timers in one check; `draw` names the ids from `counter` on. */
  function FiredUpTo(ts: seq<Timer>, n: nat, now: nat, draw: nat -> AgentId, counter: nat): (items: seq<WorkItem>)
    requires n <= |ts|
  {
    if n == 0 then []
    else
      var t, before := ts[n - 1], FiredUpTo(ts, n - 1, now, draw, counter);
      if Fires(t, now) then before + [FiredItem(t, now, draw(counter + |before|))] else before
  }

  function FiredItems(ts: seq<Timer>, now: nat, draw: nat -> AgentId, counter: nat): seq<WorkItem> {
    FiredUpTo(ts, |ts|, now, draw, counter)
  }

  /** Ids of the due one-shots among the first `n` timers. */
  function SpentUpTo(ts: seq<Timer>, n: nat, now: nat): seq<AgentId>
    requires n <= |ts|
  {
    if n == 0 then []
    else
      var t, before := ts[n - 1], SpentUpTo(ts, n - 1, now);
      if Fires(t, now) && t.schedule.OneShot? then before + [t.id] else before
  }

  function Spent(ts: seq<Timer>, now: nat): seq<AgentId> {
    SpentUpTo(ts, |ts|, now)
  }

  function FindTimer(ts: seq<Timer>, id: AgentId): (r: Option<nat>)
    ensures r.Some? ==> r.value < |ts| && ts[r.value].id == id && forall i :: 0 <= i < r.value ==> ts[i].id != id
    ensures r.None? ==> forall i :: 0 <= i < |ts| ==> ts[i].id != id
  {
    Position(ts, (x: Timer) => x.id == id)
  }

  function Cancel(ts: seq<Timer>, id: AgentId): seq<Timer> {
    match FindTimer(ts, id) case None => ts case Some(p) => RemoveAt(ts, p)
  }

  function CancelAll(ts: seq<Timer>, ids: seq<AgentId>): seq<Timer>
    decreases ids
  {
    if ids == [] then ts else CancelAll(Cancel(ts, ids[0]), ids[1..])
  }

  function Rearmed(t: Timer, now: nat): Timer {
    match t.schedule
    case OneShot(_) => t
    case Recurring(every, _) => t.(pendingAck := false, schedule := Recurring(every, now + Period(every)))
  }

  function Acknowledge(ts: seq<Timer>, id: AgentId, now: nat): seq<Timer> {
    match FindTimer(ts, id) case None => ts case Some(p) => ts[p := Rearmed(ts[p], now)]
  }

  function AfterCheck(ts: seq<Timer>, now: nat): seq<Timer> {
    CancelAll(Marked(ts, now), Spent(ts, now))
  }

  function NextDeadline(ts: seq<Timer>): Option<nat> {
    if ts == [] then None
    else match NextDeadline(ts[1..])
      case None => Some(Due(ts[0]))
      case Some(d) => Some(if Due(ts[0]) <= d then Due(ts[0]) else d)
  }

  class TimerManager {
    var timers: seq<Timer>

    constructor ()
      ensures timers == []
    {
      timers := [];
    }

    method Add(timer: Timer)
      modifies this
      ensures timers == old(timers) + [timer]
    {
      timers := timers + [timer];
    }

    method CancelTimer(id: AgentId)
      modifies this
      ensures timers == Cancel(old(timers), id)
    {
      match FindTimer(timers, id) {
        case None =>
        case Some(p) => timers := timers[..p] + timers[p + 1..];
      }
    }

    /** One pass of the firing loop: the item to queue, if this timer is due and not awaiting an ack. */
    method FireOne(i: nat, timer: Timer, now: nat, ids: IdGenerator, ghost draw: nat -> AgentId)
      returns (item: Option<WorkItem>)
      requires i < |timers| && timers[i] == timer && IsIdStream(draw)
      modifies this, ids
      ensures timers == old(timers)[i := MarkOne(timer, now)]
      ensures item == if Fires(timer, now) then Some(FiredItem(timer, now, draw(old(ids.counter)))) else None
      ensures ids.counter == old(ids.counter) + if item.Some? then 1 else 0
    {
      item := None;
      match timer.schedule {
        case OneShot(at) =>
          if now >= at {
            var id := ids.Next();
            item := Some(WorkItem(id, timer.priority, now, TimerFired(timer.id, None, timer.description), []));
          }
        case Recurring(every, nextFire) =>
          if timer.pendingAck {
            return;
          }
          if now >= nextFire {
            var id := ids.Next();
            item := Some(WorkItem(id, timer.priority, now, TimerFired(timer.id, Some(every), timer.description), []));
            timers := timers[i := timer.(pendingAck := true)];
          }
      }
    }

    /** The firing loop: due timers are marked and their items collected; spent one-shots are listed. */
    method FireAll(now: nat, ids: IdGenerator, ghost draw: nat -> AgentId)
      returns (fired: seq<WorkItem>, toRemove: seq<AgentId>)
      requires IsIdStream(draw)
      modifies this, ids
      ensures timers == Marked(old(timers), now) && toRemove == Spent(old(timers), now)
      ensures fired == FiredItems(old(timers), now, draw, old(ids.counter))
      ensures ids.counter == old(ids.counter) + |fired|
    {
      fired, toRemove := [], [];
      var i := 0;
      ghost var was, start := timers, ids.counter;
      while i < |timers|
        invariant 0 <= i <= |timers| == |was|
        invariant ids.counter == start + |fired|
        invariant forall k :: 0 <= k < i ==> timers[k] == MarkOne(was[k], now)
        invariant forall k :: i <= k < |was| ==> timers[k] == was[k]
        invariant fired == FiredUpTo(was, i, now, draw, start)
        invariant toRemove == SpentUpTo(was, i, now)
      {
        var timer := timers[i];
        var item := FireOne(i, timer, now, ids, draw);
        if item.Some? {
          fired := fired + [item.value];
          if timer.schedule.OneShot? { toRemove := toRemove + [timer.id]; }
        }
        i := i + 1;
      }
      assert timers == Marked(was, now);
    }

    /** Fires every due timer once; `ids` is the shared id generator. */
    method CheckAndFire(now: nat, ids: IdGenerator, ghost draw: nat -> AgentId) returns (fired: seq<WorkItem>)
      requires IsIdStream(draw)
      modifies this, ids
      ensures timers == AfterCheck(old(timers), now)
      ensures fired == FiredItems(old(timers), now, draw, old(ids.counter))
      ensures ids.counter == old(ids.counter) + |fired|
    {
      var toRemove;
      fired, toRemove := FireAll(now, ids, draw);
      CancelEach(toRemove);
    }

    method CancelEach(toRemove: seq<AgentId>)
      modifies this
      ensures timers == CancelAll(old(timers), toRemove)
    {
      var j := 0;
      assert toRemove[0..] == toRemove;
      while j < |toRemove|
        invariant 0 <= j <= |toRemove|
        invariant CancelAll(timers, toRemove[j..]) == CancelAll(old(timers), toRemove)
      {
        assert toRemove[j..][1..] == toRemove[j + 1..];
        CancelTimer(toRemove[j]);
        j := j + 1;
      }
    }

    method AcknowledgeTimer(id: AgentId, now: nat)
      modifies this
      ensures timers == Acknowledge(old(timers), id, now)
    {
      match FindTimer(timers, id) {
        case None =>
        case Some(p) =>
          match timers[p].schedule {
            case OneShot(_) => assert timers[p := timers[p]] == timers;
            case Recurring(every, _) =>
              timers := timers[p := timers[p].(pendingAck := false, schedule := Recurring(every, now + Period(every)))];
          }
      }
    }
  }

  // ---- Deadlines ----

  lemma {:induction false} NextDeadlineIsMinimum(ts: seq<Timer>)
    ensures NextDeadline(ts).None? <==> ts == []
    ensures NextDeadline(ts).Some? ==> forall i :: 0 <= i < |ts| ==> NextDeadline(ts).value <= Due(ts[i])
    ensures NextDeadline(ts).Some? ==> exists i :: 0 <= i < |ts| && Due(ts[i]) == NextDeadline(ts).value
  {
    if ts != [] {
      NextDeadlineIsMinimum(ts[1..]);
      var d := NextDeadline(ts).value;
      if Due(ts[0]) == d {
        assert Due(ts[0]) == d;
      } else {
        var i :| 0 <= i < |ts[1..]| && Due(ts[1..][i]) == d;
        assert ts[i + 1] == ts[1..][i];
      }
      forall i | 0 <= i < |ts| ensures d <= Due(ts[i]) {
        if i > 0 { assert ts[i] == ts[1..][i - 1]; }
      }
    }
  }

  lemma {:induction false} SomethingFiresUpTo(ts: seq<Timer>, n: nat, now: nat, draw: nat -> AgentId, counter: nat)
    requires n <= |ts|
    ensures FiredUpTo(ts, n, now, draw, counter) != [] <==> exists i :: 0 <= i < n && Fires(ts[i], now)
  {
    if n > 0 {
      SomethingFiresUpTo(ts, n - 1, now, draw, counter);
      if exists i :: 0 <= i < n - 1 && Fires(ts[i], now) {
        var i :| 0 <= i < n - 1 && Fires(ts[i], now);
        assert 0 <= i < n && Fires(ts[i], now);
      }
    }
  }

  lemma {:induction false} QuietUpTo(ts: seq<Timer>, n: nat, now: nat)
    requires n <= |ts| && forall i :: 0 <= i < |ts| ==> !Fires(ts[i], now)
    ensures SpentUpTo(ts, n, now) == []
  {
    if n > 0 { QuietUpTo(ts, n - 1, now); }
  }

  lemma QuietCheck(ts: seq<Timer>, now: nat)
    requires forall i :: 0 <= i < |ts| ==> !Fires(ts[i], now)
    ensures AfterCheck(ts, now) == ts
  {
    QuietUpTo(ts, |ts|, now);
    assert Marked(ts, now) == ts;
  }

  /**
   * Before the deadline a check changes nothing and fires nothing; at or after it, something fires
   * exactly when some due timer is not waiting for an acknowledgement.
   */
  lemma DeadlineIsExact(ts: seq<Timer>, now: nat, draw: nat -> AgentId, counter: nat)
    requires ts != []
    ensures NextDeadline(ts).Some?
    ensures now < NextDeadline(ts).value ==> FiredItems(ts, now, draw, counter) == [] && AfterCheck(ts, now) == ts
    ensures FiredItems(ts, now, draw, counter) != []
            <==> exists i :: 0 <= i < |ts| && Due(ts[i]) <= now && (ts[i].schedule.Recurring? ==> !ts[i].pendingAck)
    ensures (forall i :: 0 <= i < |ts| ==> ts[i].schedule.Recurring? ==> !ts[i].pendingAck)
            ==> (FiredItems(ts, now, draw, counter) != [] <==> NextDeadline(ts).value <= now)
  {
    NextDeadlineIsMinimum(ts);
    SomethingFiresUpTo(ts, |ts|, now, draw, counter);
    if now < NextDeadline(ts).value { QuietCheck(ts, now); }
  }

  /** A timer waiting for its acknowledgement still counts: the deadline passes and nothing fires. */
  lemma PendingTimerHoldsDeadline(every: nat, due: nat, now: nat, draw: nat -> AgentId)
    requires due <= now
    ensures var ts := [Timer("7c15", "", 5, Recurring(every, due), true)];
            NextDeadline(ts) == Some(due) && FiredItems(ts, now, draw, 0) == [] && AfterCheck(ts, now) == ts
  {
    var ts := [Timer("7c15", "", 5, Recurring(every, due), true)];
    QuietCheck(ts, now);
    SomethingFiresUpTo(ts, 1, now, draw, 0);
  }

  // ---- Any run of checks and of committed or dropped scripts ----

  datatype TimerOp = Add(timer: Timer) | CancelOp(id: AgentId) | Ack(id: AgentId, at: nat)
  datatype Action = Check(now: nat) | Script(ops: seq<TimerOp>, committed: bool)

  function ApplyOp(ts: seq<Timer>, op: TimerOp): seq<Timer> {
    match op
    case Add(timer) => ts + [timer]
    case CancelOp(id) => Cancel(ts, id)
    case Ack(id, at) => Acknowledge(ts, id, at)
  }

  ghost predicate DistinctTimers(ts: seq<Timer>) {
    forall i, j :: 0 <= i < j < |ts| ==> ts[i].id != ts[j].id
  }

  /** What an observer records for one timer id: firings, committed acknowledgements that met a waiting timer, creation. */
  datatype Record = Record(timers: seq<Timer>, fires: nat, acks: nat, added: bool, recurring: bool)

  /** The timer `id` is there and waits for its acknowledgement. */
  predicate Waits(ts: seq<Timer>, id: AgentId) {
    match FindTimer(ts, id)
    case None => false
    case Some(p) => ts[p].schedule.Recurring? && ts[p].pendingAck
  }

  function CountFirings(items: seq<WorkItem>, id: AgentId): nat {
    if items == [] then 0
    else
      var last := items[|items| - 1];
      CountFirings(items[..|items| - 1], id) + if last.kind.TimerFired? && last.kind.timerId == id then 1 else 0
  }

  function RecordOp(r: Record, id: AgentId, op: TimerOp): Record {
    var next := r.(timers := ApplyOp(r.timers, op));
    match op
    case Add(timer) =>
      if timer.id == id then next.(added := true, recurring := timer.schedule.Recurring?) else next
    case CancelOp(_) => next
    case Ack(acked, _) => if acked == id && Waits(r.timers, id) then next.(acks := r.acks + 1) else next
  }

  function RecordOps(r: Record, id: AgentId, ops: seq<TimerOp>): Record
    decreases ops
  {
    if ops == [] then r else RecordOps(RecordOp(r, id, ops[0]), id, ops[1..])
  }

  function Observe(r: Record, id: AgentId, action: Action, draw: nat -> AgentId, counter: nat): Record {
    match action
    case Check(now) =>
      r.(timers := AfterCheck(r.timers, now), fires := r.fires + CountFirings(FiredItems(r.timers, now, draw, counter), id))
    case Script(ops, committed) => if committed then RecordOps(r, id, ops) else r
  }

  /**
   * A recurring timer that is there has fired exactly as often as it was acknowledged, and once more while
   * it waits; one that was cancelled, at most once more. A one-shot that is there has not fired.
   */
  ghost predicate Disciplined(r: Record, id: AgentId) {
    && DistinctTimers(r.timers)
    && (!r.added ==> FindTimer(r.timers, id).None? && r.fires == 0 && r.acks == 0)
    && (!r.recurring ==> r.acks == 0)
    && (match FindTimer(r.timers, id)
        case Some(p) =>
          var t := r.timers[p];
          && (t.schedule.Recurring? <==> r.recurring)
          && r.fires == r.acks + if r.recurring && t.pendingAck then 1 else 0
        case None => r.acks <= r.fires <= r.acks + 1)
  }

  /** An added timer's id is in no live timer, and `id` itself is created at most once. */
  ghost predicate FreshOp(r: Record, id: AgentId, op: TimerOp) {
    op.Add? ==> FindTimer(r.timers, op.timer.id).None? && (op.timer.id == id ==> !r.added && !op.timer.pendingAck)
  }

  ghost predicate FreshOps(r: Record, id: AgentId, ops: seq<TimerOp>)
    decreases ops
  {
    ops != [] ==> FreshOp(r, id, ops[0]) && FreshOps(RecordOp(r, id, ops[0]), id, ops[1..])
  }

  ghost predicate FreshAction(r: Record, id: AgentId, action: Action) {
    action.Script? && action.committed ==> FreshOps(r, id, action.ops)
  }

  /** In a list of distinct timers, looking one up by id finds it. */
  lemma Lookup(ts: seq<Timer>, id: AgentId, p: nat)
    requires DistinctTimers(ts) && p < |ts| && ts[p].id == id
    ensures FindTimer(ts, id) == Some(p)
  {
  }

  lemma CancelOthers(ts: seq<Timer>, gone: AgentId, id: AgentId)
    requires DistinctTimers(ts)
    ensures DistinctTimers(Cancel(ts, gone))
    ensures gone == id ==> FindTimer(Cancel(ts, gone), id).None?
    ensures gone != id ==> match FindTimer(ts, id)
                           case None => FindTimer(Cancel(ts, gone), id).None?
                           case Some(p) => exists q :: FindTimer(Cancel(ts, gone), id) == Some(q) && Cancel(ts, gone)[q] == ts[p]
  {
    var after := Cancel(ts, gone);
    match FindTimer(ts, gone) {
      case None =>
      case Some(g) =>
        if gone != id && FindTimer(ts, id).Some? {
          var p := FindTimer(ts, id).value;
          var q := if p < g then p else p - 1;
          assert after[q] == ts[p];
          Lookup(after, id, q);
        }
    }
  }

  lemma {:induction false} CancelAllOthers(ts: seq<Timer>, gone: seq<AgentId>, id: AgentId)
    requires DistinctTimers(ts)
    ensures DistinctTimers(CancelAll(ts, gone))
    ensures id in gone ==> FindTimer(CancelAll(ts, gone), id).None?
    ensures id !in gone ==> match FindTimer(ts, id)
                            case None => FindTimer(CancelAll(ts, gone), id).None?
                            case Some(p) => exists q :: FindTimer(CancelAll(ts, gone), id) == Some(q)
                                                     && CancelAll(ts, gone)[q] == ts[p]
    decreases gone
  {
    if gone != [] {
      CancelOthers(ts, gone[0], id);
      CancelAllOthers(Cancel(ts, gone[0]), gone[1..], id);
      if gone[0] == id && id !in gone[1..] { assert FindTimer(Cancel(ts, gone[0]), id).None?; }
      if gone[0] == id && id in gone[1..] { assert FindTimer(CancelAll(ts, gone), id).None?; }
    }
  }

  lemma {:induction false} SpentIff(ts: seq<Timer>, n: nat, now: nat, id: AgentId)
    requires n <= |ts|
    ensures id in SpentUpTo(ts, n, now)
            <==> exists i :: 0 <= i < n && ts[i].id == id && Fires(ts[i], now) && ts[i].schedule.OneShot?
  {
    if n > 0 { SpentIff(ts, n - 1, now, id); }
  }

  lemma {:induction false} FiringsOf(ts: seq<Timer>, n: nat, now: nat, draw: nat -> AgentId, counter: nat, id: AgentId)
    requires DistinctTimers(ts) && n <= |ts|
    ensures var count := CountFirings(FiredUpTo(ts, n, now, draw, counter), id);
            && (forall i :: 0 <= i < n && ts[i].id == id ==> count == if Fires(ts[i], now) then 1 else 0)
            && ((forall i :: 0 <= i < n ==> ts[i].id != id) ==> count == 0)
  {
    if n > 0 {
      var items := FiredUpTo(ts, n, now, draw, counter);
      FiringsOf(ts, n - 1, now, draw, counter, id);
      if Fires(ts[n - 1], now) { assert items[..|items| - 1] == FiredUpTo(ts, n - 1, now, draw, counter); }
    }
  }

  /** Rewriting timers in place, ids kept, leaves every lookup where it was. */
  lemma SameIdsSameLookup(ts: seq<Timer>, after: seq<Timer>, id: AgentId)
    requires DistinctTimers(ts) && |after| == |ts| && forall i :: 0 <= i < |ts| ==> after[i].id == ts[i].id
    ensures DistinctTimers(after) && FindTimer(after, id) == FindTimer(ts, id)
  {
    if FindTimer(ts, id).Some? { Lookup(after, id, FindTimer(ts, id).value); }
  }

  lemma CheckKeepsDiscipline(r: Record, id: AgentId, now: nat, draw: nat -> AgentId, counter: nat)
    requires Disciplined(r, id)
    ensures Disciplined(Observe(r, id, Check(now), draw, counter), id)
  {
    FiringsOf(r.timers, |r.timers|, now, draw, counter, id);
    SpentIff(r.timers, |r.timers|, now, id);
    SameIdsSameLookup(r.timers, Marked(r.timers, now), id);
    CancelAllOthers(Marked(r.timers, now), Spent(r.timers, now), id);
  }

  lemma AddKeepsDiscipline(r: Record, id: AgentId, timer: Timer)
    requires Disciplined(r, id) && FreshOp(r, id, Add(timer))
    ensures Disciplined(RecordOp(r, id, Add(timer)), id)
  {
    var after := r.timers + [timer];
    if timer.id == id {
      Lookup(after, id, |r.timers|);
    } else if FindTimer(r.timers, id).Some? {
      Lookup(after, id, FindTimer(r.timers, id).value);
    }
  }

  lemma AckKeepsDiscipline(r: Record, id: AgentId, acked: AgentId, at: nat)
    requires Disciplined(r, id)
    ensures Disciplined(RecordOp(r, id, Ack(acked, at)), id)
  {
    SameIdsSameLookup(r.timers, Acknowledge(r.timers, acked, at), id);
  }

  lemma OpKeepsDiscipline(r: Record, id: AgentId, op: TimerOp)
    requires Disciplined(r, id) && FreshOp(r, id, op)
    ensures Disciplined(RecordOp(r, id, op), id)
  {
    match op {
      case Add(timer) => AddKeepsDiscipline(r, id, timer);
      case CancelOp(gone) => CancelOthers(r.timers, gone, id);
      case Ack(acked, at) => AckKeepsDiscipline(r, id, acked, at);
    }
  }

  lemma {:induction false} OpsKeepDiscipline(r: Record, id: AgentId, ops: seq<TimerOp>)
    requires Disciplined(r, id) && FreshOps(r, id, ops)
    ensures Disciplined(RecordOps(r, id, ops), id)
    decreases ops
  {
    if ops != [] {
      OpKeepsDiscipline(r, id, ops[0]);
      OpsKeepDiscipline(RecordOp(r, id, ops[0]), id, ops[1..]);
    }
  }

  function ObserveAll(r: Record, id: AgentId, draw: nat -> AgentId, run: seq<Action>): Record
    decreases run
  {
    if run == [] then r else ObserveAll(Observe(r, id, run[0], draw, 0), id, draw, run[1..])
  }

  ghost predicate FreshRun(r: Record, id: AgentId, draw: nat -> AgentId, run: seq<Action>)
    decreases run
  {
    run != [] ==> FreshAction(r, id, run[0]) && FreshRun(Observe(r, id, run[0], draw, 0), id, draw, run[1..])
  }

  /**
   * Over any run: while a recurring timer is there, its firings are the acknowledgements it waited for,
   * plus one if it is waiting; a one-shot fires at most once, after which it is gone.
   */
  lemma {:induction false} TimerDiscipline(r: Record, id: AgentId, draw: nat -> AgentId, run: seq<Action>)
    requires Disciplined(r, id) && FreshRun(r, id, draw, run)
    ensures var out := ObserveAll(r, id, draw, run);
            && Disciplined(out, id)
            && (out.recurring && FindTimer(out.timers, id).Some? ==> out.fires == out.acks + if Waits(out.timers, id) then 1 else 0)
            && (out.recurring ==> out.acks <= out.fires <= out.acks + 1)
            && (!out.recurring ==> out.fires <= 1 && (out.fires == 1 ==> FindTimer(out.timers, id).None?))
    decreases run
  {
    if run != [] {
      match run[0] {
        case Check(now) => CheckKeepsDiscipline(r, id, now, draw, 0);
        case Script(ops, committed) => if committed { OpsKeepDiscipline(r, id, ops); }
      }
      TimerDiscipline(Observe(r, id, run[0], draw, 0), id, draw, run[1..]);
    }
  }

  // ---- When a timer fires ----

  /** A check at `t` queues an item for the timer `id`. */
  ghost predicate FiresFor(ts: seq<Timer>, id: AgentId, t: nat, draw: nat -> AgentId, counter: nat) {
    exists item :: item in FiredItems(ts, t, draw, counter) && item.kind.TimerFired? && item.kind.timerId == id
  }

  lemma {:induction false} CountsIff(items: seq<WorkItem>, id: AgentId)
    ensures CountFirings(items, id) > 0 <==> exists item :: item in items && item.kind.TimerFired? && item.kind.timerId == id
  {
    if items != [] {
      var front, last := items[..|items| - 1], items[|items| - 1];
      CountsIff(front, id);
      assert items == front + [last];
    }
  }

  /** A check fires a timer exactly if it is due, and, if it recurs, is not waiting for an acknowledgement. */
  lemma FiresForIff(ts: seq<Timer>, p: nat, t: nat, draw: nat -> AgentId, counter: nat)
    requires DistinctTimers(ts) && p < |ts|
    ensures FiresFor(ts, ts[p].id, t, draw, counter)
            <==> match ts[p].schedule
                 case OneShot(at) => at <= t
                 case Recurring(_, nextFire) => nextFire <= t && !ts[p].pendingAck
  {
    FiringsOf(ts, |ts|, t, draw, counter, ts[p].id);
    CountsIff(FiredItems(ts, t, draw, counter), ts[p].id);
  }

  /** What is queued for a timer tells of it: its id, description, priority and period, at the time of the check. */
  ghost predicate ItemOf(item: WorkItem, timer: Timer, t: nat) {
    && item.kind == TimerFired(timer.id, if timer.schedule.Recurring? then Some(timer.schedule.every) else None, timer.description)
    && item.priority == timer.priority && item.time == t && item.attachments == []
  }

  predicate IsUp(timer: Timer, t: nat) {
    match timer.schedule
    case OneShot(at) => at <= t
    case Recurring(_, nextFire) => nextFire <= t && !timer.pendingAck
  }

  /** The positions of the timers that are up, among the first `n`. */
  function Up(ts: seq<Timer>, n: nat, t: nat): (r: seq<nat>)
    requires n <= |ts|
    ensures forall j :: 0 <= j < |r| ==> r[j] < n && IsUp(ts[r[j]], t)
    ensures forall i :: 0 <= i < n && IsUp(ts[i], t) ==> i in r
    ensures forall j, l :: 0 <= j < l < |r| ==> r[j] < r[l]
  {
    if n == 0 then [] else Up(ts, n - 1, t) + if IsUp(ts[n - 1], t) then [n - 1] else []
  }

  /** A check queues exactly one item for each timer that is up, in their order, under one fresh id after the other. */
  lemma {:induction false} FiredTellOfTimers(ts: seq<Timer>, n: nat, t: nat, draw: nat -> AgentId, counter: nat)
    requires n <= |ts|
    ensures var items, ups := FiredUpTo(ts, n, t, draw, counter), Up(ts, n, t);
            |items| == |ups| && forall j :: 0 <= j < |items| ==> ItemOf(items[j], ts[ups[j]], t) && items[j].id == draw(counter + j)
  {
    if n > 0 { FiredTellOfTimers(ts, n - 1, t, draw, counter); }
  }

  /** After a check no timer is up. */
  lemma NothingIsUp(ts: seq<Timer>, now: nat, p: nat)
    requires DistinctTimers(ts) && p < |AfterCheck(ts, now)|
    ensures !IsUp(AfterCheck(ts, now)[p], now)
  {
    var after := AfterCheck(ts, now);
    var id := after[p].id;
    SameIdsSameLookup(ts, Marked(ts, now), id);
    CancelAllOthers(Marked(ts, now), Spent(ts, now), id);
    Lookup(after, id, p);
    SpentIff(ts, |ts|, now, id);
  }

  /** Its period in seconds; one that the date library cannot represent counts as one second. */
  function Seconds(every: nat): nat {
    if every <= 9223372036854775 then every else 1
  }

  /**
   * A recurring timer that is acknowledged at `now`, waiting or not, next fires at the first check that
   * comes at least its period later. Nothing else about it changes, and no other timer.
   */
  lemma AcknowledgedFires(ts: seq<Timer>, p: nat, now: nat, t: nat, draw: nat -> AgentId, counter: nat)
    requires DistinctTimers(ts) && p < |ts| && ts[p].schedule.Recurring?
    ensures var after := Acknowledge(ts, ts[p].id, now);
            && |after| == |ts| && (forall i :: 0 <= i < |ts| && i != p ==> after[i] == ts[i])
            && after[p] == ts[p].(schedule := after[p].schedule, pendingAck := false)
            && after[p].schedule.Recurring? && after[p].schedule.every == ts[p].schedule.every
            && (FiresFor(after, ts[p].id, t, draw, counter) <==> t >= now + Seconds(ts[p].schedule.every))
  {
    Lookup(ts, ts[p].id, p);
    var after := Acknowledge(ts, ts[p].id, now);
    SameIdsSameLookup(ts, after, ts[p].id);
    FiresForIff(after, p, t, draw, counter);
  }

  /** Acknowledging anything else changes nothing. */
  lemma OtherAcknowledgements(ts: seq<Timer>, id: AgentId, now: nat)
    requires forall i :: 0 <= i < |ts| && ts[i].id == id ==> ts[i].schedule.OneShot?
    ensures Acknowledge(ts, id, now) == ts
  {}

  // ---- A timer that is left alone ----

  /** The first timer under `id` recurs, is due next at `due`, and waits for its acknowledgement or not. */
  ghost predicate Armed(ts: seq<Timer>, id: AgentId, every: nat, due: nat, waits: bool) {
    match FindTimer(ts, id)
    case None => false
    case Some(p) => ts[p].schedule == Recurring(every, due) && ts[p].pendingAck == waits
  }

  lemma AcknowledgedIsArmed(ts: seq<Timer>, id: AgentId, every: nat, due: nat, waits: bool, now: nat)
    requires DistinctTimers(ts) && Armed(ts, id, every, due, waits)
    ensures Armed(Acknowledge(ts, id, now), id, every, now + Seconds(every), false)
  {
    SameIdsSameLookup(ts, Acknowledge(ts, id, now), id);
  }

  lemma ArmedStays(ts: seq<Timer>, id: AgentId, every: nat, due: nat, waits: bool, timer: Timer, other: AgentId, now: nat)
    requires DistinctTimers(ts) && Armed(ts, id, every, due, waits)
    ensures Armed(ts + [timer], id, every, due, waits)
    ensures other != id ==> Armed(Cancel(ts, other), id, every, due, waits) && Armed(Acknowledge(ts, other, now), id, every, due, waits)
  {
    var p := FindTimer(ts, id).value;
    assert forall i :: 0 <= i <= p ==> (ts + [timer])[i] == ts[i];
    if other != id {
      CancelOthers(ts, other, id);
      SameIdsSameLookup(ts, Acknowledge(ts, other, now), id);
    }
  }

  /** A check makes it wait, if it is due. */
  lemma CheckArmed(ts: seq<Timer>, id: AgentId, every: nat, due: nat, waits: bool, now: nat)
    requires DistinctTimers(ts) && Armed(ts, id, every, due, waits)
    ensures Armed(AfterCheck(ts, now), id, every, due, waits || now >= due)
  {
    SameIdsSameLookup(ts, Marked(ts, now), id);
    SpentIff(ts, |ts|, now, id);
    var p := FindTimer(ts, id).value;
    forall i | 0 <= i < |ts| && ts[i].id == id ensures i == p {}
    CancelAllOthers(Marked(ts, now), Spent(ts, now), id);
  }
}
