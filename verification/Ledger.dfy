/**
 * What every step of an agent keeps: ids are drawn in order, the queue is what its moves say, hook
 * counts balance, the hook list is sorted, and nothing holds an id that was not drawn for it.
 */
module Ledgers {
  import opened Base
  import opened Ids
  import opened Items
  import opened Kernels
  import Q = WorkQueues
  import H = Histories
  import T = Timers
  import HT = HookTables
  import S = SseParsing

  /** Where a run started: its counter, its queue, and the ids in use. */
  datatype Origin = Origin(start: nat, queue: seq<WorkItem>, ids: multiset<AgentId>)

  /** Some id stands right behind itself. */
  ghost predicate Repeats(ids: seq<AgentId>) {
    exists i :: 0 <= i < |ids| - 1 && ids[i] == ids[i + 1]
  }

  /**
   * Each draw advances the counter by one, except that every hook that raised and committed set it back
   * by one. Without such a hook the ids drawn are the stream, in order, without a gap or a repeat; after
   * one, an id has been drawn twice in a row, or will be when the next is drawn.
   */
  ghost predicate InOrder(w: World, start: nat, counter: nat, raises: nat, issued: seq<AgentId>) {
    && counter + raises == start + |issued|
    && (w.commitFirst ==> raises == 0)
    && (raises == 0 ==> forall i :: 0 <= i < |issued| ==> issued[i] == w.draw(start + i))
    && (raises > 0 ==> Repeats(issued + [w.draw(counter)]))
  }

  /** Leaving out the draws that were gone back on, the ids are the stream, whatever hooks have raised. */
  ghost predicate Gapless(w: World, start: nat, counter: nat, lasting: seq<AgentId>) {
    && counter == start + |lasting|
    && forall i :: 0 <= i < |lasting| ==> lasting[i] == w.draw(start + i)
  }

  ghost predicate Drawing(w: World, start: nat, counter: nat, raises: nat, issued: seq<AgentId>, lasting: seq<AgentId>) {
    InOrder(w, start, counter, raises, issued) && Gapless(w, start, counter, lasting)
  }

  ghost predicate Balanced(stats: map<string, HookStats>) {
    forall name :: name in stats ==> stats[name].fired == stats[name].consumed + stats[name].passed + stats[name].raised
  }

  ghost predicate Tables(stats: map<string, HookStats>, hooks: seq<Hook>) {
    Balanced(stats) && HT.UniqueNames(hooks) && HT.ByPriority(hooks)
  }

  // ---- Ids in use ----

  function QueueIds(q: seq<WorkItem>): seq<AgentId> {
    seq(|q|, i requires 0 <= i < |q| => q[i].id)
  }

  function HistoryIds(h: seq<HistoryEntry>): seq<AgentId> {
    seq(|h|, i requires 0 <= i < |h| => h[i].id)
  }

  function TimerIds(ts: seq<Timer>): seq<AgentId> {
    seq(|ts|, i requires 0 <= i < |ts| => ts[i].id)
  }

  function ProcessIds(ps: seq<ManagedProcess>): seq<AgentId> {
    seq(|ps|, i requires 0 <= i < |ps| => ps[i].id)
  }

  function Times(ids: seq<AgentId>, x: AgentId): nat {
    multiset(ids)[x]
  }

  /** How many things in the state have the id `x`. */
  function Live(s: Harness, x: AgentId): nat {
    Times(QueueIds(s.queue), x) + Times(HistoryIds(s.history), x) + Times(TimerIds(s.timers), x)
    + Times(ProcessIds(s.processes), x)
  }

  function Hit(id: AgentId, x: AgentId): nat {
    if id == x then 1 else 0
  }

  /** How many items bear `x`, other than those that wrap what a hook raised on. */
  function Plain(q: seq<WorkItem>, x: AgentId): nat {
    if q == [] then 0
    else
      var last := q[|q| - 1];
      Plain(q[..|q| - 1], x) + if last.kind.HookException? then 0 else Hit(last.id, x)
  }

  /** How many things have the id `x`, such items left aside. */
  function Owned(s: Harness, x: AgentId): nat {
    Plain(s.queue, x) + Times(HistoryIds(s.history), x) + Times(TimerIds(s.timers), x) + Times(ProcessIds(s.processes), x)
  }

  /**
   * The id `x` is held no more often than it was there at the start or drawn since; `spare` uses of it
   * are still to come.
   */
  ghost predicate Accounted(o: Origin, s: Harness, x: AgentId, spare: nat) {
    Live(s, x) + spare <= o.ids[x] + Times(s.issued, x)
  }

  /** Likewise with the draws gone back on left out, and the items that bear them. */
  ghost predicate Backed(o: Origin, s: Harness, x: AgentId, spare: nat) {
    Owned(s, x) + spare <= o.ids[x] + Times(s.lasting, x)
  }

  ghost predicate Sound(w: World, o: Origin, s: Harness, x: AgentId, spare: nat) {
    && Drawing(w, o.start, s.counter, s.raises, s.issued, s.lasting)
    && Kept(o, s, x, spare)
  }

  ghost predicate Kept(o: Origin, s: Harness, x: AgentId, spare: nat) {
    && s.queue == Q.Run(o.queue, s.moves)
    && Tables(s.stats, s.hooks)
    && Accounted(o, s, x, spare)
    && Backed(o, s, x, spare)
  }

  lemma RemoveAtIds(ids: seq<AgentId>, p: nat)
    requires p < |ids|
    ensures multiset(RemoveAt(ids, p)) <= multiset(ids)
  {
    assert ids == ids[..p] + [ids[p]] + ids[p + 1..];
  }

  lemma TimesAppend(a: seq<AgentId>, b: seq<AgentId>, x: AgentId)
    ensures Times(a + b, x) == Times(a, x) + Times(b, x)
  {}

  lemma TimesOne(id: AgentId, x: AgentId)
    ensures Times([id], x) == Hit(id, x)
  {}

  lemma {:induction false} InsertIds(q: seq<WorkItem>, item: WorkItem)
    ensures multiset(QueueIds(Q.Insert(q, item))) == multiset(QueueIds(q)) + multiset{item.id}
  {
    if q != [] && Q.Ahead(q[0], item) {
      InsertIds(q[1..], item);
      assert QueueIds(Q.Insert(q, item)) == [q[0].id] + QueueIds(Q.Insert(q[1..], item));
      assert QueueIds(q) == [q[0].id] + QueueIds(q[1..]);
    } else {
      assert QueueIds([item] + q) == [item.id] + QueueIds(q);
    }
  }

  lemma {:induction false} PlainAppend(a: seq<WorkItem>, b: seq<WorkItem>, x: AgentId)
    ensures Plain(a + b, x) == Plain(a, x) + Plain(b, x)
  {
    if b == [] {
      assert a + b == a;
    } else {
      assert (a + b)[..|a + b| - 1] == a + b[..|b| - 1];
      PlainAppend(a, b[..|b| - 1], x);
    }
  }

  lemma {:induction false} PlainAtMost(q: seq<WorkItem>, x: AgentId)
    ensures Plain(q, x) <= Times(QueueIds(q), x)
  {
    if q != [] {
      PlainAtMost(q[..|q| - 1], x);
      assert QueueIds(q) == QueueIds(q[..|q| - 1]) + [q[|q| - 1].id];
      TimesAppend(QueueIds(q[..|q| - 1]), [q[|q| - 1].id], x);
      TimesOne(q[|q| - 1].id, x);
    }
  }

  lemma PlainOne(item: WorkItem, x: AgentId)
    ensures Plain([item], x) == if item.kind.HookException? then 0 else Hit(item.id, x)
  {
    assert [item][..0] == [];
  }

  lemma {:induction false} PlainInsert(q: seq<WorkItem>, item: WorkItem, x: AgentId)
    ensures Plain(Q.Insert(q, item), x) == Plain(q, x) + if item.kind.HookException? then 0 else Hit(item.id, x)
  {
    PlainOne(item, x);
    if q != [] && Q.Ahead(q[0], item) {
      PlainInsert(q[1..], item, x);
      PlainAppend([q[0]], q[1..], x);
      PlainAppend([q[0]], Q.Insert(q[1..], item), x);
      assert q == [q[0]] + q[1..];
    } else {
      PlainAppend([item], q, x);
    }
  }

  lemma PlainRemove(q: seq<WorkItem>, id: AgentId, x: AgentId)
    ensures Plain(Q.RemoveItem(q, id), x) <= Plain(q, x)
  {
    match Q.FindItem(q, id) {
      case None =>
      case Some(p) =>
        assert q == q[..p] + ([q[p]] + q[p + 1..]);
        PlainAppend(q[..p], [q[p]] + q[p + 1..], x);
        PlainAppend([q[p]], q[p + 1..], x);
        PlainAppend(q[..p], q[p + 1..], x);
    }
  }

  lemma RemoveItemIds(q: seq<WorkItem>, id: AgentId)
    ensures multiset(QueueIds(Q.RemoveItem(q, id))) <= multiset(QueueIds(q))
  {
    match Q.FindItem(q, id) {
      case None =>
      case Some(p) =>
        assert QueueIds(RemoveAt(q, p)) == RemoveAt(QueueIds(q), p);
        RemoveAtIds(QueueIds(q), p);
    }
  }

  lemma HistoryEditIds(h: seq<HistoryEntry>, window: nat, compaction: bool, op: H.HistoryOp)
    ensures multiset(HistoryIds(H.Apply(h, window, compaction, op))) <= multiset(HistoryIds(h))
  {
    match H.FindEntry(h, op.id) {
      case None =>
      case Some(p) =>
        assert HistoryIds(RemoveAt(h, p)) == RemoveAt(HistoryIds(h), p);
        RemoveAtIds(HistoryIds(h), p);
        if op.Replace? { assert HistoryIds(h[p := Summary(h[p].id, h[p].time, op.description)]) == HistoryIds(h); }
    }
  }

  lemma CancelIds(ts: seq<Timer>, id: AgentId)
    ensures multiset(TimerIds(T.Cancel(ts, id))) <= multiset(TimerIds(ts))
  {
    match T.FindTimer(ts, id) {
      case None =>
      case Some(p) =>
        assert TimerIds(RemoveAt(ts, p)) == RemoveAt(TimerIds(ts), p);
        RemoveAtIds(TimerIds(ts), p);
    }
  }

  lemma {:induction false} CancelAllIds(ts: seq<Timer>, ids: seq<AgentId>)
    ensures multiset(TimerIds(T.CancelAll(ts, ids))) <= multiset(TimerIds(ts))
    decreases ids
  {
    if ids != [] {
      CancelIds(ts, ids[0]);
      CancelAllIds(T.Cancel(ts, ids[0]), ids[1..]);
    }
  }

  lemma AcknowledgeIds(ts: seq<Timer>, id: AgentId, now: nat)
    ensures TimerIds(T.Acknowledge(ts, id, now)) == TimerIds(ts)
  {}

  lemma AfterCheckIds(ts: seq<Timer>, now: nat)
    ensures multiset(TimerIds(T.AfterCheck(ts, now))) <= multiset(TimerIds(ts))
  {
    assert TimerIds(T.Marked(ts, now)) == TimerIds(ts);
    CancelAllIds(T.Marked(ts, now), T.Spent(ts, now));
  }

  lemma SetStatusIds(ps: seq<ManagedProcess>, pid: AgentId, status: ProcessStatus)
    ensures ProcessIds(SetStatus(ps, pid, status)) == ProcessIds(ps)
  {}

  // ---- Primitive changes ----

  lemma IssueKeeps(w: World, o: Origin, s: Harness, x: AgentId, spare: nat)
    requires Kept(o, s, x, spare)
    ensures Kept(o, Issue(w, s), x, spare + Hit(w.draw(s.counter), x))
  {
    TimesAppend(s.issued, [w.draw(s.counter)], x);
    TimesAppend(s.lasting, [w.draw(s.counter)], x);
    TimesOne(w.draw(s.counter), x);
  }

  lemma EnqueueKeeps(o: Origin, s: Harness, item: WorkItem, x: AgentId, spare: nat)
    requires Kept(o, s, x, spare + Hit(item.id, x))
    ensures Kept(o, Enqueue(s, item), x, spare)
  {
    Q.RunAppend(o.queue, s.moves, Q.Push(item));
    InsertIds(s.queue, item);
    PlainInsert(s.queue, item, x);
  }

  lemma DequeueKeeps(o: Origin, s: Harness, id: AgentId, x: AgentId, spare: nat)
    requires Kept(o, s, x, spare)
    ensures Kept(o, Dequeue(s, id), x, spare)
  {
    Q.RunAppend(o.queue, s.moves, Q.Remove(id));
    RemoveItemIds(s.queue, id);
    PlainRemove(s.queue, id, x);
  }

  lemma RecordKeeps(o: Origin, s: Harness, entry: HistoryEntry, x: AgentId, spare: nat)
    requires Kept(o, s, x, spare + Hit(entry.id, x))
    ensures Kept(o, Record(s, entry), x, spare)
  {
    assert HistoryIds(s.history + [entry]) == HistoryIds(s.history) + [entry.id];
    TimesAppend(HistoryIds(s.history), [entry.id], x);
    TimesOne(entry.id, x);
  }

  lemma TallyKeeps(o: Origin, s: Harness, name: string, v: Verdict, x: AgentId, spare: nat)
    requires Kept(o, s, x, spare)
    ensures Kept(o, s.(stats := Tally(s.stats, name, v)), x, spare)
  {
    assert Balanced(Tally(s.stats, name, v));
  }

  lemma HookTableKeeps(o: Origin, s: Harness, op: HT.TableOp, x: AgentId, spare: nat)
    requires Kept(o, s, x, spare)
    ensures Kept(o, s.(hooks := HT.Step(s.hooks, op)), x, spare)
  {
    HT.StepKeepsTable(s.hooks, op);
  }

  lemma StatusKeeps(o: Origin, k: Kernel, pid: AgentId, status: ProcessStatus, x: AgentId, spare: nat)
    requires Kept(o, k.s, x, spare)
    ensures Kept(o, Mark(k, pid, status).s, x, spare)
  {
    SetStatusIds(k.s.processes, pid, status);
  }

  // ---- A hook's transaction ----

  /** A hook draws its ids in order from where it started, one for each process it asks for. */
  ghost predicate DrewInOrder(w: World, counter: nat, t: HookTxn) {
    && t.counter == counter + |t.drawn|
    && (forall i :: 0 <= i < |t.drawn| ==> t.drawn[i] == w.draw(counter + i))
    && ProcessIds(t.processes) == t.drawn
  }

  lemma {:induction false} HookDrawsInOrder(w: World, s: Harness, ops: seq<HookOp>)
    ensures DrewInOrder(w, s.counter, HookRun(w, OpenHook(s), ops))
  {
    if ops != [] {
      HookDrawsInOrder(w, s, ops[..|ops| - 1]);
      var t := HookRun(w, OpenHook(s), ops[..|ops| - 1]);
      var next := HookStep(w, t, ops[|ops| - 1]);
      if ops[|ops| - 1].Launch? {
        assert ProcessIds(next.processes) == ProcessIds(t.processes) + [w.draw(t.counter)];
      }
    }
  }

  lemma CommitKeeps(o: Origin, s: Harness, t: HookTxn, x: AgentId, spare: nat)
    requires Kept(o, s, x, spare) && ProcessIds(t.processes) == t.drawn
    ensures Kept(o, Merged(s, t), x, spare)
  {
    assert ProcessIds(s.processes + t.processes) == ProcessIds(s.processes) + t.drawn;
    TimesAppend(ProcessIds(s.processes), t.drawn, x);
    TimesAppend(s.issued, t.drawn, x);
    TimesAppend(s.lasting, t.drawn, x);
  }

  lemma RepeatsGrow(ids: seq<AgentId>, more: seq<AgentId>)
    requires Repeats(ids)
    ensures Repeats(ids + more)
  {
    var i :| 0 <= i < |ids| - 1 && ids[i] == ids[i + 1];
    assert (ids + more)[i] == (ids + more)[i + 1];
  }

  /** A repeat stays one while ids are drawn in order, though the last of them is only about to be drawn. */
  lemma RepeatsDraw(w: World, counter: nat, issued: seq<AgentId>, drawn: seq<AgentId>)
    requires Repeats(issued + [w.draw(counter)])
    requires forall i :: 0 <= i < |drawn| ==> drawn[i] == w.draw(counter + i)
    ensures Repeats(issued + drawn + [w.draw(counter + |drawn|)])
  {
    var next := w.draw(counter + |drawn|);
    if drawn == [] {
      assert issued + drawn == issued;
    } else {
      RepeatsGrow(issued + [w.draw(counter)], drawn[1..] + [next]);
      assert issued + drawn + [next] == issued + [w.draw(counter)] + (drawn[1..] + [next]);
    }
  }

  /** Going back to the counter of the last id draws it again. */
  lemma BackRepeats(w: World, counter: nat, issued: seq<AgentId>, drawn: seq<AgentId>)
    requires forall i :: 0 <= i < |drawn| ==> drawn[i] == w.draw(counter + i)
    ensures Repeats(issued + [w.draw(counter)] + drawn + [w.draw(counter + |drawn|)])
  {
    var ids := issued + [w.draw(counter)] + drawn + [w.draw(counter + |drawn|)];
    assert ids[|issued|] == w.draw(counter) && ids[|issued| + 1] == w.draw(counter);
  }

  lemma GaplessDraw(w: World, start: nat, counter: nat, lasting: seq<AgentId>, drawn: seq<AgentId>)
    requires Gapless(w, start, counter, lasting)
    requires forall i :: 0 <= i < |drawn| ==> drawn[i] == w.draw(counter + i)
    ensures Gapless(w, start, counter + |drawn|, lasting + drawn)
  {}

  lemma DrawInOrder(w: World, start: nat, counter: nat, raises: nat, issued: seq<AgentId>, drawn: seq<AgentId>)
    requires InOrder(w, start, counter, raises, issued)
    requires forall i :: 0 <= i < |drawn| ==> drawn[i] == w.draw(counter + i)
    ensures InOrder(w, start, counter + |drawn|, raises, issued + drawn)
  {
    if raises > 0 { RepeatsDraw(w, counter, issued, drawn); }
  }

  lemma DrawOn(w: World, start: nat, counter: nat, raises: nat, issued: seq<AgentId>, lasting: seq<AgentId>, drawn: seq<AgentId>)
    requires Drawing(w, start, counter, raises, issued, lasting)
    requires forall i :: 0 <= i < |drawn| ==> drawn[i] == w.draw(counter + i)
    ensures Drawing(w, start, counter + |drawn|, raises, issued + drawn, lasting + drawn)
  {
    DrawInOrder(w, start, counter, raises, issued, drawn);
    GaplessDraw(w, start, counter, lasting, drawn);
  }

  /** A step that has drawn some ids and kept the books. */
  lemma DrawnSound(w: World, o: Origin, s: Harness, after: Harness, drawn: seq<AgentId>, x: AgentId, spare: nat)
    requires Drawing(w, o.start, s.counter, s.raises, s.issued, s.lasting) && Kept(o, after, x, spare)
    requires forall i :: 0 <= i < |drawn| ==> drawn[i] == w.draw(s.counter + i)
    requires after.counter == s.counter + |drawn| && after.raises == s.raises
    requires after.issued == s.issued + drawn && after.lasting == s.lasting + drawn
    ensures Sound(w, o, after, x, spare)
  {
    DrawOn(w, o.start, s.counter, s.raises, s.issued, s.lasting, drawn);
  }

  lemma RaisedMergeSound(w: World, o: Origin, s: Harness, after: Harness, drawn: seq<AgentId>, x: AgentId, spare: nat)
    requires Drawing(w, o.start, s.counter, s.raises, s.issued, s.lasting) && Kept(o, after, x, spare) && !w.commitFirst
    requires forall i :: 0 <= i < |drawn| ==> drawn[i] == w.draw(s.counter + i)
    requires after.counter == s.counter + |drawn| && after.raises == s.raises + 1
    requires after.issued == s.issued + [w.draw(s.counter)] + drawn && after.lasting == s.lasting + drawn
    ensures Sound(w, o, after, x, spare)
  {
    RaisedDrawing(w, o.start, s, drawn);
  }

  // ---- The pipeline ----

  lemma ExceptionKeeps(w: World, o: Origin, k: Kernel, item: WorkItem, hook: string, error: string, now: nat,
                       x: AgentId, spare: nat)
    requires Kept(o, k.s, x, spare)
    ensures Kept(o, PushException(w, k, item, hook, error, now).s, x, spare)
  {
    IssueKeeps(w, o, k.s, x, spare);
    EnqueueKeeps(o, Issue(w, k.s), ExceptionItem(w.draw(k.s.counter), item, hook, error, now), x, spare);
  }

  lemma ExceptionSound(w: World, o: Origin, k: Kernel, item: WorkItem, hook: string, error: string, now: nat,
                       x: AgentId, spare: nat)
    requires Sound(w, o, k.s, x, spare)
    ensures Sound(w, o, PushException(w, k, item, hook, error, now).s, x, spare)
  {
    IssueSound(w, o, k.s, x, spare);
    ExceptionKeeps(w, o, k, item, hook, error, now, x, spare);
  }

  lemma ConsumedSound(w: World, o: Origin, k: Kernel, t: HookTxn, x: AgentId, spare: nat)
    requires Sound(w, o, k.s, x, spare) && DrewInOrder(w, k.s.counter, t)
    ensures Sound(w, o, ApplyHookCommit(w, k, t).s, x, spare)
  {
    CommitKeeps(o, k.s, t, x, spare);
    DrawnSound(w, o, k.s, Merged(k.s, t), t.drawn, x, spare);
  }

  lemma RaisedCommitFirst(w: World, o: Origin, k: Kernel, t: HookTxn, item: WorkItem, hook: string, error: string,
                          now: nat, x: AgentId, spare: nat)
    requires Sound(w, o, k.s, x, spare) && DrewInOrder(w, k.s.counter, t)
    ensures Sound(w, o, PushException(w, ApplyHookCommit(w, k, t), item, hook, error, now).s, x, spare)
  {
    ConsumedSound(w, o, k, t, x, spare);
    ExceptionSound(w, o, ApplyHookCommit(w, k, t), item, hook, error, now, x, spare);
  }

  lemma RaisedInOrder(w: World, start: nat, counter: nat, raises: nat, issued: seq<AgentId>, drawn: seq<AgentId>)
    requires InOrder(w, start, counter, raises, issued) && !w.commitFirst
    requires forall i :: 0 <= i < |drawn| ==> drawn[i] == w.draw(counter + i)
    ensures InOrder(w, start, counter + |drawn|, raises + 1, issued + [w.draw(counter)] + drawn)
  {
    BackRepeats(w, counter, issued, drawn);
  }

  lemma RaisedDrawing(w: World, start: nat, s: Harness, drawn: seq<AgentId>)
    requires Drawing(w, start, s.counter, s.raises, s.issued, s.lasting) && !w.commitFirst
    requires forall i :: 0 <= i < |drawn| ==> drawn[i] == w.draw(s.counter + i)
    ensures Drawing(w, start, s.counter + |drawn|, s.raises + 1, s.issued + [w.draw(s.counter)] + drawn, s.lasting + drawn)
  {
    RaisedInOrder(w, start, s.counter, s.raises, s.issued, drawn);
    GaplessDraw(w, start, s.counter, s.lasting, drawn);
  }

  /** Taking back the draw leaves the exception item's id unbacked, and everything else as it was. */
  lemma TakenBackKeeps(w: World, o: Origin, k: Kernel, item: WorkItem, hook: string, error: string, now: nat, x: AgentId, spare: nat)
    requires Kept(o, k.s, x, spare)
    ensures Kept(o, TakenBack(PushException(w, k, item, hook, error, now).s, k.s.lasting), x, spare)
  {
    ExceptionKeeps(w, o, k, item, hook, error, now, x, spare);
    PlainInsert(k.s.queue, ExceptionItem(w.draw(k.s.counter), item, hook, error, now), x);
  }

  lemma RaisedDraws(w: World, k: Kernel, t: HookTxn, item: WorkItem, hook: string, error: string, now: nat)
    requires !w.commitFirst
    ensures var taken := TakenBack(PushException(w, k, item, hook, error, now).s, k.s.lasting);
            && PushRaised(w, k, t, item, hook, error, now).s == Merged(taken, t)
            && taken.raises == k.s.raises + 1
            && taken.issued == k.s.issued + [w.draw(k.s.counter)] && taken.lasting == k.s.lasting
  {}

  lemma MergedAfterRaise(w: World, o: Origin, s: Harness, taken: Harness, t: HookTxn, x: AgentId, spare: nat)
    requires Drawing(w, o.start, s.counter, s.raises, s.issued, s.lasting) && Kept(o, taken, x, spare) && !w.commitFirst
    requires DrewInOrder(w, s.counter, t) && taken.raises == s.raises + 1
    requires taken.issued == s.issued + [w.draw(s.counter)] && taken.lasting == s.lasting
    ensures Sound(w, o, Merged(taken, t), x, spare)
  {
    CommitKeeps(o, taken, t, x, spare);
    RaisedMergeSound(w, o, s, Merged(taken, t), t.drawn, x, spare);
  }

  lemma RaisedAsWritten(w: World, o: Origin, k: Kernel, t: HookTxn, item: WorkItem, hook: string, error: string,
                        now: nat, x: AgentId, spare: nat)
    requires Sound(w, o, k.s, x, spare) && DrewInOrder(w, k.s.counter, t) && !w.commitFirst
    ensures Sound(w, o, PushRaised(w, k, t, item, hook, error, now).s, x, spare)
  {
    var taken := TakenBack(PushException(w, k, item, hook, error, now).s, k.s.lasting);
    TakenBackKeeps(w, o, k, item, hook, error, now, x, spare);
    RaisedDraws(w, k, t, item, hook, error, now);
    MergedAfterRaise(w, o, k.s, taken, t, x, spare);
  }

  lemma RaisedSound(w: World, o: Origin, k: Kernel, t: HookTxn, item: WorkItem, hook: string, error: string,
                    now: nat, x: AgentId, spare: nat)
    requires Sound(w, o, k.s, x, spare) && DrewInOrder(w, k.s.counter, t)
    ensures Sound(w, o, PushRaised(w, k, t, item, hook, error, now).s, x, spare)
  {
    if w.commitFirst {
      RaisedCommitFirst(w, o, k, t, item, hook, error, now, x, spare);
    } else {
      RaisedAsWritten(w, o, k, t, item, hook, error, now, x, spare);
    }
  }

  lemma SettleSound(w: World, o: Origin, k: Kernel, hook: Hook, plan: Plan, item: WorkItem, now: nat, x: AgentId, spare: nat)
    requires Sound(w, o, k.s, x, spare + Hit(item.id, x))
    ensures Sound(w, o, Settle(w, k, hook, plan, item, now).s, x, spare)
  {
    match plan {
      case InitFailed(error) => SettleInitFailedSound(w, o, k, hook, error, item, now, x, spare);
      case Ran(ops, ending) => SettleRanSound(w, o, k, hook, ops, ending, item, now, x, spare);
    }
  }

  lemma SettleInitFailedSound(w: World, o: Origin, k: Kernel, hook: Hook, error: string, item: WorkItem, now: nat,
                              x: AgentId, spare: nat)
    requires Sound(w, o, k.s, x, spare + Hit(item.id, x))
    ensures Sound(w, o, Settle(w, k, hook, InitFailed(error), item, now).s, x, spare)
  {
    TallyKeeps(o, k.s, hook.name, Raised, x, spare);
    ExceptionSound(w, o, k.(s := k.s.(stats := Tally(k.s.stats, hook.name, Raised))), item, hook.name, error, now, x, spare);
  }

  lemma SettleRanSound(w: World, o: Origin, k: Kernel, hook: Hook, ops: seq<HookOp>, ending: HookEnding, item: WorkItem,
                       now: nat, x: AgentId, spare: nat)
    requires Sound(w, o, k.s, x, spare + Hit(item.id, x))
    ensures Sound(w, o, Settle(w, k, hook, Ran(ops, ending), item, now).s, x, spare)
  {
    var t := HookRun(w, OpenHook(k.s), ops);
    HookDrawsInOrder(w, k.s, ops);
    match ending {
      case Consume =>
        TallyKeeps(o, k.s, hook.name, Consumed, x, spare);
        ConsumedSound(w, o, k.(s := k.s.(stats := Tally(k.s.stats, hook.name, Consumed))), t, x, spare);
      case Pass(priority, note) =>
        var tallied := k.(s := k.s.(stats := Tally(k.s.stats, hook.name, PassedOn)));
        TallyKeeps(o, k.s, hook.name, PassedOn, x, spare + Hit(item.id, x));
        ConsumedSound(w, o, tallied, t, x, spare + Hit(item.id, x));
        EnqueueKeeps(o, ApplyHookCommit(w, tallied, t).s, Annotated(item, hook.name, priority, note), x, spare);
      case Raise(error) =>
        TallyKeeps(o, k.s, hook.name, Raised, x, spare);
        RaisedSound(w, o, k.(s := k.s.(stats := Tally(k.s.stats, hook.name, Raised))), t, item, hook.name, error, now, x, spare);
    }
  }

  lemma TablesSound(w: World, o: Origin, s: Harness, hooks: seq<Hook>, stats: map<string, HookStats>, x: AgentId, spare: nat)
    requires Sound(w, o, s, x, spare) && Tables(stats, hooks)
    ensures Sound(w, o, s.(hooks := hooks, stats := stats), x, spare)
  {}

  lemma CommandTables(k: Kernel, cmd: string, chatId: string)
    requires Tables(k.s.stats, k.s.hooks)
    ensures var s := HooksCommand(k, cmd, chatId).s; s == k.s.(hooks := s.hooks, stats := s.stats) && Tables(s.stats, s.hooks)
  {
    if DISABLE <= cmd { HT.StepKeepsTable(k.s.hooks, HT.Drop(cmd[|DISABLE|..])); }
  }

  lemma CommandSound(w: World, o: Origin, k: Kernel, cmd: string, chatId: string, x: AgentId, spare: nat)
    requires Sound(w, o, k.s, x, spare)
    ensures Sound(w, o, HooksCommand(k, cmd, chatId).s, x, spare)
  {
    CommandTables(k, cmd, chatId);
    var s := HooksCommand(k, cmd, chatId).s;
    TablesSound(w, o, k.s, s.hooks, s.stats, x, spare);
  }

  lemma PushItemSound(w: World, o: Origin, k: Kernel, item: WorkItem, now: nat, x: AgentId, spare: nat)
    requires Sound(w, o, k.s, x, spare + Hit(item.id, x))
    ensures Sound(w, o, PushItem(w, k, item, now).s, x, spare)
  {
    if IsHooksCommand(item) {
      CommandSound(w, o, k, S.Trim(item.kind.content[|HOOKS_PREFIX|..]), item.kind.chatId, x, spare);
    } else if k.s.hooks == [] || Matched(w, k.s, item).None? {
      EnqueueKeeps(o, k.s, item, x, spare);
    } else {
      var hook := k.s.hooks[Matched(w, k.s, item).value];
      SettleSound(w, o, k, hook, w.plan(hook, item, k.s.memory), item, now, x, spare);
    }
  }

  lemma IssueSound(w: World, o: Origin, s: Harness, x: AgentId, spare: nat)
    requires Sound(w, o, s, x, spare)
    ensures Sound(w, o, Issue(w, s), x, spare + Hit(w.draw(s.counter), x))
  {
    IssueKeeps(w, o, s, x, spare);
    DrawnSound(w, o, s, Issue(w, s), [w.draw(s.counter)], x, spare + Hit(w.draw(s.counter), x));
  }

  lemma PushNewSound(w: World, o: Origin, k: Kernel, priority: u8, kind: ItemKind, attachments: seq<string>, now: nat,
                     x: AgentId)
    requires Sound(w, o, k.s, x, 0)
    ensures Sound(w, o, PushNew(w, k, priority, kind, attachments, now).s, x, 0)
  {
    IssueSound(w, o, k.s, x, 0);
    PushItemSound(w, o, k.(s := Issue(w, k.s)), WorkItem(w.draw(k.s.counter), priority, now, kind, attachments), now, x, 0);
  }

  lemma {:induction false} PushAllSound(w: World, o: Origin, k: Kernel, items: seq<WorkItem>, now: nat, x: AgentId, spare: nat)
    requires Sound(w, o, k.s, x, spare + Times(QueueIds(items), x))
    ensures Sound(w, o, PushAll(w, k, items, now).s, x, spare)
  {
    if items != [] {
      var front, last := items[..|items| - 1], items[|items| - 1];
      assert QueueIds(items) == QueueIds(front) + [last.id];
      TimesAppend(QueueIds(front), [last.id], x);
      TimesOne(last.id, x);
      PushAllSound(w, o, k, front, now, x, spare + Hit(last.id, x));
      PushItemSound(w, o, PushAll(w, k, front, now), last, now, x, spare);
    }
  }

  lemma {:induction false} FiredIds(w: World, ts: seq<Timer>, n: nat, now: nat, counter: nat)
    requires n <= |ts|
    ensures var fired := T.FiredUpTo(ts, n, now, w.draw, counter); QueueIds(fired) == DrawnIds(w, counter, |fired|)
  {
    if n > 0 {
      FiredIds(w, ts, n - 1, now, counter);
      var before := T.FiredUpTo(ts, n - 1, now, w.draw, counter);
      var fired := T.FiredUpTo(ts, n, now, w.draw, counter);
      if T.Fires(ts[n - 1], now) {
        assert QueueIds(fired) == QueueIds(before) + [w.draw(counter + |before|)];
        assert DrawnIds(w, counter, |fired|) == DrawnIds(w, counter, |before|) + [w.draw(counter + |before|)];
      }
    }
  }

  lemma FiredKeeps(w: World, o: Origin, s: Harness, now: nat, x: AgentId)
    requires Kept(o, s, x, 0)
    ensures Kept(o, Fired(w, s, now), x, Times(QueueIds(Firing(w, s, now)), x))
  {
    var n := |Firing(w, s, now)|;
    FiredIds(w, s.timers, |s.timers|, now, s.counter);
    AfterCheckIds(s.timers, now);
    TimesAppend(s.issued, DrawnIds(w, s.counter, n), x);
    TimesAppend(s.lasting, DrawnIds(w, s.counter, n), x);
  }

  lemma FiredDraws(w: World, s: Harness, now: nat)
    ensures var after, drawn := Fired(w, s, now), DrawnIds(w, s.counter, |Firing(w, s, now)|);
            && after.counter == s.counter + |drawn| && after.raises == s.raises
            && after.issued == s.issued + drawn && after.lasting == s.lasting + drawn
            && forall i :: 0 <= i < |drawn| ==> drawn[i] == w.draw(s.counter + i)
  {}

  lemma FiredSound(w: World, o: Origin, s: Harness, now: nat, x: AgentId)
    requires Sound(w, o, s, x, 0)
    ensures Sound(w, o, Fired(w, s, now), x, Times(QueueIds(Firing(w, s, now)), x))
  {
    var items := Firing(w, s, now);
    FiredKeeps(w, o, s, now, x);
    FiredDraws(w, s, now);
    DrawnSound(w, o, s, Fired(w, s, now), DrawnIds(w, s.counter, |items|), x, Times(QueueIds(items), x));
  }

  lemma CheckTimersSound(w: World, o: Origin, k: Kernel, now: nat, x: AgentId)
    requires Sound(w, o, k.s, x, 0)
    ensures Sound(w, o, CheckTimers(w, k, now).s, x, 0)
  {
    FiredSound(w, o, k.s, now, x);
    PushAllSound(w, o, k.(s := Fired(w, k.s, now)), Firing(w, k.s, now), now, x, 0);
  }

  lemma NotedSound(w: World, o: Origin, k: Kernel, e: Event, x: AgentId)
    requires Sound(w, o, k.s, x, 0)
    ensures Sound(w, o, Noted(k, e).s, x, 0)
  {
    match e {
      case Exited(pid, exitCode) => StatusKeeps(o, k, pid, Completed(exitCode), x, 0);
      case Crashed(pid, error) => StatusKeeps(o, k, pid, Failed(error), x, 0);
      case _ =>
    }
  }

  lemma ApplyEventSound(w: World, o: Origin, k: Kernel, e: Event, now: nat, x: AgentId)
    requires Sound(w, o, k.s, x, 0)
    ensures Sound(w, o, ApplyEvent(w, k, e, now).s, x, 0)
  {
    if !e.KillSignal? {
      NotedSound(w, o, k, e, x);
      PushNewSound(w, o, Noted(k, e), PriorityOf(k.s.processes, e), KindOf(w, k.s.processes, e), AttachmentsOf(e), now, x);
    }
  }

  lemma {:induction false} ApplyEventsSound(w: World, o: Origin, k: Kernel, events: seq<Event>, now: nat, x: AgentId)
    requires Sound(w, o, k.s, x, 0)
    ensures Sound(w, o, ApplyEvents(w, k, events, now).s, x, 0)
  {
    if events != [] {
      ApplyEventsSound(w, o, k, events[..|events| - 1], now, x);
      ApplyEventSound(w, o, ApplyEvents(w, k, events[..|events| - 1], now), events[|events| - 1], now, x);
    }
  }

  lemma RecordNewSound(w: World, o: Origin, s: Harness, entry: HistoryEntry, x: AgentId)
    requires Sound(w, o, s, x, 0) && entry.id == w.draw(s.counter)
    ensures Sound(w, o, RecordNew(w, s, entry), x, 0)
  {
    IssueSound(w, o, s, x, 0);
    RecordKeeps(o, Issue(w, s), entry, x, 0);
  }

  lemma FlushTelemetrySound(w: World, o: Origin, k: Kernel, now: nat, x: AgentId)
    requires Sound(w, o, k.s, x, 0)
    ensures Sound(w, o, FlushTelemetry(w, k, now).s, x, 0)
  {
    if AnyFired(k.s.stats) {
      RecordNewSound(w, o, k.s, SystemAlert(w.draw(k.s.counter), now, w.telemetry(k.s.stats)), x);
    }
  }

  lemma TriggerSound(w: World, o: Origin, k: Kernel, now: nat, x: AgentId)
    requires Sound(w, o, k.s, x, 0)
    ensures Sound(w, o, Trigger(w, k, now).s, x, 0)
  {
    IssueSound(w, o, k.s, x, 0);
    EnqueueKeeps(o, Issue(w, k.s), WorkItem(w.draw(k.s.counter), 10, now, ItemKind.Compaction, []), x, 0);
  }
}
