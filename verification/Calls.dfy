/** What the calls of a script ask for, read off the list of calls (src/python.rs, the harness interface). */
module Calls {
  import opened Base
  import opened Ids
  import opened Items
  import opened Kernels
  import opened Turns
  import H = Histories
  import HT = HookTables
  import Q = WorkQueues
  import T = Timers

  /** What each call contributes, in the order of the calls. */
  function Each<T>(ops: seq<ScriptOp>, pick: ScriptOp -> seq<T>): seq<T> {
    if ops == [] then [] else Each(ops[..|ops| - 1], pick) + pick(ops[|ops| - 1])
  }

  // ---- The contributions ----

  /** A message reaches a chat only if somebody is subscribed to it; otherwise the call raises. */
  function MessageOf(w: World, op: ScriptOp): seq<Effect> {
    if op.SendMessage? && w.reaches(op.chatId) then [Outbound(op.chatId, op.content)] else []
  }

  function NoteOf(op: ScriptOp): seq<AgentNote> {
    if op.MessageAgent? then [AgentNote(op.name, op.content, op.priority)] else []
  }

  function KillOf(op: ScriptOp): seq<AgentId> {
    if op.ShellKill? then [op.pid] else []
  }

  function ChildKillOf(op: ScriptOp): seq<string> {
    if op.KillChild? then [op.name] else []
  }

  /** Files are shown all together or, if one of them is none, not at all. */
  function ViewsOf(w: World, op: ScriptOp): seq<string> {
    if op.ViewFiles? && forall i :: 0 <= i < |op.paths| ==> w.isFile(op.paths[i]) then op.paths else []
  }

  /** A request needs depth to give away, children, and a name for each that is neither empty nor the main agent's. */
  function ForkOf(m: Mode, op: ScriptOp): seq<seq<string>> {
    if op.ForkAgents? && m.depth > 0 && |op.names| > 0 && forall i :: 0 <= i < |op.names| ==> op.names[i] != "" && op.names[i] != "root"
    then [op.names] else []
  }

  function PinOf(op: ScriptOp): seq<(string, string)> {
    if op.Pin? then [(op.key, op.value)] else []
  }

  function UnpinOf(op: ScriptOp): seq<string> {
    if op.Unpin? then [op.key] else []
  }

  function WriteOf(op: ScriptOp): seq<(AgentId, string)> {
    if op.ShellInput? then [(op.pid, op.text)] else []
  }

  function CloseOf(op: ScriptOp): seq<AgentId> {
    if op.ShellCloseStdin? then [op.pid] else []
  }

  function Messages(w: World, ops: seq<ScriptOp>): seq<Effect> {
    Each(ops, (op: ScriptOp) => MessageOf(w, op))
  }

  function Notes(ops: seq<ScriptOp>): seq<AgentNote> {
    Each(ops, NoteOf)
  }

  function ProcessKills(ops: seq<ScriptOp>): seq<AgentId> {
    Each(ops, KillOf)
  }

  function ChildKills(ops: seq<ScriptOp>): seq<string> {
    Each(ops, ChildKillOf)
  }

  function Views(w: World, ops: seq<ScriptOp>): seq<string> {
    Each(ops, (op: ScriptOp) => ViewsOf(w, op))
  }

  function Forks(m: Mode, ops: seq<ScriptOp>): seq<seq<string>> {
    Each(ops, (op: ScriptOp) => ForkOf(m, op))
  }

  function Pins(ops: seq<ScriptOp>): seq<(string, string)> {
    Each(ops, PinOf)
  }

  function Unpins(ops: seq<ScriptOp>): seq<string> {
    Each(ops, UnpinOf)
  }

  function Writes(ops: seq<ScriptOp>): seq<(AgentId, string)> {
    Each(ops, WriteOf)
  }

  function Closes(ops: seq<ScriptOp>): seq<AgentId> {
    Each(ops, CloseOf)
  }

  /** How many ids the calls draw: one for each timer, each process, and each entry added in compaction. */
  function Draws(m: Mode, ops: seq<ScriptOp>): nat {
    if ops == [] then 0
    else
      var last := ops[|ops| - 1];
      Draws(m, ops[..|ops| - 1]) + if last.AddTimer? || last.ShellExec? || (m.compaction && last.AddEntry?) then 1 else 0
  }

  /** The processes to launch, each under the id that is next when its call is made. */
  function LaunchRequests(w: World, m: Mode, counter: nat, ops: seq<ScriptOp>): seq<LaunchRequest> {
    if ops == [] then []
    else
      var before, last := ops[..|ops| - 1], ops[|ops| - 1];
      LaunchRequests(w, m, counter, before)
      + if last.ShellExec? then [LaunchRequest(w.draw(counter + Draws(m, before)), last.description, last.failPrio, last.blocks)] else []
  }

  /** Results of several calls of `done()` are merged, later ones first. */
  function DoneResult(ops: seq<ScriptOp>): map<string, string> {
    if ops == [] then map[]
    else
      var before, last := DoneResult(ops[..|ops| - 1]), ops[|ops| - 1];
      if last.Done? then map k | k in before.Keys + last.result.Keys :: if k in last.result then last.result[k] else before[k]
      else before
  }


  // ---- Each kind of effect is what the calls contribute ----

  lemma StepSends(w: World, m: Mode, s: Harness, fx: Effects, op: ScriptOp)
    ensures EffectStep(w, m, s, fx, op).messages == fx.messages + MessageOf(w, op)
    ensures EffectStep(w, m, s, fx, op).notes == fx.notes + NoteOf(op)
  {}

  lemma StepKills(w: World, m: Mode, s: Harness, fx: Effects, op: ScriptOp)
    ensures EffectStep(w, m, s, fx, op).kills == fx.kills + KillOf(op)
    ensures EffectStep(w, m, s, fx, op).childKills == fx.childKills + ChildKillOf(op)
  {}

  lemma StepPins(w: World, m: Mode, s: Harness, fx: Effects, op: ScriptOp)
    ensures EffectStep(w, m, s, fx, op).pins == fx.pins + PinOf(op)
    ensures EffectStep(w, m, s, fx, op).unpins == fx.unpins + UnpinOf(op)
  {}

  lemma StepInputs(w: World, m: Mode, s: Harness, fx: Effects, op: ScriptOp)
    ensures EffectStep(w, m, s, fx, op).writes == fx.writes + WriteOf(op)
    ensures EffectStep(w, m, s, fx, op).closes == fx.closes + CloseOf(op)
  {}

  lemma StepCollectsIf(w: World, m: Mode, s: Harness, fx: Effects, op: ScriptOp)
    ensures var next := EffectStep(w, m, s, fx, op);
            && next.views == fx.views + ViewsOf(w, op)
            && next.forks == fx.forks + ForkOf(m, op)
            && next.launches == fx.launches + if op.ShellExec? then [LaunchRequest(w.draw(s.counter), op.description, op.failPrio, op.blocks)] else []
  {
    if op.ForkAgents? { ChildNames(op.names); }
  }

  lemma ChildNames(names: seq<string>)
    ensures (forall n :: n in names ==> ValidChildName(n)) <==> (forall i :: 0 <= i < |names| ==> names[i] != "" && names[i] != "root")
  {
    if forall n :: n in names ==> ValidChildName(n) {
      forall i | 0 <= i < |names| ensures names[i] != "" && names[i] != "root" { assert names[i] in names && ValidChildName(names[i]); }
    }
  }

  lemma StepFlags(w: World, m: Mode, s: Harness, fx: Effects, op: ScriptOp)
    ensures var next := EffectStep(w, m, s, fx, op);
            && next.doneCalled == (fx.doneCalled || op.Done?)
            && next.compactCalled == (fx.compactCalled || op.Compact?)
            && next.requested == (fx.requested || op.RequestCompaction?)
            && next.appends == fx.appends
  {}

  lemma StepDone(w: World, m: Mode, s: Harness, fx: Effects, op: ScriptOp)
    ensures op.Done? ==> EffectStep(w, m, s, fx, op).doneResult == fx.doneResult + op.result
    ensures !op.Done? ==> EffectStep(w, m, s, fx, op).doneResult == fx.doneResult
  {
    match op {
      case Done(_) =>
      case ForkAgents(_) =>
      case ViewFiles(_) =>
      case _ =>
    }
  }

  lemma {:induction false} DrawsCounted(w: World, m: Mode, now: nat, t: Txn, ops: seq<ScriptOp>)
    ensures Exec(w, m, now, t, ops).s.counter == t.s.counter + Draws(m, ops)
  {
    if ops != [] {
      DrawsCounted(w, m, now, t, ops[..|ops| - 1]);
      StepDraws(w, m, now, Exec(w, m, now, t, ops[..|ops| - 1]).s, ops[|ops| - 1]);
    }
  }

  lemma StepDraws(w: World, m: Mode, now: nat, s: Harness, op: ScriptOp)
    ensures StateStep(w, m, now, s, op).counter
            == s.counter + if op.AddTimer? || op.ShellExec? || (m.compaction && op.AddEntry?) then 1 else 0
  {
    if OnStores(op) { assert StoreStep(s, op).counter == s.counter; }
  }

  ghost predicate Collected(w: World, fx: Effects, ops: seq<ScriptOp>) {
    && fx.messages == Messages(w, ops) && fx.notes == Notes(ops)
    && fx.kills == ProcessKills(ops) && fx.childKills == ChildKills(ops)
  }

  ghost predicate CollectedMore(fx: Effects, ops: seq<ScriptOp>) {
    && fx.pins == Pins(ops) && fx.unpins == Unpins(ops)
    && fx.writes == Writes(ops) && fx.closes == Closes(ops)
  }

  ghost predicate CollectedIf(w: World, m: Mode, counter: nat, fx: Effects, ops: seq<ScriptOp>) {
    && fx.views == Views(w, ops) && fx.forks == Forks(m, ops)
    && fx.launches == LaunchRequests(w, m, counter, ops)
  }

  predicate AnyDone(ops: seq<ScriptOp>) {
    exists i :: 0 <= i < |ops| && ops[i].Done?
  }

  predicate AnyCompact(ops: seq<ScriptOp>) {
    exists i :: 0 <= i < |ops| && ops[i].Compact?
  }

  predicate AnyRequest(ops: seq<ScriptOp>) {
    exists i :: 0 <= i < |ops| && ops[i].RequestCompaction?
  }

  ghost predicate Flagged(fx: Effects, ops: seq<ScriptOp>) {
    && (fx.doneCalled <==> AnyDone(ops)) && fx.doneResult == DoneResult(ops)
    && (fx.compactCalled <==> AnyCompact(ops)) && (fx.requested <==> AnyRequest(ops))
  }

  lemma AnySnoc(ops: seq<ScriptOp>)
    requires ops != []
    ensures var front, last := ops[..|ops| - 1], ops[|ops| - 1];
            && (AnyDone(ops) <==> AnyDone(front) || last.Done?)
            && (AnyCompact(ops) <==> AnyCompact(front) || last.Compact?)
            && (AnyRequest(ops) <==> AnyRequest(front) || last.RequestCompaction?)
  {
    var front := ops[..|ops| - 1];
    assert forall i :: 0 <= i < |front| ==> ops[i] == front[i];
    assert ops[|front|] == ops[|ops| - 1];
  }

  lemma {:induction false} ExecCollects(w: World, m: Mode, now: nat, s: Harness, ops: seq<ScriptOp>)
    ensures Collected(w, Exec(w, m, now, Txn(s, NO_EFFECTS), ops).fx, ops)
  {
    if ops != [] {
      var before := Exec(w, m, now, Txn(s, NO_EFFECTS), ops[..|ops| - 1]);
      ExecCollects(w, m, now, s, ops[..|ops| - 1]);
      StepSends(w, m, before.s, before.fx, ops[|ops| - 1]);
      StepKills(w, m, before.s, before.fx, ops[|ops| - 1]);
    }
  }

  lemma {:induction false} ExecCollectsMore(w: World, m: Mode, now: nat, s: Harness, ops: seq<ScriptOp>)
    ensures CollectedMore(Exec(w, m, now, Txn(s, NO_EFFECTS), ops).fx, ops)
  {
    if ops != [] {
      var before := Exec(w, m, now, Txn(s, NO_EFFECTS), ops[..|ops| - 1]);
      ExecCollectsMore(w, m, now, s, ops[..|ops| - 1]);
      StepPins(w, m, before.s, before.fx, ops[|ops| - 1]);
      StepInputs(w, m, before.s, before.fx, ops[|ops| - 1]);
    }
  }

  lemma {:induction false} ExecCollectsIf(w: World, m: Mode, now: nat, s: Harness, ops: seq<ScriptOp>)
    ensures CollectedIf(w, m, s.counter, Exec(w, m, now, Txn(s, NO_EFFECTS), ops).fx, ops)
  {
    if ops != [] {
      var before := Exec(w, m, now, Txn(s, NO_EFFECTS), ops[..|ops| - 1]);
      ExecCollectsIf(w, m, now, s, ops[..|ops| - 1]);
      DrawsCounted(w, m, now, Txn(s, NO_EFFECTS), ops[..|ops| - 1]);
      StepCollectsIf(w, m, before.s, before.fx, ops[|ops| - 1]);
    }
  }

  lemma {:induction false} ExecFlags(w: World, m: Mode, now: nat, s: Harness, ops: seq<ScriptOp>)
    ensures var fx := Exec(w, m, now, Txn(s, NO_EFFECTS), ops).fx;
            && (fx.doneCalled <==> AnyDone(ops)) && (fx.compactCalled <==> AnyCompact(ops)) && (fx.requested <==> AnyRequest(ops))
            && fx.appends == []
  {
    if ops != [] {
      var before := Exec(w, m, now, Txn(s, NO_EFFECTS), ops[..|ops| - 1]);
      ExecFlags(w, m, now, s, ops[..|ops| - 1]);
      StepFlags(w, m, before.s, before.fx, ops[|ops| - 1]);
      AnySnoc(ops);
    }
  }

  lemma {:induction false} ExecDone(w: World, m: Mode, now: nat, s: Harness, ops: seq<ScriptOp>)
    ensures Exec(w, m, now, Txn(s, NO_EFFECTS), ops).fx.doneResult == DoneResult(ops)
  {
    if ops != [] {
      var before := Exec(w, m, now, Txn(s, NO_EFFECTS), ops[..|ops| - 1]);
      ExecDone(w, m, now, s, ops[..|ops| - 1]);
      StepDone(w, m, before.s, before.fx, ops[|ops| - 1]);
    }
  }

  /**
   * Over every script: what is collected for after it is exactly what its calls ask for, in their order,
   * and nothing else. Messages go to chats somebody is subscribed to; launches bear the ids that are next
   * at their calls; and what the script leaves to be appended to the compaction script counts only in
   * compaction, and only if the script ends well.
   */
  lemma EffectsAreTheCalls(w: World, m: Mode, now: nat, s: Harness, script: Script)
    ensures var fx, ops := Execute(w, m, now, s, script).fx, script.ops;
            && Collected(w, fx, ops) && CollectedMore(fx, ops) && CollectedIf(w, m, s.counter, fx, ops) && Flagged(fx, ops)
            && fx.appends == (if m.compaction && script.ending.Finished? && script.ending.appended != "" then [script.ending.appended] else [])
  {
    ExecCollects(w, m, now, s, script.ops);
    ExecCollectsMore(w, m, now, s, script.ops);
    ExecCollectsIf(w, m, now, s, script.ops);
    ExecFlags(w, m, now, s, script.ops);
    ExecDone(w, m, now, s, script.ops);
  }

  // ---- The copied state ----

  /** `p` is where the first item under `id` stands. */
  ghost predicate FirstUnder(q: seq<WorkItem>, id: AgentId, p: int) {
    0 <= p < |q| && q[p].id == id && forall i :: 0 <= i < p ==> q[i].id != id
  }

  /** What a call does to the queue it finds: popping takes the front, removing the first item under an id, and no other call does anything. */
  ghost predicate Takes(op: ScriptOp, q: seq<WorkItem>, after: seq<WorkItem>) {
    match op
    case PopFront => after == if q == [] then [] else q[1..]
    case RemoveFromQueue(id) =>
      && (forall p :: FirstUnder(q, id, p) ==> after == q[..p] + q[p + 1..])
      && ((forall i :: 0 <= i < |q| ==> q[i].id != id) ==> after == q)
    case _ => after == q
  }

  lemma StepTakes(w: World, m: Mode, now: nat, s: Harness, op: ScriptOp)
    ensures Takes(op, s.queue, StateStep(w, m, now, s, op).queue)
  {
    match op {
      case PopFront =>
        if s.queue != [] {
          assert Q.FindItem(s.queue, s.queue[0].id) == Some(0);
          assert RemoveAt(s.queue, 0) == s.queue[1..];
        }
      case RemoveFromQueue(id) => RemovesFirst(s.queue, id);
      case _ => OthersKeepQueue(w, m, now, s, op);
    }
  }

  lemma RemovesFirst(q: seq<WorkItem>, id: AgentId)
    ensures Takes(RemoveFromQueue(id), q, Q.RemoveItem(q, id))
  {
    match Q.FindItem(q, id) {
      case None =>
      case Some(at) =>
        forall p | FirstUnder(q, id, p) ensures p == at {}
    }
  }

  lemma OthersKeepQueue(w: World, m: Mode, now: nat, s: Harness, op: ScriptOp)
    requires !op.PopFront? && !op.RemoveFromQueue?
    ensures StateStep(w, m, now, s, op).queue == s.queue
  {}

  lemma ExecNext(w: World, m: Mode, now: nat, t: Txn, ops: seq<ScriptOp>, i: nat)
    requires i < |ops|
    ensures Exec(w, m, now, t, ops[..i + 1]).s == StateStep(w, m, now, Exec(w, m, now, t, ops[..i]).s, ops[i])
  {
    assert ops[..i + 1][..i] == ops[..i];
  }

  /** Every call of a script takes from the queue exactly what it asks for, of what the calls before it have left. */
  lemma ScriptTakes(w: World, m: Mode, now: nat, t: Txn, ops: seq<ScriptOp>, i: nat)
    requires i < |ops|
    ensures Takes(ops[i], Exec(w, m, now, t, ops[..i]).s.queue, Exec(w, m, now, t, ops[..i + 1]).s.queue)
  {
    ExecNext(w, m, now, t, ops, i);
    StepTakes(w, m, now, Exec(w, m, now, t, ops[..i]).s, ops[i]);
  }

  /** The calls on the hook table; one whose expressions do not compile raises. */
  function HookCallOf(w: World, op: ScriptOp): seq<HT.TableOp> {
    if op.RegisterHook? && w.compiles(op.hook.matchExpr) && w.compiles(op.hook.process) then [HT.Register(op.hook)]
    else if op.RemoveHook? then [HT.Drop(op.name)]
    else []
  }

  function HookCalls(w: World, ops: seq<ScriptOp>): seq<HT.TableOp> {
    Each(ops, (op: ScriptOp) => HookCallOf(w, op))
  }

  function TableAfter(hooks: seq<Hook>, ops: seq<HT.TableOp>): seq<Hook> {
    if ops == [] then hooks else HT.Step(TableAfter(hooks, ops[..|ops| - 1]), ops[|ops| - 1])
  }

  lemma StepHooks(w: World, m: Mode, now: nat, s: Harness, op: ScriptOp)
    ensures StateStep(w, m, now, s, op).hooks == TableAfter(s.hooks, HookCallOf(w, op))
  {
    var calls := HookCallOf(w, op);
    if calls == [] {
      OthersKeepHooks(w, m, now, s, op);
    } else {
      assert calls[..|calls| - 1] == [] && TableAfter(s.hooks, []) == s.hooks;
    }
  }

  lemma OthersKeepHooks(w: World, m: Mode, now: nat, s: Harness, op: ScriptOp)
    requires HookCallOf(w, op) == []
    ensures StateStep(w, m, now, s, op).hooks == s.hooks
  {}

  lemma {:induction false} TableJoin(hooks: seq<Hook>, a: seq<HT.TableOp>, b: seq<HT.TableOp>)
    ensures TableAfter(hooks, a + b) == TableAfter(TableAfter(hooks, a), b)
  {
    if b == [] {
      assert a + b == a;
    } else {
      assert (a + b)[..|a + b| - 1] == a + b[..|b| - 1];
      TableJoin(hooks, a, b[..|b| - 1]);
    }
  }

  /** A script's calls on hooks are done to the table, in order, and nothing else is. */
  lemma {:induction false} HooksAreTheCalls(w: World, m: Mode, now: nat, t: Txn, ops: seq<ScriptOp>)
    ensures Exec(w, m, now, t, ops).s.hooks == TableAfter(t.s.hooks, HookCalls(w, ops))
  {
    if ops != [] {
      var front := ops[..|ops| - 1];
      HooksAreTheCalls(w, m, now, t, front);
      StepHooks(w, m, now, Exec(w, m, now, t, front).s, ops[|ops| - 1]);
      TableJoin(t.s.hooks, HookCalls(w, front), HookCallOf(w, ops[|ops| - 1]));
    }
  }

  /** What a call makes of the history: an edit as it is allowed, and in compaction a summary added under the id that is next. */
  function EditedBy(m: Mode, now: nat, next: AgentId, h: seq<HistoryEntry>, window: nat, op: ScriptOp): seq<HistoryEntry> {
    if op.ReplaceEntry? then H.Apply(h, window, m.compaction, H.Replace(op.id, op.description))
    else if op.RemoveEntry? then H.Apply(h, window, m.compaction, H.Remove(op.id))
    else if op.AddEntry? && m.compaction then h + [Summary(next, now, op.text)]
    else h
  }

  function Edited(w: World, m: Mode, now: nat, counter: nat, h: seq<HistoryEntry>, window: nat, ops: seq<ScriptOp>): seq<HistoryEntry> {
    if ops == [] then h
    else
      var front := ops[..|ops| - 1];
      EditedBy(m, now, w.draw(counter + Draws(m, front)), Edited(w, m, now, counter, h, window, front), window, ops[|ops| - 1])
  }

  lemma StepEdits(w: World, m: Mode, now: nat, s: Harness, op: ScriptOp)
    ensures StateStep(w, m, now, s, op).window == s.window
    ensures StateStep(w, m, now, s, op).history == EditedBy(m, now, w.draw(s.counter), s.history, s.window, op)
  {}

  lemma {:induction false} WindowStays(w: World, m: Mode, now: nat, t: Txn, ops: seq<ScriptOp>)
    ensures Exec(w, m, now, t, ops).s.window == t.s.window
  {
    if ops != [] {
      WindowStays(w, m, now, t, ops[..|ops| - 1]);
      StepEdits(w, m, now, Exec(w, m, now, t, ops[..|ops| - 1]).s, ops[|ops| - 1]);
    }
  }

  /** A script makes of the history exactly what its calls ask for, one after the other, within the window they started with. */
  lemma {:induction false} HistoryIsTheCalls(w: World, m: Mode, now: nat, t: Txn, ops: seq<ScriptOp>)
    ensures Exec(w, m, now, t, ops).s.history == Edited(w, m, now, t.s.counter, t.s.history, t.s.window, ops)
  {
    if ops != [] {
      var front := ops[..|ops| - 1];
      HistoryIsTheCalls(w, m, now, t, front);
      DrawsCounted(w, m, now, t, front);
      WindowStays(w, m, now, t, front);
      StepEdits(w, m, now, Exec(w, m, now, t, front).s, ops[|ops| - 1]);
    }
  }

  /** When a new timer is due for the first time: its period from now, or when it was told, or in a minute. */
  function FirstSchedule(every: Option<nat>, at: Option<nat>, now: nat): Schedule {
    if every.Some? then Recurring(every.value, now + T.Seconds(every.value))
    else if at.Some? then OneShot(at.value)
    else OneShot(now + 60)
  }

  /** What a call does to the timers it finds: it adds one under the id that is next, cancels the first under an id, acknowledges, or does nothing. */
  ghost predicate Retimes(op: ScriptOp, next: AgentId, ts: seq<Timer>, after: seq<Timer>, now: nat) {
    match op
    case AddTimer(every, at, priority, description) =>
      after == ts + [Timer(next, description, priority, FirstSchedule(every, at, now), false)]
    case CancelTimer(id) =>
      && (forall p :: 0 <= p < |ts| && ts[p].id == id && (forall i :: 0 <= i < p ==> ts[i].id != id) ==> after == ts[..p] + ts[p + 1..])
      && ((forall i :: 0 <= i < |ts| ==> ts[i].id != id) ==> after == ts)
    case AckTimer(id) => after == T.Acknowledge(ts, id, now)
    case _ => after == ts
  }

  /** The timers only change by the three calls on them. */
  lemma OthersKeepTimers(w: World, m: Mode, now: nat, s: Harness, op: ScriptOp)
    ensures StoreStep(s, op).timers == s.timers && HistoryStep(w, m, now, s, op).timers == s.timers
    ensures HarnessStep(w, s, op).timers == s.timers
    ensures !OnTimers(op) ==> StateStep(w, m, now, s, op).timers == s.timers
    ensures OnTimers(op) ==> StateStep(w, m, now, s, op) == TimerStep(w, now, s, op)
  {}

  lemma StepRetimes(w: World, m: Mode, now: nat, s: Harness, op: ScriptOp)
    ensures Retimes(op, w.draw(s.counter), s.timers, StateStep(w, m, now, s, op).timers, now)
  {
    if !OnTimers(op) { OthersKeepTimers(w, m, now, s, op); }
  }

  /** Every call of a script does to the timers exactly what it asks for, as the calls before it have left them. */
  lemma ScriptRetimes(w: World, m: Mode, now: nat, t: Txn, ops: seq<ScriptOp>, i: nat)
    requires i < |ops|
    ensures Retimes(ops[i], w.draw(t.s.counter + Draws(m, ops[..i])),
                    Exec(w, m, now, t, ops[..i]).s.timers, Exec(w, m, now, t, ops[..i + 1]).s.timers, now)
  {
    ExecNext(w, m, now, t, ops, i);
    DrawsCounted(w, m, now, t, ops[..i]);
    StepRetimes(w, m, now, Exec(w, m, now, t, ops[..i]).s, ops[i]);
  }

  /** The processes the calls enter in the table, each under the id that is next when its call is made. */
  function Entered(w: World, m: Mode, counter: nat, ops: seq<ScriptOp>): seq<ManagedProcess> {
    if ops == [] then []
    else
      var before, last := ops[..|ops| - 1], ops[|ops| - 1];
      Entered(w, m, counter, before)
      + if last.ShellExec? then
          [ManagedProcess(w.draw(counter + Draws(m, before)), last.cmd, last.description, Running, last.successPrio, last.failPrio)]
        else []
  }

  lemma StepEnters(w: World, m: Mode, now: nat, s: Harness, op: ScriptOp)
    ensures StateStep(w, m, now, s, op).processes
            == s.processes + if op.ShellExec? then [ManagedProcess(w.draw(s.counter), op.cmd, op.description, Running, op.successPrio, op.failPrio)] else []
  {
    if OnStores(op) { assert StoreStep(s, op).processes == s.processes; }
    if OnTimers(op) { assert TimerStep(w, now, s, op).processes == s.processes; }
  }

  lemma {:induction false} ProcessesAreTheCalls(w: World, m: Mode, now: nat, t: Txn, ops: seq<ScriptOp>)
    ensures Exec(w, m, now, t, ops).s.processes == t.s.processes + Entered(w, m, t.s.counter, ops)
  {
    if ops != [] {
      var front := ops[..|ops| - 1];
      ProcessesAreTheCalls(w, m, now, t, front);
      DrawsCounted(w, m, now, t, front);
      StepEnters(w, m, now, Exec(w, m, now, t, front).s, ops[|ops| - 1]);
    }
  }

  /** The priority of a key: as given last; 5 when the key is new and none is given; none when it is deleted. */
  function PriorityAfter(ops: seq<ScriptOp>, key: string, start: Option<u8>): Option<u8> {
    if ops == [] then start
    else
      var before, last := PriorityAfter(ops[..|ops| - 1], key, start), ops[|ops| - 1];
      if last.SetMemory? && last.key == key then (if last.given.Some? then last.given else if before.Some? then before else Some(5))
      else if last.SetPriority? && last.key == key then Some(last.priority)
      else if last.DeleteMemory? && last.key == key then None
      else before
  }

  function PriorityIn(priorities: map<string, u8>, key: string): Option<u8> {
    if key in priorities then Some(priorities[key]) else None
  }

  lemma StepPriority(w: World, m: Mode, now: nat, s: Harness, op: ScriptOp, key: string)
    ensures PriorityIn(StateStep(w, m, now, s, op).priorities, key) == PriorityAfter([op], key, PriorityIn(s.priorities, key))
  {
    assert [op][..0] == [];
    if OnStores(op) { StorePriority(s, op, key); } else { OthersKeepPriorities(w, m, now, s, op); }
  }

  lemma StorePriority(s: Harness, op: ScriptOp, key: string)
    requires OnStores(op)
    ensures PriorityIn(StoreStep(s, op).priorities, key) == PriorityAfter([op], key, PriorityIn(s.priorities, key))
  {
    assert [op][..0] == [];
    match op {
      case SetMemory(_, _, _) =>
      case DeleteMemory(_) =>
      case SetPriority(_, _) =>
      case PopFront =>
      case RemoveFromQueue(_) =>
    }
  }

  lemma OthersKeepPriorities(w: World, m: Mode, now: nat, s: Harness, op: ScriptOp)
    requires !OnStores(op)
    ensures StateStep(w, m, now, s, op).priorities == s.priorities
  {}

  lemma {:induction false} PrioritiesAreTheCalls(w: World, m: Mode, now: nat, t: Txn, ops: seq<ScriptOp>, key: string)
    ensures PriorityIn(Exec(w, m, now, t, ops).s.priorities, key) == PriorityAfter(ops, key, PriorityIn(t.s.priorities, key))
  {
    if ops != [] {
      var front := ops[..|ops| - 1];
      PrioritiesAreTheCalls(w, m, now, t, front, key);
      StepPriority(w, m, now, Exec(w, m, now, t, front).s, ops[|ops| - 1], key);
      assert [ops[|ops| - 1]][..0] == [];
    }
  }
}
