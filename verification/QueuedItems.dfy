/** What is queued for each event, and for what a turn and its commit bring about. */
module QueuedItems {
  import opened Base
  import opened Ids
  import opened Items
  import opened Kernels
  import opened Turns
  import opened Pipelines
  import L = LaunchRuns
  import P = Places
  import F = Forks
  import HT = HookTables
  import Q = WorkQueues
  import Utf8

  // ---- Events ----

  /** `p` is the first process under `pid`. */
  ghost predicate FirstProcess(ps: seq<ManagedProcess>, pid: AgentId, p: int) {
    0 <= p < |ps| && ps[p].id == pid && forall i :: 0 <= i < p ==> ps[i].id != pid
  }

  ghost predicate Unknown(ps: seq<ManagedProcess>, pid: AgentId) {
    forall i :: 0 <= i < |ps| ==> ps[i].id != pid
  }

  /** The output as an item shows it: not at all, whole, or its last 500 bytes behind three dots. */
  function Shown(output: Utf8.Bytes): Option<Utf8.Bytes> {
    if |output| == 0 then None
    else if |output| <= 500 then Some(output)
    else Some([46, 46, 46] + output[|output| - 500..])
  }

  /** The item for the end of a process: as its entry in the table says, if it has one. */
  ghost predicate EndBecomes(ps: seq<ManagedProcess>, pid: AgentId, item: WorkItem, success: bool, kind: string -> ItemKind) {
    && item.attachments == []
    && (forall p :: FirstProcess(ps, pid, p) ==>
          item.priority == (if success then ps[p].successPrio else ps[p].failPrio) && item.kind == kind(ps[p].description))
    && (Unknown(ps, pid) ==> item.priority == (if success then 5 else 7) && item.kind == kind(""))
  }

  /** The item an event becomes, field by field. */
  ghost predicate Becomes(w: World, ps: seq<ManagedProcess>, e: Event, item: WorkItem) {
    match e
    case UserMessageEvent(chatId, user, content, attachments) =>
      item.priority == 9 && item.kind == UserMessage(chatId, user, content) && item.attachments == attachments
    case Exited(pid, exitCode) => EndBecomes(ps, pid, item, true, (d: string) => ProcessCompleted(pid, exitCode, Shown(w.output(pid)), d))
    case Crashed(pid, error) => EndBecomes(ps, pid, item, false, (d: string) => ProcessFailed(pid, error, Shown(w.output(pid)), d))
    case TimedOut(pid) => EndBecomes(ps, pid, item, false, (d: string) => ProcessTimeout(pid))
    case ChildCompleted(name, success, summary, priority) =>
      item.priority == priority && item.kind == ChildAgentCompleted(name, success, summary) && item.attachments == []
    case Incoming(from, content, priority) =>
      item.priority == priority && item.kind == AgentMessage(from, content) && item.attachments == []
    case External(source, eventType, priority) =>
      item.priority == priority && item.kind == ExternalEvent(source, eventType) && item.attachments == []
    case KillSignal => false
  }

  lemma ProcessFields(ps: seq<ManagedProcess>, pid: AgentId)
    ensures forall p :: FirstProcess(ps, pid, p) ==>
              SuccessPrio(ps, pid) == ps[p].successPrio && FailPrio(ps, pid) == ps[p].failPrio && Description(ps, pid) == ps[p].description
    ensures Unknown(ps, pid) ==> SuccessPrio(ps, pid) == 5 && FailPrio(ps, pid) == 7 && Description(ps, pid) == ""
  {
    var found := FindProcess(ps, pid);
    forall p | FirstProcess(ps, pid, p) ensures found == Some(p) {}
  }

  lemma EventBecomes(w: World, ps: seq<ManagedProcess>, e: Event, id: AgentId, now: nat)
    requires !e.KillSignal?
    ensures Becomes(w, ps, e, WorkItem(id, PriorityOf(ps, e), now, KindOf(w, ps, e), AttachmentsOf(e)))
  {
    match e {
      case Exited(pid, _) => ProcessFields(ps, pid); assert Preview(w.output(pid)) == Shown(w.output(pid));
      case Crashed(pid, _) => ProcessFields(ps, pid); assert Preview(w.output(pid)) == Shown(w.output(pid));
      case TimedOut(pid) => ProcessFields(ps, pid);
      case _ =>
    }
  }

  /** An item under the id that is next, of this time, meets its fate. */
  ghost predicate Meets(w: World, s: Harness, after: Harness, item: WorkItem, now: nat, name: string) {
    && item.id == w.draw(s.counter) && item.time == now
    && exists fate :: Fated(w, s, item, fate) && Follows(fate, s, after, item, now, name)
  }

  /** What is pushed anew meets its fate. */
  lemma NewMeets(w: World, k: Kernel, priority: u8, kind: ItemKind, attachments: seq<string>, now: nat, name: string)
    ensures Meets(w, k.s, PushNew(w, k, priority, kind, attachments, now).s,
                  WorkItem(w.draw(k.s.counter), priority, now, kind, attachments), now, name)
  {
    var item := WorkItem(w.draw(k.s.counter), priority, now, kind, attachments);
    var issued := k.(s := Issue(w, k.s));
    OneFate(w, issued, item, now, name);
    assert FateOf(w, issued.s, item) == FateOf(w, k.s, item);
    FateIsFated(w, k.s, item);
  }

  /**
   * Every event that can be read is queued for: one item, with the event's own fields, under the next id and
   * of this time, meets exactly one fate. A user message has priority 9 and keeps its attachments; a child's
   * end, an agent's message and an external event have the priority they come with; the end of a process
   * has what its entry says, or 5 or 7 and no description if it has none. A kill signal only marks the agent.
   */
  lemma EventMeetsItsFate(w: World, k: Kernel, e: Event, now: nat, name: string)
    requires !k.crashed && Readable(w, e)
    ensures !e.KillSignal? ==>
              exists item :: Becomes(w, k.s.processes, e, item) && Meets(w, k.s, ApplyEvent(w, k, e, now).s, item, now, name)
    ensures e.KillSignal? ==> ApplyEvent(w, k, e, now) == k.(killed := true)
  {
    if !e.KillSignal? {
      var ps := k.s.processes;
      var item := WorkItem(w.draw(k.s.counter), PriorityOf(ps, e), now, KindOf(w, ps, e), AttachmentsOf(e));
      EventBecomes(w, ps, e, item.id, now);
      NewMeets(w, Noted(k, e), item.priority, item.kind, item.attachments, now, name);
      NotedMeets(w, k, e, ApplyEvent(w, k, e, now).s, item, now, name);
    }
  }

  lemma NotedMeets(w: World, k: Kernel, e: Event, after: Harness, item: WorkItem, now: nat, name: string)
    requires Meets(w, Noted(k, e).s, after, item, now, name)
    ensures Meets(w, k.s, after, item, now, name)
  {
    var s := Noted(k, e).s;
    var fate :| Fated(w, s, item, fate) && Follows(fate, s, after, item, now, name);
    assert s == k.s.(processes := s.processes);
    SameFate(w, k.s, s, item, fate);
    assert Follows(fate, k.s, after, item, now, name);
  }

  lemma SameFate(w: World, s: Harness, other: Harness, item: WorkItem, fate: Fate)
    requires other == s.(processes := other.processes) && Fated(w, other, item, fate)
    ensures Fated(w, s, item, fate)
  {}

  // ---- What is noted besides ----

  lemma SettleGrows(w: World, k: Kernel, hook: Hook, plan: Plan, item: WorkItem, now: nat)
    ensures k.s.processes <= Settle(w, k, hook, plan, item, now).s.processes
  {
    L.SettleProcesses(w, k, hook, plan, item, now);
  }

  lemma PushGrows(w: World, k: Kernel, item: WorkItem, now: nat)
    ensures k.s.processes <= PushItem(w, k, item, now).s.processes
    ensures PushItem(w, k, item, now).active == k.active
  {
    P.PushItemPlace(w, k, item, now);
    assert P.PlaceOf(PushItem(w, k, item, now)).active == k.active;
    if !IsHooksCommand(item) && k.s.hooks != [] && Matched(w, k.s, item).Some? {
      var hook := k.s.hooks[Matched(w, k.s, item).value];
      SettleGrows(w, k, hook, w.plan(hook, item, k.s.memory), item, now);
    }
  }

  /** The status an event gives a process; a timeout gives none. */
  function StatusOf(e: Event, was: ProcessStatus): ProcessStatus {
    match e
    case Exited(_, exitCode) => Completed(exitCode)
    case Crashed(_, error) => Failed(error)
    case _ => was
  }

  predicate IsAbout(e: Event, pid: AgentId) {
    (e.Exited? && e.pid == pid) || (e.Crashed? && e.pid == pid)
  }

  /** An event about a process sets the status of the first one under its id, a child's end frees one place, and nothing else changes there. */
  lemma EventNotes(w: World, k: Kernel, e: Event, now: nat)
    requires !k.crashed
    ensures var ps, after := k.s.processes, ApplyEvent(w, k, e, now);
            && |ps| <= |after.s.processes|
            && (forall i :: 0 <= i < |ps| ==>
                  after.s.processes[i]
                  == if IsAbout(e, ps[i].id) && FirstProcess(ps, ps[i].id, i) then ps[i].(status := StatusOf(e, ps[i].status)) else ps[i])
            && after.active == (if e.ChildCompleted? && k.active > 0 then k.active - 1 else k.active)
  {
    if e.Exited? || e.Crashed? { StatusIsSet(k.s.processes, e.pid, StatusOf(e, Running)); }
    if !e.KillSignal? && Readable(w, e) {
      var item := WorkItem(w.draw(k.s.counter), PriorityOf(k.s.processes, e), now, KindOf(w, k.s.processes, e), AttachmentsOf(e));
      PushGrows(w, Noted(k, e).(s := Issue(w, Noted(k, e).s)), item, now);
    }
  }

  lemma StatusIsSet(ps: seq<ManagedProcess>, pid: AgentId, status: ProcessStatus)
    ensures var after := SetStatus(ps, pid, status);
            |after| == |ps|
            && forall i :: 0 <= i < |ps| ==> after[i] == if FirstProcess(ps, pid, i) then ps[i].(status := status) else ps[i]
  {
    var found := FindProcess(ps, pid);
    forall i | FirstProcess(ps, pid, i) ensures found == Some(i) {}
    if found.Some? { assert FirstProcess(ps, pid, found.value); }
  }

  // ---- What a commit queues ----

  /** A launch that fails to start is logged, marked, and reported at the priority its call gave for that. */
  lemma RefusedLaunchMeets(w: World, k: Kernel, req: LaunchRequest, now: nat, name: string)
    ensures w.launchFails(req.pid) ==>
              && Meets(w, k.s, LaunchOne(w, k, req, now).s,
                       WorkItem(w.draw(k.s.counter), req.failPrio, now, ProcessFailed(req.pid, "spawn failed", None, req.description), []), now, name)
    ensures !w.launchFails(req.pid) ==> LaunchOne(w, k, req, now) == k.(log := k.log + [Launched(req.pid)])
  {
    if w.launchFails(req.pid) {
      var item := WorkItem(w.draw(k.s.counter), req.failPrio, now, ProcessFailed(req.pid, "spawn failed", None, req.description), []);
      var failed := Mark(k.(log := k.log + [Refused(req.pid)]), req.pid, Failed("spawn failed"));
      NewMeets(w, failed, item.priority, item.kind, [], now, name);
      var after := LaunchOne(w, k, req, now).s;
      var fate :| Fated(w, failed.s, item, fate) && Follows(fate, failed.s, after, item, now, name);
      SameFate(w, k.s, failed.s, item, fate);
      assert Follows(fate, k.s, after, item, now, name);
    }
  }

  /** Files to be shown are queued together, at the head; a script that shows none queues nothing for it. */
  lemma ViewsMeet(w: World, k: Kernel, paths: seq<string>, now: nat, name: string)
    ensures paths != [] ==>
              Meets(w, k.s, QueueView(w, k, paths, now).s, WorkItem(w.draw(k.s.counter), 10, now, View(paths), []), now, name)
    ensures paths == [] ==> QueueView(w, k, paths, now) == k
  {
    if paths != [] { NewMeets(w, k, 10, View(paths), [], now, name); }
  }

  /** A child that was not started is reported by name and cause, as failed, at priority 7. */
  lemma ReportMeets(w: World, k: Kernel, r: F.Report, now: nat, name: string)
    ensures exists text: string ::
              && text == (match r.cause case NoRoom => "Could not spawn: max concurrent children reached" case ClientFailed => "Failed to create API client")
              && Meets(w, k.s, ReportChild(w, k, r, now).s,
                       WorkItem(w.draw(k.s.counter), 7, now, ChildAgentCompleted(r.name, false, text), []), now, name)
  {
    NewMeets(w, k, 7, ChildAgentCompleted(r.name, false, ReportText(r)), [], now, name);
  }

  /** A request that is rejected as a whole is reported once, at priority 7. */
  lemma RejectionMeets(w: World, k: Kernel, collisions: seq<string>, names: seq<string>, now: nat, name: string)
    ensures Meets(w, k.s, ApplyFork(w, k, F.Rejected(collisions), names, now).s,
                  WorkItem(w.draw(k.s.counter), 7, now, ChildAgentCompleted("fork-failed", false, "Fork failed"), []), now, name)
  {
    NewMeets(w, UseChannels(k, |names|), 7, ForkFailure(), [], now, name);
  }

  /** A compaction is triggered by a Compaction item of priority 10, with an empty script; on crossing the threshold or on request, unless one is under way. */
  lemma TriggerQueues(w: World, k: Kernel, now: nat)
    ensures var after, item := Trigger(w, k, now), WorkItem(w.draw(k.s.counter), 10, now, ItemKind.Compaction, []);
            && after.s.queue == Q.Insert(k.s.queue, item)
            && after.compaction.active && after.compaction.script == ""
            && after.s.counter == k.s.counter + 1
  {}

  lemma TriggeredWhen(w: World, c: Config, k: Kernel, requested: bool, now: nat)
    ensures CheckThreshold(w, c, k, now) == if c.canCompact && !k.compaction.active && k.s.lastTotal > c.compactAt then Trigger(w, k, now) else k
    ensures HonourRequest(w, c, k, requested, now) == if requested && c.canCompact && !k.compaction.active then Trigger(w, k, now) else k
  {}

  /** The script's copy becomes the state, but for the counts of hooks that are gone. */
  lemma InstallDropsGoneCounts(k: Kernel, s: Harness, name: string)
    ensures var after := Install(k, s);
            && after == k.(s := s.(stats := after.s.stats))
            && (var gone := (exists h :: h in k.s.hooks && h.name == name) && !exists h :: h in s.hooks && h.name == name;
                if gone then name !in after.s.stats
                else (name in after.s.stats <==> name in s.stats) && (name in s.stats ==> after.s.stats[name] == s.stats[name]))
  {}
}
