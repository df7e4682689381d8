/** What a hook's run leaves behind, read off its calls (src/python.rs `run_hooks_inner`; src/agent_loop.rs `apply_hook_commit`). */
module HookFacts {
  import opened Base
  import opened Ids
  import opened Items
  import opened Kernels
  import opened Pipelines
  import TF = TurnFacts

  function Launched(ops: seq<HookOp>): nat {
    if ops == [] then 0 else Launched(ops[..|ops| - 1]) + if ops[|ops| - 1].Launch? then 1 else 0
  }

  /** The processes the calls start, each under the id that is next, counted from the agent's own generator. */
  function ProcessesOf(w: World, counter: nat, ops: seq<HookOp>): seq<ManagedProcess> {
    if ops == [] then []
    else
      var before, last := ops[..|ops| - 1], ops[|ops| - 1];
      ProcessesOf(w, counter, before)
      + if last.Launch? then
          [ManagedProcess(w.draw(counter + Launched(before)), last.cmd, last.description, Running, last.successPrio, last.failPrio)]
        else []
  }

  /** The messages the calls send, to chats somebody is subscribed to. */
  function MessagesOf(w: World, ops: seq<HookOp>): seq<Effect> {
    if ops == [] then []
    else
      var last := ops[|ops| - 1];
      MessagesOf(w, ops[..|ops| - 1]) + if last.Tell? && w.reaches(last.chatId) then [Outbound(last.chatId, last.content)] else []
  }

  /** The priority of a key after the calls: as given last, 5 for a new key, none for a forgotten one. */
  function PriorityAfter(ops: seq<HookOp>, key: string, start: Option<u8>): Option<u8> {
    if ops == [] then start
    else
      var before, last := PriorityAfter(ops[..|ops| - 1], key, start), ops[|ops| - 1];
      if last.Remember? && last.key == key then (if last.priority.Some? then last.priority else if before.Some? then before else Some(5))
      else if last.Forget? && last.key == key then None
      else before
  }

  function PriorityIn(priorities: map<string, u8>, key: string): Option<u8> {
    if key in priorities then Some(priorities[key]) else None
  }

  ghost predicate Ran(w: World, s: Harness, ops: seq<HookOp>, t: HookTxn, key: string) {
    && t.processes == ProcessesOf(w, s.counter, ops) && t.counter == s.counter + Launched(ops)
    && t.messages == MessagesOf(w, ops)
    && PriorityIn(t.priorities, key) == PriorityAfter(ops, key, PriorityIn(s.priorities, key))
  }

  lemma {:induction false} HookRuns(w: World, s: Harness, ops: seq<HookOp>, key: string)
    ensures Ran(w, s, ops, HookRun(w, OpenHook(s), ops), key)
  {
    if ops != [] { HookRuns(w, s, ops[..|ops| - 1], key); }
  }

  /** How the attempt to start each process turns out. */
  function Outcomes(w: World, ps: seq<ManagedProcess>): seq<Effect> {
    if ps == [] then []
    else
      var pid := ps[|ps| - 1].id;
      Outcomes(w, ps[..|ps| - 1]) + [if w.launchFails(pid) then Refused(pid) else Effect.Launched(pid)]
  }

  lemma {:induction false} LaunchesTurnOut(w: World, ps: seq<ManagedProcess>)
    ensures Launches(w, ps) == Outcomes(w, ps)
  {
    if ps != [] {
      LaunchesTurnOut(w, ps[..|ps| - 1]);
      assert Launches(w, ps) == Launches(w, ps[..|ps| - 1]) + [Launches(w, ps)[|ps| - 1]];
    }
  }

  /** The hook's work is kept: memory and priorities as its calls left them, its processes added, what it started and sent in the log. */
  ghost predicate Kept(w: World, k: Kernel, after: Kernel, ops: seq<HookOp>, key: string) {
    && TF.ReadsAs(k.s.memory, after.s.memory, key, TF.LastHookWrite(ops, key))
    && PriorityIn(after.s.priorities, key) == PriorityAfter(ops, key, PriorityIn(k.s.priorities, key))
    && after.s.processes == k.s.processes + ProcessesOf(w, k.s.counter, ops)
    && after.log == k.log + Outcomes(w, ProcessesOf(w, k.s.counter, ops)) + MessagesOf(w, ops)
  }

  lemma CommitKeeps(w: World, k: Kernel, before: Kernel, ops: seq<HookOp>, key: string)
    requires before.s.memory == k.s.memory && before.s.priorities == k.s.priorities && before.s.processes == k.s.processes && before.log == k.log
    ensures Kept(w, k, ApplyHookCommit(w, before, HookRun(w, OpenHook(k.s), ops)), ops, key)
  {
    HookRuns(w, k.s, ops, key);
    TF.HookMemoryIsLastWrite(w, k, ops, key);
    LaunchesTurnOut(w, ProcessesOf(w, k.s.counter, ops));
  }

  lemma RaisedKeeps(w: World, k: Kernel, hook: Hook, ops: seq<HookOp>, error: string, item: WorkItem, now: nat, key: string)
    ensures Kept(w, k, Settle(w, k, hook, Plan.Ran(ops, Raise(error)), item, now), ops, key)
  {
    var tallied := k.(s := k.s.(stats := Tally(k.s.stats, hook.name, Raised)));
    if w.commitFirst {
      CommitKeeps(w, k, tallied, ops, key);
    } else {
      var queued := PushException(w, tallied, item, hook.name, error, now);
      CommitKeeps(w, k, queued.(s := TakenBack(queued.s, tallied.s.lasting)), ops, key);
    }
  }

  /**
   * However a hook that ran has ended, by consuming the item, handing it on, or raising, its work is kept.
   * One that could not be set up has none.
   */
  lemma HookWorkIsKept(w: World, k: Kernel, hook: Hook, ops: seq<HookOp>, ending: HookEnding, item: WorkItem, now: nat, key: string)
    ensures Kept(w, k, Settle(w, k, hook, Plan.Ran(ops, ending), item, now), ops, key)
  {
    match ending {
      case Consume => CommitKeeps(w, k, k.(s := k.s.(stats := Tally(k.s.stats, hook.name, Consumed))), ops, key);
      case Pass(_, _) => CommitKeeps(w, k, k.(s := k.s.(stats := Tally(k.s.stats, hook.name, PassedOn))), ops, key);
      case Raise(error) => RaisedKeeps(w, k, hook, ops, error, item, now, key);
    }
  }
}
