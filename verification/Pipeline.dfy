/** The hook pipeline as a ledger: what becomes of every item that is pushed (src/agent_loop.rs, `push_item`). */
module Pipelines {
  import opened Base
  import opened Ids
  import opened Items
  import opened Kernels
  import opened Ledgers
  import Q = WorkQueues
  import HT = HookTables
  import S = SseParsing

  /** What becomes of an item. */
  datatype Fate =
    | Command
    | Queued
    | Swallowed(hook: string)
    | Forwarded(hook: string, priority: u8, note: Option<string>)
    | Wrapped(hook: string, error: string)

  function PlanFate(hook: string, plan: Plan): Fate {
    match plan
    case InitFailed(error) => Wrapped(hook, error)
    case Ran(_, ending) =>
      match ending
      case Consume => Swallowed(hook)
      case Pass(priority, note) => Forwarded(hook, priority, note)
      case Raise(error) => Wrapped(hook, error)
  }

  function FateOf(w: World, s: Harness, item: WorkItem): Fate {
    if IsHooksCommand(item) then Command
    else match Matched(w, s, item)
      case None => Queued
      case Some(i) => PlanFate(s.hooks[i].name, w.plan(s.hooks[i], item, s.memory))
  }

  /** What a hook's note adds to the attachments. */
  function NoteOf(hook: string, note: Option<string>): seq<string> {
    match note case None => [] case Some(text) => ["hook:" + hook + ":" + text]
  }

  /** The item as the hook hands it on: its own but for the priority the hook gives it and the note. */
  ghost predicate HandedOn(queued: WorkItem, item: WorkItem, hook: string, priority: u8, note: Option<string>) {
    && queued.id == item.id && queued.time == item.time && queued.kind == item.kind
    && queued.priority == priority
    && queued.attachments == item.attachments + NoteOf(hook, note)
  }

  /** The item that tells of an exception: it holds the original whole, and is at least as urgent, and at least 8. */
  ghost predicate TellsOf(queued: WorkItem, item: WorkItem, hook: string, error: string, now: nat) {
    && queued.kind == HookException(hook, error, item)
    && queued.priority >= 8 && queued.priority >= item.priority && (queued.priority == 8 || queued.priority == item.priority)
    && queued.time == now && queued.attachments == []
  }

  /** The queue after the push, by fate: unchanged, or one item more, which carries the original. */
  ghost predicate QueueFollows(fate: Fate, before: seq<WorkItem>, after: seq<WorkItem>, item: WorkItem, now: nat) {
    match fate
    case Command => after == before
    case Swallowed(_) => after == before
    case Queued => after == Q.Insert(before, item)
    case Forwarded(hook, priority, note) =>
      exists queued :: HandedOn(queued, item, hook, priority, note) && after == Q.Insert(before, queued)
    case Wrapped(hook, error) => exists queued :: TellsOf(queued, item, hook, error, now) && after == Q.Insert(before, queued)
  }

  /** Which fate an item meets: a command's, or that of the first hook that accepts it, or none. */
  ghost predicate Fated(w: World, s: Harness, item: WorkItem, fate: Fate) {
    if item.kind.UserMessage? && "!hooks " <= item.kind.content then fate == Command
    else if forall i :: 0 <= i < |s.hooks| ==> !w.accepts(s.hooks[i], item) then fate == Queued
    else exists i :: AcceptsFirst(w, s.hooks, i, item) && Decides(s.hooks[i].name, w.plan(s.hooks[i], item, s.memory), fate)
  }

  ghost predicate AcceptsFirst(w: World, hooks: seq<Hook>, i: int, item: WorkItem) {
    0 <= i < |hooks| && w.accepts(hooks[i], item) && forall j :: 0 <= j < i ==> !w.accepts(hooks[j], item)
  }

  /** What a hook of that name does with an item, as its plan has it. */
  ghost predicate Decides(hook: string, plan: Plan, fate: Fate) {
    match fate
    case Command => false
    case Queued => false
    case Swallowed(name) => name == hook && plan.Ran? && plan.ending == Consume
    case Forwarded(name, priority, note) => name == hook && plan.Ran? && plan.ending == Pass(priority, note)
    case Wrapped(name, error) => name == hook && (plan == InitFailed(error) || (plan.Ran? && plan.ending == Raise(error)))
  }

  lemma FateIsFated(w: World, s: Harness, item: WorkItem)
    ensures Fated(w, s, item, FateOf(w, s, item))
  {
    if !IsHooksCommand(item) && Matched(w, s, item).Some? {
      var i := Matched(w, s, item).value;
      assert AcceptsFirst(w, s.hooks, i, item) && Decides(s.hooks[i].name, w.plan(s.hooks[i], item, s.memory), FateOf(w, s, item));
    }
  }

  function Stat(stats: map<string, HookStats>, name: string): HookStats {
    if name in stats then stats[name] else HookStats(0, 0, 0, 0)
  }

  function Count(b: bool): nat {
    if b then 1 else 0
  }

  /** The counts of hook `name` after the push, by fate. */
  ghost predicate StatsFollow(fate: Fate, before: HookStats, after: HookStats, name: string) {
    && after.consumed == before.consumed + Count(fate.Swallowed? && fate.hook == name)
    && after.passed == before.passed + Count(fate.Forwarded? && fate.hook == name)
    && after.raised == before.raised + Count(fate.Wrapped? && fate.hook == name)
    && after.fired == before.fired + Count((fate.Swallowed? || fate.Forwarded? || fate.Wrapped?) && fate.hook == name)
  }

  /** One push, against the fate of its item. */
  ghost predicate Follows(fate: Fate, before: Harness, after: Harness, item: WorkItem, now: nat, name: string) {
    && QueueFollows(fate, before.queue, after.queue, item, now)
    && (!fate.Command? ==> StatsFollow(fate, Stat(before.stats, name), Stat(after.stats, name), name))
    && |after.moves| == |before.moves| + Count(!fate.Command? && !fate.Swallowed?)
  }

  lemma WrappedFollows(w: World, k: Kernel, item: WorkItem, hook: string, error: string, now: nat)
    ensures QueueFollows(Wrapped(hook, error), k.s.queue, PushException(w, k, item, hook, error, now).s.queue, item, now)
  {
    var queued := ExceptionItem(w.draw(k.s.counter), item, hook, error, now);
    assert TellsOf(queued, item, hook, error, now);
  }

  lemma RaisedFollows(w: World, k: Kernel, t: HookTxn, item: WorkItem, hook: string, error: string, now: nat)
    ensures var after := PushRaised(w, k, t, item, hook, error, now);
            && QueueFollows(Wrapped(hook, error), k.s.queue, after.s.queue, item, now)
            && after.s.stats == k.s.stats && |after.s.moves| == |k.s.moves| + 1
  {
    WrappedFollows(w, k, item, hook, error, now);
    WrappedFollows(w, ApplyHookCommit(w, k, t), item, hook, error, now);
  }

  /** One tally, seen from any hook name. */
  lemma TallyFollows(stats: map<string, HookStats>, hook: string, v: Verdict, fate: Fate, name: string)
    requires match v
             case Consumed => fate == Swallowed(hook)
             case PassedOn => fate.Forwarded? && fate.hook == hook
             case Raised => fate.Wrapped? && fate.hook == hook
    ensures StatsFollow(fate, Stat(stats, name), Stat(Tally(stats, hook, v), name), name)
  {}

  lemma InitFailedFollows(w: World, k: Kernel, hook: Hook, error: string, item: WorkItem, now: nat, name: string)
    ensures Follows(Wrapped(hook.name, error), k.s, Settle(w, k, hook, InitFailed(error), item, now).s, item, now, name)
  {
    TallyFollows(k.s.stats, hook.name, Raised, Wrapped(hook.name, error), name);
    WrappedFollows(w, k.(s := k.s.(stats := Tally(k.s.stats, hook.name, Raised))), item, hook.name, error, now);
  }

  lemma RaiseFollows(w: World, k: Kernel, hook: Hook, ops: seq<HookOp>, error: string, item: WorkItem, now: nat, name: string)
    ensures Follows(Wrapped(hook.name, error), k.s, Settle(w, k, hook, Ran(ops, Raise(error)), item, now).s, item, now, name)
  {
    TallyFollows(k.s.stats, hook.name, Raised, Wrapped(hook.name, error), name);
    var tallied := k.(s := k.s.(stats := Tally(k.s.stats, hook.name, Raised)));
    RaisedFollows(w, tallied, HookRun(w, OpenHook(k.s), ops), item, hook.name, error, now);
  }

  lemma QuietFollows(w: World, k: Kernel, hook: Hook, ops: seq<HookOp>, ending: HookEnding, item: WorkItem, now: nat, name: string)
    requires !ending.Raise?
    ensures Follows(PlanFate(hook.name, Ran(ops, ending)), k.s, Settle(w, k, hook, Ran(ops, ending), item, now).s, item, now, name)
  {
    if ending.Pass? {
      assert HandedOn(Annotated(item, hook.name, ending.priority, ending.note), item, hook.name, ending.priority, ending.note);
    }
    TallyFollows(k.s.stats, hook.name, if ending.Consume? then Consumed else PassedOn, PlanFate(hook.name, Ran(ops, ending)), name);
  }

  lemma SettleFollows(w: World, k: Kernel, hook: Hook, plan: Plan, item: WorkItem, now: nat, name: string)
    ensures Follows(PlanFate(hook.name, plan), k.s, Settle(w, k, hook, plan, item, now).s, item, now, name)
  {
    match plan {
      case InitFailed(error) => InitFailedFollows(w, k, hook, error, item, now, name);
      case Ran(ops, ending) =>
        if ending.Raise? { RaiseFollows(w, k, hook, ops, ending.error, item, now, name); }
        else { QuietFollows(w, k, hook, ops, ending, item, now, name); }
    }
  }

  /**
   * Every pushed item meets exactly one fate, and the first hook that accepts it decides which. It is
   * queued as it is; handed on, its own but for the priority and the note that the hook gives it; wrapped,
   * whole, in an exception item of priority at least 8; swallowed; or it is a `!hooks` command. In the
   * first three cases the queue gains that one item, in the others none.
   */
  lemma OneFate(w: World, k: Kernel, item: WorkItem, now: nat, name: string)
    ensures Fated(w, k.s, item, FateOf(w, k.s, item))
    ensures Follows(FateOf(w, k.s, item), k.s, PushItem(w, k, item, now).s, item, now, name)
  {
    FateIsFated(w, k.s, item);
    if !IsHooksCommand(item) && Matched(w, k.s, item).Some? {
      var hook := k.s.hooks[Matched(w, k.s, item).value];
      SettleFollows(w, k, hook, w.plan(hook, item, k.s.memory), item, now, name);
    }
  }

  // ---- Any number of arrivals ----

  function Fates(w: World, k: Kernel, items: seq<WorkItem>, now: nat): seq<Fate> {
    if items == [] then []
    else
      var before := items[..|items| - 1];
      Fates(w, k, before, now) + [FateOf(w, PushAll(w, k, before, now).s, items[|items| - 1])]
  }

  function Tallied(fates: seq<Fate>, counts: Fate -> bool): nat {
    if fates == [] then 0 else Tallied(fates[..|fates| - 1], counts) + Count(counts(fates[|fates| - 1]))
  }

  lemma TalliedSnoc(fates: seq<Fate>, fate: Fate, counts: Fate -> bool)
    ensures Tallied(fates + [fate], counts) == Tallied(fates, counts) + Count(counts(fate))
  {
    assert (fates + [fate])[..|fates|] == fates;
  }

  function IsSwallowed(name: string): Fate -> bool {
    (f: Fate) => f.Swallowed? && f.hook == name
  }

  function IsForwarded(name: string): Fate -> bool {
    (f: Fate) => f.Forwarded? && f.hook == name
  }

  function IsWrapped(name: string): Fate -> bool {
    (f: Fate) => f.Wrapped? && f.hook == name
  }

  function LeavesQueue(): Fate -> bool {
    (f: Fate) => f.Command? || f.Swallowed?
  }

  /**
   * Conservation. Over any number of arrivals the queue gains one item for each that was neither a command
   * nor swallowed; and, unless a command came among them, each hook's counts grow by exactly the fates it
   * decided.
   */
  lemma {:induction false} ArrivalsConserved(w: World, k: Kernel, items: seq<WorkItem>, now: nat, name: string)
    ensures var after, fates := PushAll(w, k, items, now), Fates(w, k, items, now);
            && |fates| == |items|
            && |after.s.moves| + Tallied(fates, LeavesQueue()) == |k.s.moves| + |items|
    ensures var after, fates := PushAll(w, k, items, now), Fates(w, k, items, now);
            (forall f :: f in fates ==> !f.Command?) ==>
              && Stat(after.s.stats, name).consumed == Stat(k.s.stats, name).consumed + Tallied(fates, IsSwallowed(name))
              && Stat(after.s.stats, name).passed == Stat(k.s.stats, name).passed + Tallied(fates, IsForwarded(name))
              && Stat(after.s.stats, name).raised == Stat(k.s.stats, name).raised + Tallied(fates, IsWrapped(name))
  {
    if items != [] {
      var before, item := items[..|items| - 1], items[|items| - 1];
      var mid := PushAll(w, k, before, now);
      var fates, fate := Fates(w, k, before, now), FateOf(w, mid.s, item);
      ArrivalsConserved(w, k, before, now, name);
      OneFate(w, mid, item, now, name);
      TalliedSnoc(fates, fate, LeavesQueue());
      TalliedSnoc(fates, fate, IsSwallowed(name));
      TalliedSnoc(fates, fate, IsForwarded(name));
      TalliedSnoc(fates, fate, IsWrapped(name));
      assert fate in Fates(w, k, items, now);
      assert forall f :: f in fates ==> f in Fates(w, k, items, now);
    }
  }

  // ---- The `!hooks` command and the telemetry ----

  /** A command gives one reply, in its own chat; beyond the hooks and their counts it touches nothing. */
  ghost predicate Replies(k: Kernel, after: Kernel, chatId: string, reply: HookReply) {
    && after.log == k.log + [Reply(chatId, reply)]
    && after == k.(log := after.log, s := k.s.(hooks := after.s.hooks, stats := after.s.stats))
  }

  predicate Blank(s: string) {
    forall i :: 0 <= i < |s| ==> S.IsSpace(s[i])
  }

  /** Neither begins nor ends with a space. */
  predicate IsTight(s: string) {
    s != "" ==> !S.IsSpace(s[0]) && !S.IsSpace(s[|s| - 1])
  }

  lemma {:induction false} TrimEndPadded(s: string, back: string)
    requires Blank(back) && (s != "" ==> !S.IsSpace(s[|s| - 1]))
    ensures S.TrimEnd(s + back) == s
  {
    if back == [] {
      assert s + back == s;
    } else {
      assert (s + back)[..|s + back| - 1] == s + back[..|back| - 1];
      TrimEndPadded(s, back[..|back| - 1]);
    }
  }

  lemma {:induction false} TrimStartPadded(front: string, rest: string)
    requires Blank(front)
    ensures S.TrimStart(front + rest) == S.TrimStart(rest)
  {
    if front == [] {
      assert front + rest == rest;
    } else {
      assert (front + rest)[1..] == front[1..] + rest;
      TrimStartPadded(front[1..], rest);
    }
  }

  lemma TrimPadded(front: string, s: string, back: string)
    requires Blank(front) && IsTight(s) && Blank(back)
    ensures S.Trim(front + s + back) == s
  {
    assert front + s + back == front + (s + back);
    TrimStartPadded(front, s + back);
    if s == "" {
      TrimStartPadded(back, "");
      assert back + "" == back && s + back == back;
    } else {
      assert (s + back)[0] == s[0];
      TrimEndPadded(s, back);
    }
  }

  /** A user's `!hooks` message is a command in its chat, whatever spaces stand around it, and never meets a hook. */
  lemma MessageIsCommand(w: World, k: Kernel, item: WorkItem, front: string, cmd: string, back: string, now: nat)
    requires item.kind.UserMessage? && item.kind.content == "!hooks " + (front + cmd + back)
    requires Blank(front) && IsTight(cmd) && Blank(back)
    ensures PushItem(w, k, item, now) == HooksCommand(k, cmd, item.kind.chatId)
  {
    TrimPadded(front, cmd, back);
    assert item.kind.content[|HOOKS_PREFIX|..] == front + cmd + back;
  }

  lemma DisableIsWithout(k: Kernel, name: string, chatId: string)
    ensures var after := HooksCommand(k, DISABLE + name, chatId);
            && after.s.stats == k.s.stats
            && after.s.hooks == HT.Without(k.s.hooks, name)
            && Replies(k, after, chatId, if |after.s.hooks| < |k.s.hooks| then Disabled(name) else NoSuchHook(name))
  {
    assert (DISABLE + name)[|DISABLE|..] == name;
  }

  /** `disable` of a hook that is there takes it; the others keep their order, and all hooks their counts. */
  lemma DisableTakesOne(k: Kernel, p: nat, chatId: string)
    requires HT.UniqueNames(k.s.hooks) && p < |k.s.hooks|
    ensures var name := k.s.hooks[p].name;
            var after := HooksCommand(k, DISABLE + name, chatId);
            && after.s.hooks == RemoveAt(k.s.hooks, p) && after.s.stats == k.s.stats
            && Replies(k, after, chatId, Disabled(name))
  {
    var name := k.s.hooks[p].name;
    DisableIsWithout(k, name, chatId);
    forall i | 0 <= i < |k.s.hooks| && i != p ensures k.s.hooks[i].name != name {
      assert k.s.hooks[if i < p then i else p].name != k.s.hooks[if i < p then p else i].name;
    }
    HT.WithoutTakesOne(k.s.hooks, name, p);
    assert |RemoveAt(k.s.hooks, p)| < |k.s.hooks|;
  }

  /** `disable` of any other name changes nothing. */
  lemma DisableNobody(k: Kernel, name: string, chatId: string)
    requires forall i :: 0 <= i < |k.s.hooks| ==> k.s.hooks[i].name != name
    ensures var after := HooksCommand(k, DISABLE + name, chatId); after.s == k.s && Replies(k, after, chatId, NoSuchHook(name))
  {
    DisableIsWithout(k, name, chatId);
    HT.WithoutNobody(k.s.hooks, name);
  }

  /** `clear` takes all hooks and all counts; afterwards every item is queued as it is, until a hook is registered. */
  lemma ClearTakesAll(w: World, k: Kernel, chatId: string, item: WorkItem, now: nat)
    ensures var after := HooksCommand(k, "clear", chatId);
            && Replies(k, after, chatId, Cleared(|k.s.hooks|))
            && after.s.hooks == [] && (forall name :: Stat(after.s.stats, name) == HookStats(0, 0, 0, 0))
            && (!IsHooksCommand(item) ==> PushItem(w, after, item, now).s.queue == Q.Insert(k.s.queue, item))
  {}

  /** No other command touches a hook or a count. */
  lemma OthersOnlyReply(k: Kernel, cmd: string, chatId: string)
    requires !(DISABLE <= cmd) && cmd != "clear"
    ensures HooksCommand(k, cmd, chatId).s == k.s
    ensures Replies(k, HooksCommand(k, cmd, chatId), chatId, if cmd == "list" then Listing(k.s.hooks) else Usage)
  {}

  /**
   * On waking there is one alert exactly if some hook has fired since the last; afterwards all counts are
   * zero, so that a second look reports nothing. Nothing else of the agent changes but the id counter.
   */
  lemma TelemetryReports(w: World, k: Kernel, now: nat, later: nat)
    requires Balanced(k.s.stats)
    ensures var after := FlushTelemetry(w, k, now);
            && (|after.s.history| == |k.s.history| + 1 <==> exists name :: Stat(k.s.stats, name).fired > 0)
            && (after.s.history == k.s.history || after.s.history == k.s.history + [SystemAlert(w.draw(k.s.counter), now, w.telemetry(k.s.stats))])
            && after == k.(s := k.s.(history := after.s.history, stats := after.s.stats, counter := after.s.counter,
                               issued := after.s.issued, lasting := after.s.lasting))
            && (forall name :: Stat(after.s.stats, name) == HookStats(0, 0, 0, 0))
            && after.s.stats.Keys == k.s.stats.Keys
            && FlushTelemetry(w, after, later) == after
  {
    if AnyFired(k.s.stats) {
      var name :| name in k.s.stats && k.s.stats[name].fired > 0;
      assert Stat(k.s.stats, name).fired > 0;
    }
  }
}
