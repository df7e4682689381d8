/**
 * Subscriber registry and the arm-then-check wait (src/http_server.rs `SubscriberRegistry`,
 * `SubscriberGuard`, the message filter of `handle_sse`).
 */
module Subscribers {
  import opened Base

  /** What a live subscription holds: its pattern without the trailing star, and whether it had one. */
  datatype Guard = Guard(key: string, isPrefix: bool)

  predicate EndsWithStar(pattern: string) {
    pattern != "" && pattern[|pattern| - 1] == '*'
  }

  function GuardOf(pattern: string): Guard {
    if EndsWithStar(pattern) then Guard(pattern[..|pattern| - 1], true) else Guard(pattern, false)
  }

  /** The stream filter of one subscription, as the SSE handler writes it. */
  predicate StreamPasses(pattern: string, chatId: string) {
    var prefix := if EndsWithStar(pattern) then Some(pattern[..|pattern| - 1]) else None;
    match prefix case Some(p) => p <= chatId case None => chatId == pattern
  }

  predicate Passes(g: Guard, chatId: string) {
    if g.isPrefix then g.key <= chatId else g.key == chatId
  }

  type Counts = map<string, nat>

  function Incremented(m: Counts, key: string): Counts {
    m[key := (if key in m then m[key] else 0) + 1]
  }

  /** An entry whose count reaches zero is removed. */
  function Decremented(m: Counts, key: string): Counts {
    if key !in m || m[key] == 0 then m
    else if m[key] == 1 then m - {key}
    else m[key := m[key] - 1]
  }

  predicate Reaches(exact: Counts, prefix: Counts, chatId: string) {
    chatId in exact || exists p | p in prefix :: p <= chatId
  }

  /** The map holds exactly the keys of the bag, with their multiplicity; no count is zero. */
  ghost predicate Counted(m: Counts, bag: multiset<string>) {
    forall k :: (k in m <==> k in bag) && (k in m ==> m[k] == bag[k])
  }

  lemma IncrementCounted(m: Counts, bag: multiset<string>, key: string)
    requires Counted(m, bag)
    ensures Counted(Incremented(m, key), bag + multiset{key})
  {}

  lemma DecrementCounted(m: Counts, bag: multiset<string>, key: string)
    requires Counted(m, bag) && key in bag
    ensures m[key] >= 1 && Counted(Decremented(m, key), bag - multiset{key})
  {}

  /** The live guards, by kind. */
  datatype Live = Live(exact: multiset<string>, prefix: multiset<string>)

  function Holding(l: Live, g: Guard): Live {
    if g.isPrefix then l.(prefix := l.prefix + multiset{g.key}) else l.(exact := l.exact + multiset{g.key})
  }

  function Releasing(l: Live, g: Guard): Live {
    if g.isPrefix then l.(prefix := l.prefix - multiset{g.key}) else l.(exact := l.exact - multiset{g.key})
  }

  predicate Holds(l: Live, g: Guard) {
    g.key in if g.isPrefix then l.prefix else l.exact
  }

  /** Some live guard passes the message. */
  ghost predicate Reachable(l: Live, chatId: string) {
    exists g :: Holds(l, g) && Passes(g, chatId)
  }

  class SubscriberRegistry {
    var exact: Counts
    var prefix: Counts
    ghost var live: Live

    ghost predicate Valid()
      reads this
    {
      Counted(exact, live.exact) && Counted(prefix, live.prefix)
    }

    constructor ()
      ensures Valid() && live == Live(multiset{}, multiset{})
    {
      exact, prefix, live := map[], map[], Live(multiset{}, multiset{});
    }

    method Register(pattern: string) returns (guard: Guard)
      requires Valid()
      modifies this
      ensures Valid() && guard == GuardOf(pattern) && live == Holding(old(live), guard)
    {
      if EndsWithStar(pattern) {
        var key := pattern[..|pattern| - 1];
        IncrementCounted(prefix, live.prefix, key);
        prefix := prefix[key := (if key in prefix then prefix[key] else 0) + 1];
        guard := Guard(key, true);
      } else {
        IncrementCounted(exact, live.exact, pattern);
        exact := exact[pattern := (if pattern in exact then exact[pattern] else 0) + 1];
        guard := Guard(pattern, false);
      }
      live := Holding(live, guard);
    }

    /** A guard is dropped once, so it is still live; its count is then positive and cannot underflow. */
    method Drop(guard: Guard)
      requires Valid() && Holds(live, guard)
      modifies this
      ensures Valid() && live == Releasing(old(live), guard)
    {
      if guard.isPrefix {
        DecrementCounted(prefix, live.prefix, guard.key);
        prefix := DropCount(prefix, guard.key);
      } else {
        DecrementCounted(exact, live.exact, guard.key);
        exact := DropCount(exact, guard.key);
      }
      live := Releasing(live, guard);
    }

    static method DropCount(m: Counts, key: string) returns (left: Counts)
      requires key in m && m[key] >= 1
      ensures left == Decremented(m, key)
    {
      left := m[key := m[key] - 1];
      if left[key] == 0 {
        left := left - {key};
        assert left == m - {key};
      }
    }

    method WouldReach(chatId: string) returns (yes: bool)
      requires Valid()
      ensures yes <==> Reachable(live, chatId)
    {
      if chatId in exact {
        assert Holds(live, Guard(chatId, false)) && Passes(Guard(chatId, false), chatId);
        return true;
      }
      var keys := prefix.Keys;
      while keys != {}
        invariant keys <= prefix.Keys
        invariant forall p :: p in prefix && p !in keys ==> !(p <= chatId)
        decreases |keys|
      {
        var p :| p in keys;
        if p <= chatId {
          assert Holds(live, Guard(p, true)) && Passes(Guard(p, true), chatId);
          return true;
        }
        keys := keys - {p};
      }
      forall g | Holds(live, g) ensures !Passes(g, chatId) {
        if g.isPrefix { assert g.key in prefix; } else { assert g.key in exact; }
      }
      return false;
    }
  }

  // ---- Any sequence of streams opening and closing ----

  datatype StreamOp = Open(pattern: string) | Close(pattern: string)

  /** The registry's two maps after a sequence of registrations and guard drops. */
  datatype Index = Index(exact: Counts, prefix: Counts)

  function RunIndex(ops: seq<StreamOp>): Index {
    if ops == [] then Index(map[], map[])
    else
      var x, g := RunIndex(ops[..|ops| - 1]), GuardOf(ops[|ops| - 1].pattern);
      match ops[|ops| - 1]
      case Open(_) =>
        if g.isPrefix then x.(prefix := Incremented(x.prefix, g.key)) else x.(exact := Incremented(x.exact, g.key))
      case Close(_) =>
        if g.isPrefix then x.(prefix := Decremented(x.prefix, g.key)) else x.(exact := Decremented(x.exact, g.key))
  }

  /** The simple thing: the bag of patterns whose stream is open. */
  function Streams(ops: seq<StreamOp>): multiset<string> {
    if ops == [] then multiset{}
    else match ops[|ops| - 1]
      case Open(pattern) => Streams(ops[..|ops| - 1]) + multiset{pattern}
      case Close(pattern) => Streams(ops[..|ops| - 1]) - multiset{pattern}
  }

  function RunLive(ops: seq<StreamOp>): Live {
    if ops == [] then Live(multiset{}, multiset{})
    else match ops[|ops| - 1]
      case Open(pattern) => Holding(RunLive(ops[..|ops| - 1]), GuardOf(pattern))
      case Close(pattern) => Releasing(RunLive(ops[..|ops| - 1]), GuardOf(pattern))
  }

  /** A stream closes only if it was open. */
  ghost predicate WellBracketed(ops: seq<StreamOp>) {
    ops != [] ==>
      && WellBracketed(ops[..|ops| - 1])
      && (ops[|ops| - 1].Close? ==> ops[|ops| - 1].pattern in Streams(ops[..|ops| - 1]))
  }

  /** Distinct patterns have distinct guards, so counting guards counts patterns. */
  lemma GuardOfInjective(p: string, q: string)
    ensures GuardOf(p) == GuardOf(q) <==> p == q
  {
    if GuardOf(p) == GuardOf(q) && EndsWithStar(p) {
      assert p == p[..|p| - 1] + "*";
      assert q == q[..|q| - 1] + "*";
    }
  }

  function CountOf(l: Live, g: Guard): nat {
    if g.isPrefix then l.prefix[g.key] else l.exact[g.key]
  }

  /** Every guard of the bag is a pattern's, and is held as often as the pattern is subscribed. */
  ghost predicate CountsStreams(l: Live, streams: multiset<string>) {
    && (forall p :: CountOf(l, GuardOf(p)) == streams[p])
    && (forall g :: Holds(l, g) ==> exists p :: GuardOf(p) == g)
  }

  lemma HoldingCounts(l: Live, streams: multiset<string>, q: string)
    requires CountsStreams(l, streams)
    ensures CountsStreams(Holding(l, GuardOf(q)), streams + multiset{q})
  {
    forall p ensures CountOf(Holding(l, GuardOf(q)), GuardOf(p)) == (streams + multiset{q})[p] {
      GuardOfInjective(p, q);
      assert CountOf(l, GuardOf(p)) == streams[p];
    }
    forall g | Holds(Holding(l, GuardOf(q)), g) ensures exists p :: GuardOf(p) == g {
      if !Holds(l, g) { assert GuardOf(q) == g; }
    }
  }

  lemma ReleasingCounts(l: Live, streams: multiset<string>, q: string)
    requires CountsStreams(l, streams)
    ensures CountsStreams(Releasing(l, GuardOf(q)), streams - multiset{q})
  {
    forall p ensures CountOf(Releasing(l, GuardOf(q)), GuardOf(p)) == (streams - multiset{q})[p] {
      GuardOfInjective(p, q);
      assert CountOf(l, GuardOf(p)) == streams[p];
    }
    forall g | Holds(Releasing(l, GuardOf(q)), g) ensures exists p :: GuardOf(p) == g {
      assert Holds(l, g);
    }
  }

  lemma {:induction false} GuardsCountStreams(ops: seq<StreamOp>)
    ensures CountsStreams(RunLive(ops), Streams(ops))
  {
    if ops != [] {
      var before := ops[..|ops| - 1];
      GuardsCountStreams(before);
      match ops[|ops| - 1] {
        case Open(q) => HoldingCounts(RunLive(before), Streams(before), q);
        case Close(q) => ReleasingCounts(RunLive(before), Streams(before), q);
      }
    }
  }

  lemma {:induction false} IndexCountsLive(ops: seq<StreamOp>)
    requires WellBracketed(ops)
    ensures Counted(RunIndex(ops).exact, RunLive(ops).exact) && Counted(RunIndex(ops).prefix, RunLive(ops).prefix)
  {
    if ops != [] {
      var op, before := ops[|ops| - 1], ops[..|ops| - 1];
      var g, l, x := GuardOf(op.pattern), RunLive(before), RunIndex(before);
      IndexCountsLive(before);
      GuardsCountStreams(before);
      if op.Open? {
        if g.isPrefix { IncrementCounted(x.prefix, l.prefix, g.key); } else { IncrementCounted(x.exact, l.exact, g.key); }
      } else {
        assert CountOf(l, g) == Streams(before)[op.pattern] > 0;
        if g.isPrefix { DecrementCounted(x.prefix, l.prefix, g.key); } else { DecrementCounted(x.exact, l.exact, g.key); }
      }
    }
  }

  /** The guard kept in the index and the filter kept in the stream pass the same messages. */
  lemma GuardMatchesStream(pattern: string, chatId: string)
    ensures Passes(GuardOf(pattern), chatId) <==> StreamPasses(pattern, chatId)
  {}

  lemma ReachesIff(x: Index, l: Live, chatId: string)
    requires Counted(x.exact, l.exact) && Counted(x.prefix, l.prefix)
    ensures Reaches(x.exact, x.prefix, chatId) <==> Reachable(l, chatId)
  {
    if chatId in x.exact { assert Holds(l, Guard(chatId, false)) && Passes(Guard(chatId, false), chatId); }
    if k :| k in x.prefix && k <= chatId { assert Holds(l, Guard(k, true)) && Passes(Guard(k, true), chatId); }
    if g :| Holds(l, g) && Passes(g, chatId) {
      if g.isPrefix { assert g.key in x.prefix; } else { assert g.key in x.exact; }
    }
  }

  lemma ReachableIff(l: Live, streams: multiset<string>, chatId: string)
    requires CountsStreams(l, streams)
    ensures Reachable(l, chatId) <==> exists p :: p in streams && StreamPasses(p, chatId)
  {
    if g :| Holds(l, g) && Passes(g, chatId) {
      var p :| GuardOf(p) == g;
      GuardMatchesStream(p, chatId);
      assert CountOf(l, GuardOf(p)) == streams[p];
    }
    if p :| p in streams && StreamPasses(p, chatId) {
      GuardMatchesStream(p, chatId);
      assert CountOf(l, GuardOf(p)) == streams[p];
      assert Holds(l, GuardOf(p));
    }
  }

  /**
   * After any sequence of streams opening and closing, a message is reported reachable exactly when
   * some open stream's own filter passes it, and no count in the index is zero.
   */
  lemma IndexAgreesWithStreams(ops: seq<StreamOp>, chatId: string)
    requires WellBracketed(ops)
    ensures var x := RunIndex(ops);
            && (Reaches(x.exact, x.prefix, chatId) <==> exists p :: p in Streams(ops) && StreamPasses(p, chatId))
            && (forall k :: k in x.exact ==> x.exact[k] > 0) && (forall k :: k in x.prefix ==> x.prefix[k] > 0)
  {
    GuardsCountStreams(ops);
    IndexCountsLive(ops);
    ReachesIff(RunIndex(ops), RunLive(ops), chatId);
    ReachableIff(RunLive(ops), Streams(ops), chatId);
  }

  // ---- Waiting for a subscriber: every interleaving ----

  /** A waiter arms (notes the notification generation), then checks, then parks until notified. */
  datatype WaiterState = Idle | Armed(gen: nat) | Parked(gen: nat) | Returned(found: bool)
  datatype Waiter = Waiter(chatId: string, state: WaiterState)

  /** `notifying` holds the registrars between their insertion and their notification. */
  datatype Shared = Shared(live: Live, generation: nat, notifying: map<nat, Guard>, waiters: map<nat, Waiter>)

  datatype WaitStep =
    | Insert(registrar: nat, pattern: string)
    | Notify(registrar: nat)
    | DropGuard(guard: Guard)
    | Start(waiter: nat, chatId: string)
    | Arm(waiter: nat)
    | Check(waiter: nat)
    | Wake(waiter: nat)
    | TimeOut(waiter: nat)

  ghost function Advance(s: Shared, w: nat, state: WaiterState): Shared
    requires w in s.waiters
  {
    s.(waiters := s.waiters[w := s.waiters[w].(state := state)])
  }

  /** One step of one task; a step that is not enabled changes nothing. */
  ghost function Do(s: Shared, step: WaitStep): Shared {
    match step
    case Insert(r, pattern) =>
      if r in s.notifying then s
      else s.(live := Holding(s.live, GuardOf(pattern)), notifying := s.notifying[r := GuardOf(pattern)])
    case Notify(r) =>
      if r !in s.notifying then s else s.(generation := s.generation + 1, notifying := s.notifying - {r})
    case DropGuard(g) => s.(live := Releasing(s.live, g))
    case Start(w, chatId) => if w in s.waiters then s else s.(waiters := s.waiters[w := Waiter(chatId, Idle)])
    case Arm(w) => if w in s.waiters && s.waiters[w].state.Idle? then Advance(s, w, Armed(s.generation)) else s
    case Check(w) =>
      if w in s.waiters && s.waiters[w].state.Armed? then
        Advance(s, w, if Reachable(s.live, s.waiters[w].chatId) then Returned(true) else Parked(s.waiters[w].state.gen))
      else s
    case Wake(w) => if Notified(s, w) then Advance(s, w, Idle) else s
    case TimeOut(w) =>
      if w in s.waiters && s.waiters[w].state.Parked? && !Notified(s, w) then Advance(s, w, Returned(false)) else s
  }

  /** The waiter is parked and a notification came after it armed: its next poll finds it ready. */
  predicate Notified(s: Shared, w: nat) {
    w in s.waiters && s.waiters[w].state.Parked? && s.waiters[w].state.gen < s.generation
  }

  ghost function DoAll(s: Shared, steps: seq<WaitStep>): Shared {
    if steps == [] then s else Do(DoAll(s, steps[..|steps| - 1]), steps[|steps| - 1])
  }

  ghost predicate NotifierFor(s: Shared, chatId: string) {
    exists r :: r in s.notifying && Passes(s.notifying[r], chatId)
  }

  /** A parked waiter not yet notified has nothing to find, or its notification is on its way. */
  ghost predicate NoLostWakeup(s: Shared, w: nat) {
    w in s.waiters ==>
      var waiter := s.waiters[w];
      && (waiter.state.Armed? || waiter.state.Parked? ==> waiter.state.gen <= s.generation)
      && (waiter.state.Parked? && !Notified(s, w) ==>
            !Reachable(s.live, waiter.chatId) || NotifierFor(s, waiter.chatId))
  }

  lemma InsertKeepsWakeup(s: Shared, w: nat, r: nat, pattern: string)
    requires NoLostWakeup(s, w)
    ensures NoLostWakeup(Do(s, Insert(r, pattern)), w)
  {
    var next, g := Do(s, Insert(r, pattern)), GuardOf(pattern);
    if r !in s.notifying && w in s.waiters && Reachable(next.live, s.waiters[w].chatId) {
      var chatId := s.waiters[w].chatId;
      if Passes(g, chatId) {
        assert r in next.notifying && Passes(next.notifying[r], chatId);
      } else {
        var h :| Holds(next.live, h) && Passes(h, chatId);
        assert Holds(s.live, h);
        if q :| q in s.notifying && Passes(s.notifying[q], chatId) {
          assert q in next.notifying && Passes(next.notifying[q], chatId);
        }
      }
    }
  }

  lemma DropKeepsWakeup(s: Shared, w: nat, g: Guard)
    requires NoLostWakeup(s, w)
    ensures NoLostWakeup(Do(s, DropGuard(g)), w)
  {
    if w in s.waiters && Reachable(Releasing(s.live, g), s.waiters[w].chatId) {
      var h :| Holds(Releasing(s.live, g), h) && Passes(h, s.waiters[w].chatId);
      assert Holds(s.live, h);
    }
  }

  /** The waiters' own steps, and notifications. */
  lemma WaiterKeepsWakeup(s: Shared, w: nat, step: WaitStep)
    requires NoLostWakeup(s, w) && !step.Insert? && !step.DropGuard?
    ensures NoLostWakeup(Do(s, step), w)
  {}

  lemma StepKeepsWakeup(s: Shared, w: nat, step: WaitStep)
    requires NoLostWakeup(s, w)
    ensures NoLostWakeup(Do(s, step), w)
  {
    match step {
      case Insert(r, pattern) => InsertKeepsWakeup(s, w, r, pattern);
      case DropGuard(g) => DropKeepsWakeup(s, w, g);
      case _ => WaiterKeepsWakeup(s, w, step);
    }
  }

  /**
   * No lost wake-up, in every interleaving of registrars, dropped guards and waiters: a parked waiter
   * that has not been notified is unreachable, or a registrar it is waiting for has yet to notify.
   */
  lemma {:induction false} NeverLosesWakeup(s: Shared, steps: seq<WaitStep>, w: nat)
    requires w !in s.waiters
    ensures NoLostWakeup(DoAll(s, steps), w)
  {
    if steps != [] {
      NeverLosesWakeup(s, steps[..|steps| - 1], w);
      StepKeepsWakeup(DoAll(s, steps[..|steps| - 1]), w, steps[|steps| - 1]);
    }
  }

  /** So a reachable parked waiter is ready to wake, or becomes so when one pending registrar notifies. */
  lemma ReachableWaiterWakes(s: Shared, steps: seq<WaitStep>, w: nat)
    requires w !in s.waiters
    requires var t := DoAll(s, steps);
             w in t.waiters && t.waiters[w].state.Parked? && Reachable(t.live, t.waiters[w].chatId)
    ensures var t := DoAll(s, steps);
            Notified(t, w) || exists r :: r in t.notifying && Notified(Do(t, Notify(r)), w)
  {
    NeverLosesWakeup(s, steps, w);
    var t := DoAll(s, steps);
    if !Notified(t, w) {
      var r :| r in t.notifying && Passes(t.notifying[r], t.waiters[w].chatId);
      assert Notified(Do(t, Notify(r)), w);
    }
  }

  /** The order matters: a waiter that checks before it arms can sleep through the only notification. */
  lemma CheckBeforeArmLosesWakeup(start: Shared, r: nat, w: nat, chatId: string)
    requires r !in start.notifying && w in start.waiters && start.waiters[w] == Waiter(chatId, Idle)
    requires start.notifying == map[] && !Reachable(start.live, chatId) && !EndsWithStar(chatId)
    ensures var arrived := Do(Do(start, Insert(r, chatId)), Notify(r));
            && w in arrived.waiters
            && !NoLostWakeup(Advance(arrived, w, Parked(arrived.generation)), w)
  {
    var inserted := Do(start, Insert(r, chatId));
    var arrived := Do(inserted, Notify(r));
    assert arrived.notifying == map[];
    var g := Guard(chatId, false);
    assert Holds(arrived.live, g) && Passes(g, chatId);
  }
}
