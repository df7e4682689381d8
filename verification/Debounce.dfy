/** Batching file and mail events: debounce, with a forced flush (src/watchers/mod.rs, `debounce_loop`). */
module Debouncing {
  import opened Base

  datatype Delays = Delays(debounce: nat, force: nat)

  /** The loop's variables. */
  datatype State<T> = State(pending: seq<T>, debounceAt: Option<nat>, forceAt: Option<nat>)

  /**
   * One pass of the loop: what woke it, and the clock readings it takes. `armedForce` and
   * `armedDebounce` are read when an event is taken, `now` at the end of the pass.
   */
  datatype Pass<T> = Pass(event: Option<T>, armedForce: nat, armedDebounce: nat, now: nat)

  predicate Reached(deadline: Option<nat>, now: nat) {
    deadline.Some? && now >= deadline.value
  }

  function Take<T>(c: Delays, s: State<T>, p: Pass<T>): State<T> {
    match p.event
    case None => s
    case Some(ev) =>
      State(s.pending + [ev],
            Some(p.armedDebounce + c.debounce),
            if s.pending == [] then Some(p.armedForce + c.force) else s.forceAt)
  }

  predicate ShouldFlush<T>(s: State<T>, now: nat) {
    |s.pending| > 0 && (Reached(s.debounceAt, now) || Reached(s.forceAt, now))
  }

  /** The loop's variables after the passes so far. */
  function Run<T>(c: Delays, passes: seq<Pass<T>>): State<T> {
    if passes == [] then State([], None, None)
    else
      var p := passes[|passes| - 1];
      var s := Take(c, Run(c, passes[..|passes| - 1]), p);
      if ShouldFlush(s, p.now) then State([], None, None) else s
  }

  /** What the last pass flushed. */
  function LastFlush<T>(c: Delays, passes: seq<Pass<T>>): seq<T>
    requires passes != []
  {
    var p := passes[|passes| - 1];
    var s := Take(c, Run(c, passes[..|passes| - 1]), p);
    if ShouldFlush(s, p.now) then s.pending else []
  }

  /** The batches posted so far. */
  function Flushed<T>(c: Delays, passes: seq<Pass<T>>): seq<seq<T>> {
    if passes == [] then []
    else
      var earlier := Flushed(c, passes[..|passes| - 1]);
      var batch := LastFlush(c, passes);
      if batch == [] then earlier else earlier + [batch]
  }

  /** The passes that took an event. */
  function Arrivals<T>(passes: seq<Pass<T>>): seq<Pass<T>> {
    if passes == [] then []
    else
      var p := passes[|passes| - 1];
      Arrivals(passes[..|passes| - 1]) + if p.event.Some? then [p] else []
  }

  function Received<T>(passes: seq<Pass<T>>): seq<T> {
    if passes == [] then []
    else
      var p := passes[|passes| - 1];
      Received(passes[..|passes| - 1]) + if p.event.Some? then [p.event.value] else []
  }

  /** The clock never runs backwards. */
  ghost predicate Clocked<T>(passes: seq<Pass<T>>) {
    && (forall i :: 0 <= i < |passes| ==> passes[i].armedForce <= passes[i].armedDebounce <= passes[i].now)
    && (forall i, j :: 0 <= i < j < |passes| ==> passes[i].now <= passes[j].armedForce)
  }

  /** The function itself: takes events until the channel closes, then returns with whatever is pending. */
  method DebounceLoop<T>(c: Delays, passes: seq<Pass<T>>) returns (flushed: seq<seq<T>>, lost: seq<T>)
    ensures flushed == Flushed(c, passes)
    ensures lost == Run(c, passes).pending
    ensures Flatten(flushed) + lost == Received(passes)
  {
    flushed := [];
    var pending: seq<T> := [];
    var debounceAt: Option<nat> := None;
    var forceAt: Option<nat> := None;
    for k := 0 to |passes|
      invariant State(pending, debounceAt, forceAt) == Run(c, passes[..k])
      invariant flushed == Flushed(c, passes[..k])
    {
      var p := passes[k];
      assert passes[..k + 1][..k] == passes[..k];
      if p.event.Some? {
        if |pending| == 0 {
          forceAt := Some(p.armedForce + c.force);
        }
        pending := pending + [p.event.value];
        debounceAt := Some(p.armedDebounce + c.debounce);
      }
      var shouldFlush := |pending| > 0 && (Reached(debounceAt, p.now) || Reached(forceAt, p.now));
      if shouldFlush {
        flushed := flushed + [pending];
        pending := [];
        debounceAt := None;
        forceAt := None;
      }
    }
    assert passes[..|passes|] == passes;
    lost := pending;
    NothingLostNorReordered(c, passes);
  }

  /** Flushed batches and pending events together are the received events, in order, each once. */
  lemma {:induction false} NothingLostNorReordered<T>(c: Delays, passes: seq<Pass<T>>)
    ensures Flatten(Flushed(c, passes)) + Run(c, passes).pending == Received(passes)
    ensures forall b :: b in Flushed(c, passes) ==> b != []
  {
    if passes != [] {
      var prefix := passes[..|passes| - 1];
      NothingLostNorReordered(c, prefix);
      var earlier, batch := Flushed(c, prefix), LastFlush(c, passes);
      FlattenSnoc(earlier, batch);
      assert Flatten(earlier) + (Run(c, prefix).pending + Received(passes)[|Received(prefix)|..])
          == Received(prefix) + Received(passes)[|Received(prefix)|..];
    }
  }

  lemma {:induction false} ArrivalsAreReceived<T>(passes: seq<Pass<T>>)
    ensures |Arrivals(passes)| == |Received(passes)|
    ensures forall i :: 0 <= i < |Arrivals(passes)| ==> Arrivals(passes)[i].event == Some(Received(passes)[i])
    ensures forall a :: a in Arrivals(passes) ==> a in passes
  {
    if passes != [] { ArrivalsAreReceived(passes[..|passes| - 1]); }
  }

  /**
   * What the two deadlines mean after any run: both are set exactly when something is pending; the
   * force deadline is counted from the oldest pending event (so it never moves between flushes), the
   * debounce deadline from the newest; and at the end of every pass neither has been reached.
   */
  lemma {:induction false} DeadlinesOfPending<T>(c: Delays, passes: seq<Pass<T>>)
    ensures var s := Run(c, passes);
            (s.pending == [] <==> s.debounceAt.None?) && (s.pending == [] <==> s.forceAt.None?)
    ensures |Run(c, passes).pending| <= |Arrivals(passes)|
    ensures var s, arrivals := Run(c, passes), Arrivals(passes);
            s.pending != [] ==>
              s.forceAt == Some(arrivals[|arrivals| - |s.pending|].armedForce + c.force)
    ensures var s, arrivals := Run(c, passes), Arrivals(passes);
            s.pending != [] ==>
              s.debounceAt == Some(arrivals[|arrivals| - 1].armedDebounce + c.debounce)
    ensures var s := Run(c, passes);
            s.pending != [] ==> passes != [] && passes[|passes| - 1].now < s.forceAt.value
    ensures var s := Run(c, passes);
            s.pending != [] ==> passes != [] && passes[|passes| - 1].now < s.debounceAt.value
  {
    if passes != [] {
      DeadlinesOfPending(c, passes[..|passes| - 1]);
    }
  }

  /**
   * A pass flushes exactly when, of what is then waiting, the newest event is `debounce` old or the
   * oldest is `force` old.
   */
  lemma FlushesExactlyWhenDue<T>(c: Delays, passes: seq<Pass<T>>, p: Pass<T>)
    ensures var waiting := Take(c, Run(c, passes), p).pending;
            var arrivals := Arrivals(passes + [p]);
            |waiting| <= |arrivals| &&
            (LastFlush(c, passes + [p]) != [] <==>
             waiting != [] &&
             (p.now >= arrivals[|arrivals| - 1].armedDebounce + c.debounce ||
              p.now >= arrivals[|arrivals| - |waiting|].armedForce + c.force))
    ensures LastFlush(c, passes + [p]) != [] ==> LastFlush(c, passes + [p]) == Take(c, Run(c, passes), p).pending
  {
    assert (passes + [p])[..|passes|] == passes;
    DeadlinesOfPending(c, passes);
  }

  /** Wake-ups are late by at most `slack`, and taking an event takes at most that long. */
  ghost predicate Timely<T>(c: Delays, passes: seq<Pass<T>>, slack: nat) {
    forall k :: 0 <= k < |passes| ==> TimelyPass(Run(c, passes[..k]), passes[k], slack)
  }

  predicate TimelyPass<T>(s: State<T>, p: Pass<T>, slack: nat) {
    && (s.debounceAt.Some? ==> p.now <= s.debounceAt.value + slack)
    && (s.forceAt.Some? ==> p.now <= s.forceAt.value + slack)
    && (p.event.Some? ==> p.now <= p.armedForce + slack)
  }

  /**
   * Latency. Under timely wake-ups, the pass that flushes an event ends at most `force + slack` after
   * the event arrived; and an event still waiting at the end of a pass is younger than `force`.
   */
  lemma {:induction false} FlushedInTime<T>(c: Delays, passes: seq<Pass<T>>, p: Pass<T>, slack: nat, i: nat)
    requires Clocked(passes + [p]) && Timely(c, passes + [p], slack)
    requires var arrivals, waiting := Arrivals(passes + [p]), Take(c, Run(c, passes), p).pending;
             |arrivals| - |waiting| <= i < |arrivals|
    ensures LastFlush(c, passes + [p]) != [] ==>
              p.now <= Arrivals(passes + [p])[i].armedForce + c.force + slack
    ensures LastFlush(c, passes + [p]) == [] ==>
              p.now < Arrivals(passes + [p])[i].armedForce + c.force
  {
    var all := passes + [p];
    assert all[..|passes|] == passes && all[|passes|] == p;
    assert TimelyPass(Run(c, all[..|passes|]), all[|passes|], slack);
    DeadlinesOfPending(c, passes);
    DeadlinesOfPending(c, all);
    var arrivals, waiting := Arrivals(all), Take(c, Run(c, passes), p).pending;
    ArrivalsInOrder(all, |arrivals| - |waiting|, i);
  }

  lemma {:induction false} ArrivalsInOrder<T>(passes: seq<Pass<T>>, i: nat, j: nat)
    requires Clocked(passes) && i <= j < |Arrivals(passes)|
    ensures Arrivals(passes)[i].armedForce <= Arrivals(passes)[j].armedForce
  {
    var prefix := passes[..|passes| - 1];
    if j < |Arrivals(prefix)| {
      ArrivalsInOrder(prefix, i, j);
    } else if i < j {
      ArrivalsAreReceived(prefix);
      var a := Arrivals(prefix)[i];
      assert a in prefix;
    }
  }
}
