/**
 * A turn is atomic although it is not: the script runs call by call on a copy, the commit goes to the
 * registry once for each recipient, kill, fork request and message, and events arrive and other agents act
 * on the registry all the while. The result is that of the turn taken whole, given what others did before
 * each of its operations on the registry, with the arrivals admitted afterwards. A turn that is cancelled
 * while it waits is the exception: its commit stands without its record.
 */
module Interleavings {
  import opened Base
  import opened Ids
  import opened Items
  import opened Kernels
  import opened Turns
  import opened Frames
  import R = Registries

  /** How far the turn has got: calls made, recipients looked up, signals sent, requests made, messages sent, things performed. */
  datatype Phase =
    | Scripting(t: Txn, calls: nat)
    | LookingUp(t: Txn, n: nat)
    | Signalling(t: Txn, n: nat)
    | Forking(t: Txn, n: nat)
    | Telling(t: Txn, n: nat)
    | Settling(fx: Effects, n: nat)
    | Over
    | Cancelled(fx: Effects, n: nat)

  /**
   * One turn under way. `consumed` are the arrivals applied before it was over, `others` what other agents
   * did before each of its operations on the registry so far, `gap` what they have done since the last one.
   */
  datatype Micro = Micro(k: Kernel, phase: Phase, consumed: seq<Event>, others: Others, gap: seq<R.OthersOp>)

  /** `Consult` is the turn's next operation on the registry, `Proceed` what lies between two kinds of them. */
  datatype Tick =
    | Arrive(event: Event)
    | OthersAct(op: R.OthersOp)
    | Call
    | Finish
    | Consult
    | Proceed
    | Await
    | Perform
    | Wrap
    | Cancel

  const NO_OTHERS := Others([], [], [], [])

  function ModeOf(c: Config, k: Kernel): Mode {
    Mode(k.compaction.active, c.depth)
  }

  /** The copy is taken; from here on the script sees nothing else. */
  function Open(k: Kernel, resp: Response): Micro {
    Micro(Begin(k, resp), Scripting(Txn(Begin(k, resp).s, NO_EFFECTS), 0), [], NO_OTHERS, [])
  }

  /** `compaction_script` is read back when the script has ended. */
  function Close(m: Mode, t: Txn, ending: ScriptEnding): Txn {
    if m.compaction && ending.Finished? && ending.appended != "" then t.(fx := t.fx.(appends := [ending.appended])) else t
  }

  function Kept(k: Kernel, fx: Effects): Kernel {
    k.(doneResult := if fx.doneCalled then fx.doneResult else k.doneResult)
  }

  function Fail(w: World, k: Kernel, resp: Response, error: string, now: nat): Kernel {
    Conclude(w, k, resp.code, ErrorOutput(error), true, now)
  }

  // ---- The steps ----

  function ArriveTick(m: Micro, e: Event): Micro {
    m.(k := m.k.(inbox := m.k.inbox + [e]))
  }

  function OthersTick(m: Micro, op: R.OthersOp): Micro {
    m.(k := WithRegistry(m.k, R.OthersDo(m.k.registry, op)), gap := m.gap + [op])
  }

  function CallTick(w: World, c: Config, resp: Response, now: nat, m: Micro): Micro {
    if m.phase.Scripting? && m.phase.calls < |resp.script.ops| then
      var t := ScriptStep(w, ModeOf(c, m.k), now, m.phase.t, resp.script.ops[m.phase.calls]);
      m.(phase := Scripting(t, m.phase.calls + 1))
    else m
  }

  function FinishTick(w: World, c: Config, resp: Response, now: nat, m: Micro): Micro {
    if m.phase.Scripting? && m.phase.calls == |resp.script.ops| then
      var t := Close(ModeOf(c, m.k), m.phase.t, resp.script.ending);
      match resp.script.ending
      case Aborted(error) => m.(k := Fail(w, m.k, resp, error, now), phase := Over)
      case Finished(_, _) => m.(k := Kept(m.k, t.fx), phase := LookingUp(t, 0))
    else m
  }

  function LookUp(w: World, resp: Response, now: nat, m: Micro, t: Txn, n: nat): Micro
    requires n < |t.fx.notes|
  {
    var name, looked := t.fx.notes[n].recipient, m.(others := m.others.(validating := m.others.validating + [m.gap]), gap := []);
    if name in m.k.registry then looked.(phase := LookingUp(t, n + 1))
    else looked.(k := Fail(w, m.k, resp, UnknownAgent(name), now), phase := Over)
  }

  function Signal(m: Micro, t: Txn, n: nat): Micro
    requires n < |t.fx.childKills|
  {
    var name := t.fx.childKills[n];
    m.(k := Emit(m.k, [KillSent(name, R.Route(m.k.registry, name))]), phase := Signalling(t, n + 1),
       others := m.others.(killing := m.others.killing + [m.gap]), gap := [])
  }

  function Ask(w: World, c: Config, now: nat, m: Micro, t: Txn, n: nat): Micro
    requires n < |t.fx.forks|
  {
    m.(k := ForkOne(w, c, m.k, t.fx.forks[n], now), phase := Forking(t, n + 1),
       others := m.others.(forking := m.others.forking + [m.gap]), gap := [])
  }

  function Tell(m: Micro, t: Txn, n: nat): Micro
    requires n < |t.fx.notes|
  {
    var note := t.fx.notes[n];
    m.(k := Emit(m.k, [RoutedBy(m.k.registry, note)]), phase := Telling(t, n + 1),
       others := m.others.(telling := m.others.telling + [m.gap]), gap := [])
  }

  function ConsultTick(w: World, c: Config, resp: Response, now: nat, m: Micro): Micro {
    match m.phase
    case LookingUp(t, n) => if n < |t.fx.notes| then LookUp(w, resp, now, m, t, n) else m
    case Signalling(t, n) => if n < |t.fx.childKills| then Signal(m, t, n) else m
    case Forking(t, n) => if n < |t.fx.forks| then Ask(w, c, now, m, t, n) else m
    case Telling(t, n) => if n < |t.fx.notes| then Tell(m, t, n) else m
    case _ => m
  }

  function Launch(w: World, now: nat, m: Micro, t: Txn): Micro {
    m.(k := LaunchAll(w, Install(m.k, t.s), t.fx.launches, now), phase := Signalling(t, 0))
  }

  function Show(w: World, now: nat, m: Micro, t: Txn): Micro {
    m.(k := QueueView(w, m.k, t.fx.views, now), phase := Forking(t, 0))
  }

  function Finalize(w: World, c: Config, resp: Response, now: nat, m: Micro, t: Txn): Micro {
    var sent := Emit(m.k, t.fx.messages + PinEffects(t.fx.pins, t.fx.unpins));
    m.(k := Closing(w, c, sent, t.fx, resp.compactionRun, now), phase := Settling(t.fx, 0))
  }

  function ProceedTick(w: World, c: Config, resp: Response, now: nat, m: Micro): Micro {
    match m.phase
    case LookingUp(t, n) => if n == |t.fx.notes| then Launch(w, now, m, t) else m
    case Signalling(t, n) => if n == |t.fx.childKills| then Show(w, now, m, t) else m
    case Forking(t, n) => if n == |t.fx.forks| then m.(phase := Telling(t, 0)) else m
    case Telling(t, n) => if n == |t.fx.notes| then Finalize(w, c, resp, now, m, t) else m
    case _ => m
  }

  /** The waiting part of the turn is over at once if the agent does not survive what it reads. */
  function AwaitTick(w: World, now: nat, m: Micro): Micro {
    if m.phase.Settling? && m.phase.n == 0 && Blocks(w, m.phase.fx.launches) && !m.k.crashed then
      var drained := Drain(w, m.k, now);
      m.(k := drained, consumed := m.consumed + m.k.inbox, phase := if drained.crashed then Over else m.phase)
    else m
  }

  function PerformTick(m: Micro): Micro {
    if m.phase.Settling? && m.phase.n < |Performed(m.phase.fx)| && !m.k.crashed then
      m.(k := Emit(m.k, [Performed(m.phase.fx)[m.phase.n]]), phase := Settling(m.phase.fx, m.phase.n + 1))
    else m
  }

  function WrapTick(w: World, resp: Response, now: nat, m: Micro): Micro {
    if m.phase.Settling? && m.phase.n == |Performed(m.phase.fx)| && resp.script.ending.Finished? && !m.k.crashed then
      m.(k := Recorded(w, m.k, resp, now), phase := Over)
    else m
  }

  /** Where shutdown can interrupt: while a process is waited for, and between the things to perform. */
  predicate Waiting(w: World, fx: Effects, n: nat) {
    (n == 0 && Blocks(w, fx.launches)) || n < |Performed(fx)|
  }

  function CancelTick(w: World, m: Micro): Micro {
    if m.phase.Settling? && Waiting(w, m.phase.fx, m.phase.n) then m.(phase := Cancelled(m.phase.fx, m.phase.n)) else m
  }

  /** One step of the turn, or of somebody else; a step out of turn changes nothing. */
  function Tock(w: World, c: Config, resp: Response, now: nat, m: Micro, tick: Tick): Micro {
    match tick
    case Arrive(event) => ArriveTick(m, event)
    case OthersAct(op) => OthersTick(m, op)
    case Call => CallTick(w, c, resp, now, m)
    case Finish => FinishTick(w, c, resp, now, m)
    case Consult => ConsultTick(w, c, resp, now, m)
    case Proceed => ProceedTick(w, c, resp, now, m)
    case Await => AwaitTick(w, now, m)
    case Perform => PerformTick(m)
    case Wrap => WrapTick(w, resp, now, m)
    case Cancel => CancelTick(w, m)
  }

  function Ticks(w: World, c: Config, resp: Response, now: nat, m: Micro, ticks: seq<Tick>): Micro {
    if ticks == [] then m
    else Tock(w, c, resp, now, Ticks(w, c, resp, now, m, ticks[..|ticks| - 1]), ticks[|ticks| - 1])
  }

  function Arrivals(ticks: seq<Tick>): seq<Event> {
    if ticks == [] then []
    else
      var last := ticks[|ticks| - 1];
      Arrivals(ticks[..|ticks| - 1]) + if last.Arrive? then [last.event] else []
  }

  // ---- The turn taken whole, as far as it has got ----

  function First<T>(s: seq<T>, n: nat): seq<T> {
    if n <= |s| then s[..n] else s
  }

  /** The turn with nothing in the channel: what it would do by itself. */
  function Alone(k: Kernel): Kernel {
    WithInbox(k, [])
  }

  /** Begun, and `n` recipients looked up. */
  function Found(base: Kernel, seen: Response, fx: Effects, n: nat): Kernel {
    WithRegistry(Kept(Begin(base, seen), fx), R.AsOf(base.registry, seen.others.validating, n))
  }

  function Launched(w: World, base: Kernel, seen: Response, t: Txn, now: nat): Kernel {
    LaunchAll(w, Install(Found(base, seen, t.fx, |t.fx.notes|), t.s), t.fx.launches, now)
  }

  function Shown(w: World, base: Kernel, seen: Response, t: Txn, now: nat): Kernel {
    QueueView(w, KillChildren(Launched(w, base, seen, t, now), t.fx.childKills, seen.others.killing), t.fx.views, now)
  }

  function Worked(w: World, c: Config, base: Kernel, seen: Response, t: Txn, now: nat): Kernel {
    ForkAll(w, c, Shown(w, base, seen, t, now), t.fx.forks, seen.others.forking, now)
  }

  function Committed(w: World, c: Config, base: Kernel, seen: Response, now: nat): Kernel {
    var t := Run(w, c, base, seen, now);
    Commit(w, c, Prepared(Begin(base, seen), seen, t.fx), t, seen, now)
  }

  function Settled(w: World, committed: Kernel, now: nat, consumed: seq<Event>, fx: Effects, n: nat): Kernel {
    Emit(ApplyEvents(w, committed, consumed, now), First(Performed(fx), n))
  }

  /** `seen` is the response with what others have done so far. */
  function Reached(w: World, c: Config, base: Kernel, seen: Response, now: nat, phase: Phase, consumed: seq<Event>): Kernel {
    match phase
    case Scripting(_, _) => Begin(base, seen)
    case LookingUp(t, n) => Found(base, seen, t.fx, n)
    case Signalling(t, n) => KillChildren(Launched(w, base, seen, t, now), First(t.fx.childKills, n), seen.others.killing)
    case Forking(t, n) => ForkAll(w, c, Shown(w, base, seen, t, now), First(t.fx.forks, n), seen.others.forking, now)
    case Telling(t, n) => Told(Worked(w, c, base, seen, t, now), First(t.fx.notes, n), seen.others.telling)
    case Settling(fx, n) => Settled(w, Committed(w, c, base, seen, now), now, consumed, fx, n)
    case Over => Turn(w, c, WithInbox(base, consumed), seen, now)
    case Cancelled(fx, n) => Settled(w, Committed(w, c, base, seen, now), now, consumed, fx, n)
  }

  ghost predicate Heard(o: Others, validating: nat, killing: nat, forking: nat, telling: nat) {
    |o.validating| == validating && |o.killing| == killing && |o.forking| == forking && |o.telling| == telling
  }

  ghost predicate Ended(w: World, c: Config, base: Kernel, seen: Response, now: nat, t: Txn) {
    seen.script.ending.Finished? && t == Run(w, c, base, seen, now)
  }

  ghost predicate Approved(w: World, c: Config, base: Kernel, seen: Response, now: nat, t: Txn) {
    Ended(w, c, base, seen, now, t) && Failure(w, c, base, seen, now).None?
  }

  ghost predicate AllKnown(registry: R.Registry, notes: seq<AgentNote>, between: R.Between, n: nat) {
    n <= |notes| && forall i :: 0 <= i < n ==> Known(registry, notes, between)[i]
  }

  ghost predicate SettlesOn(w: World, c: Config, base: Kernel, seen: Response, now: nat, consumed: seq<Event>, fx: Effects, n: nat) {
    && Failure(w, c, base, seen, now).None?
    && fx == Run(w, c, base, seen, now).fx
    && n <= |Performed(fx)|
    && (consumed != [] ==> Blocks(w, fx.launches))
  }

  /** What is true of the turn's own bookkeeping at each point. */
  ghost predicate Stands(w: World, c: Config, base: Kernel, seen: Response, now: nat, phase: Phase, consumed: seq<Event>) {
    match phase
    case Scripting(t, calls) =>
      && consumed == [] && seen.others == NO_OTHERS && calls <= |seen.script.ops|
      && t == Exec(w, ModeOf(c, base), now, Txn(Begin(base, seen).s, NO_EFFECTS), seen.script.ops[..calls])
    case LookingUp(t, n) =>
      && consumed == [] && Ended(w, c, base, seen, now, t) && Heard(seen.others, n, 0, 0, 0)
      && AllKnown(base.registry, t.fx.notes, seen.others.validating, n)
    case Signalling(t, n) =>
      && consumed == [] && Approved(w, c, base, seen, now, t)
      && n <= |t.fx.childKills| && Heard(seen.others, |t.fx.notes|, n, 0, 0)
    case Forking(t, n) =>
      && consumed == [] && Approved(w, c, base, seen, now, t)
      && n <= |t.fx.forks| && Heard(seen.others, |t.fx.notes|, |t.fx.childKills|, n, 0)
    case Telling(t, n) =>
      && consumed == [] && Approved(w, c, base, seen, now, t)
      && n <= |t.fx.notes| && Heard(seen.others, |t.fx.notes|, |t.fx.childKills|, |t.fx.forks|, n)
    case Settling(fx, n) => SettlesOn(w, c, base, seen, now, consumed, fx, n)
    case Over => consumed != [] ==> SettlesOn(w, c, base, seen, now, consumed, Run(w, c, base, seen, now).fx, 0)
    case Cancelled(fx, n) => SettlesOn(w, c, base, seen, now, consumed, fx, n) && Waiting(w, fx, n)
  }

  /** The real state is the one reached, but for the channel, and for what others have done since. */
  ghost predicate Matches(m: Micro, x: Kernel) {
    m.k == WithOuter(x, m.k.inbox, R.OthersDoAll(x.registry, m.gap))
  }

  function Heeding(resp: Response, others: Others): Response {
    resp.(others := others)
  }

  ghost predicate Sits(w: World, c: Config, base: Kernel, resp: Response, now: nat, m: Micro) {
    var seen := Heeding(resp, m.others);
    Stands(w, c, base, seen, now, m.phase, m.consumed) && Matches(m, Reached(w, c, base, seen, now, m.phase, m.consumed))
  }

  /** Where a turn that started in `k` stands, after `arrivals`. */
  ghost predicate Tracks(w: World, c: Config, k: Kernel, resp: Response, now: nat, arrivals: seq<Event>, m: Micro) {
    m.consumed + m.k.inbox == k.inbox + arrivals && Sits(w, c, Alone(k), resp, now, m)
  }

  // ---- Steps of others ----

  lemma ArriveSits(w: World, c: Config, base: Kernel, resp: Response, now: nat, m: Micro, e: Event)
    requires Sits(w, c, base, resp, now, m)
    ensures Sits(w, c, base, resp, now, ArriveTick(m, e))
  {}

  lemma OthersSit(w: World, c: Config, base: Kernel, resp: Response, now: nat, m: Micro, op: R.OthersOp)
    requires Sits(w, c, base, resp, now, m)
    ensures Sits(w, c, base, resp, now, OthersTick(m, op))
  {
    var x := Reached(w, c, base, Heeding(resp, m.others), now, m.phase, m.consumed);
    OthersMatch(m, x, op);
  }

  lemma OthersMatch(m: Micro, x: Kernel, op: R.OthersOp)
    requires Matches(m, x)
    ensures Matches(OthersTick(m, op), x)
  {
    R.OthersSnoc(x.registry, m.gap, op);
  }

  // ---- The script ----

  lemma ExecSnoc(w: World, m: Mode, now: nat, t: Txn, ops: seq<ScriptOp>, n: nat)
    requires n < |ops|
    ensures Exec(w, m, now, t, ops[..n + 1]) == ScriptStep(w, m, now, Exec(w, m, now, t, ops[..n]), ops[n])
  {
    assert ops[..n + 1][..n] == ops[..n];
  }

  lemma CallStands(w: World, c: Config, base: Kernel, seen: Response, now: nat, t: Txn, calls: nat)
    requires Stands(w, c, base, seen, now, Scripting(t, calls), []) && calls < |seen.script.ops|
    ensures Stands(w, c, base, seen, now, Scripting(ScriptStep(w, ModeOf(c, base), now, t, seen.script.ops[calls]), calls + 1), [])
  {
    ExecSnoc(w, ModeOf(c, base), now, Txn(Begin(base, seen).s, NO_EFFECTS), seen.script.ops, calls);
  }

  lemma CallMatches(m: Micro, x: Kernel, t: Txn, calls: nat)
    requires Matches(m, x)
    ensures Matches(m.(phase := Scripting(t, calls + 1)), x)
  {}

  lemma CallSits(w: World, c: Config, base: Kernel, resp: Response, now: nat, m: Micro)
    requires Sits(w, c, base, resp, now, m) && m.phase.Scripting?
    ensures Sits(w, c, base, resp, now, CallTick(w, c, resp, now, m))
  {
    var t, calls := m.phase.t, m.phase.calls;
    if calls < |resp.script.ops| {
      assert ModeOf(c, m.k) == ModeOf(c, base);
      CallStands(w, c, base, Heeding(resp, m.others), now, t, calls);
      CallMatches(m, Begin(base, Heeding(resp, m.others)), ScriptStep(w, ModeOf(c, base), now, t, resp.script.ops[calls]), calls);
    }
  }

  lemma ScriptIsRun(w: World, c: Config, base: Kernel, seen: Response, now: nat, t: Txn)
    requires t == Exec(w, ModeOf(c, base), now, Txn(Begin(base, seen).s, NO_EFFECTS), seen.script.ops)
    ensures Close(ModeOf(c, base), t, seen.script.ending) == Run(w, c, base, seen, now)
  {}

  lemma FailOuter(w: World, k: Kernel, resp: Response, error: string, now: nat, b: seq<Event>, r: R.Registry)
    ensures Fail(w, WithOuter(k, b, r), resp, error, now) == WithOuter(Fail(w, k, resp, error, now), b, r)
    ensures Fail(w, k, resp, error, now).registry == k.registry
  {}

  lemma AbortedTurn(w: World, c: Config, k: Kernel, seen: Response, now: nat)
    requires seen.script.ending.Aborted?
    ensures Turn(w, c, k, seen, now) == Fail(w, Begin(k, seen), seen, seen.script.ending.error, now)
  {}

  lemma FinishSits(w: World, c: Config, base: Kernel, resp: Response, now: nat, m: Micro)
    requires Sits(w, c, base, resp, now, m) && m.phase.Scripting? && base.inbox == []
    ensures Sits(w, c, base, resp, now, FinishTick(w, c, resp, now, m))
  {
    if m.phase.calls == |resp.script.ops| {
      var seen := Heeding(resp, m.others);
      assert resp.script.ops[..m.phase.calls] == resp.script.ops;
      ScriptIsRun(w, c, base, seen, now, m.phase.t);
      match resp.script.ending {
        case Aborted(error) =>
          AbortedTurn(w, c, base, seen, now);
          FailOuter(w, Begin(base, seen), resp, error, now, m.k.inbox, m.k.registry);
          assert WithInbox(base, []) == base;
        case Finished(_, _) => KeptSits(w, c, base, resp, now, m, Run(w, c, base, seen, now));
      }
    }
  }

  lemma KeptSits(w: World, c: Config, base: Kernel, resp: Response, now: nat, m: Micro, t: Txn)
    requires Sits(w, c, base, resp, now, m) && m.phase.Scripting? && resp.script.ending.Finished?
    requires t == Run(w, c, base, Heeding(resp, m.others), now)
    ensures Sits(w, c, base, resp, now, m.(k := Kept(m.k, t.fx), phase := LookingUp(t, 0)))
  {
    assert R.AsOf(base.registry, [], 0) == base.registry;
  }

  // ---- Looking recipients up ----

  lemma KnownEarlier(registry: R.Registry, notes: seq<AgentNote>, between: R.Between, ops: seq<R.OthersOp>, i: nat)
    requires i < |between| && i < |notes|
    ensures Known(registry, notes, between + [ops])[i] == Known(registry, notes, between)[i]
  {
    R.ViewAt(registry, between, |notes|, i);
    R.ViewAt(registry, between + [ops], |notes|, i);
    R.AsOfEarlier(registry, between, [ops], i + 1);
  }

  lemma KnownNow(registry: R.Registry, notes: seq<AgentNote>, between: R.Between, ops: seq<R.OthersOp>)
    requires |between| < |notes|
    ensures var n := |between|;
            Known(registry, notes, between + [ops])[n] <==> notes[n].recipient in R.OthersDoAll(R.AsOf(registry, between, n), ops)
  {
    R.ViewAt(registry, between + [ops], |notes|, |between|);
    R.AsOfSnoc(registry, between, ops);
  }

  lemma AllKnownNext(registry: R.Registry, notes: seq<AgentNote>, between: R.Between, ops: seq<R.OthersOp>)
    requires AllKnown(registry, notes, between, |between|) && |between| < |notes|
    ensures AllKnown(registry, notes, between + [ops], |between|)
    ensures notes[|between|].recipient in R.OthersDoAll(R.AsOf(registry, between, |between|), ops)
            ==> AllKnown(registry, notes, between + [ops], |between| + 1)
  {
    forall i | 0 <= i < |between| ensures Known(registry, notes, between + [ops])[i] { KnownEarlier(registry, notes, between, ops, i); }
    KnownNow(registry, notes, between, ops);
  }

  lemma MissingNow(registry: R.Registry, notes: seq<AgentNote>, between: R.Between, ops: seq<R.OthersOp>)
    requires AllKnown(registry, notes, between, |between|) && |between| < |notes|
    requires notes[|between|].recipient !in R.OthersDoAll(R.AsOf(registry, between, |between|), ops)
    ensures Missing(registry, notes, between + [ops]) == Some(|between|)
  {
    AllKnownNext(registry, notes, between, ops);
    KnownNow(registry, notes, between, ops);
    MissingAt(registry, notes, between + [ops], |between|);
  }

  lemma MissingLookedUp(registry: R.Registry, notes: seq<AgentNote>, between: R.Between, n: nat)
    requires Missing(registry, notes, between) == Some(n)
    ensures Unknown(registry, notes, between) == Some(notes[n].recipient)
    ensures LookedUp(registry, notes, between) == R.AsOf(registry, between, n + 1)
  {}

  /** The first recipient that is not known fails the turn; the registry is as it was looked at. */
  lemma UnknownFails(registry: R.Registry, notes: seq<AgentNote>, between: R.Between, ops: seq<R.OthersOp>, view: R.Registry)
    requires AllKnown(registry, notes, between, |between|) && |between| < |notes|
    requires view == R.OthersDoAll(R.AsOf(registry, between, |between|), ops) && notes[|between|].recipient !in view
    ensures Unknown(registry, notes, between + [ops]) == Some(notes[|between|].recipient)
    ensures LookedUp(registry, notes, between + [ops]) == view
  {
    MissingNow(registry, notes, between, ops);
    MissingLookedUp(registry, notes, between + [ops], |between|);
    R.AsOfSnoc(registry, between, ops);
  }

  lemma RejectedTurn(w: World, c: Config, k: Kernel, seen: Response, now: nat, error: string)
    requires seen.script.ending.Finished? && Failure(w, c, k, seen, now) == Some(error)
    ensures Turn(w, c, k, seen, now) == Fail(w, Prepared(Begin(k, seen), seen, Run(w, c, k, seen, now).fx), seen, error, now)
  {}

  /** The turn that fails at its `n`th recipient, from what has been found. */
  lemma LookUpFailsTurn(w: World, c: Config, base: Kernel, resp: Response, now: nat, o: Others, gap: seq<R.OthersOp>, t: Txn, n: nat)
    requires Stands(w, c, base, Heeding(resp, o), now, LookingUp(t, n), []) && n < |t.fx.notes|
    requires t.fx.notes[n].recipient !in R.OthersDoAll(R.AsOf(base.registry, o.validating, n), gap)
    ensures var view := R.OthersDoAll(R.AsOf(base.registry, o.validating, n), gap);
            Turn(w, c, base, Heeding(resp, o.(validating := o.validating + [gap])), now)
            == Fail(w, WithRegistry(Kept(Begin(base, resp), t.fx), view), resp, UnknownAgent(t.fx.notes[n].recipient), now)
  {
    var seen := Heeding(resp, o.(validating := o.validating + [gap]));
    UnknownFails(base.registry, t.fx.notes, o.validating, gap, R.OthersDoAll(R.AsOf(base.registry, o.validating, n), gap));
    RunHeeds(w, c, base, resp, o, seen.others, now);
    RejectedTurn(w, c, base, seen, now, UnknownAgent(t.fx.notes[n].recipient));
    PreparedView(base, resp, seen, t.fx);
  }

  lemma PreparedView(base: Kernel, resp: Response, seen: Response, fx: Effects)
    requires seen == Heeding(resp, seen.others) && resp.script.ending.Finished?
    ensures Prepared(Begin(base, seen), seen, fx)
            == WithRegistry(Kept(Begin(base, resp), fx), LookedUp(base.registry, fx.notes, seen.others.validating))
  {}

  lemma LookUpFails(w: World, c: Config, base: Kernel, resp: Response, now: nat, m: Micro, t: Txn, n: nat)
    requires Sits(w, c, base, resp, now, m) && m.phase == LookingUp(t, n) && base.inbox == []
    requires n < |t.fx.notes| && t.fx.notes[n].recipient !in m.k.registry
    ensures Sits(w, c, base, resp, now, LookUp(w, resp, now, m, t, n))
  {
    var found := WithRegistry(Kept(Begin(base, resp), t.fx), m.k.registry);
    LookUpFailsTurn(w, c, base, resp, now, m.others, m.gap, t, n);
    FailOuter(w, found, resp, UnknownAgent(t.fx.notes[n].recipient), now, m.k.inbox, m.k.registry);
    assert WithInbox(base, []) == base;
  }

  lemma FoundNext(m: Micro, base: Kernel, seen: Response, next: Response, fx: Effects)
    requires var n := |seen.others.validating|; Matches(m, Found(base, seen, fx, n))
    requires next == seen.(others := seen.others.(validating := seen.others.validating + [m.gap]))
    ensures Matches(m.(gap := []), Found(base, next, fx, |seen.others.validating| + 1))
  {
    R.AsOfSnoc(base.registry, seen.others.validating, m.gap);
  }

  lemma LookUpStands(w: World, c: Config, base: Kernel, resp: Response, now: nat, o: Others, gap: seq<R.OthersOp>, t: Txn, n: nat)
    requires Stands(w, c, base, Heeding(resp, o), now, LookingUp(t, n), []) && n < |t.fx.notes|
    requires t.fx.notes[n].recipient in R.OthersDoAll(R.AsOf(base.registry, o.validating, n), gap)
    ensures Stands(w, c, base, Heeding(resp, o.(validating := o.validating + [gap])), now, LookingUp(t, n + 1), [])
  {
    AllKnownNext(base.registry, t.fx.notes, o.validating, gap);
    RunHeeds(w, c, base, resp, o, o.(validating := o.validating + [gap]), now);
  }

  lemma RunHeeds(w: World, c: Config, base: Kernel, resp: Response, a: Others, b: Others, now: nat)
    ensures Run(w, c, base, Heeding(resp, a), now) == Run(w, c, base, Heeding(resp, b), now)
  {}

  lemma LookUpFinds(w: World, c: Config, base: Kernel, resp: Response, now: nat, m: Micro, t: Txn, n: nat)
    requires Sits(w, c, base, resp, now, m) && m.phase == LookingUp(t, n)
    requires n < |t.fx.notes| && t.fx.notes[n].recipient in m.k.registry
    ensures Sits(w, c, base, resp, now, LookUp(w, resp, now, m, t, n))
  {
    var seen := Heeding(resp, m.others);
    FoundNext(m, base, seen, Heeding(resp, LookUp(w, resp, now, m, t, n).others), t.fx);
    LookUpStands(w, c, base, resp, now, m.others, m.gap, t, n);
  }

  // ---- Between two kinds of operations ----

  lemma LaunchKeepsRegistry(w: World, k: Kernel, reqs: seq<LaunchRequest>, now: nat)
    ensures LaunchAll(w, k, reqs, now).registry == k.registry
  {
    LaunchAllOuter(w, k, reqs, now, k.inbox, k.registry);
    assert WithOuter(k, k.inbox, k.registry) == k;
  }

  lemma AllFound(w: World, c: Config, base: Kernel, seen: Response, now: nat, t: Txn)
    requires Ended(w, c, base, seen, now, t) && AllKnown(base.registry, t.fx.notes, seen.others.validating, |t.fx.notes|)
    ensures Approved(w, c, base, seen, now, t)
  {
    assert Missing(base.registry, t.fx.notes, seen.others.validating).None?;
  }

  lemma LaunchSits(w: World, c: Config, base: Kernel, resp: Response, now: nat, m: Micro, t: Txn)
    requires Sits(w, c, base, resp, now, m) && m.phase == LookingUp(t, |t.fx.notes|)
    ensures Sits(w, c, base, resp, now, Launch(w, now, m, t))
  {
    var seen := Heeding(resp, m.others);
    var installed := Install(Found(base, seen, t.fx, |t.fx.notes|), t.s);
    AllFound(w, c, base, seen, now, t);
    LaunchAllOuter(w, installed, t.fx.launches, now, m.k.inbox, m.k.registry);
    LaunchKeepsRegistry(w, installed, t.fx.launches, now);
    NothingSignalled(Launched(w, base, seen, t, now), t.fx.childKills);
  }

  lemma NothingSignalled(k: Kernel, names: seq<string>)
    ensures KillChildren(k, First(names, 0), []) == k
  {
    assert k.log + SentKills(k.registry, [], []) == k.log;
  }

  lemma ShowOuter(w: World, k: Kernel, paths: seq<string>, now: nat, b: seq<Event>, r: R.Registry)
    ensures QueueView(w, WithOuter(k, b, r), paths, now) == WithOuter(QueueView(w, k, paths, now), b, r)
    ensures QueueView(w, k, paths, now).registry == k.registry
  {
    PushNewOuter(w, k, 10, View(paths), [], now, b, r);
    PushNewOuter(w, k, 10, View(paths), [], now, k.inbox, k.registry);
    assert WithOuter(k, k.inbox, k.registry) == k;
  }

  lemma ShowSits(w: World, c: Config, base: Kernel, resp: Response, now: nat, m: Micro, t: Txn)
    requires Sits(w, c, base, resp, now, m) && m.phase == Signalling(t, |t.fx.childKills|)
    ensures Sits(w, c, base, resp, now, Show(w, now, m, t))
  {
    var seen := Heeding(resp, m.others);
    assert First(t.fx.childKills, |t.fx.childKills|) == t.fx.childKills;
    var signalled := KillChildren(Launched(w, base, seen, t, now), t.fx.childKills, seen.others.killing);
    ShowOuter(w, signalled, t.fx.views, now, m.k.inbox, m.k.registry);
    assert First(t.fx.forks, 0) == [];
  }

  lemma ForkedSits(w: World, c: Config, base: Kernel, resp: Response, now: nat, m: Micro, t: Txn)
    requires Sits(w, c, base, resp, now, m) && m.phase == Forking(t, |t.fx.forks|)
    ensures Sits(w, c, base, resp, now, m.(phase := Telling(t, 0)))
  {
    var seen := Heeding(resp, m.others);
    assert First(t.fx.forks, |t.fx.forks|) == t.fx.forks;
    NothingTold(Worked(w, c, base, seen, t, now), t.fx.notes);
  }

  lemma NothingTold(k: Kernel, notes: seq<AgentNote>)
    ensures Told(k, First(notes, 0), []) == k
  {
    assert k.log + RoutedNotes(k.registry, [], []) == k.log;
  }

  // ---- The other operations on the registry ----

  /** What others do after the recipients have been looked up does not bear on whether the turn fails. */
  lemma SameRun(w: World, c: Config, base: Kernel, resp: Response, a: Others, b: Others, now: nat)
    requires a.validating == b.validating
    ensures Run(w, c, base, Heeding(resp, a), now) == Run(w, c, base, Heeding(resp, b), now)
    ensures Failure(w, c, base, Heeding(resp, a), now) == Failure(w, c, base, Heeding(resp, b), now)
  {}

  /** Nor does what they do later bear on an earlier stage. */
  lemma SameStages(w: World, c: Config, base: Kernel, resp: Response, t: Txn, a: Others, b: Others, now: nat)
    requires a.validating == b.validating
    ensures Launched(w, base, Heeding(resp, a), t, now) == Launched(w, base, Heeding(resp, b), t, now)
    ensures a.killing == b.killing ==> Shown(w, base, Heeding(resp, a), t, now) == Shown(w, base, Heeding(resp, b), t, now)
    ensures a.killing == b.killing && a.forking == b.forking ==>
              Worked(w, c, base, Heeding(resp, a), t, now) == Worked(w, c, base, Heeding(resp, b), t, now)
  {
    assert Found(base, Heeding(resp, a), t.fx, |t.fx.notes|) == Found(base, Heeding(resp, b), t.fx, |t.fx.notes|);
  }

  lemma SentNext(registry: R.Registry, names: seq<string>, between: R.Between, ops: seq<R.OthersOp>)
    requires |between| < |names|
    ensures var n := |between|;
            SentKills(registry, names[..n + 1], between + [ops])
            == SentKills(registry, names[..n], between) + [KillSent(names[n], R.Route(R.AsOf(registry, between + [ops], n + 1), names[n]))]
  {
    R.ViewsEarlier(registry, between, [ops], |between|);
  }

  lemma SignalNext(k: Kernel, names: seq<string>, between: R.Between, ops: seq<R.OthersOp>, view: R.Registry)
    requires |between| < |names| && view == R.OthersDoAll(R.AsOf(k.registry, between, |between|), ops)
    ensures var n := |between|;
            KillChildren(k, names[..n + 1], between + [ops])
            == Emit(WithRegistry(KillChildren(k, names[..n], between), view), [KillSent(names[n], R.Route(view, names[n]))])
  {
    var n := |between|;
    SentNext(k.registry, names, between, ops);
    R.AsOfSnoc(k.registry, between, ops);
    var last := [KillSent(names[n], R.Route(view, names[n]))];
    assert k.log + (SentKills(k.registry, names[..n], between) + last) == k.log + SentKills(k.registry, names[..n], between) + last;
  }

  lemma SignalMatches(m: Micro, k: Kernel, t: Txn, n: nat)
    requires n == |m.others.killing| < |t.fx.childKills|
    requires Matches(m, KillChildren(k, t.fx.childKills[..n], m.others.killing))
    ensures Matches(Signal(m, t, n), KillChildren(k, t.fx.childKills[..n + 1], m.others.killing + [m.gap]))
  {
    SignalNext(k, t.fx.childKills, m.others.killing, m.gap, m.k.registry);
  }

  lemma SignalStands(w: World, c: Config, base: Kernel, resp: Response, now: nat, o: Others, gap: seq<R.OthersOp>, t: Txn, n: nat)
    requires Stands(w, c, base, Heeding(resp, o), now, Signalling(t, n), []) && n < |t.fx.childKills|
    ensures Stands(w, c, base, Heeding(resp, o.(killing := o.killing + [gap])), now, Signalling(t, n + 1), [])
  {
    SameRun(w, c, base, resp, o, o.(killing := o.killing + [gap]), now);
  }

  lemma SignalSits(w: World, c: Config, base: Kernel, resp: Response, now: nat, m: Micro, t: Txn, n: nat)
    requires Sits(w, c, base, resp, now, m) && m.phase == Signalling(t, n) && n < |t.fx.childKills|
    ensures Sits(w, c, base, resp, now, Signal(m, t, n))
  {
    SignalMatches(m, Launched(w, base, Heeding(resp, m.others), t, now), t, n);
    SignalStands(w, c, base, resp, now, m.others, m.gap, t, n);
    SameStages(w, c, base, resp, t, m.others, Signal(m, t, n).others, now);
  }

  lemma {:induction false} ForkEarlier(w: World, c: Config, k: Kernel, forks: seq<seq<string>>, between: R.Between, more: R.Between, now: nat)
    requires |forks| <= |between|
    ensures ForkAll(w, c, k, forks, between + more, now) == ForkAll(w, c, k, forks, between, now)
  {
    if forks != [] { ForkEarlier(w, c, k, forks[..|forks| - 1], between, more, now); }
  }

  lemma ForkSnoc(w: World, c: Config, k: Kernel, forks: seq<seq<string>>, between: R.Between, n: nat, acted: Kernel, now: nat)
    requires n < |forks| && acted == LetOthers(ForkAll(w, c, k, forks[..n], between, now), R.Before(between, n))
    ensures ForkAll(w, c, k, forks[..n + 1], between, now) == ForkOne(w, c, acted, forks[n], now)
  {
    assert forks[..n + 1][..n] == forks[..n];
  }

  lemma ForkNext(w: World, c: Config, k: Kernel, forks: seq<seq<string>>, between: R.Between, ops: seq<R.OthersOp>, acted: Kernel, now: nat)
    requires |between| < |forks| && acted == LetOthers(ForkAll(w, c, k, forks[..|between|], between, now), ops)
    ensures var n := |between|; ForkAll(w, c, k, forks[..n + 1], between + [ops], now) == ForkOne(w, c, acted, forks[n], now)
  {
    ForkEarlier(w, c, k, forks[..|between|], between, [ops], now);
    R.BeforeLast(between, ops);
    ForkSnoc(w, c, k, forks, between + [ops], |between|, acted, now);
  }

  lemma AskMatches(w: World, c: Config, now: nat, m: Micro, k: Kernel, t: Txn, n: nat)
    requires n == |m.others.forking| < |t.fx.forks|
    requires Matches(m, ForkAll(w, c, k, t.fx.forks[..n], m.others.forking, now))
    ensures Matches(Ask(w, c, now, m, t, n), ForkAll(w, c, k, t.fx.forks[..n + 1], m.others.forking + [m.gap], now))
  {
    var x := ForkAll(w, c, k, t.fx.forks[..n], m.others.forking, now);
    ForkNext(w, c, k, t.fx.forks, m.others.forking, m.gap, LetOthers(x, m.gap), now);
    AskNext(w, c, now, m, x, t.fx.forks[n]);
  }

  lemma AskNext(w: World, c: Config, now: nat, m: Micro, x: Kernel, names: seq<string>)
    requires Matches(m, x)
    ensures var after := ForkOne(w, c, m.k, names, now);
            after == WithInbox(ForkOne(w, c, LetOthers(x, m.gap), names, now), after.inbox)
  {
    var acted := LetOthers(x, m.gap);
    assert m.k == WithInbox(acted, m.k.inbox);
    ForkOneInbox(w, c, acted, names, now, m.k.inbox);
  }

  lemma AskStands(w: World, c: Config, base: Kernel, resp: Response, now: nat, o: Others, gap: seq<R.OthersOp>, t: Txn, n: nat)
    requires Stands(w, c, base, Heeding(resp, o), now, Forking(t, n), []) && n < |t.fx.forks|
    ensures Stands(w, c, base, Heeding(resp, o.(forking := o.forking + [gap])), now, Forking(t, n + 1), [])
  {
    SameRun(w, c, base, resp, o, o.(forking := o.forking + [gap]), now);
  }

  lemma AskReached(w: World, c: Config, base: Kernel, resp: Response, now: nat, m: Micro, t: Txn, n: nat)
    requires n == |m.others.forking| < |t.fx.forks|
    requires Matches(m, ForkAll(w, c, Shown(w, base, Heeding(resp, m.others), t, now), t.fx.forks[..n], m.others.forking, now))
    ensures var next := Ask(w, c, now, m, t, n);
            Matches(next, ForkAll(w, c, Shown(w, base, Heeding(resp, next.others), t, now), t.fx.forks[..n + 1], next.others.forking, now))
  {
    AskMatches(w, c, now, m, Shown(w, base, Heeding(resp, m.others), t, now), t, n);
    SameStages(w, c, base, resp, t, m.others, Ask(w, c, now, m, t, n).others, now);
  }

  lemma AskSits(w: World, c: Config, base: Kernel, resp: Response, now: nat, m: Micro, t: Txn, n: nat)
    requires Sits(w, c, base, resp, now, m) && m.phase == Forking(t, n) && n < |t.fx.forks|
    ensures Sits(w, c, base, resp, now, Ask(w, c, now, m, t, n))
  {
    AskReached(w, c, base, resp, now, m, t, n);
    AskStands(w, c, base, resp, now, m.others, m.gap, t, n);
  }

  lemma RoutedNext(registry: R.Registry, notes: seq<AgentNote>, between: R.Between, ops: seq<R.OthersOp>)
    requires |between| < |notes|
    ensures var n := |between|;
            RoutedNotes(registry, notes[..n + 1], between + [ops])
            == RoutedNotes(registry, notes[..n], between) + [RoutedBy(R.AsOf(registry, between + [ops], n + 1), notes[n])]
  {
    R.ViewsEarlier(registry, between, [ops], |between|);
  }

  lemma TellNext(k: Kernel, notes: seq<AgentNote>, between: R.Between, ops: seq<R.OthersOp>, view: R.Registry)
    requires |between| < |notes| && view == R.OthersDoAll(R.AsOf(k.registry, between, |between|), ops)
    ensures var n := |between|;
            Told(k, notes[..n + 1], between + [ops]) == Emit(WithRegistry(Told(k, notes[..n], between), view), [RoutedBy(view, notes[n])])
  {
    var n := |between|;
    RoutedNext(k.registry, notes, between, ops);
    R.AsOfSnoc(k.registry, between, ops);
    var last := [RoutedBy(view, notes[n])];
    assert k.log + (RoutedNotes(k.registry, notes[..n], between) + last) == k.log + RoutedNotes(k.registry, notes[..n], between) + last;
  }

  lemma TellMatches(m: Micro, k: Kernel, t: Txn, n: nat)
    requires n == |m.others.telling| < |t.fx.notes|
    requires Matches(m, Told(k, t.fx.notes[..n], m.others.telling))
    ensures Matches(Tell(m, t, n), Told(k, t.fx.notes[..n + 1], m.others.telling + [m.gap]))
  {
    TellNext(k, t.fx.notes, m.others.telling, m.gap, m.k.registry);
  }

  lemma TellStands(w: World, c: Config, base: Kernel, resp: Response, now: nat, o: Others, gap: seq<R.OthersOp>, t: Txn, n: nat)
    requires Stands(w, c, base, Heeding(resp, o), now, Telling(t, n), []) && n < |t.fx.notes|
    ensures Stands(w, c, base, Heeding(resp, o.(telling := o.telling + [gap])), now, Telling(t, n + 1), [])
  {
    SameRun(w, c, base, resp, o, o.(telling := o.telling + [gap]), now);
  }

  lemma TellReached(w: World, c: Config, base: Kernel, resp: Response, now: nat, m: Micro, t: Txn, n: nat)
    requires n == |m.others.telling| < |t.fx.notes|
    requires Matches(m, Told(Worked(w, c, base, Heeding(resp, m.others), t, now), t.fx.notes[..n], m.others.telling))
    ensures var next := Tell(m, t, n);
            Matches(next, Told(Worked(w, c, base, Heeding(resp, next.others), t, now), t.fx.notes[..n + 1], next.others.telling))
  {
    TellMatches(m, Worked(w, c, base, Heeding(resp, m.others), t, now), t, n);
    SameStages(w, c, base, resp, t, m.others, Tell(m, t, n).others, now);
  }

  lemma TellSits(w: World, c: Config, base: Kernel, resp: Response, now: nat, m: Micro, t: Txn, n: nat)
    requires Sits(w, c, base, resp, now, m) && m.phase == Telling(t, n) && n < |t.fx.notes|
    ensures Sits(w, c, base, resp, now, Tell(m, t, n))
  {
    TellReached(w, c, base, resp, now, m, t, n);
    TellStands(w, c, base, resp, now, m.others, m.gap, t, n);
  }

  // ---- The end of the commit ----

  lemma FoundIsPrepared(w: World, c: Config, base: Kernel, seen: Response, now: nat, t: Txn)
    requires Approved(w, c, base, seen, now, t)
    ensures Prepared(Begin(base, seen), seen, t.fx) == Found(base, seen, t.fx, |t.fx.notes|)
  {}

  lemma CommittedIs(w: World, c: Config, base: Kernel, seen: Response, now: nat, t: Txn)
    requires Approved(w, c, base, seen, now, t)
    ensures var told := Told(Worked(w, c, base, seen, t, now), t.fx.notes, seen.others.telling);
            Committed(w, c, base, seen, now)
            == Closing(w, c, Emit(told, t.fx.messages + PinEffects(t.fx.pins, t.fx.unpins)), t.fx, seen.compactionRun, now)
  {
    FoundIsPrepared(w, c, base, seen, now, t);
  }

  lemma ClosingKeepsRegistry(w: World, c: Config, k: Kernel, fx: Effects, run: Script, now: nat)
    ensures Closing(w, c, k, fx, run, now).registry == k.registry
  {
    ClosingOuter(w, c, k, fx, run, now, k.inbox, k.registry);
    assert WithOuter(k, k.inbox, k.registry) == k;
  }

  lemma FinalizeMatches(w: World, c: Config, resp: Response, now: nat, m: Micro, t: Txn, x: Kernel)
    requires Matches(m, x)
    ensures Matches(Finalize(w, c, resp, now, m, t),
                    Closing(w, c, Emit(x, t.fx.messages + PinEffects(t.fx.pins, t.fx.unpins)), t.fx, resp.compactionRun, now))
  {
    var sent := Emit(x, t.fx.messages + PinEffects(t.fx.pins, t.fx.unpins));
    ClosingOuter(w, c, sent, t.fx, resp.compactionRun, now, m.k.inbox, m.k.registry);
    ClosingKeepsRegistry(w, c, sent, t.fx, resp.compactionRun, now);
  }

  lemma NothingSettled(w: World, k: Kernel, now: nat, fx: Effects)
    ensures Settled(w, k, now, [], fx, 0) == k
  {}

  lemma FinalizeReached(w: World, c: Config, base: Kernel, resp: Response, now: nat, m: Micro, t: Txn)
    requires Approved(w, c, base, Heeding(resp, m.others), now, t)
    requires Matches(m, Told(Worked(w, c, base, Heeding(resp, m.others), t, now), t.fx.notes, m.others.telling))
    ensures Matches(Finalize(w, c, resp, now, m, t), Settled(w, Committed(w, c, base, Heeding(resp, m.others), now), now, [], t.fx, 0))
  {
    var seen := Heeding(resp, m.others);
    FinalizeMatches(w, c, resp, now, m, t, Told(Worked(w, c, base, seen, t, now), t.fx.notes, m.others.telling));
    CommittedIs(w, c, base, seen, now, t);
    NothingSettled(w, Committed(w, c, base, seen, now), now, t.fx);
  }

  lemma FinalizeSits(w: World, c: Config, base: Kernel, resp: Response, now: nat, m: Micro, t: Txn)
    requires Sits(w, c, base, resp, now, m) && m.phase == Telling(t, |t.fx.notes|)
    ensures Sits(w, c, base, resp, now, Finalize(w, c, resp, now, m, t))
  {
    assert First(t.fx.notes, |t.fx.notes|) == t.fx.notes;
    FinalizeStands(w, c, base, Heeding(resp, m.others), now, t);
    FinalizeReached(w, c, base, resp, now, m, t);
  }

  lemma FinalizeStands(w: World, c: Config, base: Kernel, seen: Response, now: nat, t: Txn)
    requires Approved(w, c, base, seen, now, t)
    ensures Stands(w, c, base, seen, now, Settling(t.fx, 0), [])
  {}

  // ---- Waiting, performing, and the record ----

  lemma SettledKeepsRegistry(w: World, k: Kernel, now: nat, consumed: seq<Event>, fx: Effects, n: nat)
    ensures Settled(w, k, now, consumed, fx, n).registry == k.registry
  {
    ApplyEventsKeepOuter(w, k, consumed, now);
  }

  lemma DrainSettled(w: World, k: Kernel, consumed: seq<Event>, fx: Effects, b: seq<Event>, r: R.Registry, now: nat)
    ensures Drain(w, WithOuter(Settled(w, k, now, consumed, fx, 0), b, r), now)
         == WithOuter(Settled(w, k, now, consumed + b, fx, 0), [], r)
  {
    var mid := ApplyEvents(w, k, consumed, now);
    assert Emit(mid, []) == mid;
    ApplyEventsAppend(w, k, consumed, b, now);
    ApplyEventsOuter(w, mid, b, now, [], r);
    assert WithInbox(WithOuter(mid, b, r), []) == WithOuter(mid, [], r);
  }

  lemma AwaitMatches(w: World, now: nat, m: Micro, k: Kernel, fx: Effects)
    requires Matches(m, Settled(w, k, now, m.consumed, fx, 0))
    ensures Matches(m.(k := Drain(w, m.k, now)), Settled(w, k, now, m.consumed + m.k.inbox, fx, 0))
    ensures Drain(w, m.k, now).crashed == Settled(w, k, now, m.consumed + m.k.inbox, fx, 0).crashed
  {
    DrainSettled(w, k, m.consumed, fx, m.k.inbox, m.k.registry, now);
    SettledKeepsRegistry(w, k, now, m.consumed, fx, 0);
    SettledKeepsRegistry(w, k, now, m.consumed + m.k.inbox, fx, 0);
  }

  lemma RunIgnoresInbox(w: World, c: Config, k: Kernel, seen: Response, now: nat, b: seq<Event>)
    ensures Run(w, c, WithInbox(k, b), seen, now) == Run(w, c, k, seen, now)
    ensures Failure(w, c, WithInbox(k, b), seen, now) == Failure(w, c, k, seen, now)
  {}

  lemma CommittedTurn(w: World, c: Config, k: Kernel, seen: Response, now: nat, consumed: seq<Event>)
    requires Failure(w, c, k, seen, now).None?
    ensures Turn(w, c, WithInbox(k, consumed), seen, now)
         == Recorded(w, Deferred(w, WithInbox(Committed(w, c, k, seen, now), consumed), Run(w, c, k, seen, now).fx, now), seen, now)
  {
    var t := Run(w, c, k, seen, now);
    RunIgnoresInbox(w, c, k, seen, now, consumed);
    CommitInbox(w, c, Prepared(Begin(k, seen), seen, t.fx), t, seen, now, consumed);
    assert Prepared(Begin(WithInbox(k, consumed), seen), seen, t.fx) == WithInbox(Prepared(Begin(k, seen), seen, t.fx), consumed);
  }

  lemma DeferredInbox(w: World, k: Kernel, fx: Effects, now: nat, consumed: seq<Event>)
    requires consumed != [] ==> Blocks(w, fx.launches)
    ensures var waited := WithInbox(ApplyEvents(w, k, consumed, now), []);
            Deferred(w, WithInbox(k, consumed), fx, now) == if waited.crashed then waited else Emit(waited, Performed(fx))
  {
    ApplyEventsOuter(w, k, consumed, now, [], k.registry);
    ApplyEventsKeepOuter(w, k, consumed, now);
    assert WithOuter(k, [], k.registry) == WithInbox(k, []);
  }

  /** The end of a turn that committed, from what it read on the way. */
  lemma SettledTurn(w: World, c: Config, base: Kernel, seen: Response, now: nat, consumed: seq<Event>, fx: Effects, n: nat)
    requires SettlesOn(w, c, base, seen, now, consumed, fx, n)
    ensures var k := Committed(w, c, base, seen, now);
            var waited := WithInbox(ApplyEvents(w, k, consumed, now), []);
            Turn(w, c, WithInbox(base, consumed), seen, now)
            == if waited.crashed then waited else Recorded(w, Emit(waited, Performed(fx)), seen, now)
  {
    CommittedTurn(w, c, base, seen, now, consumed);
    DeferredInbox(w, Committed(w, c, base, seen, now), fx, now, consumed);
  }

  lemma CrashMatches(m: Micro, x: Kernel, y: Kernel)
    requires Matches(m, x) && y == WithInbox(x, [])
    ensures Matches(m, y)
  {}

  lemma CrashReached(w: World, c: Config, base: Kernel, seen: Response, now: nat, m: Micro, fx: Effects)
    requires SettlesOn(w, c, base, seen, now, m.consumed, fx, 0) && m.k.crashed
    requires Matches(m, Settled(w, Committed(w, c, base, seen, now), now, m.consumed, fx, 0))
    ensures Matches(m, Turn(w, c, WithInbox(base, m.consumed), seen, now))
  {
    var k := Committed(w, c, base, seen, now);
    SettledTurn(w, c, base, seen, now, m.consumed, fx, 0);
    assert Settled(w, k, now, m.consumed, fx, 0) == ApplyEvents(w, k, m.consumed, now);
    CrashMatches(m, Settled(w, k, now, m.consumed, fx, 0), Turn(w, c, WithInbox(base, m.consumed), seen, now));
  }

  lemma AwaitSits(w: World, c: Config, base: Kernel, resp: Response, now: nat, m: Micro)
    requires Sits(w, c, base, resp, now, m) && m.phase.Settling?
    ensures Sits(w, c, base, resp, now, AwaitTick(w, now, m))
  {
    var fx, seen := m.phase.fx, Heeding(resp, m.others);
    if m.phase.n == 0 && Blocks(w, fx.launches) && !m.k.crashed {
      var waited := m.(k := Drain(w, m.k, now), consumed := m.consumed + m.k.inbox);
      AwaitMatches(w, now, m, Committed(w, c, base, seen, now), fx);
      if waited.k.crashed { CrashReached(w, c, base, seen, now, waited, fx); }
    }
  }

  lemma FirstNext(all: seq<Effect>, n: nat)
    requires n < |all|
    ensures First(all, n + 1) == First(all, n) + [all[n]]
  {}

  lemma PerformMatches(w: World, now: nat, m: Micro, k: Kernel, fx: Effects, n: nat)
    requires Matches(m, Settled(w, k, now, m.consumed, fx, n)) && n < |Performed(fx)|
    ensures Matches(m.(k := Emit(m.k, [Performed(fx)[n]]), phase := Settling(fx, n + 1)), Settled(w, k, now, m.consumed, fx, n + 1))
  {
    var x := ApplyEvents(w, k, m.consumed, now);
    FirstNext(Performed(fx), n);
    assert x.log + First(Performed(fx), n + 1) == x.log + First(Performed(fx), n) + [Performed(fx)[n]];
  }

  lemma PerformStands(w: World, c: Config, base: Kernel, seen: Response, now: nat, consumed: seq<Event>, fx: Effects, n: nat)
    requires SettlesOn(w, c, base, seen, now, consumed, fx, n) && n < |Performed(fx)|
    ensures SettlesOn(w, c, base, seen, now, consumed, fx, n + 1)
  {}

  lemma PerformSits(w: World, c: Config, base: Kernel, resp: Response, now: nat, m: Micro)
    requires Sits(w, c, base, resp, now, m) && m.phase.Settling?
    ensures Sits(w, c, base, resp, now, PerformTick(m))
  {
    var fx, n, seen := m.phase.fx, m.phase.n, Heeding(resp, m.others);
    if n < |Performed(fx)| && !m.k.crashed {
      PerformMatches(w, now, m, Committed(w, c, base, seen, now), fx, n);
      PerformStands(w, c, base, seen, now, m.consumed, fx, n);
    }
  }

  lemma WrapMatches(w: World, resp: Response, now: nat, m: Micro, x: Kernel)
    requires Matches(m, x) && !x.crashed && resp.script.ending.Finished?
    ensures Matches(m.(k := Recorded(w, m.k, resp, now)), Recorded(w, WithInbox(x, []), resp, now))
  {}

  lemma SettledWhole(w: World, c: Config, base: Kernel, seen: Response, now: nat, consumed: seq<Event>, fx: Effects)
    requires SettlesOn(w, c, base, seen, now, consumed, fx, |Performed(fx)|)
    requires !Settled(w, Committed(w, c, base, seen, now), now, consumed, fx, |Performed(fx)|).crashed
    ensures var x := Settled(w, Committed(w, c, base, seen, now), now, consumed, fx, |Performed(fx)|);
            Turn(w, c, WithInbox(base, consumed), seen, now) == Recorded(w, WithInbox(x, []), seen, now)
  {
    var k := Committed(w, c, base, seen, now);
    assert First(Performed(fx), |Performed(fx)|) == Performed(fx);
    SettledTurn(w, c, base, seen, now, consumed, fx, |Performed(fx)|);
    assert Emit(WithInbox(ApplyEvents(w, k, consumed, now), []), Performed(fx))
        == WithInbox(Settled(w, k, now, consumed, fx, |Performed(fx)|), []);
  }

  lemma WrapReached(w: World, c: Config, base: Kernel, resp: Response, now: nat, m: Micro, fx: Effects)
    requires var seen := Heeding(resp, m.others); SettlesOn(w, c, base, seen, now, m.consumed, fx, |Performed(fx)|)
    requires Matches(m, Settled(w, Committed(w, c, base, Heeding(resp, m.others), now), now, m.consumed, fx, |Performed(fx)|))
    requires !m.k.crashed && resp.script.ending.Finished?
    ensures Matches(m.(k := Recorded(w, m.k, resp, now)), Turn(w, c, WithInbox(base, m.consumed), Heeding(resp, m.others), now))
  {
    var seen := Heeding(resp, m.others);
    var x := Settled(w, Committed(w, c, base, seen, now), now, m.consumed, fx, |Performed(fx)|);
    SettledWhole(w, c, base, seen, now, m.consumed, fx);
    WrapMatches(w, resp, now, m, x);
    RecordedHeeds(w, WithInbox(x, []), resp, seen, now);
  }

  lemma WrapSits(w: World, c: Config, base: Kernel, resp: Response, now: nat, m: Micro)
    requires Sits(w, c, base, resp, now, m) && m.phase.Settling?
    ensures Sits(w, c, base, resp, now, WrapTick(w, resp, now, m))
  {
    if m.phase.n == |Performed(m.phase.fx)| && resp.script.ending.Finished? && !m.k.crashed {
      WrapReached(w, c, base, resp, now, m, m.phase.fx);
    }
  }

  lemma RecordedHeeds(w: World, k: Kernel, resp: Response, seen: Response, now: nat)
    requires seen == Heeding(resp, seen.others) && resp.script.ending.Finished?
    ensures Recorded(w, k, resp, now) == Recorded(w, k, seen, now)
  {}

  lemma CancelSits(w: World, c: Config, base: Kernel, resp: Response, now: nat, m: Micro)
    requires Sits(w, c, base, resp, now, m)
    ensures Sits(w, c, base, resp, now, CancelTick(w, m))
  {
    if m.phase.Settling? && Waiting(w, m.phase.fx, m.phase.n) {
      var seen := Heeding(resp, m.others);
      CancelStands(w, c, base, seen, now, m.consumed, m.phase.fx, m.phase.n);
      assert Reached(w, c, base, seen, now, m.phase, m.consumed)
          == Reached(w, c, base, seen, now, Cancelled(m.phase.fx, m.phase.n), m.consumed);
    }
  }

  lemma CancelStands(w: World, c: Config, base: Kernel, seen: Response, now: nat, consumed: seq<Event>, fx: Effects, n: nat)
    requires Stands(w, c, base, seen, now, Settling(fx, n), consumed) && Waiting(w, fx, n)
    ensures Stands(w, c, base, seen, now, Cancelled(fx, n), consumed)
  {}

  // ---- Any interleaving ----

  lemma ConsultSits(w: World, c: Config, base: Kernel, resp: Response, now: nat, m: Micro)
    requires Sits(w, c, base, resp, now, m) && base.inbox == []
    ensures Sits(w, c, base, resp, now, ConsultTick(w, c, resp, now, m))
  {
    match m.phase {
      case LookingUp(t, n) =>
        if n < |t.fx.notes| {
          if t.fx.notes[n].recipient in m.k.registry { LookUpFinds(w, c, base, resp, now, m, t, n); }
          else { LookUpFails(w, c, base, resp, now, m, t, n); }
        }
      case Signalling(t, n) => if n < |t.fx.childKills| { SignalSits(w, c, base, resp, now, m, t, n); }
      case Forking(t, n) => if n < |t.fx.forks| { AskSits(w, c, base, resp, now, m, t, n); }
      case Telling(t, n) => if n < |t.fx.notes| { TellSits(w, c, base, resp, now, m, t, n); }
      case _ =>
    }
  }

  lemma ProceedSits(w: World, c: Config, base: Kernel, resp: Response, now: nat, m: Micro)
    requires Sits(w, c, base, resp, now, m)
    ensures Sits(w, c, base, resp, now, ProceedTick(w, c, resp, now, m))
  {
    match m.phase {
      case LookingUp(t, n) => if n == |t.fx.notes| { LaunchSits(w, c, base, resp, now, m, t); }
      case Signalling(t, n) => if n == |t.fx.childKills| { ShowSits(w, c, base, resp, now, m, t); }
      case Forking(t, n) => if n == |t.fx.forks| { ForkedSits(w, c, base, resp, now, m, t); }
      case Telling(t, n) => if n == |t.fx.notes| { FinalizeSits(w, c, base, resp, now, m, t); }
      case _ =>
    }
  }

  lemma OwnTickSits(w: World, c: Config, base: Kernel, resp: Response, now: nat, m: Micro, tick: Tick)
    requires Sits(w, c, base, resp, now, m) && base.inbox == [] && !tick.Arrive? && !tick.OthersAct?
    ensures Sits(w, c, base, resp, now, Tock(w, c, resp, now, m, tick))
  {
    match tick {
      case Call => if m.phase.Scripting? { CallSits(w, c, base, resp, now, m); }
      case Finish => if m.phase.Scripting? { FinishSits(w, c, base, resp, now, m); }
      case Consult => ConsultSits(w, c, base, resp, now, m);
      case Proceed => ProceedSits(w, c, base, resp, now, m);
      case Await => if m.phase.Settling? { AwaitSits(w, c, base, resp, now, m); }
      case Perform => if m.phase.Settling? { PerformSits(w, c, base, resp, now, m); }
      case Wrap => if m.phase.Settling? { WrapSits(w, c, base, resp, now, m); }
      case Cancel => CancelSits(w, c, base, resp, now, m);
    }
  }

  lemma OpenSits(w: World, c: Config, k: Kernel, resp: Response, now: nat)
    ensures Sits(w, c, Alone(k), resp, now, Open(k, resp))
  {
    assert resp.script.ops[..0] == [];
  }

  /** The turn's own steps move arrivals from the channel to the applied ones, and lose none. */
  lemma OwnTickKeepsArrivals(w: World, c: Config, resp: Response, now: nat, m: Micro, tick: Tick)
    requires !tick.Arrive? && !tick.OthersAct?
    ensures var next := Tock(w, c, resp, now, m, tick); next.consumed + next.k.inbox == m.consumed + m.k.inbox
  {
    match tick {
      case Consult => if m.phase.Forking? && m.phase.n < |m.phase.t.fx.forks| { ForkKeepsInbox(w, c, m.k, m.phase.t.fx.forks[m.phase.n], now); }
      case Proceed => ProceedKeepsInbox(w, c, resp, now, m);
      case Await =>
        ApplyEventsKeepOuter(w, WithInbox(m.k, []), m.k.inbox, now);
        assert (m.consumed + m.k.inbox) + [] == m.consumed + m.k.inbox;
      case _ =>
    }
  }

  lemma ForkKeepsInbox(w: World, c: Config, k: Kernel, names: seq<string>, now: nat)
    ensures ForkOne(w, c, k, names, now).inbox == k.inbox
  {
    ForkOneInbox(w, c, k, names, now, k.inbox);
    assert WithInbox(k, k.inbox) == k;
  }

  lemma ProceedKeepsInbox(w: World, c: Config, resp: Response, now: nat, m: Micro)
    ensures ProceedTick(w, c, resp, now, m).k.inbox == m.k.inbox
  {
    var b, r := m.k.inbox, m.k.registry;
    match m.phase {
      case LookingUp(t, n) =>
        var installed := Install(m.k, t.s);
        LaunchAllOuter(w, installed, t.fx.launches, now, b, r);
        assert WithOuter(installed, b, r) == installed;
      case Signalling(t, n) =>
        PushNewOuter(w, m.k, 10, View(t.fx.views), [], now, b, r);
        assert WithOuter(m.k, b, r) == m.k;
      case Telling(t, n) =>
        var sent := Emit(m.k, t.fx.messages + PinEffects(t.fx.pins, t.fx.unpins));
        ClosingOuter(w, c, sent, t.fx, resp.compactionRun, now, b, r);
        assert WithOuter(sent, b, r) == sent;
      case _ =>
    }
  }

  lemma TockKeepsArrivals(w: World, c: Config, resp: Response, now: nat, m: Micro, tick: Tick)
    ensures var next := Tock(w, c, resp, now, m, tick);
            next.consumed + next.k.inbox == m.consumed + m.k.inbox + if tick.Arrive? then [tick.event] else []
  {
    match tick {
      case Arrive(e) => assert m.consumed + (m.k.inbox + [e]) == (m.consumed + m.k.inbox) + [e];
      case OthersAct(_) =>
      case _ => OwnTickKeepsArrivals(w, c, resp, now, m, tick);
    }
  }

  lemma TockSits(w: World, c: Config, base: Kernel, resp: Response, now: nat, m: Micro, tick: Tick)
    requires Sits(w, c, base, resp, now, m) && base.inbox == []
    ensures Sits(w, c, base, resp, now, Tock(w, c, resp, now, m, tick))
  {
    match tick {
      case Arrive(e) => ArriveSits(w, c, base, resp, now, m, e);
      case OthersAct(op) => OthersSit(w, c, base, resp, now, m, op);
      case _ => OwnTickSits(w, c, base, resp, now, m, tick);
    }
  }

  lemma {:induction false} TicksTrack(w: World, c: Config, k: Kernel, resp: Response, now: nat, ticks: seq<Tick>)
    ensures Tracks(w, c, k, resp, now, Arrivals(ticks), Ticks(w, c, resp, now, Open(k, resp), ticks))
  {
    if ticks == [] {
      OpenSits(w, c, k, resp, now);
    } else {
      var before, tick := ticks[..|ticks| - 1], ticks[|ticks| - 1];
      TicksTrack(w, c, k, resp, now, before);
      var m := Ticks(w, c, resp, now, Open(k, resp), before);
      TockSits(w, c, Alone(k), resp, now, m, tick);
      TockKeepsArrivals(w, c, resp, now, m, tick);
      var arrived := if tick.Arrive? then [tick.event] else [];
      assert k.inbox + (Arrivals(before) + arrived) == (k.inbox + Arrivals(before)) + arrived;
    }
  }

  /**
   * Refinement. Whatever arrives, whatever other agents do to the registry, and whenever: a turn that is
   * over has done exactly what the turn taken whole does to the state it started from, given what others
   * did before each of its operations on the registry and the arrivals it applied on the way. The other
   * arrivals are still waiting, in order, and none is lost; the registry is the turn's own, and what
   * others have done since its last operation. Arrivals are applied on the way only by a turn that
   * committed and waited for a process.
   */
  lemma TurnIsAtomic(w: World, c: Config, k: Kernel, resp: Response, now: nat, ticks: seq<Tick>)
    requires Ticks(w, c, resp, now, Open(k, resp), ticks).phase.Over?
    ensures var m := Ticks(w, c, resp, now, Open(k, resp), ticks);
            var seen := Heeding(resp, m.others);
            var atomic := Turn(w, c, WithInbox(k, m.consumed), seen, now);
            && m.k == WithOuter(atomic, m.k.inbox, R.OthersDoAll(atomic.registry, m.gap))
            && m.consumed + m.k.inbox == k.inbox + Arrivals(ticks)
            && (m.consumed != [] ==> Failure(w, c, k, seen, now).None? && Blocks(w, Run(w, c, k, seen, now).fx.launches))
  {
    TicksTrack(w, c, k, resp, now, ticks);
    RunIgnoresInbox(w, c, k, Heeding(resp, Ticks(w, c, resp, now, Open(k, resp), ticks).others), now, []);
    assert WithInbox(Alone(k), Ticks(w, c, resp, now, Open(k, resp), ticks).consumed)
        == WithInbox(k, Ticks(w, c, resp, now, Open(k, resp), ticks).consumed);
  }

  // ---- Cancellation ----

  lemma RestJoins(log: seq<Effect>, all: seq<Effect>, n: nat)
    requires n <= |all|
    ensures log + First(all, n) + all[n..] == log + First(all, |all|)
  {}

  lemma RestMatches(w: World, now: nat, m: Micro, k: Kernel, fx: Effects, n: nat)
    requires Matches(m, Settled(w, k, now, m.consumed, fx, n)) && n <= |Performed(fx)|
    ensures Matches(m.(k := Emit(m.k, Performed(fx)[n..])), Settled(w, k, now, m.consumed, fx, |Performed(fx)|))
  {
    RestJoins(ApplyEvents(w, k, m.consumed, now).log, Performed(fx), n);
  }

  lemma Missed(w: World, c: Config, base: Kernel, seen: Response, now: nat, m: Micro, fx: Effects, n: nat)
    requires SettlesOn(w, c, base, seen, now, m.consumed, fx, n) && !m.k.crashed && seen.script.ending.Finished?
    requires Matches(m, Settled(w, Committed(w, c, base, seen, now), now, m.consumed, fx, n))
    ensures var atomic := Turn(w, c, WithInbox(base, m.consumed), seen, now);
            Recorded(w, Emit(m.k, Performed(fx)[n..]), seen, now) == WithOuter(atomic, m.k.inbox, R.OthersDoAll(atomic.registry, m.gap))
  {
    RestMatches(w, now, m, Committed(w, c, base, seen, now), fx, n);
    var done := m.(k := Emit(m.k, Performed(fx)[n..]));
    SettledWhole(w, c, base, seen, now, m.consumed, fx);
    WrapMatches(w, seen, now, done, Settled(w, Committed(w, c, base, seen, now), now, m.consumed, fx, |Performed(fx)|));
  }

  /**
   * A turn cancelled while it waits is not rolled back. Its commit stands, and so do the arrivals it has
   * applied and what it has performed; what is missing, compared with the turn taken whole, is exactly the
   * rest of what was to be performed, the turn's history entry and that entry's id.
   */
  lemma CancelledTurnStands(w: World, c: Config, k: Kernel, resp: Response, now: nat, ticks: seq<Tick>)
    requires var m := Ticks(w, c, resp, now, Open(k, resp), ticks); m.phase.Cancelled? && !m.k.crashed
    ensures var m := Ticks(w, c, resp, now, Open(k, resp), ticks);
            var seen := Heeding(resp, m.others);
            var atomic := Turn(w, c, WithInbox(k, m.consumed), seen, now);
            && CancelledAt(w, c, k, resp, now, m)
            && Recorded(w, Emit(m.k, Performed(m.phase.fx)[m.phase.n..]), seen, now)
               == WithOuter(atomic, m.k.inbox, R.OthersDoAll(atomic.registry, m.gap))
  {
    CancelledOnlyIf(w, c, k, resp, now, ticks);
    TicksTrack(w, c, k, resp, now, ticks);
    var m := Ticks(w, c, resp, now, Open(k, resp), ticks);
    Missed(w, c, Alone(k), Heeding(resp, m.others), now, m, m.phase.fx, m.phase.n);
    assert WithInbox(Alone(k), m.consumed) == WithInbox(k, m.consumed);
  }

  /** The turn has committed, and is cancelled at a point where it waits. */
  ghost predicate CancelledAt(w: World, c: Config, k: Kernel, resp: Response, now: nat, m: Micro) {
    && m.phase.Cancelled? && resp.script.ending.Finished?
    && Failure(w, c, k, Heeding(resp, m.others), now).None?
    && m.phase.fx == Run(w, c, k, resp, now).fx
    && m.phase.n <= |Performed(m.phase.fx)|
    && Waiting(w, m.phase.fx, m.phase.n) && Waiting(w, m.phase.fx, 0)
  }

  lemma CancelledOnlyIf(w: World, c: Config, k: Kernel, resp: Response, now: nat, ticks: seq<Tick>)
    requires Ticks(w, c, resp, now, Open(k, resp), ticks).phase.Cancelled?
    ensures CancelledAt(w, c, k, resp, now, Ticks(w, c, resp, now, Open(k, resp), ticks))
  {
    var m := Ticks(w, c, resp, now, Open(k, resp), ticks);
    TicksTrack(w, c, k, resp, now, ticks);
    RunIgnoresInbox(w, c, k, Heeding(resp, m.others), now, []);
    HeedingRun(w, c, k, resp, m.others, now);
  }

  lemma HeedingRun(w: World, c: Config, k: Kernel, resp: Response, o: Others, now: nat)
    ensures Run(w, c, k, Heeding(resp, o), now) == Run(w, c, k, resp, now)
  {}

  // ---- When a turn can be cancelled so ----

  predicate Undisturbed(ticks: seq<Tick>) {
    forall tick :: tick in ticks ==> !tick.OthersAct?
  }

  lemma {:induction false} TicksAppend(w: World, c: Config, resp: Response, now: nat, m: Micro, a: seq<Tick>, b: seq<Tick>)
    ensures Ticks(w, c, resp, now, m, a + b) == Ticks(w, c, resp, now, Ticks(w, c, resp, now, m, a), b)
  {
    if b == [] {
      assert a + b == a;
    } else {
      assert (a + b)[..|a + b| - 1] == a + b[..|b| - 1];
      TicksAppend(w, c, resp, now, m, a, b[..|b| - 1]);
    }
  }

  lemma OneTick(w: World, c: Config, resp: Response, now: nat, m: Micro, tick: Tick)
    ensures Ticks(w, c, resp, now, m, [tick]) == Tock(w, c, resp, now, m, tick)
  {
    var ticks := [tick];
    assert ticks[..|ticks| - 1] == [] && Ticks(w, c, resp, now, m, []) == m;
  }

  /** What is reached in one step is reached, then in more. */
  lemma TickThen(w: World, c: Config, resp: Response, now: nat, m: Micro, tick: Tick, more: seq<Tick>)
    ensures Ticks(w, c, resp, now, m, [tick] + more) == Ticks(w, c, resp, now, Tock(w, c, resp, now, m, tick), more)
  {
    OneTick(w, c, resp, now, m, tick);
    TicksAppend(w, c, resp, now, m, [tick], more);
  }

  lemma CallAll(w: World, c: Config, resp: Response, now: nat, m: Micro) returns (ticks: seq<Tick>)
    requires m.phase.Scripting? && m.phase.calls <= |resp.script.ops|
    ensures var end := Ticks(w, c, resp, now, m, ticks); end.phase.Scripting? && end.phase.calls == |resp.script.ops| && end.k == m.k
    ensures Undisturbed(ticks)
    decreases |resp.script.ops| - m.phase.calls
  {
    if m.phase.calls == |resp.script.ops| { return []; }
    var more := CallAll(w, c, resp, now, CallTick(w, c, resp, now, m));
    TickThen(w, c, resp, now, m, Call, more);
    ticks := [Call] + more;
  }

  /** Others may register a recipient that is still unknown just before it is looked up. */
  lemma LookUpAll(w: World, c: Config, resp: Response, now: nat, m: Micro) returns (ticks: seq<Tick>)
    requires m.phase.LookingUp? && m.phase.n <= |m.phase.t.fx.notes|
    ensures Ticks(w, c, resp, now, m, ticks).phase == LookingUp(m.phase.t, |m.phase.t.fx.notes|)
    ensures (forall note :: note in m.phase.t.fx.notes ==> note.recipient in m.k.registry) ==> Undisturbed(ticks)
    decreases |m.phase.t.fx.notes| - m.phase.n
  {
    var t, n := m.phase.t, m.phase.n;
    if n == |t.fx.notes| { return []; }
    var name := t.fx.notes[n].recipient;
    if name in m.k.registry {
      var more := LookUpAll(w, c, resp, now, LookUp(w, resp, now, m, t, n));
      TickThen(w, c, resp, now, m, Consult, more);
      ticks := [Consult] + more;
    } else {
      var op := R.Enrols([R.Enrolment(name, 0)]);
      R.NewcomerEnrols(m.k.registry, name, 0);
      var acted := OthersTick(m, op);
      var more := LookUpAll(w, c, resp, now, LookUp(w, resp, now, acted, t, n));
      TickThen(w, c, resp, now, acted, Consult, more);
      TickThen(w, c, resp, now, m, OthersAct(op), [Consult] + more);
      ticks := [OthersAct(op)] + ([Consult] + more);
      assert t.fx.notes[n] in t.fx.notes;
    }
  }

  lemma SignalAll(w: World, c: Config, resp: Response, now: nat, m: Micro) returns (ticks: seq<Tick>)
    requires m.phase.Signalling? && m.phase.n <= |m.phase.t.fx.childKills|
    ensures Ticks(w, c, resp, now, m, ticks).phase == Signalling(m.phase.t, |m.phase.t.fx.childKills|) && Undisturbed(ticks)
    decreases |m.phase.t.fx.childKills| - m.phase.n
  {
    if m.phase.n == |m.phase.t.fx.childKills| { return []; }
    var more := SignalAll(w, c, resp, now, Signal(m, m.phase.t, m.phase.n));
    TickThen(w, c, resp, now, m, Consult, more);
    ticks := [Consult] + more;
  }

  lemma AskStep(w: World, c: Config, resp: Response, now: nat, m: Micro)
    requires m.phase.Forking? && m.phase.n < |m.phase.t.fx.forks|
    ensures Tock(w, c, resp, now, m, Consult).phase == Forking(m.phase.t, m.phase.n + 1)
  {}

  lemma AskAll(w: World, c: Config, resp: Response, now: nat, m: Micro) returns (ticks: seq<Tick>)
    requires m.phase.Forking? && m.phase.n <= |m.phase.t.fx.forks|
    ensures Ticks(w, c, resp, now, m, ticks).phase == Forking(m.phase.t, |m.phase.t.fx.forks|) && Undisturbed(ticks)
    decreases |m.phase.t.fx.forks| - m.phase.n
  {
    if m.phase.n == |m.phase.t.fx.forks| { return []; }
    var next := Tock(w, c, resp, now, m, Consult);
    AskStep(w, c, resp, now, m);
    var more := AskAll(w, c, resp, now, next);
    TickThen(w, c, resp, now, m, Consult, more);
    ticks := [Consult] + more;
  }

  lemma TellAll(w: World, c: Config, resp: Response, now: nat, m: Micro) returns (ticks: seq<Tick>)
    requires m.phase.Telling? && m.phase.n <= |m.phase.t.fx.notes|
    ensures Ticks(w, c, resp, now, m, ticks).phase == Telling(m.phase.t, |m.phase.t.fx.notes|) && Undisturbed(ticks)
    decreases |m.phase.t.fx.notes| - m.phase.n
  {
    if m.phase.n == |m.phase.t.fx.notes| { return []; }
    var more := TellAll(w, c, resp, now, Tell(m, m.phase.t, m.phase.n));
    TickThen(w, c, resp, now, m, Consult, more);
    ticks := [Consult] + more;
  }

  lemma ProceedThen(w: World, c: Config, resp: Response, now: nat, m: Micro, ticks: seq<Tick>) returns (all: seq<Tick>)
    ensures all == ticks + [Tick.Proceed]
    ensures Ticks(w, c, resp, now, m, all) == ProceedTick(w, c, resp, now, Ticks(w, c, resp, now, m, ticks))
    ensures Undisturbed(ticks) ==> Undisturbed(all)
  {
    all := ticks + [Tick.Proceed];
    TicksAppend(w, c, resp, now, m, ticks, [Tick.Proceed]);
    OneTick(w, c, resp, now, Ticks(w, c, resp, now, m, ticks), Tick.Proceed);
  }

  /** From the end of the look-up nothing can keep the commit from completing. */
  lemma CommitAll(w: World, c: Config, resp: Response, now: nat, m: Micro) returns (ticks: seq<Tick>)
    requires m.phase.LookingUp? && m.phase.n == |m.phase.t.fx.notes|
    ensures Ticks(w, c, resp, now, m, ticks).phase == Settling(m.phase.t.fx, 0) && Undisturbed(ticks)
  {
    var toSignal := ProceedThen(w, c, resp, now, m, []);
    var signalling := Ticks(w, c, resp, now, m, toSignal);
    var signals := SignalAll(w, c, resp, now, signalling);
    var toFork := ProceedThen(w, c, resp, now, signalling, signals);
    var forking := Ticks(w, c, resp, now, signalling, toFork);
    var asks := AskAll(w, c, resp, now, forking);
    var toTell := ProceedThen(w, c, resp, now, forking, asks);
    var telling := Ticks(w, c, resp, now, forking, toTell);
    var tells := TellAll(w, c, resp, now, telling);
    var toSettle := ProceedThen(w, c, resp, now, telling, tells);
    TicksAppend(w, c, resp, now, forking, toTell, toSettle);
    TicksAppend(w, c, resp, now, signalling, toFork, toTell + toSettle);
    TicksAppend(w, c, resp, now, m, toSignal, toFork + (toTell + toSettle));
    ticks := toSignal + (toFork + (toTell + toSettle));
  }

  lemma ScriptAll(w: World, c: Config, k: Kernel, resp: Response, now: nat) returns (ticks: seq<Tick>)
    requires resp.script.ending.Finished?
    ensures var m := Ticks(w, c, resp, now, Open(k, resp), ticks);
            m.phase == LookingUp(Run(w, c, k, resp, now), 0) && m.k.registry == k.registry
    ensures Undisturbed(ticks)
  {
    var calls := CallAll(w, c, resp, now, Open(k, resp));
    ticks := calls + [Finish];
    TicksAppend(w, c, resp, now, Open(k, resp), calls, [Finish]);
    OneTick(w, c, resp, now, Ticks(w, c, resp, now, Open(k, resp), calls), Finish);
    TicksTrack(w, c, k, resp, now, ticks);
    var m := Ticks(w, c, resp, now, Open(k, resp), ticks);
    RunIgnoresInbox(w, c, k, Heeding(resp, m.others), now, []);
    HeedingRun(w, c, k, resp, m.others, now);
  }

  lemma ToCancel(w: World, c: Config, k: Kernel, resp: Response, now: nat) returns (ticks: seq<Tick>)
    requires resp.script.ending.Finished? && Waiting(w, Run(w, c, k, resp, now).fx, 0)
    ensures Ticks(w, c, resp, now, Open(k, resp), ticks).phase.Cancelled?
    ensures (forall note :: note in Run(w, c, k, resp, now).fx.notes ==> note.recipient in k.registry) ==> Undisturbed(ticks)
  {
    var scripted := ScriptAll(w, c, k, resp, now);
    var m := Ticks(w, c, resp, now, Open(k, resp), scripted);
    var looks := LookUpAll(w, c, resp, now, m);
    var looked := Ticks(w, c, resp, now, m, looks);
    var commits := CommitAll(w, c, resp, now, looked);
    var settling := Ticks(w, c, resp, now, looked, commits);
    OneTick(w, c, resp, now, settling, Cancel);
    TicksAppend(w, c, resp, now, looked, commits, [Cancel]);
    TicksAppend(w, c, resp, now, m, looks, commits + [Cancel]);
    TicksAppend(w, c, resp, now, Open(k, resp), scripted, looks + (commits + [Cancel]));
    ticks := scripted + (looks + (commits + [Cancel]));
  }

  /**
   * A turn can be cancelled after its commit exactly when its script ends well and it then waits for a
   * process, kills one, or writes to one: a recipient it names may be registered by others in time.
   */
  lemma CancelIff(w: World, c: Config, k: Kernel, resp: Response, now: nat)
    ensures (exists ticks :: Ticks(w, c, resp, now, Open(k, resp), ticks).phase.Cancelled?)
            <==> resp.script.ending.Finished? && Waiting(w, Run(w, c, k, resp, now).fx, 0)
  {
    if ticks :| Ticks(w, c, resp, now, Open(k, resp), ticks).phase.Cancelled? { CancelledOnlyIf(w, c, k, resp, now, ticks); }
    if resp.script.ending.Finished? && Waiting(w, Run(w, c, k, resp, now).fx, 0) { var ticks := ToCancel(w, c, k, resp, now); }
  }

  ghost predicate Quiet(between: R.Between) {
    forall i :: 0 <= i < |between| ==> between[i] == []
  }

  lemma {:induction false} QuietViews(registry: R.Registry, between: R.Between, n: nat)
    requires Quiet(between)
    ensures R.AsOf(registry, between, n) == registry && R.Views(registry, between, n) == R.Views(registry, [], n)
  {
    if n > 0 {
      QuietViews(registry, between, n - 1);
      QuietAsOf(registry, n);
      assert R.Before(between, n - 1) == [];
    }
  }

  lemma {:induction false} QuietAsOf(registry: R.Registry, n: nat)
    ensures R.AsOf(registry, [], n) == registry
  {
    if n > 0 { QuietAsOf(registry, n - 1); }
  }

  lemma TockQuiet(w: World, c: Config, resp: Response, now: nat, m: Micro, tick: Tick)
    requires Quiet(m.others.validating) && m.gap == [] && !tick.OthersAct?
    ensures var next := Tock(w, c, resp, now, m, tick); Quiet(next.others.validating) && next.gap == []
  {}

  lemma {:induction false} UndisturbedQuiet(w: World, c: Config, k: Kernel, resp: Response, now: nat, ticks: seq<Tick>)
    requires Undisturbed(ticks)
    ensures var m := Ticks(w, c, resp, now, Open(k, resp), ticks); Quiet(m.others.validating) && m.gap == []
  {
    if ticks != [] {
      var before, tick := ticks[..|ticks| - 1], ticks[|ticks| - 1];
      assert tick in ticks;
      UndisturbedQuiet(w, c, k, resp, now, before);
      TockQuiet(w, c, resp, now, Ticks(w, c, resp, now, Open(k, resp), before), tick);
    }
  }

  lemma QuietFailure(w: World, c: Config, k: Kernel, resp: Response, now: nat, o: Others)
    requires Quiet(o.validating)
    ensures Failure(w, c, k, Heeding(resp, o), now) == Failure(w, c, k, Heeding(resp, NO_OTHERS), now)
  {
    var notes := Run(w, c, k, resp, now).fx.notes;
    HeedingRun(w, c, k, resp, o, now);
    HeedingRun(w, c, k, resp, NO_OTHERS, now);
    QuietViews(k.registry, o.validating, |notes|);
  }

  lemma NoFailureKnowsAll(w: World, c: Config, k: Kernel, resp: Response, now: nat, note: AgentNote)
    requires Failure(w, c, k, Heeding(resp, NO_OTHERS), now).None? && note in Run(w, c, k, resp, now).fx.notes
    ensures note.recipient in k.registry
  {
    var notes := Run(w, c, k, resp, now).fx.notes;
    HeedingRun(w, c, k, resp, NO_OTHERS, now);
    var i :| 0 <= i < |notes| && notes[i] == note;
    assert Known(k.registry, notes, [])[i];
    R.ViewAt(k.registry, [], |notes|, i);
    QuietAsOf(k.registry, i + 1);
  }

  /** With other agents quiet, exactly when the turn does not fail, and then waits, kills or writes. */
  lemma UndisturbedCancelIff(w: World, c: Config, k: Kernel, resp: Response, now: nat)
    ensures (exists ticks :: Undisturbed(ticks) && Ticks(w, c, resp, now, Open(k, resp), ticks).phase.Cancelled?)
            <==> Failure(w, c, k, Heeding(resp, NO_OTHERS), now).None? && Waiting(w, Run(w, c, k, resp, now).fx, 0)
  {
    if ticks :| Undisturbed(ticks) && Ticks(w, c, resp, now, Open(k, resp), ticks).phase.Cancelled? {
      CancelledOnlyIf(w, c, k, resp, now, ticks);
      UndisturbedQuiet(w, c, k, resp, now, ticks);
      QuietFailure(w, c, k, resp, now, Ticks(w, c, resp, now, Open(k, resp), ticks).others);
    }
    if Failure(w, c, k, Heeding(resp, NO_OTHERS), now).None? && Waiting(w, Run(w, c, k, resp, now).fx, 0) {
      var ticks := ToCancel(w, c, k, resp, now);
      forall note | note in Run(w, c, k, resp, now).fx.notes ensures note.recipient in k.registry {
        NoFailureKnowsAll(w, c, k, resp, now, note);
      }
    }
  }
}
