/**
 * Kick-on-reauth chat sessions (src/feedback.rs, `chat_session`), as interleaving steps of any number
 * of sessions over one locked map from user to (session id, sending half of the session's queue).
 */
module ChatSessions {
  import opened Base

  const QUEUE_CAP: nat := 32

  type User = string
  type Frame = string

  /** Authenticated with its queue made; in the select loop; broken out of it; cleaned up. */
  datatype Phase = Authenticated | Looping | Leaving | Cleaned

  /**
   * `taken` counts frames received from the queue, of which all but a last failed one are `delivered`.
   * `closedAt` is how many frames had been accepted when the sending half was dropped, if it was.
   */
  datatype Session = Session(
    user: User, phase: Phase, accepted: seq<Frame>, taken: nat, delivered: seq<Frame>, closedAt: Option<nat>)

  /** `last` remembers, for the proofs, the session that inserted last for each user. */
  datatype Server = Server(
    connections: map<User, nat>, sessions: map<nat, Session>, next: nat, last: map<User, nat>)

  datatype Step =
    | Open(user: User)
    | Insert(id: nat)
    | Send(to: User, frame: Frame)
    | Deliver(id: nat, ok: bool)
    | Leave(id: nat)
    | CleanUp(id: nat)

  function Close(sessions: map<nat, Session>, id: nat): map<nat, Session> {
    if id in sessions && sessions[id].closedAt.None?
    then sessions[id := sessions[id].(closedAt := Some(|sessions[id].accepted|))] else sessions
  }

  /** Inserting drops the sending half the entry held before, which closes that session's queue. */
  function DoInsert(s: Server, id: nat): Server
    requires id in s.sessions
  {
    var user := s.sessions[id].user;
    var sessions := if user in s.connections then Close(s.sessions, s.connections[user]) else s.sessions;
    Server(s.connections[user := id],
           if id in sessions then sessions[id := sessions[id].(phase := Looping)] else sessions,
           s.next, s.last[user := id])
  }

  /** `try_send`: refused when the queue is full. */
  function DoSend(s: Server, to: User, frame: Frame): Server {
    if to !in s.connections || s.connections[to] !in s.sessions then s
    else
      var id := s.connections[to];
      var t := s.sessions[id];
      if |t.accepted| - t.taken >= QUEUE_CAP then s
      else s.(sessions := s.sessions[id := t.(accepted := t.accepted + [frame])])
  }

  /** The session takes a frame off its queue; a failed write to the socket makes it leave. */
  function DoDeliver(s: Server, id: nat, ok: bool): Server
    requires id in s.sessions
  {
    var t := s.sessions[id];
    if !t.phase.Looping? || t.taken >= |t.accepted| then s
    else
      var frame := t.accepted[t.taken];
      s.(sessions := s.sessions[id :=
        if ok then t.(taken := t.taken + 1, delivered := t.delivered + [frame])
        else t.(taken := t.taken + 1, phase := Leaving)])
  }

  /** Cleanup removes the user's entry only if it still names this session. */
  function DoCleanUp(s: Server, id: nat): Server
    requires id in s.sessions
  {
    var t := s.sessions[id];
    if !t.phase.Leaving? then s
    else if t.user in s.connections && s.connections[t.user] == id then
      s.(connections := s.connections - {t.user},
         sessions := Close(s.sessions[id := t.(phase := Cleaned)], id))
    else s.(sessions := s.sessions[id := t.(phase := Cleaned)])
  }

  /** One step; a step that is not enabled changes nothing. */
  function Do(s: Server, step: Step): Server {
    match step
    case Open(user) =>
      s.(sessions := s.sessions[s.next := Session(user, Authenticated, [], 0, [], None)], next := s.next + 1)
    case Insert(id) => if id in s.sessions && s.sessions[id].phase.Authenticated? then DoInsert(s, id) else s
    case Send(to, frame) => DoSend(s, to, frame)
    case Deliver(id, ok) => if id in s.sessions then DoDeliver(s, id, ok) else s
    case Leave(id) =>
      if id in s.sessions && s.sessions[id].phase.Looping?
      then s.(sessions := s.sessions[id := s.sessions[id].(phase := Leaving)]) else s
    case CleanUp(id) => if id in s.sessions then DoCleanUp(s, id) else s
  }

  const START: Server := Server(map[], map[], 0, map[])

  function Run(steps: seq<Step>): Server {
    if steps == [] then START else Do(Run(steps[..|steps| - 1]), steps[|steps| - 1])
  }

  /** The session's own books balance. */
  ghost predicate Balanced(t: Session) {
    && t.taken <= |t.accepted| && |t.accepted| - t.taken <= QUEUE_CAP
    && t.delivered <= t.accepted
    && |t.delivered| <= t.taken <= |t.delivered| + 1
    && (t.phase.Looping? ==> |t.delivered| == t.taken)
    && (t.closedAt.Some? ==> t.closedAt.value == |t.accepted|)
    && (t.phase.Authenticated? ==> t.closedAt.None? && t.accepted == [])
  }

  /** The map's entry for the session's user names this session. */
  predicate Current(s: Server, id: nat)
    requires id in s.sessions
  {
    var user := s.sessions[id].user;
    user in s.connections && s.connections[user] == id
  }

  /** The map and the sessions agree on user `u`. */
  ghost predicate UserAgrees(s: Server, u: User) {
    && (u in s.connections ==> u in s.last && s.last[u] == s.connections[u])
    && (u in s.last ==>
          && s.last[u] in s.sessions && s.sessions[s.last[u]].user == u
          && !s.sessions[s.last[u]].phase.Authenticated?
          && (u in s.connections <==> !s.sessions[s.last[u]].phase.Cleaned?))
  }

  /** The map and session `id` agree: current sessions are open, other inserted ones are closed. */
  ghost predicate SessionAgrees(s: Server, id: nat) {
    id in s.sessions ==>
      var t := s.sessions[id];
      && id < s.next && Balanced(t)
      && (Current(s, id) ==> t.closedAt.None? && (t.phase.Looping? || t.phase.Leaving?))
      && (!Current(s, id) && !t.phase.Authenticated? ==> t.closedAt.Some?)
  }

  ghost predicate Sound(s: Server) {
    (forall u :: UserAgrees(s, u)) && forall id :: SessionAgrees(s, id)
  }

  lemma InsertSound(s: Server, id: nat)
    requires Sound(s) && id in s.sessions && s.sessions[id].phase.Authenticated?
    ensures Sound(DoInsert(s, id))
  {
    var next, user := DoInsert(s, id), s.sessions[id].user;
    assert SessionAgrees(s, id) && UserAgrees(s, user);
    forall u ensures UserAgrees(next, u) {
      assert UserAgrees(s, u);
    }
    forall other ensures SessionAgrees(next, other) {
      assert SessionAgrees(s, other);
      if user in s.connections { assert SessionAgrees(s, s.connections[user]); }
    }
  }

  lemma SendSound(s: Server, to: User, frame: Frame)
    requires Sound(s)
    ensures Sound(DoSend(s, to, frame))
  {
    var next := DoSend(s, to, frame);
    assert UserAgrees(s, to);
    if to in s.connections { assert SessionAgrees(s, s.connections[to]); }
    forall u ensures UserAgrees(next, u) { assert UserAgrees(s, u); }
    forall id ensures SessionAgrees(next, id) { assert SessionAgrees(s, id); }
  }

  lemma DeliverSound(s: Server, id: nat, ok: bool)
    requires Sound(s) && id in s.sessions
    ensures Sound(DoDeliver(s, id, ok))
  {
    var next := DoDeliver(s, id, ok);
    forall u ensures UserAgrees(next, u) { assert UserAgrees(s, u); }
    forall other ensures SessionAgrees(next, other) { assert SessionAgrees(s, other); }
  }

  lemma CleanUpSound(s: Server, id: nat)
    requires Sound(s) && id in s.sessions
    ensures Sound(DoCleanUp(s, id))
  {
    var next := DoCleanUp(s, id);
    assert SessionAgrees(s, id) && UserAgrees(s, s.sessions[id].user);
    forall u ensures UserAgrees(next, u) { assert UserAgrees(s, u); }
    forall other ensures SessionAgrees(next, other) { assert SessionAgrees(s, other); }
  }

  lemma OpenOrLeaveSound(s: Server, step: Step)
    requires Sound(s) && (step.Open? || step.Leave?)
    ensures Sound(Do(s, step))
  {
    var next := Do(s, step);
    assert SessionAgrees(s, s.next);
    forall u ensures UserAgrees(next, u) {
      assert UserAgrees(s, u);
      if u in s.last { assert SessionAgrees(s, s.last[u]); }
    }
    forall other ensures SessionAgrees(next, other) {
      assert SessionAgrees(s, other);
      if step.Open? && other == s.next {
        assert UserAgrees(s, step.user);
        if step.user in s.last { assert SessionAgrees(s, s.last[step.user]); }
      }
    }
  }

  lemma StepSound(s: Server, step: Step)
    requires Sound(s)
    ensures Sound(Do(s, step))
  {
    match step {
      case Insert(id) => if id in s.sessions && s.sessions[id].phase.Authenticated? { InsertSound(s, id); }
      case Send(to, frame) => SendSound(s, to, frame);
      case Deliver(id, ok) => if id in s.sessions { DeliverSound(s, id, ok); }
      case CleanUp(id) => if id in s.sessions { CleanUpSound(s, id); }
      case _ => OpenOrLeaveSound(s, step);
    }
  }

  lemma {:induction false} RunSound(steps: seq<Step>)
    ensures Sound(Run(steps))
  {
    if steps != [] {
      RunSound(steps[..|steps| - 1]);
      StepSound(Run(steps[..|steps| - 1]), steps[|steps| - 1]);
    }
  }

  /**
   * In every interleaving, a user is connected exactly while the last session to insert is not cleaned
   * up, and the entry then names that session: a superseded session's cleanup never removes its successor.
   */
  lemma EntryNamesLastInsert(steps: seq<Step>, user: User)
    ensures var s := Run(steps);
            && (user in s.connections ==> user in s.last && s.connections[user] == s.last[user])
            && (user in s.last ==> s.last[user] in s.sessions)
            && (user in s.last ==> (user in s.connections <==> !s.sessions[s.last[user]].phase.Cleaned?))
  {
    RunSound(steps);
    assert UserAgrees(Run(steps), user);
  }

  /** Inserted, but not (or no longer) the one the map names. */
  predicate Superseded(s: Server, id: nat) {
    id in s.sessions && !s.sessions[id].phase.Authenticated? && !Current(s, id)
  }

  lemma SupersededStep(s: Server, step: Step, id: nat)
    requires Sound(s) && Superseded(s, id)
    ensures Superseded(Do(s, step), id) && Do(s, step).sessions[id].accepted == s.sessions[id].accepted
  {
    assert SessionAgrees(s, id);
    match step {
      case Open(_) =>
      case Insert(other) =>
      case Send(to, _) => assert UserAgrees(s, to);
      case Deliver(other, _) =>
      case Leave(other) =>
      case CleanUp(other) =>
    }
  }

  /**
   * A superseded session's queue is closed. Whatever happens next it accepts no further frame, and its
   * cleanup, whenever it comes, takes nobody's entry away.
   */
  lemma {:induction false} SupersededIsClosed(steps: seq<Step>, more: seq<Step>, id: nat)
    requires Superseded(Run(steps), id)
    ensures Run(steps).sessions[id].closedAt.Some?
    ensures Superseded(Run(steps + more), id)
    ensures Run(steps + more).sessions[id].accepted == Run(steps).sessions[id].accepted
    ensures Do(Run(steps + more), CleanUp(id)).connections == Run(steps + more).connections
    decreases more
  {
    RunSound(steps);
    assert SessionAgrees(Run(steps), id);
    if more == [] {
      assert steps + more == steps;
    } else {
      var prefix := steps + more[..|more| - 1];
      assert (steps + more)[..|steps + more| - 1] == prefix;
      SupersededIsClosed(steps, more[..|more| - 1], id);
      RunSound(prefix);
      SupersededStep(Run(prefix), more[|more| - 1], id);
    }
  }

  /** What a session delivers is a prefix of what its queue accepted; the queue never exceeds its cap. */
  lemma DeliveredIsPrefix(steps: seq<Step>, id: nat)
    requires id in Run(steps).sessions
    ensures var t := Run(steps).sessions[id];
            && t.delivered <= t.accepted
            && |t.accepted| - t.taken <= QUEUE_CAP
            && |t.accepted| <= |t.delivered| + 1 + QUEUE_CAP
  {
    RunSound(steps);
    assert SessionAgrees(Run(steps), id);
  }
}
