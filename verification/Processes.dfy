/**
 * The process supervisor as interleaving tasks (src/process.rs, `ProcessSupervisor::spawn`).
 * Each spawned process has four: insert, reader, monitor and alert. They share the `running` table
 * and the event channel.
 */
module Processes {
  import opened Base
  import opened Ids

  datatype Event = Completed(pid: AgentId, exitCode: int) | Failed(pid: AgentId, error: int) | Timeout(pid: AgentId)

  /** How far the monitor has come: it waits, joins the reader, removes, signals, sends. */
  datatype Monitor = Waiting | Joined | Removed | Signalled | Sent

  /** The alert task sleeps, looks once, and sends if it saw the process; `late` means it looked after the removal. */
  datatype Alert = Sleeping | Absent | Seen(late: bool) | Alerted(late: bool)

  /** A line of output, or one that is not well-formed UTF-8, at which the reader of its stream gives up. */
  datatype Line = Text(text: string) | Garbled

  /** The reader takes standard output first, then standard error, line by line. */
  datatype Reader = ReadingOut(n: nat) | ReadingErr(n: nat) | Finished

  /**
   * `out` and `err` are all the output the process will produce; `stored` what the reader has appended so
   * far. `lateInsert` records that the insert task ran after the monitor's removal.
   */
  datatype Process = Process(
    out: seq<Line>, err: seq<Line>, reader: Reader, stored: seq<string>, status: Option<int>, inserted: bool,
    lateInsert: bool, monitor: Monitor, alert: Alert)

  datatype System = System(procs: map<AgentId, Process>, running: set<AgentId>, events: seq<Event>)

  datatype Task =
    | Spawn(out: seq<Line>, err: seq<Line>)
    | Insert
    | Read
    | Exit(code: int)
    | Join
    | Remove
    | Signal
    | Send
    | AlertCheck
    | AlertSend

  datatype Step = Step(pid: AgentId, task: Task)

  predicate PastRemoval(p: Process) {
    p.monitor.Removed? || p.monitor.Signalled? || p.monitor.Sent?
  }

  function TerminalEvent(pid: AgentId, code: int): Event {
    if code == 0 then Completed(pid, code) else Failed(pid, code)
  }

  const TAG := "[stderr] "

  /** One step of the reader. A line it cannot decode ends a stream as its end does; the rest is not read. */
  function ReadOn(p: Process): Process {
    match p.reader
    case ReadingOut(n) =>
      if n < |p.out| && p.out[n].Text? then p.(stored := p.stored + [p.out[n].text], reader := ReadingOut(n + 1))
      else p.(reader := ReadingErr(0))
    case ReadingErr(n) =>
      if n < |p.err| && p.err[n].Text? then p.(stored := p.stored + [TAG + p.err[n].text], reader := ReadingErr(n + 1))
      else p.(reader := Finished)
    case Finished => p
  }

  /** The lines of a stream up to the first that cannot be decoded. */
  function Decodable(lines: seq<Line>): (texts: seq<string>)
    ensures |texts| <= |lines| && forall i :: 0 <= i < |texts| ==> lines[i] == Text(texts[i])
    ensures |texts| < |lines| ==> lines[|texts|].Garbled?
  {
    if lines == [] || lines[0].Garbled? then [] else [lines[0].text] + Decodable(lines[1..])
  }

  function Tagged(texts: seq<string>): seq<string> {
    seq(|texts|, i requires 0 <= i < |texts| => TAG + texts[i])
  }

  /** What is stored of a process when its reader has ended. */
  function Kept(p: Process): seq<string> {
    Decodable(p.out) + Tagged(Decodable(p.err))
  }

  /** Everything the process wrote has been stored. */
  predicate AllStored(p: Process) {
    |p.stored| == |p.out| + |p.err|
  }

  predicate AllDecodes(p: Process) {
    (forall i :: 0 <= i < |p.out| ==> p.out[i].Text?) && (forall i :: 0 <= i < |p.err| ==> p.err[i].Text?)
  }

  /** What one task of a process does: its own state, its entry in the running table, the event it sends. */
  datatype Outcome = Outcome(p: Process, running: bool, event: Option<Event>)

  /** One step of one task; a step that is not enabled changes nothing. */
  function Advance(pid: AgentId, p: Process, running: bool, task: Task): Outcome {
    match task
    case Insert =>
      if p.inserted then Outcome(p, running, None)
      else Outcome(p.(inserted := true, lateInsert := PastRemoval(p)), true, None)
    case Read => Outcome(ReadOn(p), running, None)
    case Exit(code) => Outcome(if p.status.None? then p.(status := Some(code)) else p, running, None)
    case Join =>
      var flushed := p.monitor.Waiting? && p.status.Some? && p.reader.Finished?;
      Outcome(if flushed then p.(monitor := Joined) else p, running, None)
    case Remove =>
      if p.monitor.Joined? then Outcome(p.(monitor := Removed), false, None) else Outcome(p, running, None)
    case Signal => Outcome(if p.monitor.Removed? then p.(monitor := Signalled) else p, running, None)
    case Send =>
      if p.monitor.Signalled? && p.status.Some?
      then Outcome(p.(monitor := Sent), running, Some(TerminalEvent(pid, p.status.value)))
      else Outcome(p, running, None)
    case AlertCheck =>
      var seen := if running then Seen(PastRemoval(p)) else Absent;
      Outcome(if p.alert.Sleeping? then p.(alert := seen) else p, running, None)
    case AlertSend =>
      if p.alert.Seen? then Outcome(p.(alert := Alerted(p.alert.late)), running, Some(Timeout(pid)))
      else Outcome(p, running, None)
    case Spawn(_, _) => Outcome(p, running, None)
  }

  function Do(s: System, step: Step): System {
    var pid := step.pid;
    if pid in s.procs then
      var out := Advance(pid, s.procs[pid], pid in s.running, step.task);
      System(s.procs[pid := out.p],
             if out.running then s.running + {pid} else s.running - {pid},
             s.events + if out.event.Some? then [out.event.value] else [])
    else if step.task.Spawn? then
      s.(procs := s.procs[pid := Process(step.task.out, step.task.err, ReadingOut(0), [], None, false, false, Waiting, Sleeping)])
    else s
  }

  function Run(s: System, steps: seq<Step>): System {
    if steps == [] then s else Do(Run(s, steps[..|steps| - 1]), steps[|steps| - 1])
  }

  const START: System := System(map[], {}, [])

  function Terminals(events: seq<Event>, pid: AgentId): nat {
    if events == [] then 0
    else
      var last := events[|events| - 1];
      Terminals(events[..|events| - 1], pid) + if last.pid == pid && !last.Timeout? then 1 else 0
  }

  function Timeouts(events: seq<Event>, pid: AgentId): nat {
    if events == [] then 0
    else
      var last := events[|events| - 1];
      Timeouts(events[..|events| - 1], pid) + if last.pid == pid && last.Timeout? then 1 else 0
  }

  /** What the reader has stored by now. */
  ghost predicate ReadSoFar(p: Process) {
    match p.reader
    case ReadingOut(n) => n <= |Decodable(p.out)| && p.stored == Decodable(p.out)[..n]
    case ReadingErr(n) => n <= |Decodable(p.err)| && p.stored == Decodable(p.out) + Tagged(Decodable(p.err)[..n])
    case Finished => p.stored == Kept(p)
  }

  lemma TaggedNext(texts: seq<string>, n: nat)
    requires n < |texts|
    ensures Tagged(texts[..n + 1]) == Tagged(texts[..n]) + [TAG + texts[n]]
  {}

  lemma ReadOutKeeps(p: Process)
    requires ReadSoFar(p) && p.reader.ReadingOut?
    ensures ReadSoFar(ReadOn(p))
  {
    var texts, n := Decodable(p.out), p.reader.n;
    if n < |texts| {
      assert p.out[n] == Text(texts[n]);
      assert texts[..n + 1] == texts[..n] + [texts[n]];
    } else {
      assert texts[..n] == texts && (n < |p.out| ==> p.out[n].Garbled?);
      assert texts + Tagged(Decodable(p.err)[..0]) == texts;
    }
  }

  lemma ReadErrKeeps(p: Process)
    requires ReadSoFar(p) && p.reader.ReadingErr?
    ensures ReadSoFar(ReadOn(p))
  {
    var texts, n := Decodable(p.err), p.reader.n;
    assert texts[..|texts|] == texts;
    if n < |texts| {
      TaggedNext(texts, n);
      assert Decodable(p.out) + (Tagged(texts[..n]) + [TAG + texts[n]]) == p.stored + [TAG + texts[n]];
    }
  }

  lemma ReadOnKeeps(p: Process)
    requires ReadSoFar(p)
    ensures ReadSoFar(ReadOn(p))
  {
    match p.reader {
      case ReadingOut(_) => ReadOutKeeps(p);
      case ReadingErr(_) => ReadErrKeeps(p);
      case Finished =>
    }
  }

  /** What holds of one process, its table entry, and the events sent in its name so far. */
  ghost predicate Local(p: Process, running: bool, terminals: nat, timeouts: nat) {
    && ReadSoFar(p)
    && (!p.monitor.Waiting? ==> p.status.Some? && p.reader.Finished?)
    && (p.lateInsert ==> p.inserted && PastRemoval(p))
    && (running <==> p.inserted && (!PastRemoval(p) || p.lateInsert))
    && ((p.alert.Seen? || p.alert.Alerted?) && p.alert.late ==> p.lateInsert)
    && terminals == (if p.monitor.Sent? then 1 else 0)
    && timeouts == (if p.alert.Alerted? then 1 else 0)
  }

  ghost predicate Consistent(s: System, pid: AgentId) {
    if pid in s.procs then Local(s.procs[pid], pid in s.running, Terminals(s.events, pid), Timeouts(s.events, pid))
    else pid !in s.running && Terminals(s.events, pid) == 0 && Timeouts(s.events, pid) == 0
  }

  lemma AdvanceKeepsLocal(pid: AgentId, p: Process, running: bool, task: Task, terminals: nat, timeouts: nat)
    requires Local(p, running, terminals, timeouts)
    ensures var out := Advance(pid, p, running, task);
            && (out.event.Some? ==> out.event.value.pid == pid)
            && Local(out.p, out.running,
                 terminals + if out.event.Some? && !out.event.value.Timeout? then 1 else 0,
                 timeouts + if out.event.Some? && out.event.value.Timeout? then 1 else 0)
  {
    if task.Read? { ReadOnKeeps(p); }
  }

  lemma EventCounts(events: seq<Event>, e: Event, pid: AgentId)
    ensures Terminals(events + [e], pid) == Terminals(events, pid) + if e.pid == pid && !e.Timeout? then 1 else 0
    ensures Timeouts(events + [e], pid) == Timeouts(events, pid) + if e.pid == pid && e.Timeout? then 1 else 0
  {
    assert (events + [e])[..|events|] == events;
  }

  lemma StepConsistent(s: System, step: Step, pid: AgentId)
    requires Consistent(s, pid) && Consistent(s, step.pid)
    ensures Consistent(Do(s, step), pid)
  {
    if step.pid in s.procs {
      var running := step.pid in s.running;
      AdvanceKeepsLocal(step.pid, s.procs[step.pid], running, step.task,
                        Terminals(s.events, step.pid), Timeouts(s.events, step.pid));
      var out := Advance(step.pid, s.procs[step.pid], running, step.task);
      if out.event.Some? { EventCounts(s.events, out.event.value, pid); }
      assert s.events + [] == s.events;
    }
  }

  lemma {:induction false} RunConsistent(steps: seq<Step>, pid: AgentId)
    ensures Consistent(Run(START, steps), pid)
  {
    if steps != [] {
      RunConsistent(steps[..|steps| - 1], pid);
      RunConsistent(steps[..|steps| - 1], steps[|steps| - 1].pid);
      StepConsistent(Run(START, steps[..|steps| - 1]), steps[|steps| - 1], pid);
    }
  }

  lemma KeptIsAllIff(p: Process)
    requires p.stored == Kept(p)
    ensures AllStored(p) <==> AllDecodes(p)
  {}

  /**
   * In every interleaving of any number of processes: at most one terminal event per process, and at most
   * one Timeout. When the terminal event is sent, what is stored is, stream by stream, the output up to the
   * first line that is not well-formed UTF-8: all of it exactly if every line is.
   */
  lemma ProcessProtocol(steps: seq<Step>, pid: AgentId)
    ensures var s := Run(START, steps);
            && Terminals(s.events, pid) <= 1 && Timeouts(s.events, pid) <= 1
            && (Terminals(s.events, pid) == 1 ==>
                  && pid in s.procs && s.procs[pid].stored == Kept(s.procs[pid])
                  && (AllStored(s.procs[pid]) <==> AllDecodes(s.procs[pid])))
  {
    RunConsistent(steps, pid);
    var s := Run(START, steps);
    if Terminals(s.events, pid) == 1 { KeptIsAllIff(s.procs[pid]); }
  }

  /**
   * A caller blocked on the process is released only when its reader has ended and the removal is done:
   * with all output stored exactly if every line could be decoded.
   */
  lemma SignalMeansFlushed(steps: seq<Step>, pid: AgentId)
    requires var s := Run(START, steps); pid in s.procs && s.procs[pid].monitor.Signalled?
    ensures var s := Run(START, steps);
            && s.procs[pid].stored == Kept(s.procs[pid]) && Terminals(s.events, pid) == 0
            && (AllStored(s.procs[pid]) <==> AllDecodes(s.procs[pid]))
  {
    RunConsistent(steps, pid);
    KeptIsAllIff(Run(START, steps).procs[pid]);
  }

  /**
   * An alert that looks after the monitor's removal finds the process exactly when the insert task ran
   * late. So with the insert first, no check that starts after the removal sends a Timeout.
   */
  lemma LateCheckSeesIffLateInsert(steps: seq<Step>, pid: AgentId)
    requires var s := Run(START, steps); pid in s.procs && PastRemoval(s.procs[pid]) && s.procs[pid].alert.Sleeping?
    ensures var s := Run(START, steps);
            Do(s, Step(pid, AlertCheck)).procs[pid].alert.Seen?
            <==> s.procs[pid].inserted && s.procs[pid].lateInsert
  {
    RunConsistent(steps, pid);
  }

  /**
   * The race: wherever the insert task has not run by the time the monitor is done, running it, and
   * then the alert, reports a Timeout for a process whose terminal event is already out.
   */
  lemma LateInsertRace(steps: seq<Step>, pid: AgentId)
    requires var s := Run(START, steps);
             pid in s.procs && s.procs[pid].monitor.Sent? && !s.procs[pid].inserted && s.procs[pid].alert.Sleeping?
    ensures var s := Run(START, steps);
            var t := Do(Do(Do(s, Step(pid, Insert)), Step(pid, AlertCheck)), Step(pid, AlertSend));
            && t.events == s.events + [Timeout(pid)] && Terminals(s.events, pid) == 1
            && pid in t.running
  {
    RunConsistent(steps, pid);
    var s := Run(START, steps);
    var s1 := Do(s, Step(pid, Insert));
    var s2 := Do(s1, Step(pid, AlertCheck));
    assert s1.events == s.events && s2.events == s.events;
    assert s2.procs[pid].alert == Seen(true);
  }

  lemma RunSnoc(steps: seq<Step>, step: Step)
    ensures Run(START, steps + [step]) == Do(Run(START, steps), step)
  {
    assert (steps + [step])[..|steps|] == steps;
  }

  /** A run of one successful process, silent or with a first line that cannot be decoded, whose insert task never gets its turn. */
  lemma UnheardRun(pid: AgentId, out: seq<Line>) returns (steps: seq<Step>)
    requires out == [] || out[0].Garbled?
    ensures var s := Run(START, steps);
            && pid in s.procs && s.procs[pid] == Process(out, [], Finished, [], Some(0), false, false, Sent, Sleeping)
            && Terminals(s.events, pid) == 1
  {
    var none: seq<Step> := [];
    var begun := none + [Step(pid, Spawn(out, []))];
    var turned := begun + [Step(pid, Read)];
    var read := turned + [Step(pid, Read)];
    var exited := read + [Step(pid, Exit(0))];
    var joined := exited + [Step(pid, Join)];
    var removed := joined + [Step(pid, Remove)];
    var signalled := removed + [Step(pid, Signal)];
    steps := signalled + [Step(pid, Send)];
    RunSnoc(none, Step(pid, Spawn(out, [])));
    RunSnoc(begun, Step(pid, Read));
    RunSnoc(turned, Step(pid, Read));
    RunSnoc(read, Step(pid, Exit(0)));
    RunSnoc(exited, Step(pid, Join));
    RunSnoc(joined, Step(pid, Remove));
    RunSnoc(removed, Step(pid, Signal));
    RunSnoc(signalled, Step(pid, Send));
    assert Run(START, begun).procs[pid] == Process(out, [], ReadingOut(0), [], None, false, false, Waiting, Sleeping);
    assert Run(START, read).procs[pid].reader.Finished?;
    assert Run(START, joined).procs[pid].monitor.Joined?;
    assert Run(START, steps).procs[pid] == Process(out, [], Finished, [], Some(0), false, false, Sent, Sleeping);
    RunConsistent(steps, pid);
  }

  lemma RaceIsReachable(pid: AgentId)
    ensures exists steps: seq<Step> :: var s := Run(START, steps);
              pid in s.procs && s.procs[pid].monitor.Sent? && !s.procs[pid].inserted && s.procs[pid].alert.Sleeping?
  {
    var steps := UnheardRun(pid, []);
  }

  /** A process that writes one line that cannot be decoded and one that can: its end is reported, and nothing is stored. */
  lemma GarbledLineLosesOutput(pid: AgentId, text: string)
    ensures exists steps: seq<Step> :: var s := Run(START, steps);
              && pid in s.procs && s.procs[pid].out == [Garbled, Text(text)]
              && Terminals(s.events, pid) == 1 && s.procs[pid].stored == []
  {
    var steps := UnheardRun(pid, [Garbled, Text(text)]);
  }
}
