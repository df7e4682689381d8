/** What a turn leaves of itself, read off its calls: result, entry, channel and compaction (src/agent_loop.rs `run_turn`). */
module TurnOutcomes {
  import opened Base
  import opened Ids
  import opened Items
  import opened Kernels
  import opened Turns
  import opened Steadiness
  import opened TurnEffects
  import opened Frames
  import C = Calls
  import CM = CompactionMode
  import TF = TurnFacts
  import R = Registries

  // ---- Where a committed turn stands ----

  function Committed(w: World, c: Config, k: Kernel, resp: Response, now: nat): Kernel {
    var t := Run(w, c, k, resp, now);
    Commit(w, c, Prepared(Begin(k, resp), resp, t.fx), t, resp, now)
  }

  function Ended(w: World, c: Config, k: Kernel, resp: Response, now: nat): Kernel {
    Deferred(w, Committed(w, c, k, resp, now), Run(w, c, k, resp, now).fx, now)
  }

  lemma CommittedTurnIs(w: World, c: Config, k: Kernel, resp: Response, now: nat)
    requires Succeeds(k, resp)
    ensures Turn(w, c, k, resp, now) == Recorded(w, Ended(w, c, k, resp, now), resp, now)
  {
    SucceedsIff(w, c, k, resp, now);
  }

  lemma CallsOf(w: World, c: Config, k: Kernel, resp: Response, now: nat)
    ensures C.Flagged(Run(w, c, k, resp, now).fx, resp.script.ops)
  {
    C.EffectsAreTheCalls(w, ModeOf(c, k), now, Begin(k, resp).s, resp.script);
  }

  // ---- The result ----

  lemma CommitRestKeepsResult(w: World, c: Config, k: Kernel, fx: Effects, resp: Response, now: nat)
    ensures CommitRest(w, c, k, fx, resp, now).doneResult == k.doneResult
  {
    ClosingKeepsResult(w, c, Sent(k, fx, resp), fx, resp.compactionRun, now);
  }

  lemma ClosingKeepsResult(w: World, c: Config, k: Kernel, fx: Effects, run: Script, now: nat)
    ensures Closing(w, c, k, fx, run, now).doneResult == k.doneResult
  {}

  lemma CommitKeepsResult(w: World, c: Config, k: Kernel, t: Txn, resp: Response, now: nat)
    ensures Deferred(w, Commit(w, c, k, t, resp, now), t.fx, now).doneResult == k.doneResult
  {
    CommitWorkSteady(w, c, k, t, resp, now);
    CommitRestKeepsResult(w, c, CommitWork(w, c, k, t, resp, now), t.fx, resp, now);
    DeferredSteady(w, Commit(w, c, k, t, resp, now), t.fx, now);
  }

  /**
   * The result is what the calls of `done()` say, whenever the script ends well; but the agent finishes only
   * if the recipients are found, too, and it survives what it reads while it waits.
   */
  lemma ResultIsTheCalls(w: World, c: Config, k: Kernel, resp: Response, now: nat)
    ensures Turn(w, c, k, resp, now).doneResult
            == if resp.script.ending.Finished? && C.AnyDone(resp.script.ops) then C.DoneResult(resp.script.ops) else k.doneResult
    ensures IsDone(w, c, k, resp, now)
            <==> Succeeds(k, resp) && C.AnyDone(resp.script.ops) && !Turn(w, c, k, resp, now).crashed
  {
    var t := Run(w, c, k, resp, now);
    CallsOf(w, c, k, resp, now);
    SucceedsIff(w, c, k, resp, now);
    CommitKeepsResult(w, c, Prepared(Begin(k, resp), resp, t.fx), t, resp, now);
  }

  // ---- The channel ----

  lemma DeferredReads(w: World, k: Kernel, fx: Effects, now: nat)
    ensures Deferred(w, k, fx, now).inbox == if Blocks(w, fx.launches) then [] else k.inbox
  {
    ApplyEventsKeepOuter(w, k.(inbox := []), k.inbox, now);
  }

  /** A turn reads the channel to its end if its calls leave a process to wait for, and leaves it alone otherwise. */
  lemma ReadsIffItWaits(w: World, c: Config, k: Kernel, resp: Response, now: nat)
    ensures Turn(w, c, k, resp, now).inbox == if Succeeds(k, resp) && WaitsForOne(w, c, k, resp) then [] else k.inbox
  {
    var t := Run(w, c, k, resp, now);
    SucceedsIff(w, c, k, resp, now);
    BlocksIff(w, c, k, resp, now);
    CommitKeepsInbox(w, c, Prepared(Begin(k, resp), resp, t.fx), t, resp, now);
    DeferredReads(w, Committed(w, c, k, resp, now), t.fx, now);
  }

  // ---- The entry ----

  /** Why a turn fails, if it does: the script's own error, or the first recipient that is missing when it is looked up. */
  ghost predicate Complains(k: Kernel, resp: Response, text: string) {
    if resp.script.ending.Aborted? then text == "[ERROR]\n" + resp.script.ending.error
    else
      var notes := C.Notes(resp.script.ops);
      exists i :: 0 <= i < |notes| && FirstMissing(k, resp, i)
               && text == "[ERROR]\n" + "message_agent failed: agent '" + notes[i].recipient + "' not found"
  }

  ghost predicate FirstMissing(k: Kernel, resp: Response, i: nat)
    requires i < |C.Notes(resp.script.ops)|
  {
    var notes := C.Notes(resp.script.ops);
    && notes[i].recipient !in R.AsOf(k.registry, resp.others.validating, i + 1)
    && forall j :: 0 <= j < i ==> notes[j].recipient in R.AsOf(k.registry, resp.others.validating, j + 1)
  }

  lemma MissingIsFirst(k: Kernel, resp: Response)
    requires Missing(k.registry, C.Notes(resp.script.ops), resp.others.validating).Some?
    ensures FirstMissing(k, resp, Missing(k.registry, C.Notes(resp.script.ops), resp.others.validating).value)
  {
    var notes, between := C.Notes(resp.script.ops), resp.others.validating;
    forall i | 0 <= i < |notes| ensures Known(k.registry, notes, between)[i] <==> notes[i].recipient in R.AsOf(k.registry, between, i + 1) {
      R.ViewAt(k.registry, between, |notes|, i);
    }
  }

  lemma FailureComplains(w: World, c: Config, k: Kernel, resp: Response, now: nat)
    requires Failure(w, c, k, resp, now).Some?
    ensures Complains(k, resp, ErrorOutput(Failure(w, c, k, resp, now).value))
  {
    C.EffectsAreTheCalls(w, ModeOf(c, k), now, Begin(k, resp).s, resp.script);
    if resp.script.ending.Finished? {
      MissingIsFirst(k, resp);
      var i := Missing(k.registry, C.Notes(resp.script.ops), resp.others.validating).value;
      var name := C.Notes(resp.script.ops)[i].recipient;
      assert ErrorOutput(UnknownAgent(name)) == "[ERROR]\n" + "message_agent failed: agent '" + name + "' not found";
    }
  }

  /** Exactly this entry, under the id drawn last. */
  ghost predicate EndsWith(w: World, s: Harness, code: string, output: string, isError: bool, now: nat) {
    && s.history != [] && s.counter > 0
    && s.history[|s.history| - 1] == Execution(w.draw(s.counter - 1), now, code, output, isError)
  }

  lemma RecordedEntry(w: World, k: Kernel, resp: Response, now: nat)
    requires resp.script.ending.Finished? && !k.crashed
    ensures EndsWith(w, Recorded(w, k, resp, now).s, resp.code, resp.script.ending.stdout, false, now)
  {}

  lemma RecordedCrash(w: World, k: Kernel, resp: Response, now: nat)
    requires resp.script.ending.Finished?
    ensures Recorded(w, k, resp, now).crashed == k.crashed
  {}

  /** A committed turn's entry is the last of the history, under the id drawn last: its code with its output. */
  lemma EntryIsWritten(w: World, c: Config, k: Kernel, resp: Response, now: nat)
    requires Succeeds(k, resp) && !Turn(w, c, k, resp, now).crashed
    ensures EndsWith(w, Turn(w, c, k, resp, now).s, resp.code, resp.script.ending.stdout, false, now)
  {
    var ended := Ended(w, c, k, resp, now);
    CommittedTurnIs(w, c, k, resp, now);
    RecordedCrash(w, ended, resp, now);
    RecordedEntry(w, ended, resp, now);
  }

  /** A failed turn adds one entry, with why it failed. */
  lemma FailureIsWritten(w: World, c: Config, k: Kernel, resp: Response, now: nat)
    requires !Succeeds(k, resp)
    ensures exists text :: Complains(k, resp, text)
                        && Turn(w, c, k, resp, now).s.history == k.s.history + [Execution(w.draw(k.s.counter), now, resp.code, text, true)]
  {
    SucceedsIff(w, c, k, resp, now);
    FailureComplains(w, c, k, resp, now);
    TF.FailedTurnRollsBack(w, c, k, resp, now);
  }

  // ---- Compaction ----

  /** Compaction is under way when `compact()` is honoured: it was before the turn, or the calls have requested it and it can be. */
  predicate UnderWay(c: Config, k: Kernel, ops: seq<ScriptOp>) {
    k.compaction.active || (C.AnyRequest(ops) && c.canCompact)
  }

  predicate Completes(c: Config, k: Kernel, resp: Response) {
    UnderWay(c, k, resp.script.ops) && C.AnyCompact(resp.script.ops) && resp.compactionRun.ending.Finished?
  }

  lemma ClosingCompaction(w: World, c: Config, k: Kernel, fx: Effects, run: Script, now: nat)
    ensures var on := k.compaction.active || (fx.requested && c.canCompact);
            Closing(w, c, k, fx, run, now).compaction
            == if on && fx.compactCalled && run.ending.Finished? then Compaction.Compaction(false, "")
               else Compaction.Compaction(on, Appended(if on && !k.compaction.active then "" else k.compaction.script, fx.appends))
  {}

  lemma CommitCompaction(w: World, c: Config, k: Kernel, t: Txn, resp: Response, now: nat)
    ensures var on := k.compaction.active || (t.fx.requested && c.canCompact);
            Deferred(w, Commit(w, c, k, t, resp, now), t.fx, now).compaction
            == if on && t.fx.compactCalled && resp.compactionRun.ending.Finished? then Compaction.Compaction(false, "")
               else Compaction.Compaction(on, Appended(if on && !k.compaction.active then "" else k.compaction.script, t.fx.appends))
  {
    var worked := CommitWork(w, c, k, t, resp, now);
    CommitWorkSteady(w, c, k, t, resp, now);
    ClosingCompaction(w, c, Sent(worked, t.fx, resp), t.fx, resp.compactionRun, now);
    DeferredSteady(w, Commit(w, c, k, t, resp, now), t.fx, now);
  }

  lemma AppendedMark(script: string, text: string)
    ensures Appended(script, if text != "" then [text] else []) == script + text
  {
    if text != "" { assert [text][..0] == []; }
  }

  /** How compaction stands after a turn, from how it stood and what the calls ask for. */
  function CompactionAfter(c: Config, k: Kernel, resp: Response): Compaction
    requires resp.script.ending.Finished?
  {
    if Completes(c, k, resp) then Compaction.Compaction(false, "")
    else if k.compaction.active then Compaction.Compaction(true, k.compaction.script + resp.script.ending.appended)
    else if UnderWay(c, k, resp.script.ops) then Compaction.Compaction(true, "")
    else k.compaction
  }

  lemma EndedCompaction(w: World, c: Config, k: Kernel, resp: Response, now: nat)
    requires resp.script.ending.Finished?
    ensures Ended(w, c, k, resp, now).compaction == CompactionAfter(c, k, resp)
  {
    var t := Run(w, c, k, resp, now);
    C.EffectsAreTheCalls(w, ModeOf(c, k), now, Begin(k, resp).s, resp.script);
    CommitCompaction(w, c, Prepared(Begin(k, resp), resp, t.fx), t, resp, now);
    AppendedMark(k.compaction.script, resp.script.ending.appended);
  }

  /**
   * A committed turn begins compaction when its calls request it, ends it when they call `compact()` and the
   * accumulated script runs well, and until then what it leaves for that script is appended. A failed turn
   * leaves compaction as it is.
   */
  lemma CompactionIsTheCalls(w: World, c: Config, k: Kernel, resp: Response, now: nat)
    ensures Succeeds(k, resp) ==> Turn(w, c, k, resp, now).compaction == CompactionAfter(c, k, resp)
    ensures !Succeeds(k, resp) ==> Turn(w, c, k, resp, now).compaction == k.compaction
  {
    if Succeeds(k, resp) {
      CommittedTurnIs(w, c, k, resp, now);
      EndedCompaction(w, c, k, resp, now);
    } else {
      SucceedsIff(w, c, k, resp, now);
      TF.FailedTurnRollsBack(w, c, k, resp, now);
    }
  }
}
