/** `Manager.run`: one liveness lookup per poll, then the decision table that
    starts or stops the recorder. The worker thread that runs `start` is
    abstracted as taking effect before the next poll, and the sleep between
    polls is left out. */
module Polling {
  import opened Results
  import opened Naming
  import opened Liveness
  import opened Recording

  datatype Action = LaunchStart | NoOp | StopRecorder

  /** The per-poll decision table of `run`. */
  function Decide(state: State, live: bool): (a: Action)
    ensures a == LaunchStart <==> CanStart(state) && live
    ensures a == StopRecorder <==> state == Running && !live
    ensures a == NoOp <==> (CanStart(state) && !live) || (state == Running && live)
  {
    if CanStart(state) then (if live then LaunchStart else NoOp)
    else if live then NoOp else StopRecorder
  }

  /** Why `run` ended. */
  datatype Fault =
    | LookupFault(error: LookupError)  // `is_channel_live` raised
    | StopFault(outcome: Outcome)      // `stop` raised

  /** `Looping` while the loop goes on; `Hung` when a `stop` call never
      returns; `Crashed` when an exception left `run`. */
  datatype Status = Looping | Hung | Crashed(fault: Fault)

  /** The manager: its recorder, whether its loop still runs, and how many
      times it called `auth`. */
  datatype Manager = Manager(rec: Recorder, status: Status, authCalls: nat)

  /** What one poll works with: the result of its `is_channel_live` call
      (see `Poll` for how it arises from the HTTP responses), the clock
      reading a `start` would use, whether the stream would open, and whether
      ffmpeg would succeed. */
  datatype Observation = Observation(
    lookup: Lookup,
    now: Timestamp,
    openSucceeds: bool,
    remuxSucceeded: bool)

  /** The manager after some polls, the actions it took, and the files it finalized. */
  datatype Trace = Trace(m: Manager, actions: seq<Action>, finalized: seq<Finalize>)

  /** `Manager.__init__`: no token yet, no worker. */
  function NewManager(rec: Recorder): (m: Manager)
    ensures m.status == Looping && m.rec == rec && m.authCalls == 0
    ensures rec.Valid() ==> ManagerValid(m)
  {
    Manager(rec, Looping, 0)
  }

  /** The manager is still polling with a recorder between calls, or has
      stopped polling for good. */
  predicate ManagerValid(m: Manager) {
    m.status.Looping? ==> m.rec.Valid()
  }

  /** The poll reported `live`. */
  predicate Reports(o: Observation, live: bool) {
    o.lookup.live == Success(live)
  }

  /** One iteration of the `while True` loop, given its lookup result. */
  function Step(m: Manager, o: Observation): (t: Trace)
    ensures |t.actions| <= 1 && |t.finalized| <= 1
    ensures !m.status.Looping? ==> t == Trace(m, [], [])
    ensures t.m.rec.channel == m.rec.channel && t.m.rec.folder == m.rec.folder
    ensures m.status.Looping? ==>
              t.m.authCalls == m.authCalls + o.lookup.authCalls
    ensures m.status.Looping? && o.lookup.live.Failure? ==>
              && t.m.status == Crashed(LookupFault(o.lookup.live.error))
              && t.m.rec == m.rec && t.actions == []
    ensures forall live :: m.status.Looping? && Reports(o, live) ==>
              t.actions == [Decide(m.rec.state, live)]
    ensures t.actions == [LaunchStart] ==>
              CanStart(m.rec.state) && t.m.rec.state == Running && t.m.status == Looping
    ensures t.actions == [StopRecorder] ==> m.rec.state == Running
    ensures m.status.Looping? && t.actions == [NoOp] ==>
              t.m.rec == m.rec && t.m.status == Looping && t.finalized == []
    ensures m.status.Looping? && t.actions == [LaunchStart] ==>
              t.m.rec == Start(m.rec, o.now, o.openSucceeds).rec && t.finalized == []
    ensures m.status.Looping? && t.actions == [StopRecorder] ==>
              var s := Stop(m.rec, o.remuxSucceeded);
              && t.m.rec == s.rec
              && (s.outcome == Done ==> t.m.status == Looping && t.finalized == [s.finalize.value])
              && (s.outcome == NeverReturns ==> t.m.status == Hung && t.finalized == [])
    ensures m.status.Looping? ==> t.m.status != Crashed(StopFault(AssertionFailed))
    ensures m.status.Looping? && m.rec.Valid() ==>
              ManagerValid(t.m) && (t.m.status.Crashed? ==> t.m.status.fault.LookupFault?)
  {
    if !m.status.Looping? then Trace(m, [], [])
    else
      var lookup := o.lookup;
      var m1 := m.(authCalls := m.authCalls + lookup.authCalls);
      match lookup.live
      case Failure(e) => Trace(m1.(status := Crashed(LookupFault(e))), [], [])
      case Success(live) =>
        var a := Decide(m1.rec.state, live);
        match a
        case LaunchStart =>
          // The worker thread's exceptions end the thread, not the loop.
          Trace(m1.(rec := Start(m1.rec, o.now, o.openSucceeds).rec), [a], [])
        case NoOp =>
          Trace(m1, [a], [])
        case StopRecorder =>
          var t := Stop(m1.rec, o.remuxSucceeded);
          if t.outcome == Done then Trace(m1.(rec := t.rec), [a], [t.finalize.value])
          else if t.outcome == NeverReturns then Trace(m1.(rec := t.rec, status := Hung), [a], [])
          else Trace(m1.(rec := t.rec, status := Crashed(StopFault(t.outcome))), [a], [])
  }

  /** A whole poll: `is_channel_live` on the responses its requests receive,
      then the step on its result. */
  function Poll(m: Manager, responses: seq<Response>, now: Timestamp, openSucceeds: bool, remuxSucceeded: bool): (t: Trace)
    ensures forall k :: m.status.Looping? && AnsweredAt(responses, k) ==> t.m.authCalls == m.authCalls + k
    ensures forall k, live ::
              (m.status.Looping? && AnsweredAt(responses, k) && Answer(responses[k], m.rec.channel) == Success(live))
              ==> t.actions == [Decide(m.rec.state, live)]
  {
    Step(m, Observation(IsChannelLive(responses, m.rec.channel), now, openSucceeds, remuxSucceeded))
  }

  /** `run` over a sequence of polls. */
  function Run(m: Manager, obs: seq<Observation>): (t: Trace)
    ensures !m.status.Looping? ==> t.m == m
    decreases |obs|
  {
    if |obs| == 0 then Trace(m, [], [])
    else
      var first := Step(m, obs[0]);
      var rest := Run(first.m, obs[1..]);
      Trace(rest.m, first.actions + rest.actions, first.finalized + rest.finalized)
  }

  // ---------------------------------------------------------------------------
  // Reference definitions for traces

  /** Starts and stops alternate, beginning with a start when the recorder
      is not running and with a stop when it is. */
  predicate Alternates(actions: seq<Action>, running: bool)
    decreases |actions|
  {
    if |actions| == 0 then true
    else match actions[0]
      case LaunchStart => !running && Alternates(actions[1..], true)
      case StopRecorder => running && Alternates(actions[1..], false)
      case NoOp => Alternates(actions[1..], running)
  }

  function Count(actions: seq<Action>, a: Action): nat
    decreases |actions|
  {
    if |actions| == 0 then 0
    else (if actions[0] == a then 1 else 0) + Count(actions[1..], a)
  }

  // ---------------------------------------------------------------------------
  // Properties of the loop

  /** Once the loop has stopped polling, later polls do nothing. */
  lemma {:induction false} HaltedIsSilent(m: Manager, obs: seq<Observation>)
    requires !m.status.Looping?
    ensures Run(m, obs) == Trace(m, [], [])
    decreases |obs|
  {
    if |obs| > 0 {
      HaltedIsSilent(m, obs[1..]);
    }
  }

  /** Each poll takes at most one action and finalizes at most one file. */
  lemma {:induction false} RunActsOncePerPoll(m: Manager, obs: seq<Observation>)
    ensures |Run(m, obs).actions| <= |obs|
    ensures |Run(m, obs).finalized| <= |obs|
    decreases |obs|
  {
    if |obs| > 0 {
      RunActsOncePerPoll(Step(m, obs[0]).m, obs[1..]);
    }
  }

  /** A run keeps the recorder's channel and folder, and `auth` calls only
      accumulate. */
  lemma {:induction false} RunKeepsChannel(m: Manager, obs: seq<Observation>)
    ensures Run(m, obs).m.rec.channel == m.rec.channel && Run(m, obs).m.rec.folder == m.rec.folder
    ensures Run(m, obs).m.authCalls >= m.authCalls
    decreases |obs|
  {
    if |obs| > 0 {
      RunKeepsChannel(Step(m, obs[0]).m, obs[1..]);
    }
  }

  /** Over every sequence of polls, whatever the lookups, stream opens and
      remuxes do, starts and stops of the recorder alternate. */
  lemma {:induction false} RunAlternates(m: Manager, obs: seq<Observation>)
    ensures Alternates(Run(m, obs).actions, m.rec.state == Running)
    decreases |obs|
  {
    if |obs| > 0 {
      var first := Step(m, obs[0]);
      var rest := Run(first.m, obs[1..]);
      RunAlternates(first.m, obs[1..]);
      if !first.m.status.Looping? {
        HaltedIsSilent(first.m, obs[1..]);
      }
      var all := first.actions + rest.actions;
      if |first.actions| == 1 {
        assert all[0] == first.actions[0] && all[1..] == rest.actions;
        var a := first.actions[0];
        assert first.actions == [a];
        if a == StopRecorder && first.m.status.Looping? {
          assert first.m.rec.state == Stopped;
        }
      } else {
        assert all == rest.actions;
        if m.status.Looping? {
          assert first.m.status.Crashed?;
        }
      }
    }
  }

  /** Along alternating actions, starts exceed stops by at most one. */
  lemma {:induction false} AlternatesBoundsCounts(actions: seq<Action>, running: bool)
    requires Alternates(actions, running)
    ensures running ==> Count(actions, StopRecorder) <= Count(actions, LaunchStart) + 1
    ensures running ==> Count(actions, LaunchStart) <= Count(actions, StopRecorder)
    ensures !running ==> Count(actions, StopRecorder) <= Count(actions, LaunchStart)
    ensures !running ==> Count(actions, LaunchStart) <= Count(actions, StopRecorder) + 1
    decreases |actions|
  {
    if |actions| > 0 {
      match actions[0]
      case LaunchStart => AlternatesBoundsCounts(actions[1..], true);
      case StopRecorder => AlternatesBoundsCounts(actions[1..], false);
      case NoOp => AlternatesBoundsCounts(actions[1..], running);
    }
  }

  /** From a recorder that is not running (a fresh one included), every run
      has as many stops as starts, or one start more: two recordings are
      never launched without a stop in between. */
  lemma StartsAndStopsBalance(m: Manager, obs: seq<Observation>)
    requires CanStart(m.rec.state)
    ensures var t := Run(m, obs);
            Count(t.actions, StopRecorder) <= Count(t.actions, LaunchStart) <= Count(t.actions, StopRecorder) + 1
  {
    RunAlternates(m, obs);
    AlternatesBoundsCounts(Run(m, obs).actions, false);
  }

  /** A valid manager never trips the recorder's assertions nor reaches the
      missing-file path: `run` ends only through a failed lookup or a `stop`
      that never returns. */
  lemma {:induction false} RunKeepsValid(m: Manager, obs: seq<Observation>)
    requires ManagerValid(m)
    requires !m.status.Crashed? || m.status.fault.LookupFault?
    ensures ManagerValid(Run(m, obs).m)
    ensures var s := Run(m, obs).m.status; s.Looping? || s.Hung? || s.fault.LookupFault?
    decreases |obs|
  {
    if |obs| > 0 {
      var first := Step(m, obs[0]);
      RunKeepsValid(first.m, obs[1..]);
    }
  }

  /** While the recorder runs and every poll reports live, the loop only waits. */
  lemma {:induction false} RecordingWhileLiveIsIdle(m: Manager, obs: seq<Observation>)
    requires m.status.Looping? && m.rec.state == Running
    requires forall i :: 0 <= i < |obs| ==> Reports(obs[i], true)
    ensures Run(m, obs).m.status.Looping?
    ensures Run(m, obs).m.rec == m.rec
    ensures Count(Run(m, obs).actions, LaunchStart) == 0
    ensures Count(Run(m, obs).actions, StopRecorder) == 0
    decreases |obs|
  {
    if |obs| > 0 {
      var first := Step(m, obs[0]);
      assert Reports(obs[0], true);
      assert first.actions == [NoOp];
      assert first.m.rec == m.rec;
      RecordingWhileLiveIsIdle(first.m, obs[1..]);
      var rest := Run(first.m, obs[1..]);
      assert (first.actions + rest.actions)[1..] == rest.actions;
    }
  }

  /** A run of live polls starting from an idle recorder yields exactly one
      start and no stop (`live -> live -> live` starts once). */
  lemma {:induction false} LivePollsStartOnce(m: Manager, obs: seq<Observation>)
    requires m.status.Looping? && CanStart(m.rec.state)
    requires |obs| >= 1
    requires forall i :: 0 <= i < |obs| ==> Reports(obs[i], true)
    ensures Count(Run(m, obs).actions, LaunchStart) == 1
    ensures Count(Run(m, obs).actions, StopRecorder) == 0
    ensures Run(m, obs).m.rec.state == Running
  {
    var first := Step(m, obs[0]);
    assert Reports(obs[0], true);
    assert first.actions == [LaunchStart];
    RecordingWhileLiveIsIdle(first.m, obs[1..]);
    var rest := Run(first.m, obs[1..]);
    assert (first.actions + rest.actions)[1..] == rest.actions;
  }

  /** While the channel stays offline an idle recorder is never started
      (`offline -> offline` records nothing). */
  lemma {:induction false} OfflinePollsNeverStart(m: Manager, obs: seq<Observation>)
    requires m.status.Looping? && CanStart(m.rec.state)
    requires forall i :: 0 <= i < |obs| ==> Reports(obs[i], false)
    ensures Run(m, obs).m.status.Looping?
    ensures Run(m, obs).m.rec == m.rec
    ensures Count(Run(m, obs).actions, LaunchStart) == 0
    ensures Count(Run(m, obs).actions, StopRecorder) == 0
    decreases |obs|
  {
    if |obs| > 0 {
      var first := Step(m, obs[0]);
      assert Reports(obs[0], false);
      assert first.actions == [NoOp];
      OfflinePollsNeverStart(first.m, obs[1..]);
      var rest := Run(first.m, obs[1..]);
      assert (first.actions + rest.actions)[1..] == rest.actions;
    }
  }

  /** `live -> offline` with a stream that opens: one start, one stop, the
      capture remuxed and deleted, and the loop polling on. */
  lemma {:induction false} LiveThenOfflineRecordsOnce(m: Manager, o1: Observation, o2: Observation)
    requires m.status.Looping? && m.rec.Valid() && CanStart(m.rec.state)
    requires Reports(o1, true) && Reports(o2, false)
    requires o1.openSucceeds
    ensures var t := Run(m, [o1, o2]);
            var f := NewFilename(m.rec.folder, m.rec.channel, o1.now);
            && t.actions == [LaunchStart, StopRecorder]
            && t.finalized == [Finalize(f, RemuxTarget(f), f)]
            && t.m.status.Looping?
            && t.m.rec.state == Stopped
            && t.m.rec.Valid()
  {
    var s1 := Step(m, o1);
    assert s1.actions == [LaunchStart];
    assert s1.m.rec.reading && s1.m.rec.filename == Some(NewFilename(m.rec.folder, m.rec.channel, o1.now));
    var s2 := Step(s1.m, o2);
    assert s2.actions == [StopRecorder];
    assert [o1, o2][1..] == [o2];
    assert Run(s1.m, [o2]) == Trace(s2.m, s2.actions + [], s2.finalized + []);
  }

  /** `live -> offline` with a stream that fails to open: the recorder was
      left RUNNING with no reader, so the `stop` never returns and the loop
      never polls again. */
  lemma {:induction false} FailedOpenThenOfflineHangs(m: Manager, o1: Observation, o2: Observation, later: seq<Observation>)
    requires m.status.Looping? && m.rec.Valid() && CanStart(m.rec.state)
    requires Reports(o1, true) && Reports(o2, false)
    requires !o1.openSucceeds
    ensures var t := Run(m, [o1, o2] + later);
            && t.actions == [LaunchStart, StopRecorder]
            && t.finalized == []
            && t.m.status == Hung
  {
    var s1 := Step(m, o1);
    assert s1.actions == [LaunchStart];
    assert s1.m.rec.state == Running && !s1.m.rec.reading;
    var s2 := Step(s1.m, o2);
    assert s2.actions == [StopRecorder] && s2.m.status == Hung;
    var obs := [o1, o2] + later;
    assert obs[0] == o1 && obs[1..][0] == o2 && obs[1..][1..] == later;
    HaltedIsSilent(s2.m, later);
  }

  /** A lookup that raises `ChannelNotFound` ends the loop and leaves the
      recorder as it was. */
  lemma ChannelNotFoundEndsLoop(m: Manager, o: Observation)
    requires m.status.Looping?
    requires o.lookup.live == Failure(ChannelNotFound)
    ensures Step(m, o).m.status == Crashed(LookupFault(ChannelNotFound))
    ensures Step(m, o).m.rec == m.rec
    ensures Step(m, o).actions == []
  {
  }

  /** A search answered with an empty `data` list raises `ChannelNotFound`,
      which ends the loop without touching the recorder. */
  lemma EmptySearchEndsLoop(m: Manager, resp: Response, now: Timestamp, openSucceeds: bool, remuxSucceeded: bool)
    requires m.status.Looping?
    requires resp.status != Unauthorized && resp.data == Some([])
    ensures var t := Poll(m, [resp], now, openSucceeds, remuxSucceeded);
            && t.m.status == Crashed(LookupFault(ChannelNotFound))
            && t.m.rec == m.rec
            && t.actions == []
  {
  }

  /** A recorder left RUNNING without a reader (after a failed open or a read
      error) stays wedged for the rest of the run, whatever the polls report:
      it is never started again, never reaches STOPPED, and no file is
      finalized. */
  lemma {:induction false} WedgedRecorderStaysWedged(m: Manager, obs: seq<Observation>)
    requires m.rec.state == Running && !m.rec.reading
    ensures Run(m, obs).m.rec.state == Running
    ensures !Run(m, obs).m.rec.reading
    ensures Run(m, obs).finalized == []
    ensures LaunchStart !in Run(m, obs).actions
    decreases |obs|
  {
    if |obs| > 0 {
      var first := Step(m, obs[0]);
      assert first.m.rec.state == Running && !first.m.rec.reading;
      assert first.finalized == [] && LaunchStart !in first.actions;
      WedgedRecorderStaysWedged(first.m, obs[1..]);
    }
  }
}
