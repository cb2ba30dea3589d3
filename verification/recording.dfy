/** The `Recorder` lifecycle: `start`, the reader loop's exit and `stop`, as
    transitions on an immutable record. Stream opening, the reader and writer
    threads, ffmpeg and the file system are abstracted to the inputs and
    flags below. */
module Recording {
  import opened Results
  import opened Naming

  /** `Recorder.State`. */
  datatype State = Initializing | Running | Stopped

  /** The states `start` asserts it is called in. */
  predicate CanStart(s: State) {
    s == Initializing || s == Stopped
  }

  /** The recorder's fields that the lifecycle reads or writes.
      `stopperSet` is the `threading.Event` latch; `reading` says whether a
      reader loop (the `while not self.stopper.is_set()` of `start`) is alive,
      which is the case only after the stream was opened; `filename` is
      `current_filename`. */
  datatype Recorder = Recorder(
    channel: string,
    folder: string,
    state: State,
    stopperSet: bool,
    reading: bool,
    filename: Option<string>)
  {
    /** What holds between public calls on a recorder built by `Init` and
        driven only by `Start`, `ReadLoopExit` and completed `Stop`s. */
    predicate Valid() {
      && !stopperSet
      && (reading ==> state == Running)
      && (state == Initializing <==> filename == None)
    }
  }

  /** `Recorder.__init__`: fresh latch, no file yet. */
  function Init(channel: string, folder: string): (r: Recorder)
    ensures r.Valid() && r.state == Initializing && !r.reading
    ensures r.channel == channel && r.folder == folder
  {
    Recorder(channel, folder, Initializing, false, false, None)
  }

  /** How a call on the recorder ended. */
  datatype Outcome =
    | Done             // returned normally (for `start`: the stream is open and being read)
    | AssertionFailed  // the entry `assert` on the state failed; nothing changed
    | OpenFailed       // opening the stream raised after the state was set to RUNNING
    | NeverReturns     // `stop` busy-waits for a STOPPED that no reader will set
    | AttributeError   // `stop` reached `None.replace` because no file name was set

  /** The effects of a completed `stop` on the file system: ffmpeg remuxes
      `source` into `target`, then `deleted` is removed. */
  datatype Finalize = Finalize(source: string, target: string, deleted: string)

  datatype Transition = Transition(rec: Recorder, outcome: Outcome, finalize: Option<Finalize>)

  /** `start`, up to the point where the reader loop runs. The state becomes
      RUNNING and the file name is fixed before the stream is opened, so a
      failed open leaves the recorder RUNNING with no reader. */
  function Start(r: Recorder, now: Timestamp, openSucceeds: bool): (t: Transition)
    ensures t.outcome == AssertionFailed <==> !CanStart(r.state)
    ensures t.outcome == AssertionFailed ==> t.rec == r
    ensures CanStart(r.state) ==>
              && t.rec.state == Running
              && t.rec.filename == Some(NewFilename(r.folder, r.channel, now))
              && (t.outcome == Done <==> openSucceeds)
              && (t.outcome == OpenFailed <==> !openSucceeds)
              && (t.rec.reading <==> openSucceeds)
    ensures t.rec.stopperSet == r.stopperSet
    ensures t.rec.channel == r.channel && t.rec.folder == r.folder
    ensures t.finalize == None
  {
    if !CanStart(r.state) then Transition(r, AssertionFailed, None)
    else
      var running := r.(state := Running, filename := Some(NewFilename(r.folder, r.channel, now)));
      Transition(running.(reading := openSucceeds), if openSucceeds then Done else OpenFailed, None)
  }

  /** One evaluation of the reader loop's guard: the loop ends, and the state
      becomes STOPPED, exactly when a reader is running and the latch is set.
      The state changes nowhere else in `start` after RUNNING. */
  function ReadLoopExit(r: Recorder): (r': Recorder)
    ensures r'.state != r.state ==> r.reading && r.stopperSet && r'.state == Stopped
    ensures r.reading && r.stopperSet ==> r'.state == Stopped && !r'.reading
    ensures !(r.reading && r.stopperSet) ==> r' == r
    ensures r'.stopperSet == r.stopperSet && r'.filename == r.filename
    ensures r'.channel == r.channel && r'.folder == r.folder
  {
    if r.reading && r.stopperSet then r.(state := Stopped, reading := false) else r
  }

  /** `stop`: set the latch, wait for the reader to report STOPPED, remux the
      capture and delete it, then install a fresh latch. The exit status of
      ffmpeg (`remuxSucceeded`) is not consulted: the capture is deleted
      whatever it is. A `subprocess.run` or `os.remove` that raises is not
      modelled. */
  function Stop(r: Recorder, remuxSucceeded: bool): (t: Transition)
    ensures t.outcome == AssertionFailed <==> r.state != Running
    ensures t.outcome == AssertionFailed ==> t.rec == r
    ensures r.state == Running && !r.reading ==>
              t.outcome == NeverReturns && t.rec.stopperSet && t.rec.state == Running
    ensures t.outcome == Done <==> r.state == Running && r.reading && r.filename.Some?
    ensures t.outcome == Done ==>
              && t.rec.state == Stopped && !t.rec.stopperSet && !t.rec.reading
              && t.rec.filename == r.filename
              && t.finalize == Some(Finalize(r.filename.value, RemuxTarget(r.filename.value), r.filename.value))
    ensures t.finalize.Some? <==> t.outcome == Done
    ensures t.rec.channel == r.channel && t.rec.folder == r.folder
  {
    if r.state != Running then Transition(r, AssertionFailed, None)
    else
      var signalled := r.(stopperSet := true);
      var exited := ReadLoopExit(signalled);
      if exited.state != Stopped then Transition(signalled, NeverReturns, None)
      else match exited.filename
        case None => Transition(exited, AttributeError, None)
        case Some(f) => Transition(exited.(stopperSet := false), Done, Some(Finalize(f, RemuxTarget(f), f)))
  }

  /** `fd.read` raising (a dropped connection, say): the exception leaves
      `start` before the line that sets STOPPED, so the reader is gone while
      the state stays RUNNING. The latch and the file name are untouched. */
  function ReaderFails(r: Recorder): (r': Recorder)
    ensures !r'.reading
    ensures r'.state == r.state && r'.stopperSet == r.stopperSet && r'.filename == r.filename
    ensures r'.channel == r.channel && r'.folder == r.folder
    ensures !r.reading ==> r' == r
  {
    r.(reading := false)
  }

  /** The `KeyboardInterrupt` handler: stop the recorder if it is RUNNING.
      The result of ffmpeg is irrelevant to `stop`, so it is fixed here. */
  function Shutdown(r: Recorder): (t: Transition)
    ensures r.state != Running ==> t.rec == r && t.outcome == Done && t.finalize == None
    ensures r.state == Running && !r.reading ==>
              t.outcome == NeverReturns && t.rec.state == Running && t.rec.stopperSet && t.finalize == None
    ensures r.state == Running && r.reading && r.filename.Some? ==>
              && t.outcome == Done
              && t.rec.state == Stopped && !t.rec.stopperSet && !t.rec.reading
              && t.finalize == Some(Finalize(r.filename.value, RemuxTarget(r.filename.value), r.filename.value))
    ensures r.state == Running && r.reading && r.filename.None? ==> t.outcome == AttributeError
  {
    if r.state == Running then Stop(r, true) else Transition(r, Done, None)
  }

  // ---------------------------------------------------------------------------
  // Properties of the lifecycle

  /** `Start` keeps the between-calls invariant, whether or not the stream opens. */
  lemma StartPreservesValid(r: Recorder, now: Timestamp, openSucceeds: bool)
    requires r.Valid()
    ensures Start(r, now, openSucceeds).rec.Valid()
  {
  }

  /** A completed `Stop` keeps the between-calls invariant; the latch it set
      has been replaced by a clear one. */
  lemma StopPreservesValid(r: Recorder, remuxSucceeded: bool)
    requires r.Valid()
    requires Stop(r, remuxSucceeded).outcome == Done
    ensures Stop(r, remuxSucceeded).rec.Valid()
  {
  }

  /** A session whose stream opened, and whose reader is still reading when
      `stop` is called, stops completely: `stop` finds a reader to end, a file
      name to remux, and leaves a valid STOPPED recorder behind. A read error
      in between wedges the session instead (`ReadErrorWedgesRecorder`). */
  lemma StartThenStopCompletes(r: Recorder, now: Timestamp, remuxSucceeded: bool)
    requires r.Valid() && CanStart(r.state)
    ensures var started := Start(r, now, true);
            var stopped := Stop(started.rec, remuxSucceeded);
            && started.outcome == Done
            && stopped.outcome == Done
            && stopped.rec.Valid()
            && stopped.rec.state == Stopped
            && stopped.rec.filename == Some(NewFilename(r.folder, r.channel, now))
            && stopped.finalize.value.deleted == NewFilename(r.folder, r.channel, now)
  {
  }

  /** When the stream fails to open, the recorder stays RUNNING with no reader:
      `start` cannot be called again, and `stop` waits forever with its latch set. */
  lemma FailedOpenWedgesRecorder(r: Recorder, now: Timestamp, later: Timestamp, remuxSucceeded: bool)
    requires r.Valid() && CanStart(r.state)
    ensures var failed := Start(r, now, false);
            && failed.outcome == OpenFailed
            && failed.rec.state == Running
            && Start(failed.rec, later, true).outcome == AssertionFailed
            && Stop(failed.rec, remuxSucceeded).outcome == NeverReturns
  {
  }

  /** Because `stop` installs a fresh latch, the reader of the next session
      does not see the previous session's stop request and keeps reading. */
  lemma FreshLatchKeepsNextSessionRunning(r: Recorder, remuxSucceeded: bool, now: Timestamp)
    requires r.Valid()
    requires Stop(r, remuxSucceeded).outcome == Done
    ensures var next := Start(Stop(r, remuxSucceeded).rec, now, true);
            && next.outcome == Done
            && ReadLoopExit(next.rec).state == Running
  {
  }

  /** Had the latch not been replaced, a new session's reader would exit at
      its first check: the stop request would leak into the next session. */
  lemma StaleLatchEndsNextSession(r: Recorder, now: Timestamp)
    requires CanStart(r.state) && r.stopperSet
    ensures ReadLoopExit(Start(r, now, true).rec).state == Stopped
  {
  }

  /** The capture file is deleted whatever ffmpeg's exit status. */
  lemma DeletionIgnoresRemuxResult(r: Recorder)
    requires Stop(r, true).outcome == Done
    ensures Stop(r, false) == Stop(r, true)
    ensures Stop(r, false).finalize.value.deleted == r.filename.value
  {
  }

  /** A read error keeps the between-calls invariant: nothing but the reader
      flag changes. */
  lemma ReaderFailsPreservesValid(r: Recorder)
    requires r.Valid()
    ensures ReaderFails(r).Valid()
  {
  }

  /** A read error in the middle of a session wedges the recorder just as a
      failed open does: it stays RUNNING, `start` fails its assertion and
      `stop` never returns. */
  lemma ReadErrorWedgesRecorder(r: Recorder, now: Timestamp, later: Timestamp, remuxSucceeded: bool)
    requires r.Valid() && CanStart(r.state)
    ensures var broken := ReaderFails(Start(r, now, true).rec);
            && broken.state == Running
            && Start(broken, later, true).outcome == AssertionFailed
            && Stop(broken, remuxSucceeded).outcome == NeverReturns
  {
  }

  /** An interrupt after a failed open, or after a read error, cannot shut
      the recorder down: the handler's `stop` waits forever. */
  lemma InterruptAfterWedgeHangs(r: Recorder, now: Timestamp)
    requires r.Valid() && CanStart(r.state)
    ensures Shutdown(Start(r, now, false).rec).outcome == NeverReturns
    ensures Shutdown(ReaderFails(Start(r, now, true).rec)).outcome == NeverReturns
  {
  }

  /** An interrupt during a healthy session stops it completely and
      finalizes the file the session started. */
  lemma InterruptDuringSessionFinalizes(r: Recorder, now: Timestamp)
    requires r.Valid() && CanStart(r.state)
    ensures var f := NewFilename(r.folder, r.channel, now);
            var t := Shutdown(Start(r, now, true).rec);
            && t.outcome == Done
            && t.rec.Valid() && t.rec.state == Stopped
            && t.finalize == Some(Finalize(f, RemuxTarget(f), f))
  {
  }
}
