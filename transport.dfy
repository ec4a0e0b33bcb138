/** The AudioProcessor object (audio-processor.js:4-22): its playback
    transport (processAudio, pause, resume, stop and the `onended` handler,
    audio-processor.js:211-283), the live panner it starts
    (audio-processor.js:161-204) and the export it runs
    (audio-processor.js:289-374).

    The Web Audio and Tone.js nodes are summarised by one flag: they are
    created together by setupAudioNodes and released together by
    disposeAudioNodes. The audio clock `audioContext.currentTime` is the
    parameter `now`; it does not advance while the context is suspended.
    pause suspends the context and resume resumes it; nothing else touches
    that state, so the transport records it as `suspended`. */
module Transport {
  import opened JsNumber
  import opened Audio
  import opened Panning
  import opened Export
  import opened Wav

  /** How a processing promise has been settled. */
  datatype Completion = Pending | Resolved | Rejected

  /** The transport fields. `promise` is `processingPromise` (`None` for
      null) and `rejectHeld` says whether `processingReject` is set;
      `suspended` is the state of the audio context, which pause suspends
      (audio-processor.js:252) and resume resumes (audio-processor.js:263). */
  datatype TransportState = TransportState(
    processingStarted: bool,
    isPaused: bool,
    offsetTime: real,
    startTime: real,
    promise: Option<Completion>,
    rejectHeld: bool,
    suspended: bool)

  /** The fields as the constructor sets them (audio-processor.js:14-21),
      with a running context. */
  const Initial: TransportState := TransportState(false, false, 0.0, 0.0, None, false, false)

  /** pause (audio-processor.js:250-256). */
  function Paused(t: TransportState, contextReady: bool, now: real): (r: TransportState)
    ensures r.processingStarted == t.processingStarted && r.startTime == t.startTime
    ensures r.promise == t.promise && r.rejectHeld == t.rejectHeld
    ensures Position(r, now) == Position(t, now)
    ensures r.isPaused <==> t.isPaused || (t.processingStarted && contextReady)
    ensures t.processingStarted && !t.isPaused && contextReady ==> r.suspended
    ensures !(t.processingStarted && !t.isPaused && contextReady) ==> r.suspended == t.suspended
  {
    if t.processingStarted && !t.isPaused && contextReady then
      t.(offsetTime := t.offsetTime + (now - t.startTime), isPaused := true, suspended := true)
    else t
  }

  /** resume (audio-processor.js:261-267). */
  function Resumed(t: TransportState, contextReady: bool, now: real): (r: TransportState)
    ensures r.processingStarted == t.processingStarted && r.offsetTime == t.offsetTime
    ensures r.promise == t.promise && r.rejectHeld == t.rejectHeld
    ensures Position(r, now) == Position(t, now)
    ensures r.isPaused <==> t.isPaused && !(t.processingStarted && contextReady)
    ensures t.processingStarted && t.isPaused && contextReady ==> !r.suspended
    ensures !(t.processingStarted && t.isPaused && contextReady) ==> r.suspended == t.suspended
  {
    if t.processingStarted && t.isPaused && contextReady then
      t.(startTime := now, isPaused := false, suspended := false)
    else t
  }

  /** stop (audio-processor.js:272-283): every transport field is reset,
      but the context is left suspended or running as it was. */
  function Stopped(t: TransportState): (r: TransportState)
    ensures Inv(r, 0.0) && r.promise.None? && Position(r, 0.0) == 0.0
    ensures r.suspended == t.suspended
  {
    TransportState(false, false, 0.0, 0.0, None, false, t.suspended)
  }

  /** The `onended` handler (audio-processor.js:233-238): it resolves the
      promise and leaves `isPaused` as it is. */
  function Ended(t: TransportState): (r: TransportState)
    ensures !r.processingStarted && r.isPaused == t.isPaused && r.suspended == t.suspended
    ensures r.promise.Some? == t.promise.Some? && r.promise != Some(Pending)
    ensures r.rejectHeld == t.rejectHeld
  {
    t.(processingStarted := false, offsetTime := 0.0, startTime := 0.0,
       promise := if t.promise == Some(Pending) then Some(Resolved) else t.promise)
  }

  /** What becomes of the promise processAudio replaces: a pending one is
      rejected with 'Processamento cancelado' (audio-processor.js:212-217). */
  function Superseded(t: TransportState): (c: Option<Completion>)
    ensures c.Some? == t.promise.Some?
    ensures t.rejectHeld ==> c != Some(Pending)
  {
    if t.promise == Some(Pending) && t.rejectHeld then Some(Rejected) else t.promise
  }

  /** processAudio (audio-processor.js:211-245): an existing promise is
      settled and the transport stopped; then a new promise is made. Without
      an audio context the node setup throws and the new promise is
      rejected; otherwise playback starts at `now`. */
  function Started(t: TransportState, contextReady: bool, now: real): (r: TransportState)
    ensures r.rejectHeld && r.suspended == t.suspended
    ensures r.promise == (if contextReady then Some(Pending) else Some(Rejected))
    ensures contextReady ==> r.processingStarted && !r.isPaused && r.startTime == now
    ensures t.promise.Some? ==> r.offsetTime == 0.0 && Position(r, now) == 0.0
  {
    var s := if t.promise.Some? then Stopped(t) else t;
    if contextReady then
      s.(processingStarted := true, isPaused := false, startTime := now,
         promise := Some(Pending), rejectHeld := true)
    else s.(promise := Some(Rejected), rejectHeld := true)
  }

  /** The playback position in the buffer, in seconds of audio clock. */
  function Position(t: TransportState, now: real): real
  {
    if t.processingStarted && !t.isPaused then t.offsetTime + (now - t.startTime) else t.offsetTime
  }

  /** The relations every reachable transport keeps: a promise exists
      exactly when its reject function is held; without a promise nothing
      plays and both times are zero; the accumulated offset is never
      negative, and the start time lies between 0 and the clock. */
  predicate Inv(t: TransportState, now: real)
  {
    && (t.promise.Some? <==> t.rejectHeld)
    && (t.promise.None? ==> !t.processingStarted && !t.isPaused && t.offsetTime == 0.0 && t.startTime == 0.0)
    && t.offsetTime >= 0.0
    && 0.0 <= t.startTime <= now
  }

  // ---------------------------------------------------------------------
  // Properties of the transport
  // ---------------------------------------------------------------------

  lemma InitialInv(now: real)
    requires now >= 0.0
    ensures Inv(Initial, now)
  {
  }

  /** Every transport operation keeps Inv, the clock being monotone. */
  lemma InvPreserved(t: TransportState, contextReady: bool, now: real, later: real)
    requires Inv(t, now) && now <= later
    ensures Inv(t, later)
    ensures Inv(Paused(t, contextReady, later), later)
    ensures Inv(Resumed(t, contextReady, later), later)
    ensures Inv(Stopped(t), later) && Inv(Ended(t), later)
    ensures Inv(Started(t, contextReady, later), later)
  {
  }

  /** pause changes nothing unless playback is running; when it does, the
      time played since the last start is added to the offset. */
  lemma PauseEffect(t: TransportState, contextReady: bool, now: real)
    ensures var u := Paused(t, contextReady, now);
      if t.processingStarted && !t.isPaused && contextReady then
        u.isPaused && u.suspended && u.processingStarted && u.startTime == t.startTime &&
        u.offsetTime - t.offsetTime == now - t.startTime && u.promise == t.promise
      else u == t
  {
  }

  /** Pausing and resuming do not move the playback position. */
  lemma PositionContinuous(t: TransportState, contextReady: bool, now: real)
    ensures Position(Paused(t, contextReady, now), now) == Position(t, now)
    ensures Position(Resumed(t, contextReady, now), now) == Position(t, now)
  {
  }

  /** A pause held from `now` to `later` does not count: after resuming,
      the position at any later instant is as if the pause never happened. */
  lemma PauseTimeExcluded(t: TransportState, contextReady: bool, now: real, later: real, end: real)
    requires t.processingStarted && !t.isPaused && contextReady
    ensures var u := Resumed(Paused(t, contextReady, now), contextReady, later);
      u.processingStarted && !u.isPaused &&
      Position(u, end) == Position(t, now) + (end - later)
  {
  }

  /** stop is idempotent and leaves the transport as the constructor does,
      apart from the context, which it does not resume. */
  lemma StopIdempotent(t: TransportState)
    ensures Stopped(Stopped(t)) == Stopped(t)
    ensures Stopped(t) == Initial.(suspended := t.suspended)
  {
  }

  /** Processing again after a pause starts a session that is neither
      paused nor running: isPaused is cleared, but neither stop nor
      processAudio resumes the context that pause suspended. The next
      pause request then acts as a pause again and keeps it suspended. */
  lemma RestartAfterPauseStaysSuspended(t: TransportState, now: real, later: real, next: real)
    requires t.processingStarted && !t.isPaused
    ensures var u := Started(Paused(t, true, now), true, later);
      && u.processingStarted && !u.isPaused && u.suspended
      && Paused(u, true, next).isPaused && Paused(u, true, next).suspended
  {
  }

  /** With the invariant in force, playback always starts from the
      beginning of the buffer: the offset passed to `sourceNode.start` is 0. */
  lemma StartsAtBeginning(t: TransportState, contextReady: bool, now: real)
    requires Inv(t, now)
    ensures (if t.promise.Some? then Stopped(t) else t).offsetTime == 0.0
    ensures contextReady ==> Position(Started(t, contextReady, now), now) == 0.0
  {
  }

  /** The handler resolves a pending promise and clears the transport times,
      but a paused flag survives it. */
  lemma EndedKeepsPause(t: TransportState)
    ensures Ended(t).isPaused == t.isPaused
    ensures !Ended(t).processingStarted && Ended(t).offsetTime == 0.0 && Ended(t).startTime == 0.0
    ensures t.promise == Some(Pending) ==> Ended(t).promise == Some(Resolved)
  {
  }

  /** Starting again settles a pending promise as rejected and leaves a new
      one, pending when the context exists. */
  lemma RestartSupersedes(t: TransportState, contextReady: bool, now: real)
    requires Inv(t, now) && t.promise == Some(Pending)
    ensures Superseded(t) == Some(Rejected)
    ensures Started(t, contextReady, now).promise == Some(if contextReady then Pending else Rejected)
  {
  }

  // ---------------------------------------------------------------------
  // The processor object
  // ---------------------------------------------------------------------

  /** The interval started by startPanning: the pattern and amount it
      captured, its step per tick and its running phase. */
  datatype PanTimer = PanTimer(pattern: string, amount: real, phaseDelta: real, phase: real)

  /** The outcome of exportAudio: the pan values assigned and progress
      reported by the chunk loop, and the WAV bytes of the rendered buffer. */
  datatype Exported = Exported(schedule: Schedule, wav: seq<byte>)

  class AudioProcessor {
    var contextReady: bool
    var audioBuffer: Option<AudioBuffer>
    var nodesConnected: bool
    var panTimer: Option<PanTimer>
    var pan: real
    var randomPanValues: seq<real>
    var processingStarted: bool
    var isPaused: bool
    var offsetTime: real
    var startTime: real
    var promise: Option<Completion>
    var rejectHeld: bool
    var suspended: bool

    function State(): TransportState
      reads this
    {
      TransportState(processingStarted, isPaused, offsetTime, startTime, promise, rejectHeld, suspended)
    }

    /** Decoded buffers always satisfy the platform's invariants. */
    ghost predicate Valid()
      reads this
    {
      audioBuffer.Some? ==> audioBuffer.value.Valid()
    }

    /** audio-processor.js:5-22 */
    constructor ()
      ensures State() == Initial && Valid()
      ensures !contextReady && audioBuffer.None? && !nodesConnected && panTimer.None?
      ensures randomPanValues == []
    {
      contextReady := false;
      audioBuffer := None;
      nodesConnected := false;
      panTimer := None;
      pan := 0.0;
      randomPanValues := [];
      processingStarted := false;
      isPaused := false;
      offsetTime := 0.0;
      startTime := 0.0;
      promise := None;
      rejectHeld := false;
      suspended := false;
    }

    /** The successful end of loadAudioFile (audio-processor.js:47-50): the
        context exists and the decoded buffer is kept. */
    method Loaded(buffer: AudioBuffer)
      requires buffer.Valid()
      modifies this`contextReady, this`audioBuffer
      ensures contextReady && audioBuffer == Some(buffer) && Valid()
    {
      contextReady := true;
      audioBuffer := Some(buffer);
    }

    /** disposeAudioNodes (audio-processor.js:120-155): the interval is
        cleared and every node released. */
    method DisposeAudioNodes()
      modifies this`panTimer, this`nodesConnected
      ensures panTimer.None? && !nodesConnected
    {
      panTimer := None;
      nodesConnected := false;
    }

    /** startPanning (audio-processor.js:161-204): for the random pattern the
        table is refilled from 100 draws; a new interval starts at phase 0. */
    method StartPanning(options: Options, draws: seq<real>)
      requires |draws| == RandomTableSize
      modifies this`panTimer, this`randomPanValues
      ensures randomPanValues ==
        if options.panPattern == "random" then RandomTable(draws) else old(randomPanValues)
      ensures panTimer == Some(PanTimer(options.panPattern, options.panAmount, PhaseDelta(options.panSpeed), 0.0))
    {
      if options.panPattern == "random" {
        randomPanValues := [];
        var i := 0;
        while i < RandomTableSize
          invariant 0 <= i <= RandomTableSize
          invariant randomPanValues == RandomTable(draws[..i])
        {
          randomPanValues := randomPanValues + [draws[i] * 2.0 - 1.0];
          i := i + 1;
        }
        assert draws[..i] == draws;
      }
      panTimer := Some(PanTimer(options.panPattern, options.panAmount, PhaseDelta(options.panSpeed), 0.0));
    }

    /** One firing of the interval (audio-processor.js:178-203): while not
        paused and with the nodes present the pan value of the current phase
        is assigned and the phase advanced. Assigning NaN throws, which
        leaves both as they were. */
    method PanTick(sine: Sine)
      requires panTimer.Some?
      modifies this`pan, this`panTimer
      ensures panTimer.Some?
      ensures var t := old(panTimer.value);
        var p := PanValue(t.pattern, t.phase, t.amount, sine, LiveEntry(t.phase, randomPanValues));
        if !isPaused && nodesConnected && p.Finite? then
          pan == p.value && panTimer == Some(t.(phase := NextPhase(t.phase, t.phaseDelta)))
        else
          pan == old(pan) && panTimer == old(panTimer)
      ensures var t := old(panTimer.value);
        0.0 <= t.phase && 0.0 <= t.phaseDelta ==> 0.0 <= panTimer.value.phase < 1.0 || panTimer == old(panTimer)
    {
      var t := panTimer.value;
      if !isPaused && nodesConnected {
        var p := PanValue(t.pattern, t.phase, t.amount, sine, LiveEntry(t.phase, randomPanValues));
        if p.Finite? {
          pan := p.value;
          panTimer := Some(t.(phase := NextPhase(t.phase, t.phaseDelta)));
        }
      }
    }

    /** processAudio (audio-processor.js:211-245). Returns what became of the
        promise it replaces. */
    method ProcessAudio(options: Options, now: real, draws: seq<real>) returns (superseded: Option<Completion>)
      requires |draws| == RandomTableSize
      modifies this
      ensures State() == Started(old(State()), old(contextReady), now)
      ensures superseded == Superseded(old(State()))
      ensures contextReady == old(contextReady) && audioBuffer == old(audioBuffer)
      ensures contextReady ==> pan == 0.0
      ensures !contextReady ==> pan == old(pan)
      ensures nodesConnected == contextReady
      ensures contextReady ==> panTimer == Some(PanTimer(options.panPattern, options.panAmount, PhaseDelta(options.panSpeed), 0.0))
      ensures contextReady && options.panPattern == "random" ==> randomPanValues == RandomTable(draws)
      ensures !(contextReady && options.panPattern == "random") ==> randomPanValues == old(randomPanValues)
      ensures !contextReady ==> panTimer.None?
    {
      superseded := Supersede();
      rejectHeld := true;
      DisposeAudioNodes();
      if !contextReady {
        promise := Some(Rejected);
        return;
      }
      nodesConnected := true;
      pan := 0.0;   // a new StereoPannerNode starts centred (audio-processor.js:80)
      StartPanning(options, draws);
      startTime := now;
      processingStarted := true;
      isPaused := false;
      promise := Some(Pending);
    }

    /** The start of processAudio (audio-processor.js:212-217): an existing
        promise is rejected if it is still pending, and the transport is
        stopped. */
    method Supersede() returns (superseded: Option<Completion>)
      modifies this`panTimer, this`nodesConnected, this`processingStarted, this`isPaused,
               this`offsetTime, this`startTime, this`promise, this`rejectHeld
      ensures superseded == Superseded(old(State()))
      ensures State() == if old(promise).Some? then Stopped(old(State())) else old(State())
    {
      superseded := promise;
      if promise.Some? {
        if rejectHeld && promise == Some(Pending) {
          superseded := Some(Rejected);
        }
        Stop();
      }
    }

    /** pause (audio-processor.js:250-256). */
    method Pause(now: real)
      modifies this`offsetTime, this`isPaused, this`suspended
      ensures State() == Paused(old(State()), contextReady, now)
    {
      if processingStarted && !isPaused && contextReady {
        suspended := true;
        offsetTime := offsetTime + (now - startTime);
        isPaused := true;
      }
    }

    /** resume (audio-processor.js:261-267). */
    method Resume(now: real)
      modifies this`startTime, this`isPaused, this`suspended
      ensures State() == Resumed(old(State()), contextReady, now)
    {
      if processingStarted && isPaused && contextReady {
        suspended := false;
        startTime := now;
        isPaused := false;
      }
    }

    /** stop (audio-processor.js:272-283). */
    method Stop()
      modifies this`panTimer, this`nodesConnected, this`processingStarted, this`isPaused,
               this`offsetTime, this`startTime, this`promise, this`rejectHeld
      ensures State() == Stopped(old(State()))
      ensures panTimer.None? && !nodesConnected
    {
      DisposeAudioNodes();
      processingStarted := false;
      isPaused := false;
      offsetTime := 0.0;
      startTime := 0.0;
      promise := None;
      rejectHeld := false;
    }

    /** The `onended` handler installed by processAudio (audio-processor.js:233-238). */
    method OnEnded()
      modifies this`processingStarted, this`offsetTime, this`startTime, this`promise
      ensures State() == Ended(old(State()))
    {
      processingStarted := false;
      offsetTime := 0.0;
      startTime := 0.0;
      if promise == Some(Pending) {
        promise := Some(Resolved);
      }
    }

    /** exportAudio (audio-processor.js:289-374). Without a buffer the first
        read of its length throws. Otherwise the chunk loop runs over the
        buffer's frames with the current random table; `draws` are the
        `Math.random()` values of the random pattern, one per chunk, and
        `rendered` is what `startRendering` yields: two channels of the
        buffer's length and rate. */
    method ExportAudio(options: Options, sine: Sine, draws: seq<real>, rendered: AudioBuffer)
      returns (r: Result<Exported, ExportError>)
      requires Valid()
      requires audioBuffer.Some? ==> |draws| == ChunkCount(audioBuffer.value.Length())
      requires forall j :: 0 <= j < |draws| ==> 0.0 <= draws[j] < 1.0
      requires rendered.Valid() && rendered.NumberOfChannels() == 2
      requires audioBuffer.Some? ==>
        rendered.Length() == audioBuffer.value.Length() && rendered.sampleRate == audioBuffer.value.sampleRate
      ensures audioBuffer.None? ==> r == Err(NoAudioLoaded)
      ensures audioBuffer.Some? ==>
        (r.Err? <==> options.panPattern == "random" && |randomPanValues| == 0)
      ensures r.Err? && audioBuffer.Some? ==> r.error == NonFinitePan
      ensures r.Ok? ==>
        var n := audioBuffer.value.Length();
        && |r.value.schedule.pans| == |r.value.schedule.progress| == ChunkCount(n)
        && (forall k :: 0 <= k < ChunkCount(n) ==>
              && Finite(r.value.schedule.pans[k]) ==
                 ChunkPan(n, k, options.panPattern, options.panAmount, sine, randomPanValues, draws[k])
              && r.value.schedule.progress[k] == Progress(n, k))
        && r.value.wav == BufferWav(rendered)
        && |r.value.wav| == HeaderSize + 4 * n
        && U16At(r.value.wav, 22) == 2
        && U32At(r.value.wav, 24) == audioBuffer.value.sampleRate % 0x1_0000_0000
    {
      if audioBuffer.None? {
        return Err(NoAudioLoaded);
      }
      var totalFrames := audioBuffer.value.Length();
      var schedule := RunChunks(totalFrames, options.panPattern, options.panAmount, sine, randomPanValues, draws);
      if schedule.Err? {
        return Err(schedule.error);
      }
      var audioData := AudioBufferToWav(rendered);
      StereoWavHeader(rendered, totalFrames, audioBuffer.value.sampleRate);
      r := Ok(Exported(schedule.value, audioData.value));
    }
  }
}
