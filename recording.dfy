/** The renderer's recording session: start (microphone, then optional
    system audio, then the recorder), pause, resume, the one-second timer,
    the recorder's data events, stop, and the transcription of the
    collected audio. Devices, the recorder and the timer are flags and
    counters; the audio itself is opaque bytes. Each operation is a step
    function on a `Session` value, and `Recorder` is the hook's mutable
    state, whose methods are proved to perform those steps. */
module Recording {
  import opened Common
  import WhisperService

  /** One recorded chunk of encoded audio. */
  type Chunk = seq<bv8>

  /** The `MediaRecorder`'s own `state`. */
  datatype RecorderState = Inactive | Recording | Paused

  /** Whether a device or library call returns or throws. */
  datatype Outcome = Succeeds | Throws(cause: Failure)

  /** Decoding the blob to audio (`decodeAudioData`), and the transcription
      call to the main process. */
  type Decoder = seq<bv8> -> Result<WhisperService.DecodedAudio, Failure>
  type TranscribeCall = seq<WhisperService.Sample> -> Result<string, Failure>

  const StartFailed := "Failed to start recording"
  const SystemAudioNote := "Note: Only capturing microphone. System audio capture was declined."
  const TranscribeFailed := "Failed to transcribe audio"

  /** The hook's state and refs. `recorder` is `mediaRecorderRef` (with the
      recorder's own state), `timerHeld` says whether `timerRef` holds an
      interval, and `leakedTimers` counts intervals still scheduled that no
      ref holds any more (an interval overwritten in `timerRef` without
      being cleared). The stream flags are the three stream refs. */
  datatype Session = Session(
    isRecording: bool,
    isPaused: bool,
    transcript: string,
    duration: nat,
    error: Option<string>,
    isTranscribing: bool,
    recorder: Option<RecorderState>,
    timerHeld: bool,
    leakedTimers: nat,
    micStream: bool,
    systemStream: bool,
    mixedStream: bool,
    chunks: seq<Chunk>)

  /** The state when the hook mounts. */
  const Initial := Session(false, false, "", 0, None, false, None, false, 0, false, false, false, [])

  /** The intervals that fire each second. */
  function LiveTimers(s: Session): nat {
    s.leakedTimers + (if s.timerHeld then 1 else 0)
  }

  /** The states the page's controls lead to: exactly one interval runs,
      held in the ref, while recording and not paused, and none otherwise;
      a recorder exists exactly while recording, in the matching state. */
  predicate Nominal(s: Session) {
    && s.leakedTimers == 0
    && s.timerHeld == (s.isRecording && !s.isPaused)
    && (s.isRecording ==> s.recorder == Some(if s.isPaused then Paused else Recording))
    && (!s.isRecording ==> s.recorder.None? && !s.isPaused)
  }

  lemma InitialIsNominal()
    ensures Nominal(Initial) && LiveTimers(Initial) == 0
  {
  }

  // ---------------------------------------------------------------------
  // The recorded audio

  /** The blob made of the chunks in order. */
  function Blob(chunks: seq<Chunk>): seq<bv8> {
    if chunks == [] then [] else chunks[0] + Blob(chunks[1..])
  }

  /** Appending a chunk appends its bytes to the blob. */
  lemma {:induction false} BlobAppend(chunks: seq<Chunk>, c: Chunk)
    ensures Blob(chunks + [c]) == Blob(chunks) + c
  {
    if chunks == [] {
      assert [] + [c] == [c];
      assert Blob([c]) == c + Blob([]);
    } else {
      assert (chunks + [c])[1..] == chunks[1..] + [c];
      BlobAppend(chunks[1..], c);
    }
  }

  // ---------------------------------------------------------------------
  // The steps

  /** Whether a start gets as far as a running recorder. */
  predicate Started(mic: Outcome, setup: Outcome) {
    mic.Succeeds? && setup.Succeeds?
  }

  /** `startRecording`: the error, transcript, duration and chunks are
      cleared first. A microphone failure ends the start there with the
      failure's message. A declined system capture only leaves the note.
      A recorder that cannot be set up ends the start with its message,
      the streams already acquired. Otherwise a new interval is scheduled
      (overwriting the ref) and the session is recording, not paused. */
  function AfterStart(s: Session, mic: Outcome, displayGranted: bool, setup: Outcome): (r: Session)
    ensures r.transcript == "" && r.duration == 0 && r.chunks == []
    ensures r.isTranscribing == s.isTranscribing
    ensures !Started(mic, setup) ==>
      && r.isRecording == s.isRecording && r.isPaused == s.isPaused && r.recorder == s.recorder
      && LiveTimers(r) == LiveTimers(s)
    ensures Started(mic, setup) ==>
      && r.isRecording && !r.isPaused && r.recorder == Some(Recording)
      && r.error == (if displayGranted then None else Some(SystemAudioNote))
      && LiveTimers(r) == LiveTimers(s) + 1
    ensures Nominal(s) && !s.isRecording ==> Nominal(r)
  {
    var cleared := ClearedForStart(s);
    match mic
    case Throws(cause) => cleared.(error := Some(MessageOr(cause, StartFailed)))
    case Succeeds =>
      var captured := Captured(cleared, displayGranted);
      match setup
      case Throws(cause) => captured.(error := Some(MessageOr(cause, StartFailed)))
      case Succeeds => Launched(captured)
  }

  /** A microphone failure changes nothing but the resets and the error;
      once the microphone is held, the streams are held (the system stream
      only if granted), and a recorder failure reports its own message. */
  lemma StartFailures(s: Session, mic: Outcome, displayGranted: bool, setup: Outcome)
    ensures mic.Throws? ==>
      AfterStart(s, mic, displayGranted, setup)
        == s.(transcript := "", duration := 0, chunks := [], error := Some(MessageOr(mic.cause, StartFailed)))
    ensures mic.Succeeds? ==>
      var r := AfterStart(s, mic, displayGranted, setup);
      r.micStream && r.mixedStream && r.systemStream == (displayGranted || s.systemStream)
    ensures mic.Succeeds? && setup.Throws? ==>
      AfterStart(s, mic, displayGranted, setup).error == Some(MessageOr(setup.cause, StartFailed))
  {
    if mic.Succeeds? {
      var captured := Captured(ClearedForStart(s), displayGranted);
      assert captured.micStream && captured.mixedStream && captured.systemStream == (displayGranted || s.systemStream);
      if setup.Succeeds? {
        assert AfterStart(s, mic, displayGranted, setup) == Launched(captured);
      } else {
        assert AfterStart(s, mic, displayGranted, setup) == captured.(error := Some(MessageOr(setup.cause, StartFailed)));
      }
    }
  }

  /** The resets that open `startRecording`. */
  function ClearedForStart(s: Session): Session {
    s.(error := None, transcript := "", duration := 0, chunks := [])
  }

  /** The microphone held, the system stream held if granted (else the
      note), and the mixed stream held. */
  function Captured(s: Session, displayGranted: bool): Session {
    s.(micStream := true,
       systemStream := displayGranted || s.systemStream,
       error := if displayGranted then s.error else Some(SystemAudioNote),
       mixedStream := true)
  }

  /** The recorder running, a new interval in the ref, the session recording. */
  function Launched(s: Session): Session {
    s.(recorder := Some(Recording),
       leakedTimers := s.leakedTimers + (if s.timerHeld then 1 else 0),
       timerHeld := true,
       isRecording := true,
       isPaused := false)
  }

  /** `ondataavailable`: a non-empty chunk goes at the end, an empty one is dropped. */
  function AfterData(s: Session, chunk: Chunk): (r: Session)
    ensures r.chunks == if |chunk| > 0 then s.chunks + [chunk] else s.chunks
    ensures r == s.(chunks := r.chunks)
    ensures Blob(r.chunks) == Blob(s.chunks) + chunk
    ensures Nominal(s) ==> Nominal(r)
  {
    if |chunk| > 0 then
      BlobAppend(s.chunks, chunk);
      s.(chunks := s.chunks + [chunk])
    else
      assert Blob(s.chunks) + chunk == Blob(s.chunks);
      s
  }

  /** Whether `pauseRecording` acts. */
  predicate CanPause(s: Session) {
    s.recorder.Some? && s.isRecording && !s.isPaused
  }

  /** `pauseRecording`: with a recorder, recording and not paused, the
      recorder is paused (if it is recording), the held interval cleared
      and the session paused; otherwise nothing changes. */
  function AfterPause(s: Session): (r: Session)
    ensures !CanPause(s) ==> r == s
    ensures CanPause(s) ==>
      && r.isPaused && !r.timerHeld && r.leakedTimers == s.leakedTimers
      && r.recorder == Some(if s.recorder.value == Recording then Paused else s.recorder.value)
      && r == s.(isPaused := true, timerHeld := false, recorder := r.recorder)
    ensures Nominal(s) ==> Nominal(r) && LiveTimers(r) == 0
  {
    if CanPause(s) then
      var state := if s.recorder.value == Recording then Paused else s.recorder.value;
      s.(recorder := Some(state), timerHeld := false, isPaused := true)
    else s
  }

  /** Whether `resumeRecording` acts. */
  predicate CanResume(s: Session) {
    s.recorder.Some? && s.isRecording && s.isPaused
  }

  /** `resumeRecording`: with a recorder, recording and paused, the
      recorder is resumed (if it is paused), a new interval is scheduled
      and the session unpaused; otherwise nothing changes. */
  function AfterResume(s: Session): (r: Session)
    ensures !CanResume(s) ==> r == s
    ensures CanResume(s) ==>
      && !r.isPaused && r.timerHeld && LiveTimers(r) == LiveTimers(s) + 1
      && r.recorder == Some(if s.recorder.value == Paused then Recording else s.recorder.value)
      && r == s.(isPaused := false, timerHeld := true, leakedTimers := r.leakedTimers, recorder := r.recorder)
    ensures Nominal(s) ==> Nominal(r) && LiveTimers(r) == (if s.isRecording then 1 else 0)
  {
    if CanResume(s) then
      var state := if s.recorder.value == Paused then Recording else s.recorder.value;
      s.(recorder := Some(state),
         leakedTimers := s.leakedTimers + (if s.timerHeld then 1 else 0),
         timerHeld := true,
         isPaused := false)
    else s
  }

  /** One second passes: every scheduled interval adds one to `duration`. */
  function AfterTick(s: Session): (r: Session)
    ensures r == s.(duration := s.duration + LiveTimers(s))
    ensures Nominal(s) ==> Nominal(r)
    ensures Nominal(s) ==> r.duration == s.duration + (if s.isRecording && !s.isPaused then 1 else 0)
  {
    s.(duration := s.duration + s.leakedTimers + (if s.timerHeld then 1 else 0))
  }

  /** Whether `stopRecording` stops a recorder (and so hands a blob to transcription). */
  predicate StopsRecorder(s: Session) {
    s.recorder.Some? && s.recorder.value != Inactive
  }

  /** The blob the recorder's stop handler transcribes, if a recorder stops. */
  function StopBlob(s: Session): (blob: Option<seq<bv8>>)
    ensures blob.Some? <==> StopsRecorder(s)
    ensures blob.Some? ==> blob.value == Blob(s.chunks)
  {
    if StopsRecorder(s) then Some(Blob(s.chunks)) else None
  }

  /** `stopRecording`: a running or paused recorder is stopped and its ref
      nulled; the held interval is cleared; the three streams are released;
      the session is neither recording nor paused. Duration, chunks and
      transcript are kept. */
  function AfterStop(s: Session): (r: Session)
    ensures !r.isRecording && !r.isPaused && !r.timerHeld
    ensures !r.micStream && !r.systemStream && !r.mixedStream
    ensures r.recorder == if StopsRecorder(s) then None else s.recorder
    ensures r.leakedTimers == s.leakedTimers
    ensures r.duration == s.duration && r.chunks == s.chunks && r.transcript == s.transcript
    ensures r.error == s.error && r.isTranscribing == s.isTranscribing
    ensures Nominal(s) ==> Nominal(r) && LiveTimers(r) == 0
  {
    s.(recorder := if StopsRecorder(s) then None else s.recorder,
       timerHeld := false,
       micStream := false,
       systemStream := false,
       mixedStream := false,
       isRecording := false,
       isPaused := false)
  }

  /** What `processAudioBlob` produces: the transcript text, or the
      failure's message (or the fallback) when decoding or transcription
      throws. Only channel 0 of the decoded audio is sent. */
  function Transcription(blob: seq<bv8>, decode: Decoder, transcribe: TranscribeCall): (r: Result<string, string>)
    ensures decode(blob).Err? ==> r == Err(MessageOr(decode(blob).error, TranscribeFailed))
    ensures decode(blob).Ok? ==>
      r == match transcribe(decode(blob).value.channels[0])
        case Ok(text) => Ok(text)
        case Err(cause) => Err(MessageOr(cause, TranscribeFailed))
  {
    match decode(blob)
    case Err(cause) => Err(MessageOr(cause, TranscribeFailed))
    case Ok(audio) =>
      match transcribe(WhisperService.AudioBufferToFloat32Array(audio))
      case Ok(text) => Ok(text)
      case Err(cause) => Err(MessageOr(cause, TranscribeFailed))
  }

  /** `processAudioBlob`: success sets the transcript and clears the error;
      failure sets the error and keeps the transcript; either way the
      session is no longer transcribing and nothing else changes. */
  function AfterTranscription(s: Session, blob: seq<bv8>, decode: Decoder, transcribe: TranscribeCall): (r: Session)
    ensures !r.isTranscribing
    ensures r == s.(transcript := r.transcript, error := r.error, isTranscribing := false)
    ensures Transcription(blob, decode, transcribe).Ok? ==>
      r.transcript == Transcription(blob, decode, transcribe).value && r.error.None?
    ensures Transcription(blob, decode, transcribe).Err? ==>
      r.transcript == s.transcript && r.error == Some(Transcription(blob, decode, transcribe).error)
    ensures Nominal(s) ==> Nominal(r)
  {
    match Transcription(blob, decode, transcribe)
    case Ok(text) => s.(transcript := text, error := None, isTranscribing := false)
    case Err(message) => s.(error := Some(message), isTranscribing := false)
  }

  // ---------------------------------------------------------------------
  // Sessions as event sequences

  /** What can happen to a session. `Transcribe` is the stop handler's
      transcription completing. */
  datatype Event =
    | Start(mic: Outcome, displayGranted: bool, setup: Outcome)
    | Data(chunk: Chunk)
    | Pause
    | Resume
    | Tick
    | Stop
    | Transcribe(blob: seq<bv8>, decode: Decoder, transcribe: TranscribeCall)
    | Edit(text: string)

  function Step(s: Session, e: Event): Session {
    match e
    case Start(mic, displayGranted, setup) => AfterStart(s, mic, displayGranted, setup)
    case Data(chunk) => AfterData(s, chunk)
    case Pause => AfterPause(s)
    case Resume => AfterResume(s)
    case Tick => AfterTick(s)
    case Stop => AfterStop(s)
    case Transcribe(blob, decode, transcribe) => AfterTranscription(s, blob, decode, transcribe)
    case Edit(text) => s.(transcript := text)
  }

  /** The state after the events, in order. */
  function Run(s: Session, events: seq<Event>): Session
    decreases |events|
  {
    if events == [] then s else Run(Step(s, events[0]), events[1..])
  }

  /** The page offers start only while not recording. */
  predicate Offered(s: Session, e: Event) {
    e.Start? ==> !s.isRecording
  }

  /** Every event is offered in the state it meets. */
  predicate AllOffered(s: Session, events: seq<Event>)
    decreases |events|
  {
    events == [] || (Offered(s, events[0]) && AllOffered(Step(s, events[0]), events[1..]))
  }

  /** Any sequence of offered events keeps a nominal session nominal:
      never more than one interval, and none while paused or stopped. */
  lemma {:induction false} OfferedRunsStayNominal(s: Session, events: seq<Event>)
    requires Nominal(s) && AllOffered(s, events)
    ensures Nominal(Run(s, events))
    ensures LiveTimers(Run(s, events)) == (if Run(s, events).isRecording && !Run(s, events).isPaused then 1 else 0)
    decreases |events|
  {
    if events != [] {
      OfferedRunsStayNominal(Step(s, events[0]), events[1..]);
    }
  }

  /** Starting again while recording leaves the first interval running
      unheld, so after the stop that follows the duration still grows by
      one each second. */
  lemma RestartWhileRecordingLeaksTimer(s: Session)
    requires Nominal(s) && s.isRecording && !s.isPaused
    ensures var stopped := AfterStop(AfterStart(s, Succeeds, true, Succeeds));
      && !stopped.isRecording
      && AfterTick(stopped).duration == stopped.duration + 1
  {
  }

  /** A complete session: two chunks (and one empty event) recorded over
      two running seconds, with one paused second between them; the stop
      hands over exactly the two chunks' bytes and the duration is 2. */
  lemma {:induction false} SampleSession(a: Chunk, b: Chunk)
    requires |a| > 0 && |b| > 0
    ensures var s := Run(Initial, [Start(Succeeds, true, Succeeds), Data(a), Data([]), Tick, Pause, Tick, Resume, Data(b), Tick]);
      && s.duration == 2
      && StopBlob(s) == Some(a + b)
  {
    SampleRun(a, b);
    var s3 := SampleOpening(a);
    var s6 := SamplePause(s3);
    var s9 := SampleResume(s6, b);
    assert Blob([a, b]) == a + b by {
      assert Blob([b]) == b + Blob([]);
    }
  }

  /** Start, chunk `a`, an empty chunk: recording, at second 0, holding `a`. */
  lemma SampleOpening(a: Chunk) returns (s: Session)
    requires |a| > 0
    ensures s == Run(Initial, [Start(Succeeds, true, Succeeds), Data(a), Data([])])
    ensures Nominal(s) && s.isRecording && !s.isPaused && s.duration == 0 && s.chunks == [a]
  {
    var s1 := AfterStart(Initial, Succeeds, true, Succeeds);
    assert Nominal(s1) && s1.isRecording && !s1.isPaused && s1.duration == 0 && s1.chunks == [];
    Run3(Initial, Start(Succeeds, true, Succeeds), Data(a), Data([]));
    s := AfterData(AfterData(s1, a), []);
  }

  /** A second, pause, a paused second: one more second counted, now paused. */
  lemma SamplePause(s: Session) returns (r: Session)
    requires Nominal(s) && s.isRecording && !s.isPaused
    ensures r == Run(s, [Tick, Pause, Tick])
    ensures Nominal(r) && r.isRecording && r.isPaused && r.duration == s.duration + 1 && r.chunks == s.chunks
  {
    Run3(s, Tick, Pause, Tick);
    var s1 := AfterTick(s);
    assert Nominal(s1) && s1.isRecording && !s1.isPaused && s1.duration == s.duration + 1;
    var s2 := AfterPause(s1);
    assert Nominal(s2) && s2.isRecording && s2.isPaused && s2.chunks == s.chunks;
    r := AfterTick(s2);
  }

  /** Resume, chunk `b`, a second: running again, one more second, `b` appended. */
  lemma SampleResume(s: Session, b: Chunk) returns (r: Session)
    requires Nominal(s) && s.isRecording && s.isPaused && |b| > 0
    ensures r == Run(s, [Resume, Data(b), Tick])
    ensures Nominal(r) && r.isRecording && r.duration == s.duration + 1 && r.chunks == s.chunks + [b]
  {
    Run3(s, Resume, Data(b), Tick);
    var s1 := AfterResume(s);
    assert Nominal(s1) && s1.isRecording && !s1.isPaused && s1.chunks == s.chunks;
    r := AfterTick(AfterData(s1, b));
  }

  /** Running `xs` and then `ys` is running `xs + ys`. */
  lemma {:induction false} RunAppend(s: Session, xs: seq<Event>, ys: seq<Event>)
    ensures Run(s, xs + ys) == Run(Run(s, xs), ys)
    decreases |xs|
  {
    if xs != [] {
      assert xs + ys != [] && (xs + ys)[0] == xs[0] && (xs + ys)[1..] == xs[1..] + ys;
      RunAppend(Step(s, xs[0]), xs[1..], ys);
    } else {
      assert xs + ys == ys;
    }
  }

  /** Three events, one after the other. */
  lemma Run3(s: Session, x: Event, y: Event, z: Event)
    ensures Run(s, [x, y, z]) == Step(Step(Step(s, x), y), z)
  {
    var s1, s2 := Step(s, x), Step(Step(s, x), y);
    assert [x, y, z][1..] == [y, z];
    assert Run(s, [x, y, z]) == Run(s1, [y, z]);
    assert [y, z][1..] == [z];
    assert Run(s1, [y, z]) == Run(s2, [z]);
    assert [z][1..] == [];
    assert Run(s2, [z]) == Step(s2, z);
  }

  /** The nine events of the sample session, three at a time. */
  lemma {:induction false} SampleRun(a: Chunk, b: Chunk)
    ensures Run(Initial, [Start(Succeeds, true, Succeeds), Data(a), Data([]), Tick, Pause, Tick, Resume, Data(b), Tick])
      == Run(Run(Run(Initial, [Start(Succeeds, true, Succeeds), Data(a), Data([])]), [Tick, Pause, Tick]), [Resume, Data(b), Tick])
  {
    var e1 := [Start(Succeeds, true, Succeeds), Data(a), Data([])];
    var e2 := [Tick, Pause, Tick];
    var e3 := [Resume, Data(b), Tick];
    assert e1 + e2 + e3 == [Start(Succeeds, true, Succeeds), Data(a), Data([]), Tick, Pause, Tick, Resume, Data(b), Tick];
    RunAppend(Initial, e1 + e2, e3);
    RunAppend(Initial, e1, e2);
  }

  // ---------------------------------------------------------------------
  // The hook's state, updated in place

  class Recorder {
    var isRecording: bool
    var isPaused: bool
    var transcript: string
    var duration: nat
    var error: Option<string>
    var isTranscribing: bool
    var recorder: Option<RecorderState>
    var timerHeld: bool
    var leakedTimers: nat
    var micStream: bool
    var systemStream: bool
    var mixedStream: bool
    var chunks: seq<Chunk>

    function State(): Session
      reads this
    {
      Session(isRecording, isPaused, transcript, duration, error, isTranscribing,
        recorder, timerHeld, leakedTimers, micStream, systemStream, mixedStream, chunks)
    }

    constructor ()
      ensures State() == Initial
    {
      isRecording, isPaused, transcript, duration := false, false, "", 0;
      error, isTranscribing, recorder := None, false, None;
      timerHeld, leakedTimers := false, 0;
      micStream, systemStream, mixedStream := false, false, false;
      chunks := [];
    }

    /** Schedules the one-second interval into `timerRef`; one already held
        keeps running, unheld. */
    method ScheduleTimer()
      modifies this
      ensures timerHeld && LiveTimers(State()) == LiveTimers(old(State())) + 1
      ensures State() == old(State()).(timerHeld := true, leakedTimers := old(leakedTimers) + (if old(timerHeld) then 1 else 0))
    {
      if timerHeld {
        leakedTimers := leakedTimers + 1;
      }
      timerHeld := true;
    }

    method Start(mic: Outcome, displayGranted: bool, setup: Outcome)
      modifies this
      ensures State() == AfterStart(old(State()), mic, displayGranted, setup)
    {
      ResetForStart();
      if mic.Throws? {
        error := Some(MessageOr(mic.cause, StartFailed));
        return;
      }
      CaptureStreams(displayGranted);
      if setup.Throws? {
        error := Some(MessageOr(setup.cause, StartFailed));
        return;
      }
      LaunchRecorder();
    }

    method ResetForStart()
      modifies this
      ensures State() == ClearedForStart(old(State()))
    {
      error := None;
      transcript := "";
      duration := 0;
      chunks := [];
    }

    method CaptureStreams(displayGranted: bool)
      modifies this
      ensures State() == Captured(old(State()), displayGranted)
    {
      micStream := true;
      if displayGranted {
        systemStream := true;
      } else {
        error := Some(SystemAudioNote);
      }
      mixedStream := true;
    }

    method LaunchRecorder()
      modifies this
      ensures State() == Launched(old(State()))
    {
      recorder := Some(Recording);
      ScheduleTimer();
      isRecording := true;
      isPaused := false;
    }

    method DataAvailable(chunk: Chunk)
      modifies this
      ensures State() == AfterData(old(State()), chunk)
    {
      if |chunk| > 0 {
        chunks := chunks + [chunk];
      }
    }

    method Pause()
      modifies this
      ensures State() == AfterPause(old(State()))
    {
      if recorder.Some? && isRecording && !isPaused {
        if recorder.value == Recording {
          recorder := Some(Paused);
        }
        if timerHeld {
          timerHeld := false;
        }
        isPaused := true;
      }
    }

    method Resume()
      modifies this
      ensures State() == AfterResume(old(State()))
    {
      if recorder.Some? && isRecording && isPaused {
        if recorder.value == Paused {
          recorder := Some(Recording);
        }
        ScheduleTimer();
        isPaused := false;
      }
    }

    /** One second of the clock: each scheduled interval fires once. */
    method Tick()
      modifies this
      ensures State() == AfterTick(old(State()))
    {
      duration := duration + leakedTimers;
      if timerHeld {
        duration := duration + 1;
      }
    }

    /** `stopRecording`, returning the blob the stop handler goes on to transcribe. */
    method Stop() returns (blob: Option<seq<bv8>>)
      modifies this
      ensures blob == StopBlob(old(State()))
      ensures State() == AfterStop(old(State()))
    {
      blob := None;
      if recorder.Some? && recorder.value != Inactive {
        blob := Some(Blob(chunks));
        recorder := None;
      }
      if timerHeld {
        timerHeld := false;
      }
      ReleaseStreams();
      isRecording := false;
      isPaused := false;
    }

    /** Stops the tracks of every stream held and drops the refs. */
    method ReleaseStreams()
      modifies this
      ensures State() == old(State()).(micStream := false, systemStream := false, mixedStream := false)
    {
      if micStream {
        micStream := false;
      }
      if systemStream {
        systemStream := false;
      }
      if mixedStream {
        mixedStream := false;
      }
    }

    method ProcessAudioBlob(blob: seq<bv8>, decode: Decoder, transcribe: TranscribeCall)
      modifies this
      ensures State() == AfterTranscription(old(State()), blob, decode, transcribe)
    {
      isTranscribing := true;
      error := None;
      var decoded := decode(blob);
      if decoded.Err? {
        error := Some(MessageOr(decoded.error, TranscribeFailed));
      } else {
        var channelData := WhisperService.AudioBufferToFloat32Array(decoded.value);
        var text := transcribe(channelData);
        if text.Ok? {
          transcript := text.value;
        } else {
          error := Some(MessageOr(text.error, TranscribeFailed));
        }
      }
      isTranscribing := false;
    }

    method SetTranscript(text: string)
      modifies this
      ensures State() == old(State()).(transcript := text)
    {
      transcript := text;
    }
  }
}
