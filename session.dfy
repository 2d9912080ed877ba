/** The recognizer's session state as a value, and one function per step the recognizer
    takes: the start and stop calls of both modes, one audio callback, one turn of a
    worker loop, and the two exports. The class in recognizer.dfy is proved to move its
    fields exactly as these functions say.

    The speech engine is an oracle: each time a worker hands it a frame, the engine's
    reply is a parameter. The current time, the frame's RMS volume, the timestamp text of
    a file name and whether a file write succeeds are parameters as well. */
module Sessions {
  import opened Options
  import opened Text
  import opened Settings

  type Sample = real

  /** The samples of one audio callback. */
  type Frame = seq<Sample>

  /** What the engine does with one frame: keeps listening (`AcceptWaveform` is false),
      finishes an utterance (`AcceptWaveform` is true; `text` is the "text" key of the
      JSON result, if present), or raises. */
  datatype EngineReply = Partial | Final(text: Option<string>) | Failed

  /** One attempted WAV export: the file name, the frames concatenated into it, and
      whether the write succeeded. */
  datatype Export = Export(path: string, frames: seq<Frame>, written: bool)

  /** The fields of a recognizer that its sessions read and write. `fed` lists every frame
      handed to the engine and `exports` every attempted file write, oldest first. */
  datatype Session = Session(
    modelPath: string,
    isRecording: bool,
    continuousMode: bool,
    audioQueue: seq<Frame>,
    textQueue: seq<string>,
    recordedAudio: seq<Frame>,
    lastSpeechTime: Option<int>,
    silenceThreshold: real,
    silenceDuration: real,
    fed: seq<Frame>,
    exports: seq<Export>)

  const DefaultSilenceThreshold: real := 0.01
  const DefaultSilenceDuration: real := 1.0

  /** Times are integer microseconds, the resolution of Python's datetime. */
  const MicrosPerSecond: int := 1000000

  /** A freshly constructed recognizer: idle in both modes, empty buffers, no speech seen yet. */
  function Initial(config: Config): (s: Session)
    ensures !s.isRecording && !s.continuousMode && s.lastSpeechTime.None?
    ensures s.audioQueue == [] && s.textQueue == [] && s.recordedAudio == []
    ensures s.silenceThreshold == 0.01 && s.silenceDuration == 1.0
    ensures s.modelPath == config.modelPath
    ensures s.fed == [] && s.exports == []
  {
    Session(config.modelPath, false, false, [], [], [], None, DefaultSilenceThreshold,
            DefaultSilenceDuration, [], [])
  }

  /** `np.concatenate(frames, axis=0)`: the samples of all frames, in order. */
  function Concat(frames: seq<Frame>): seq<Sample>
  {
    if frames == [] then [] else frames[0] + Concat(frames[1..])
  }

  /** The frames of every export in `log`, in the order they were exported. */
  function ExportedFrames(log: seq<Export>): seq<Frame>
  {
    if log == [] then [] else ExportedFrames(log[..|log| - 1]) + log[|log| - 1].frames
  }

  function RecordingPath(stamp: string): string
  {
    "recordings/recording_" + stamp + ".wav"
  }

  function SegmentPath(stamp: string): string
  {
    "recordings/segment_" + stamp + ".wav"
  }

  /** Seconds from `since` to `now`, as `timedelta.total_seconds()` gives them. */
  function ElapsedSeconds(now: int, since: int): real
  {
    (now - since) as real / MicrosPerSecond as real
  }

  /** The outcome of a start call. A model that fails to load raises out of the call;
      a stream that fails to open is caught, and the call returns normally. */
  datatype StartOutcome = Running(device: int) | ModelLoadFailed(path: string) | StreamFailed(device: int)

  datatype Started = Started(session: Session, outcome: StartOutcome)

  /** The file name an export returns, if any, and the session after it. */
  datatype Exported = Exported(session: Session, path: Option<string>)

  /** The texts a worker queues for an engine reply: a final result's text, unstripped,
      when its stripped form is non-empty; nothing otherwise. */
  function Emitted(reply: EngineReply): (texts: seq<string>)
    ensures texts != [] <==> reply.Final? && reply.text.Some? && !AllSpace(reply.text.value)
    ensures texts != [] ==> texts == [reply.text.value]
  {
    match reply
    case Final(Some(t)) => StripNonEmptyIff(t); if Strip(t) != [] then [t] else []
    case _ => []
  }

  /** The selected model is loaded, or the current one stays. Returns None for the session
      when loading raises. */
  function SwitchModel(s: Session, modelName: Option<string>, modelLoads: bool): Option<Session>
  {
    match SelectModel(modelName, ModelPaths)
    case None => Some(s)
    case Some(path) => if modelLoads then Some(s.(modelPath := path)) else None
  }

  /** `start_recording` (the effects are stated by StartRecordingEffects). */
  function StartRecording(s: Session, config: Config, deviceIndex: Option<int>,
                          modelName: Option<string>, modelLoads: bool, streamStarts: bool): Started
  {
    var reset := s.(isRecording := true, audioQueue := [], textQueue := [], recordedAudio := []);
    match SwitchModel(reset, modelName, modelLoads)
    case None => Started(reset, ModelLoadFailed(SelectModel(modelName, ModelPaths).value))
    case Some(loaded) =>
      var device := ResolveDevice(deviceIndex, config);
      if streamStarts then Started(loaded, Running(device))
      else Started(loaded.(isRecording := false), StreamFailed(device))
  }

  /** `start_recording` empties the buffers and raises the recording flag before the model
      switch, so a model that fails to load leaves the flag raised; a stream that fails to
      open lowers it again. A second start while recording is not refused. */
  lemma StartRecordingEffects(s: Session, config: Config, deviceIndex: Option<int>,
                              modelName: Option<string>, modelLoads: bool, streamStarts: bool)
    ensures var r := StartRecording(s, config, deviceIndex, modelName, modelLoads, streamStarts);
            && r.session.audioQueue == [] && r.session.textQueue == [] && r.session.recordedAudio == []
            && (r.session.isRecording <==> !r.outcome.StreamFailed?)
            && (r.outcome.ModelLoadFailed? <==> SelectModel(modelName, ModelPaths).Some? && !modelLoads)
            && (r.outcome.Running? <==> (SelectModel(modelName, ModelPaths).None? || modelLoads) && streamStarts)
            && (!r.outcome.ModelLoadFailed? ==> r.outcome.device == ResolveDevice(deviceIndex, config))
            && (SelectModel(modelName, ModelPaths).None? ==> r.session.modelPath == s.modelPath)
            && (SelectModel(modelName, ModelPaths).Some? && modelLoads ==>
                  r.session.modelPath == SelectModel(modelName, ModelPaths).value)
            && (!modelLoads ==> r.session.modelPath == s.modelPath)
            && r.session.continuousMode == s.continuousMode && r.session.lastSpeechTime == s.lastSpeechTime
            && r.session.silenceThreshold == s.silenceThreshold && r.session.silenceDuration == s.silenceDuration
            && r.session.fed == s.fed && r.session.exports == s.exports
  {
  }

  /** The manual-mode audio callback: every frame is queued for the engine and kept for
      the export, whatever its volume. */
  function ManualCapture(s: Session, frame: Frame): (r: Session)
    ensures r.audioQueue == s.audioQueue + [frame] && r.recordedAudio == s.recordedAudio + [frame]
    ensures r.(audioQueue := s.audioQueue, recordedAudio := s.recordedAudio) == s
  {
    s.(audioQueue := s.audioQueue + [frame], recordedAudio := s.recordedAudio + [frame])
  }

  /** A worker takes the oldest queued frame, hands it to the engine and queues the
      engine's text when it is not blank. */
  function Consume(s: Session, reply: EngineReply): (r: Session)
    requires s.audioQueue != []
    ensures r.fed + r.audioQueue == s.fed + s.audioQueue
    ensures |r.audioQueue| == |s.audioQueue| - 1
    ensures r.textQueue == s.textQueue + Emitted(reply)
    ensures r.(audioQueue := s.audioQueue, fed := s.fed, textQueue := s.textQueue) == s
  {
    s.(audioQueue := s.audioQueue[1..], fed := s.fed + [s.audioQueue[0]],
       textQueue := s.textQueue + Emitted(reply))
  }

  /** One turn of the manual recognition loop. It does nothing once recording has stopped
      (the loop exits) or when no frame is queued (the timed get gives up); otherwise it
      consumes exactly the oldest frame. An engine that raises still consumes the frame. */
  function ManualStep(s: Session, reply: EngineReply): (r: Session)
    ensures !s.isRecording || s.audioQueue == [] ==> r == s
    ensures s.isRecording && s.audioQueue != [] ==>
              r.audioQueue == s.audioQueue[1..] && r.fed == s.fed + [s.audioQueue[0]]
              && r.textQueue == s.textQueue + Emitted(reply)
    ensures r.(audioQueue := s.audioQueue, fed := s.fed, textQueue := s.textQueue) == s
  {
    if s.isRecording && s.audioQueue != [] then Consume(s, reply) else s
  }

  /** `export_recording`: writes the frames recorded so far, in arrival order, to a
      timestamped file and returns its name; with nothing recorded it writes nothing and
      returns None, and a failed write also returns None. */
  function ExportRecording(s: Session, stamp: string, writeOk: bool): (r: Exported)
    ensures r.path.Some? <==> s.recordedAudio != [] && writeOk
    ensures r.path.Some? ==> r.path.value == RecordingPath(stamp)
    ensures s.recordedAudio == [] ==> r.session == s
    ensures s.recordedAudio != [] ==>
              r.session == s.(exports := s.exports + [Export(RecordingPath(stamp), s.recordedAudio, writeOk)])
  {
    if s.recordedAudio == [] then Exported(s, None)
    else
      var e := Export(RecordingPath(stamp), s.recordedAudio, writeOk);
      Exported(s.(exports := s.exports + [e]), if writeOk then Some(e.path) else None)
  }

  /** `stop_recording`: lowers the flag and exports the whole session's audio. Frames still
      queued stay unrecognized. */
  function StopRecording(s: Session, stamp: string, writeOk: bool): (r: Exported)
    ensures !r.session.isRecording
    ensures r.path.Some? <==> s.recordedAudio != [] && writeOk
    ensures r.session == s.(isRecording := false, exports := s.exports
              + (if s.recordedAudio == [] then [] else [Export(RecordingPath(stamp), s.recordedAudio, writeOk)]))
  {
    ExportRecording(s.(isRecording := false), stamp, writeOk)
  }

  /** `start_continuous_transcription` (the effects are stated by StartContinuousEffects). */
  function StartContinuous(s: Session, config: Config, deviceIndex: Option<int>,
                           modelName: Option<string>, modelLoads: bool, streamStarts: bool,
                           now: int, threshold: real, duration: real): Started
  {
    var reset := s.(continuousMode := true, silenceThreshold := threshold, silenceDuration := duration,
                    audioQueue := [], textQueue := [], recordedAudio := [], lastSpeechTime := Some(now));
    match SwitchModel(reset, modelName, modelLoads)
    case None => Started(reset, ModelLoadFailed(SelectModel(modelName, ModelPaths).value))
    case Some(loaded) =>
      var device := ResolveDevice(deviceIndex, config);
      if streamStarts then Started(loaded, Running(device))
      else Started(loaded.(continuousMode := false), StreamFailed(device))
  }

  /** `start_continuous_transcription` behaves like `start_recording` for the continuous
      flag; it also stores the silence settings and takes the start time as the last
      moment of speech. */
  lemma StartContinuousEffects(s: Session, config: Config, deviceIndex: Option<int>,
                               modelName: Option<string>, modelLoads: bool, streamStarts: bool,
                               now: int, threshold: real, duration: real)
    ensures var r := StartContinuous(s, config, deviceIndex, modelName, modelLoads, streamStarts,
                                     now, threshold, duration);
            && r.session.audioQueue == [] && r.session.textQueue == [] && r.session.recordedAudio == []
            && r.session.silenceThreshold == threshold && r.session.silenceDuration == duration
            && r.session.lastSpeechTime == Some(now)
            && (r.session.continuousMode <==> !r.outcome.StreamFailed?)
            && (r.outcome.ModelLoadFailed? <==> SelectModel(modelName, ModelPaths).Some? && !modelLoads)
            && (r.outcome.Running? <==> (SelectModel(modelName, ModelPaths).None? || modelLoads) && streamStarts)
            && (!r.outcome.ModelLoadFailed? ==> r.outcome.device == ResolveDevice(deviceIndex, config))
            && (SelectModel(modelName, ModelPaths).None? ==> r.session.modelPath == s.modelPath)
            && (SelectModel(modelName, ModelPaths).Some? && modelLoads ==>
                  r.session.modelPath == SelectModel(modelName, ModelPaths).value)
            && (!modelLoads ==> r.session.modelPath == s.modelPath)
            && r.session.isRecording == s.isRecording && r.session.fed == s.fed && r.session.exports == s.exports
  {
  }

  /** The continuous-mode audio callback: a frame louder than the threshold (strictly) is
      queued, kept and marks the time of speech; any other frame changes nothing. */
  function ContinuousCapture(s: Session, frame: Frame, volume: real, now: int): (r: Session)
    ensures r != s <==> volume > s.silenceThreshold
    ensures volume > s.silenceThreshold ==>
              r.audioQueue == s.audioQueue + [frame] && r.recordedAudio == s.recordedAudio + [frame]
              && r.lastSpeechTime == Some(now)
              && r.(audioQueue := s.audioQueue, recordedAudio := s.recordedAudio,
                    lastSpeechTime := s.lastSpeechTime) == s
  {
    if volume > s.silenceThreshold then
      s.(lastSpeechTime := Some(now), audioQueue := s.audioQueue + [frame],
         recordedAudio := s.recordedAudio + [frame])
    else s
  }

  /** `process_audio_segment`: exports the kept frames as a segment when there are any.
      It changes nothing else: neither the kept frames nor the text queue. */
  function ProcessSegment(s: Session, stamp: string, writeOk: bool): (r: Session)
    ensures r.exports == s.exports
              + (if s.recordedAudio == [] then [] else [Export(SegmentPath(stamp), s.recordedAudio, writeOk)])
    ensures r.(exports := s.exports) == s
  {
    if s.recordedAudio == [] then s
    else s.(exports := s.exports + [Export(SegmentPath(stamp), s.recordedAudio, writeOk)])
  }

  /** The continuous worker is past its loop test and can read the time of the last speech
      (before any continuous start it is None, and the subtraction raises). */
  predicate PollRuns(s: Session)
  {
    s.continuousMode && s.lastSpeechTime.Some?
  }

  /** A segment ends at this poll: more than the silence duration (strictly) has passed
      since the last speech, and some frames are kept. */
  predicate BoundaryDue(s: Session, now: int)
  {
    PollRuns(s) && ElapsedSeconds(now, s.lastSpeechTime.value) > s.silenceDuration && s.recordedAudio != []
  }

  /** One cycle of the continuous worker: first the silence check, which exports the kept
      frames and empties them when a boundary is due, then at most one queued frame goes
      to the engine. Nothing happens once the mode is off or before the time of speech is
      known. */
  function ContinuousPoll(s: Session, now: int, reply: EngineReply, stamp: string, writeOk: bool): (r: Session)
    ensures BoundaryDue(s, now) ==>
              r.recordedAudio == [] && r.exports == s.exports + [Export(SegmentPath(stamp), s.recordedAudio, writeOk)]
    ensures !BoundaryDue(s, now) ==> r.recordedAudio == s.recordedAudio && r.exports == s.exports
    ensures PollRuns(s) && s.audioQueue != [] ==>
              r.audioQueue == s.audioQueue[1..] && r.fed == s.fed + [s.audioQueue[0]]
              && r.textQueue == s.textQueue + Emitted(reply)
    ensures !(PollRuns(s) && s.audioQueue != []) ==>
              r.audioQueue == s.audioQueue && r.fed == s.fed && r.textQueue == s.textQueue
    ensures r.(recordedAudio := s.recordedAudio, exports := s.exports, audioQueue := s.audioQueue,
               fed := s.fed, textQueue := s.textQueue) == s
  {
    if !PollRuns(s) then s
    else
      var checked := if BoundaryDue(s, now) then ProcessSegment(s, stamp, writeOk).(recordedAudio := []) else s;
      if checked.audioQueue != [] then Consume(checked, reply) else checked
  }

  /** `stop_continuous_transcription`: lowers the flag and exports what is still kept as a
      last segment, but leaves the kept frames in place. */
  function StopContinuous(s: Session, stamp: string, writeOk: bool): (r: Session)
    ensures !r.continuousMode
    ensures r == s.(continuousMode := false, exports := s.exports
              + (if s.recordedAudio == [] then [] else [Export(SegmentPath(stamp), s.recordedAudio, writeOk)]))
  {
    ProcessSegment(s.(continuousMode := false), stamp, writeOk)
  }
}
