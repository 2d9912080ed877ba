/** Properties of whole sessions: any interleaving of audio callbacks and worker turns,
    each taken as one atomic step, between a start and a stop. */
module Traces {
  import opened Options
  import opened Settings
  import opened Sessions

  /** A step of a manual session: the audio callback delivers a frame, or the
      recognition loop takes a turn with the engine's reply. */
  datatype ManualEvent = Callback(frame: Frame) | RecognizerTurn(reply: EngineReply)

  function ManualApply(s: Session, e: ManualEvent): Session
  {
    match e
    case Callback(f) => ManualCapture(s, f)
    case RecognizerTurn(reply) => ManualStep(s, reply)
  }

  function RunManual(s: Session, events: seq<ManualEvent>): Session
    decreases |events|
  {
    if events == [] then s else RunManual(ManualApply(s, events[0]), events[1..])
  }

  /** The frames the callback delivered, in order. */
  function CallbackFrames(events: seq<ManualEvent>): seq<Frame>
  {
    if events == [] then []
    else (if events[0].Callback? then [events[0].frame] else []) + CallbackFrames(events[1..])
  }

  lemma CallbackFramesSplit(events: seq<ManualEvent>)
    requires events != []
    ensures CallbackFrames(events) == CallbackFrames([events[0]]) + CallbackFrames(events[1..])
  {
    assert [events[0]][1..] == [];
  }

  /** Callbacks alone, one per frame. */
  function Callbacks(frames: seq<Frame>): seq<ManualEvent>
  {
    if frames == [] then [] else [Callback(frames[0])] + Callbacks(frames[1..])
  }

  /** The accounts a manual session keeps from `s` to `t` while the callback delivers
      `frames`: the recording grows by exactly those frames, and engine input followed by
      the queue grows by exactly those frames; the exports and the flag stay. */
  predicate ManualAccounts(s: Session, t: Session, frames: seq<Frame>)
  {
    && t.recordedAudio == s.recordedAudio + frames
    && t.fed + t.audioQueue == s.fed + s.audioQueue + frames
    && t.exports == s.exports
    && t.isRecording == s.isRecording
  }

  lemma ManualAccountsCompose(s: Session, m: Session, t: Session, a: seq<Frame>, b: seq<Frame>)
    requires ManualAccounts(s, m, a) && ManualAccounts(m, t, b)
    ensures ManualAccounts(s, t, a + b)
  {
    assert s.recordedAudio + a + b == s.recordedAudio + (a + b);
    assert s.fed + s.audioQueue + a + b == s.fed + s.audioQueue + (a + b);
  }

  /** One callback or recognition turn keeps the manual accounts. */
  lemma ManualStepConserves(s: Session, e: ManualEvent)
    ensures ManualAccounts(s, ManualApply(s, e), CallbackFrames([e]))
  {
    assert CallbackFrames([e]) == if e.Callback? then [e.frame] else [];
    if e.RecognizerTurn? && s.isRecording && s.audioQueue != [] {
      assert s.audioQueue == [s.audioQueue[0]] + s.audioQueue[1..];
    }
  }

  /** In manual mode no frame is lost or repeated: every delivered frame is kept for the
      export, and each one is either still queued or was handed to the engine, in
      delivery order. */
  lemma {:induction false} ManualFramesConserved(s: Session, events: seq<ManualEvent>)
    ensures ManualAccounts(s, RunManual(s, events), CallbackFrames(events))
    decreases |events|
  {
    if events == [] {
      assert s.recordedAudio + [] == s.recordedAudio;
      assert s.fed + s.audioQueue + [] == s.fed + s.audioQueue;
    } else {
      var s1 := ManualApply(s, events[0]);
      var rest := events[1..];
      ManualStepConserves(s, events[0]);
      ManualFramesConserved(s1, rest);
      CallbackFramesSplit(events);
      ManualAccountsCompose(s, s1, RunManual(s1, rest), CallbackFrames([events[0]]), CallbackFrames(rest));
    }
  }

  /** After n callbacks and no worker turn, the engine queue and the recording have each
      grown by exactly those n frames. */
  lemma {:induction false} ManualCallbacksAppend(s: Session, frames: seq<Frame>)
    ensures RunManual(s, Callbacks(frames)).audioQueue == s.audioQueue + frames
    ensures RunManual(s, Callbacks(frames)).recordedAudio == s.recordedAudio + frames
    ensures |RunManual(s, Callbacks(frames)).audioQueue| == |s.audioQueue| + |frames|
    decreases |frames|
  {
    if frames != [] {
      var s1 := ManualCapture(s, frames[0]);
      assert Callbacks(frames)[1..] == Callbacks(frames[1..]);
      ManualCallbacksAppend(s1, frames[1..]);
      assert [frames[0]] + frames[1..] == frames;
    }
  }

  /** A whole manual session, started, run and stopped: the one export holds exactly the
      frames the callback delivered, in order, and a file name comes back exactly when
      some frame arrived and the write succeeded. */
  lemma ManualSessionExport(s: Session, config: Config, deviceIndex: Option<int>, modelName: Option<string>,
                            modelLoads: bool, streamStarts: bool, events: seq<ManualEvent>,
                            stamp: string, writeOk: bool)
    ensures var started := StartRecording(s, config, deviceIndex, modelName, modelLoads, streamStarts).session;
            var stopped := StopRecording(RunManual(started, events), stamp, writeOk);
            && !stopped.session.isRecording
            && (stopped.path.Some? <==> CallbackFrames(events) != [] && writeOk)
            && stopped.session.exports == s.exports
                 + (if CallbackFrames(events) == [] then []
                    else [Export(RecordingPath(stamp), CallbackFrames(events), writeOk)])
  {
    var started := StartRecording(s, config, deviceIndex, modelName, modelLoads, streamStarts).session;
    StartRecordingEffects(s, config, deviceIndex, modelName, modelLoads, streamStarts);
    ManualFramesConserved(started, events);
    assert RunManual(started, events).recordedAudio == CallbackFrames(events);
  }

  /** A step of a continuous session: the callback delivers a frame with its volume at
      time `now`, or the worker runs one poll cycle. */
  datatype ContinuousEvent =
    | Sound(frame: Frame, volume: real, now: int)
    | PollTurn(now: int, reply: EngineReply, stamp: string, writeOk: bool)

  function ContinuousApply(s: Session, e: ContinuousEvent): Session
  {
    match e
    case Sound(f, v, now) => ContinuousCapture(s, f, v, now)
    case PollTurn(now, reply, stamp, ok) => ContinuousPoll(s, now, reply, stamp, ok)
  }

  function RunContinuous(s: Session, events: seq<ContinuousEvent>): Session
    decreases |events|
  {
    if events == [] then s else RunContinuous(ContinuousApply(s, events[0]), events[1..])
  }

  /** The delivered frames louder than `threshold`, in order. */
  function LoudFrames(events: seq<ContinuousEvent>, threshold: real): seq<Frame>
  {
    if events == [] then []
    else (if events[0].Sound? && events[0].volume > threshold then [events[0].frame] else [])
         + LoudFrames(events[1..], threshold)
  }

  /** Concatenating two runs of frames gives the samples of each, one after the other. */
  lemma {:induction false} ConcatAppend(a: seq<Frame>, b: seq<Frame>)
    ensures Concat(a + b) == Concat(a) + Concat(b)
    decreases |a|
  {
    if a != [] {
      assert (a + b)[1..] == a[1..] + b;
      ConcatAppend(a[1..], b);
    } else {
      assert a + b == b;
    }
  }

  lemma ExportedFramesAppend(log: seq<Export>, e: Export)
    ensures ExportedFrames(log + [e]) == ExportedFrames(log) + e.frames
  {
    assert (log + [e])[..|log|] == log;
  }

  /** The accounts a continuous session keeps from `s` to `t` while `frames` are the loud
      frames delivered: engine input followed by the queue grows by exactly those frames,
      and so do the exported frames followed by the kept ones; the threshold stays. */
  predicate LoudAccounts(s: Session, t: Session, frames: seq<Frame>)
  {
    && t.silenceThreshold == s.silenceThreshold
    && t.fed + t.audioQueue == s.fed + s.audioQueue + frames
    && ExportedFrames(t.exports) + t.recordedAudio == ExportedFrames(s.exports) + s.recordedAudio + frames
  }

  lemma LoudAccountsCompose(s: Session, m: Session, t: Session, a: seq<Frame>, b: seq<Frame>)
    requires LoudAccounts(s, m, a) && LoudAccounts(m, t, b)
    ensures LoudAccounts(s, t, a + b)
  {
    assert s.fed + s.audioQueue + a + b == s.fed + s.audioQueue + (a + b);
    assert ExportedFrames(s.exports) + s.recordedAudio + a + b
             == ExportedFrames(s.exports) + s.recordedAudio + (a + b);
  }

  /** A callback keeps the loud-frame accounts: a loud frame enters both, a quiet one neither. */
  lemma SoundConserves(s: Session, f: Frame, v: real, now: int)
    ensures LoudAccounts(s, ContinuousCapture(s, f, v, now), if v > s.silenceThreshold then [f] else [])
  {
  }

  /** A poll cycle keeps the loud-frame accounts: a consumed frame moves from the queue to
      the engine, and a boundary moves the kept frames into a segment. */
  lemma PollConserves(s: Session, now: int, reply: EngineReply, stamp: string, ok: bool)
    ensures LoudAccounts(s, ContinuousPoll(s, now, reply, stamp, ok), [])
  {
    var r := ContinuousPoll(s, now, reply, stamp, ok);
    if PollRuns(s) && s.audioQueue != [] {
      assert s.audioQueue == [s.audioQueue[0]] + s.audioQueue[1..];
    }
    assert r.fed + r.audioQueue == s.fed + s.audioQueue;
    if BoundaryDue(s, now) {
      ExportedFramesAppend(s.exports, Export(SegmentPath(stamp), s.recordedAudio, ok));
    }
    assert ExportedFrames(r.exports) + r.recordedAudio == ExportedFrames(s.exports) + s.recordedAudio;
  }

  /** One step of a continuous session keeps the loud-frame accounts. */
  lemma ContinuousStepConserves(s: Session, e: ContinuousEvent)
    ensures LoudAccounts(s, ContinuousApply(s, e), LoudFrames([e], s.silenceThreshold))
  {
    assert LoudFrames([e], s.silenceThreshold)
             == if e.Sound? && e.volume > s.silenceThreshold then [e.frame] else [];
    match e
    case Sound(f, v, now) => SoundConserves(s, f, v, now);
    case PollTurn(now, reply, stamp, ok) => PollConserves(s, now, reply, stamp, ok);
  }

  /** In continuous mode silent frames go nowhere, and no loud frame is lost or repeated:
      each one is still queued or was handed to the engine, and each one is either in an
      exported segment or still kept for the next one, in delivery order. */
  lemma {:induction false} ContinuousFramesConserved(s: Session, events: seq<ContinuousEvent>)
    ensures LoudAccounts(s, RunContinuous(s, events), LoudFrames(events, s.silenceThreshold))
    decreases |events|
  {
    if events == [] {
      assert s.fed + s.audioQueue + [] == s.fed + s.audioQueue;
      assert ExportedFrames(s.exports) + s.recordedAudio + [] == ExportedFrames(s.exports) + s.recordedAudio;
    } else {
      var s1 := ContinuousApply(s, events[0]);
      var rest := events[1..];
      var thr := s.silenceThreshold;
      ContinuousStepConserves(s, events[0]);
      ContinuousFramesConserved(s1, rest);
      assert LoudFrames(events, thr) == LoudFrames([events[0]], thr) + LoudFrames(rest, thr);
      LoudAccountsCompose(s, s1, RunContinuous(s1, rest), LoudFrames([events[0]], thr), LoudFrames(rest, thr));
    }
  }

  /** With no loud frame and nothing kept, no poll cycle exports anything. */
  lemma {:induction false} QuietRunExportsNothing(s: Session, events: seq<ContinuousEvent>)
    requires s.recordedAudio == [] && LoudFrames(events, s.silenceThreshold) == []
    ensures RunContinuous(s, events).exports == s.exports
    ensures RunContinuous(s, events).recordedAudio == []
    decreases |events|
  {
    if events != [] {
      var s1 := ContinuousApply(s, events[0]);
      QuietRunExportsNothing(s1, events[1..]);
    }
  }

  /** A whole continuous session, started, run and stopped: the segments it exports hold,
      between them, exactly the frames louder than the threshold, each once and in
      delivery order, and so exactly their samples. */
  lemma ContinuousSessionExport(s: Session, config: Config, deviceIndex: Option<int>, modelName: Option<string>,
                                modelLoads: bool, streamStarts: bool, start: int, threshold: real,
                                duration: real, events: seq<ContinuousEvent>, stamp: string, writeOk: bool)
    ensures var started := StartContinuous(s, config, deviceIndex, modelName, modelLoads, streamStarts,
                                           start, threshold, duration).session;
            var stopped := StopContinuous(RunContinuous(started, events), stamp, writeOk);
            && !stopped.continuousMode
            && ExportedFrames(stopped.exports) == ExportedFrames(s.exports) + LoudFrames(events, threshold)
            && Concat(ExportedFrames(stopped.exports))
                 == Concat(ExportedFrames(s.exports)) + Concat(LoudFrames(events, threshold))
  {
    var started := StartContinuous(s, config, deviceIndex, modelName, modelLoads, streamStarts,
                                   start, threshold, duration).session;
    var ran := RunContinuous(started, events);
    var stopped := StopContinuous(ran, stamp, writeOk);
    StartContinuousEffects(s, config, deviceIndex, modelName, modelLoads, streamStarts, start, threshold, duration);
    ContinuousFramesConserved(started, events);
    assert ExportedFrames(ran.exports) + ran.recordedAudio == ExportedFrames(s.exports) + LoudFrames(events, threshold);
    if ran.recordedAudio != [] {
      ExportedFramesAppend(ran.exports, Export(SegmentPath(stamp), ran.recordedAudio, writeOk));
    } else {
      assert stopped.exports == ran.exports;
    }
    assert ExportedFrames(stopped.exports) == ExportedFrames(s.exports) + LoudFrames(events, threshold);
    ConcatAppend(ExportedFrames(s.exports), LoudFrames(events, threshold));
  }

  /** A continuous session in which no frame is louder than the threshold writes no file
      at all, not even at stop. */
  lemma SilentSessionExportsNothing(s: Session, config: Config, deviceIndex: Option<int>, modelName: Option<string>,
                                    modelLoads: bool, streamStarts: bool, start: int, threshold: real,
                                    duration: real, events: seq<ContinuousEvent>, stamp: string, writeOk: bool)
    requires LoudFrames(events, threshold) == []
    ensures var started := StartContinuous(s, config, deviceIndex, modelName, modelLoads, streamStarts,
                                           start, threshold, duration).session;
            StopContinuous(RunContinuous(started, events), stamp, writeOk).exports == s.exports
  {
    var started := StartContinuous(s, config, deviceIndex, modelName, modelLoads, streamStarts,
                                   start, threshold, duration).session;
    StartContinuousEffects(s, config, deviceIndex, modelName, modelLoads, streamStarts, start, threshold, duration);
    QuietRunExportsNothing(started, events);
  }
}
