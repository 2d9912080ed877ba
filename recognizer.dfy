/** The `SpeechRecognizer` object. Its session fields change in place; each code path that
    runs on the audio thread or on a worker thread (an audio callback, one turn of a
    worker loop) is one atomic method. Every method is proved to change the fields exactly
    as the matching function of module Sessions says; the properties of those functions
    are proved there and in module Traces. */
module Recognizer {
  import opened Options
  import opened Text
  import opened Settings
  import opened Sessions

  class SpeechRecognizer {
    const config: Config
    var modelPath: string
    var isRecording: bool
    var continuousMode: bool
    var audioQueue: seq<Frame>
    var textQueue: seq<string>
    var recordedAudio: seq<Frame>
    var lastSpeechTime: Option<int>
    var silenceThreshold: real
    var silenceDuration: real
    /** Every frame handed to the engine's AcceptWaveform, oldest first. */
    ghost var fed: seq<Frame>
    /** Every attempted WAV write, oldest first. */
    ghost var exports: seq<Export>

    /** The session fields as a value. */
    ghost function Snapshot(): Session
      reads this
    {
      Session(modelPath, isRecording, continuousMode, audioQueue, textQueue, recordedAudio,
              lastSpeechTime, silenceThreshold, silenceDuration, fed, exports)
    }

    /** `loaded` is the parsed config.json, None when reading it raised. The initial model
        load is taken to succeed. */
    constructor (loaded: Option<Config>)
      ensures config == ConfigOrDefault(loaded)
      ensures Snapshot() == Initial(config)
    {
      config := ConfigOrDefault(loaded);
      modelPath := ConfigOrDefault(loaded).modelPath;
      isRecording := false;
      audioQueue := [];
      textQueue := [];
      recordedAudio := [];
      continuousMode := false;
      silenceThreshold := DefaultSilenceThreshold;
      silenceDuration := DefaultSilenceDuration;
      lastSpeechTime := None;
      fed := [];
      exports := [];
    }

    /** Loads the model at `path`; `loads` is whether the engine accepts it. On failure
        the current model stays and the error goes back to the caller. */
    method SetLanguageModel(path: string, loads: bool) returns (ok: bool)
      modifies this`modelPath
      ensures ok == loads
      ensures modelPath == if loads then path else old(modelPath)
    {
      ok := loads;
      if loads {
        modelPath := path;
      }
    }

    method StartRecording(deviceIndex: Option<int>, modelName: Option<string>,
                          modelLoads: bool, streamStarts: bool) returns (outcome: StartOutcome)
      modifies this
      ensures var r := Sessions.StartRecording(old(Snapshot()), config, deviceIndex, modelName,
                                               modelLoads, streamStarts);
              Snapshot() == r.session && outcome == r.outcome
    {
      isRecording := true;
      audioQueue := [];
      textQueue := [];
      recordedAudio := [];
      assert Snapshot() == old(Snapshot()).(isRecording := true, audioQueue := [], textQueue := [], recordedAudio := []);
      var path := SelectModel(modelName, ModelPaths);
      if path.Some? {
        var ok := SetLanguageModel(path.value, modelLoads);
        if !ok {
          return ModelLoadFailed(path.value);
        }
      }
      var device := ResolveDevice(deviceIndex, config);
      if streamStarts {
        outcome := Running(device);
      } else {
        isRecording := false;
        outcome := StreamFailed(device);
      }
    }

    /** The manual-mode audio callback. */
    method ManualCallback(frame: Frame)
      modifies this
      ensures Snapshot() == ManualCapture(old(Snapshot()), frame)
    {
      audioQueue := audioQueue + [frame];
      recordedAudio := recordedAudio + [frame];
    }

    /** Hands the oldest queued frame to the engine and queues its text unless blank. */
    method FeedEngine(reply: EngineReply)
      requires audioQueue != []
      modifies this
      ensures Snapshot() == Consume(old(Snapshot()), reply)
    {
      var data := audioQueue[0];
      audioQueue := audioQueue[1..];
      fed := fed + [data];
      match reply {
        case Final(Some(text)) =>
          if Strip(text) != [] {
            textQueue := textQueue + [text];
          }
        case _ =>
      }
    }

    /** One turn of the manual recognition loop; `running` is the loop test. */
    method RecognitionTurn(reply: EngineReply) returns (running: bool)
      modifies this
      ensures running == old(isRecording)
      ensures Snapshot() == ManualStep(old(Snapshot()), reply)
    {
      running := isRecording;
      if !running {
        return;
      }
      if audioQueue == [] {
        return;
      }
      FeedEngine(reply);
    }

    method ExportRecording(stamp: string, writeOk: bool) returns (path: Option<string>)
      modifies this
      ensures var r := Sessions.ExportRecording(old(Snapshot()), stamp, writeOk);
              Snapshot() == r.session && path == r.path
    {
      path := None;
      if recordedAudio != [] {
        var filename := RecordingPath(stamp);
        exports := exports + [Export(filename, recordedAudio, writeOk)];
        if writeOk {
          path := Some(filename);
        }
      }
    }

    /** `finalText` is what the engine's FinalResult gives back; it is returned unchanged. */
    method StopRecording(stamp: string, writeOk: bool, finalText: string) returns (result: string)
      modifies this
      ensures Snapshot() == Sessions.StopRecording(old(Snapshot()), stamp, writeOk).session
      ensures result == finalText
    {
      isRecording := false;
      var _ := ExportRecording(stamp, writeOk);
      result := finalText;
    }

    method StartContinuousTranscription(deviceIndex: Option<int>, modelName: Option<string>,
                                        modelLoads: bool, streamStarts: bool, now: int,
                                        threshold: real := DefaultSilenceThreshold,
                                        duration: real := DefaultSilenceDuration)
      returns (outcome: StartOutcome)
      modifies this
      ensures var r := StartContinuous(old(Snapshot()), config, deviceIndex, modelName, modelLoads,
                                       streamStarts, now, threshold, duration);
              Snapshot() == r.session && outcome == r.outcome
    {
      continuousMode := true;
      silenceThreshold := threshold;
      silenceDuration := duration;
      audioQueue := [];
      textQueue := [];
      recordedAudio := [];
      lastSpeechTime := Some(now);
      assert Snapshot() == old(Snapshot()).(continuousMode := true, silenceThreshold := threshold,
                                            silenceDuration := duration, audioQueue := [], textQueue := [],
                                            recordedAudio := [], lastSpeechTime := Some(now));
      var path := SelectModel(modelName, ModelPaths);
      if path.Some? {
        var ok := SetLanguageModel(path.value, modelLoads);
        if !ok {
          return ModelLoadFailed(path.value);
        }
      }
      var device := ResolveDevice(deviceIndex, config);
      if streamStarts {
        outcome := Running(device);
      } else {
        continuousMode := false;
        outcome := StreamFailed(device);
      }
    }

    /** The continuous-mode audio callback; `volume` is the frame's RMS volume. */
    method ContinuousCallback(frame: Frame, volume: real, now: int)
      modifies this
      ensures Snapshot() == ContinuousCapture(old(Snapshot()), frame, volume, now)
    {
      if volume > silenceThreshold {
        lastSpeechTime := Some(now);
        audioQueue := audioQueue + [frame];
        recordedAudio := recordedAudio + [frame];
      }
    }

    method ProcessAudioSegment(stamp: string, writeOk: bool)
      modifies this
      ensures Snapshot() == ProcessSegment(old(Snapshot()), stamp, writeOk)
    {
      if recordedAudio != [] {
        exports := exports + [Export(SegmentPath(stamp), recordedAudio, writeOk)];
      }
    }

    /** One cycle of the continuous worker loop; `running` is the loop test. */
    method ContinuousTurn(now: int, reply: EngineReply, stamp: string, writeOk: bool) returns (running: bool)
      modifies this
      ensures running == old(continuousMode)
      ensures Snapshot() == ContinuousPoll(old(Snapshot()), now, reply, stamp, writeOk)
    {
      running := continuousMode;
      if !running {
        return;
      }
      if lastSpeechTime.None? {
        return;
      }
      var silenceElapsed := ElapsedSeconds(now, lastSpeechTime.value);
      if silenceElapsed > silenceDuration && recordedAudio != [] {
        ProcessAudioSegment(stamp, writeOk);
        recordedAudio := [];
      }
      if audioQueue != [] {
        FeedEngine(reply);
      }
    }

    method StopContinuousTranscription(stamp: string, writeOk: bool)
      modifies this
      ensures Snapshot() == StopContinuous(old(Snapshot()), stamp, writeOk)
    {
      continuousMode := false;
      if recordedAudio != [] {
        ProcessAudioSegment(stamp, writeOk);
      }
    }
  }
}
