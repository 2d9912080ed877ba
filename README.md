# Speech recognizer session model

This project models the session logic of `SpeechRecognizer` in `src/speech_recognizer.py`,
the offline speech-to-text recorder. The recognizer has two modes:

- **Manual recording.** Every audio frame is queued for the Vosk engine and kept for a
  WAV export.
- **Continuous transcription.** Only frames louder than a silence threshold are kept. A
  segment is exported once the silence has lasted longer than a set duration.

The model covers the start and stop calls of both modes and the two audio callbacks. It
also covers one turn of each worker loop, both exports, the model and device selection,
and the fallback to the default configuration. Each step is written as a function of the
recognizer's fields, following the source, and the class is proved to change its fields
exactly as those functions say. Over a whole session, every delivered frame (in
continuous mode, every loud frame) appears once, in order, among the attempted exports.

Layout:

- `options.dfy`: `Option`, for Python's `None`.
- `text.dfy`: Python's `str.strip()`. A blank engine result is suppressed on this test.
- `settings.dfy`: the configuration and its defaults, the model catalogue, and the
  model/device selection rules.
- `session.dfy`: the recognizer's session fields as a `Session` value, with one function
  per step.
- `traces.dfy`: whole sessions, given as any interleaving of callbacks and worker turns.
- `recognizer.dfy`: class `SpeechRecognizer` with the same fields. Each method is proved
  to move them exactly as its step function says (`Snapshot() == F(old(Snapshot()))`).

Inputs from outside the object are parameters:

- the frame's RMS volume;
- the current time, as integer microseconds;
- the timestamp text of a file name;
- whether a model loads, whether the stream starts, and whether a WAV write succeeds;
- the engine's reply to each frame: `Partial` (AcceptWaveform is false), `Final(text)`
  (AcceptWaveform is true), or `Failed` (it raised).

Two ghost logs stand in for effects the model cannot see. `fed` records every frame
handed to the engine. `exports` records every attempted WAV write, with its frames and
whether it succeeded.

The model keeps these behaviours of the code as written:

- A second start while a session is active is not refused. It resets the buffers again.
- The model can be changed while a session runs.
- A model that fails to load raises out of the start call, after `is_recording` (or
  `continuous_mode`) was already set. The flag stays raised.
- `stop_recording` is not idempotent. A second stop exports the same frames again.
- At a segment boundary the engine's `FinalResult` is only logged. Its text never reaches
  the text queue.
- `stop_continuous_transcription` exports the pending frames but does not clear them.
- The kept frames are cleared after a boundary even when the segment write failed. Those
  frames stay in the export log with `written == false`.

## Model

| member | source | states |
|---|---|---|
| `Settings.ConfigOrDefault` | src/speech_recognizer.py:22-34 | a loaded config is used as is; any load failure yields model path ./models/vosk-model-small-en-us-0.15, 16000 Hz, 1 channel, device 0, chunk 2048 |
| `Settings.AvailableModels` | src/speech_recognizer.py:71-72 | the listed names are exactly the catalogue's keys, each once |
| `Settings.SelectModel` | src/speech_recognizer.py:88-92 | a model is switched to iff the name is given, non-empty, in the catalogue and maps to a non-empty path, and then it is that path; otherwise the current model stays |
| `Settings.ResolveDevice` | src/speech_recognizer.py:94-95 | an explicit device index (0 included) is kept; a missing one falls back to the configured index |
| `Settings.CatalogSelection` | src/speech_recognizer.py:37-41 | each of the three catalogue names selects its own directory; any other name selects nothing |
| `Text.LeadingSpaces` | src/speech_recognizer.py:111 | the count of leading characters that `strip()` removes: all of them are whitespace, and the next character, if any, is not |
| `Text.ContentEnd` | src/speech_recognizer.py:111 | where the trailing whitespace that `strip()` removes begins: everything after it is whitespace, and the character before it, if any, is not |
| `Text.StripNonEmptyIff` | src/speech_recognizer.py:111 | `text.strip()` is truthy exactly when the text holds a non-whitespace character |
| `Text.StripKeepsTrimmedSlice` | src/speech_recognizer.py:111 | `text.strip()` is a slice of the text that neither starts nor ends with whitespace, and everything removed before and after it is whitespace |
| `Sessions.Initial` | src/speech_recognizer.py:44-56 | a new recognizer is idle in both modes, has empty buffers, threshold 0.01, duration 1.0, no speech time, nothing fed and nothing exported, and uses the configured model |
| `Sessions.Emitted` | src/speech_recognizer.py:109-112 | a reply queues a text iff it is a final result with a text that is not all whitespace, and then it queues that text unstripped |
| `Sessions.StartRecordingEffects` | src/speech_recognizer.py:81-136 | buffers emptied; the flag ends raised unless the stream fails; a model-load failure raises with the flag still raised; a selected model that loads becomes the model, and the model stays when none is selected or the load fails; the continuous fields and silence settings stay; the stream opens on the resolved device |
| `Sessions.ManualCapture` | src/speech_recognizer.py:97-103 | every frame, whatever its volume, is appended to both the engine queue and the recording, and nothing else changes |
| `Sessions.Consume` | src/speech_recognizer.py:108-112 | the oldest queued frame moves to the engine (engine input followed by queue is unchanged); the queue shrinks by one; the text queue grows by the reply's non-blank text at its end |
| `Sessions.ManualStep` | src/speech_recognizer.py:105-116 | nothing changes when recording has stopped or the queue is empty; otherwise exactly the front frame is consumed; every field other than the queue, the engine input and the texts stays |
| `Sessions.ExportRecording` | src/speech_recognizer.py:158-178 | a file name comes back iff frames were recorded and the write succeeded; the recorded frames, in order, are written iff there are any; nothing else changes |
| `Sessions.StopRecording` | src/speech_recognizer.py:138-156 | the flag is lowered and the whole recording is exported iff there is any; every other field, including the recording and the undrained queue, stays |
| `Sessions.StartContinuousEffects` | src/speech_recognizer.py:180-266 | buffers emptied, the given threshold and duration stored, the start time taken as the last speech; same flag, model and device rules as the manual start, with a selected model that loads becoming the model and a failed load keeping the old one |
| `Sessions.ContinuousCapture` | src/speech_recognizer.py:206-217 | the state changes iff volume > threshold (strictly); a loud frame is appended to queue and recording and sets the speech time; a quiet frame changes nothing |
| `Sessions.ProcessSegment` | src/speech_recognizer.py:268-291 | the kept frames are exported as a segment iff there are any; neither the kept frames nor the text queue change |
| `Sessions.ContinuousPoll` | src/speech_recognizer.py:219-245 | a boundary fires iff the mode is on, elapsed > duration (strictly) and frames are kept; after firing the kept frames are empty and exactly one segment holding them is exported; otherwise the kept frames and exports are unchanged; at most one frame is consumed, none when the queue is empty; every other field, the model and the flags included, stays |
| `Sessions.StopContinuous` | src/speech_recognizer.py:293-314 | the mode is turned off; the kept frames are exported as a last segment iff there are any, and are left in place; every other field stays |
| `Traces.ManualStepConserves` | src/speech_recognizer.py:97-116 | one callback or recognition turn keeps the manual frame accounts: recording, and engine input followed by queue, each grow by exactly the delivered frame |
| `Traces.ManualFramesConserved` | src/speech_recognizer.py:97-116 | over any interleaving of callbacks and recognition turns, the recording is exactly the delivered frames, and engine input followed by the queue is exactly the delivered frames, in order |
| `Traces.ManualCallbacksAppend` | src/speech_recognizer.py:97-103 | after n callbacks with no consumption, queue and recording have each grown by exactly those n frames |
| `Traces.ManualSessionExport` | src/speech_recognizer.py:81-178 | start, any run, stop: the one export holds exactly the delivered frames; a file name comes back iff some frame arrived and the write succeeded |
| `Traces.ConcatAppend` | src/speech_recognizer.py:277 | concatenating two runs of frames gives the samples of the first followed by those of the second |
| `Traces.SoundConserves` | src/speech_recognizer.py:206-217 | a continuous callback adds a loud frame to both the engine side and the export side, and a quiet frame to neither |
| `Traces.PollConserves` | src/speech_recognizer.py:219-245 | a poll cycle only moves frames: a consumed frame goes from the queue to the engine, and a boundary moves the kept frames into a segment |
| `Traces.ContinuousStepConserves` | src/speech_recognizer.py:206-245 | one callback or poll cycle keeps the loud-frame accounts of both the engine side and the export side |
| `Traces.ContinuousFramesConserved` | src/speech_recognizer.py:206-245 | over any interleaving, quiet frames go nowhere; every loud frame is once in engine input or queue, and once in an exported segment or the kept frames, in order |
| `Traces.QuietRunExportsNothing` | src/speech_recognizer.py:214-231 | with nothing kept and no loud frame, no cycle exports anything and nothing gets kept |
| `Traces.ContinuousSessionExport` | src/speech_recognizer.py:180-314 | start, any run, stop: the segments hold exactly the loud frames, each once and in order, and so exactly their samples |
| `Traces.SilentSessionExportsNothing` | src/speech_recognizer.py:180-314 | start, any run with no frame louder than the threshold, stop: no file is written |
| `Recognizer.SpeechRecognizer.constructor` | src/speech_recognizer.py:13-56 | the configuration is the loaded one or the defaults, and the session fields start as `Initial` says |
| `Recognizer.SpeechRecognizer.SetLanguageModel` | src/speech_recognizer.py:62-69 | the model changes iff it loads; a failure is reported to the caller |
| `Recognizer.SpeechRecognizer.StartRecording` | src/speech_recognizer.py:81-136 | fields and outcome are those of `Sessions.StartRecording`, whose effects `Sessions.StartRecordingEffects` states |
| `Recognizer.SpeechRecognizer.ManualCallback` | src/speech_recognizer.py:97-103 | fields change as `Sessions.ManualCapture` says |
| `Recognizer.SpeechRecognizer.FeedEngine` | src/speech_recognizer.py:108-112 | fields change as `Sessions.Consume` says |
| `Recognizer.SpeechRecognizer.RecognitionTurn` | src/speech_recognizer.py:106-116 | returns the loop test; fields change as `Sessions.ManualStep` says |
| `Recognizer.SpeechRecognizer.ExportRecording` | src/speech_recognizer.py:158-178 | fields and file name are those of `Sessions.ExportRecording` |
| `Recognizer.SpeechRecognizer.StopRecording` | src/speech_recognizer.py:138-156 | fields change as `Sessions.StopRecording` says; the engine's final text is returned |
| `Recognizer.SpeechRecognizer.StartContinuousTranscription` | src/speech_recognizer.py:180-266 | fields and outcome are those of `Sessions.StartContinuous`, whose effects `Sessions.StartContinuousEffects` states; threshold and duration default to 0.01 and 1.0 |
| `Recognizer.SpeechRecognizer.ContinuousCallback` | src/speech_recognizer.py:206-217 | fields change as `Sessions.ContinuousCapture` says |
| `Recognizer.SpeechRecognizer.ProcessAudioSegment` | src/speech_recognizer.py:268-291 | fields change as `Sessions.ProcessSegment` says |
| `Recognizer.SpeechRecognizer.ContinuousTurn` | src/speech_recognizer.py:220-245 | returns the loop test; fields change as `Sessions.ContinuousPoll` says |
| `Recognizer.SpeechRecognizer.StopContinuousTranscription` | src/speech_recognizer.py:293-314 | fields change as `Sessions.StopContinuous` says |

## Left out

- `calculate_volume` (src/speech_recognizer.py:77-79) is left out. RMS over float32 samples is floating-point numerics, so the volume is a parameter of the continuous callback.
- Audio devices are left out: `sd.query_devices`, `get_audio_devices` and the `InputStream` start, stop and close. Opening the stream is reduced to a success flag.
- Vosk is left out: `vosk.Model`, `KaldiRecognizer` and the JSON parsing of their results. Each engine reply is a parameter. The decoder's internal state is not modelled, nor the reset that `FinalResult` performs.
- `Recognizer.SpeechRecognizer.StopRecording` returns the engine's `FinalResult` text as given. The model cannot relate that text to the frames fed.
- Threads are left out: `Thread.start`/`join`, the blocking `queue.Queue.get` with its timeout, and the 0.1 s waits. Each callback and each worker turn is one atomic step. Races between them are not modelled. One such race: a frame appended by the callback between the segment export and `self.recorded_audio = []` at src/speech_recognizer.py:228-231 is lost.
- Start calls overwrite the previous stream and thread objects without stopping them. These objects are not modelled.
- File output is left out: `os.makedirs`, `sf.write`, the sample rate written and `datetime.now().strftime`. The file name takes the timestamp text as a parameter. Two exports within one second get the same name, and the model does not say so. In `export_recording` the `os.makedirs` call (src/speech_recognizer.py:160) sits outside the `try`, so its failure raises out of `export_recording` and `stop_recording` before `FinalResult` runs, even with nothing recorded; `ExportRecording` and `StopRecording` always return normally in the model. In `process_audio_segment` the same call is inside the `try` and is covered by the failed-write flag.
- Time is integer microseconds. Elapsed time is exact real division, so the rounding of `total_seconds()` is not modelled.
- Logging is left out, including every `except` branch whose only effect is a log line.
- `Recognizer.SpeechRecognizer.constructor` assumes the initial model load succeeds. A failed load raises out of `__init__`, and no object exists.
- `Settings.ConfigOrDefault` takes the loaded config as a typed record. A JSON file with missing keys, which would raise later in the source, is not modelled.
- The consumer of `text_queue`, the UI's text-update thread (src/ui_manager.py:18), is not part of this model. The model's `textQueue` therefore holds every text queued since the last start and never shrinks; it is not what the queue holds at run time.
- Traces cover one mode at a time. Running manual and continuous events on the same object at once is not covered.
