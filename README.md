# Voice recorder and transcriber: a Dafny model of its page logic

The application is a browser page that records microphone audio, hands the
recording to a speech-recognition pipeline, and shows the recognized text
in a text box with copy and clear buttons. Almost all of `app.js` is glue
around browser and library calls. This project models the part of it that
is sequential logic:

- **The elapsed-time display** (`updateRecordingTime`). It turns two
  millisecond timestamps into `M:SS` text. The model uses JavaScript's own
  arithmetic: floor division, and a `%` that truncates toward zero.
  `toString()` and `padStart(2, '0')` are written out over strings.
  Module `RecordingTime`, with the string built-ins in `JsText`.
- **The chunk list** (`audioChunks`). It is emptied when a recording
  starts. The `dataavailable` handler appends a chunk only when its size is
  positive. Module `AudioChunks`.
- **The transcript text**. A successful run appends the trimmed result. If
  the text is empty, the result becomes the whole text. Otherwise it goes
  after a blank line. `String.prototype.trim()` follows ECMAScript's set of
  white-space and line-terminator characters. Module `Transcript`.
- **The page state and its handlers**. This is a class
  `App.TranscriberApp`. Its fields are the module-level variables
  (`mediaRecorder`, `audioChunks`, `recordingStartTime`, the interval
  timer), the transcript text, the status message, and the controls: record
  and stop display and disabled state, the recording indicator, and copy
  and clear disabled state. There is one method per handler:
  `initializeModel`'s completion, `startRecording`, a timer tick,
  `ondataavailable`, `stopRecording`, the recorder ending by itself,
  `processAudio`, `copyToClipboard` and `clearTranscription`. `Valid()` is
  the invariant every handler keeps.
  - The chunk list is exactly the non-empty payloads of the session, in
    order.
  - The text is exactly the fold of the transcriptions since the last
    clear.
  - Copy and clear are enabled together, and always when there is text.
  - Exactly one of record and stop is shown.
  - While recording, the timer runs and stop is shown and enabled.
  - The indicator shows exactly while the interval that
    `recordingInterval` names has not been cleared.

Everything outside the page logic is a parameter of the handlers:

| What | Modelled as |
|---|---|
| Microphone grant | `micGranted` |
| Clock | `now`, in milliseconds |
| Chunk data | a byte sequence |
| Model loading | `loaded` |
| Decoding and recognizer (the whole chain from chunks to text) | a function `seq<Chunk> -> Option<string>`, where `None` means something threw |
| `confirm()` answer | `confirmed` |
| Clipboard write | `writeOk` |

Each handler runs as one atomic step.

`audioChunks` is reset only in `startRecording` (app.js:75), so in the
model `ProcessAudio` leaves `chunks` as it was.

A recorder can stop without the stop button, for instance when its
microphone track ends. The browser then fires `stop`, so `processAudio`
runs, but nothing of `stopRecording` does. The interval keeps running and
the indicator stays on. The next `startRecording` overwrites
`recordingInterval` (app.js:99) without clearing the old interval. The
model keeps that interval as a stray timer (`strayTimers`) that goes on
firing `updateRecordingTime`.

The initial state of the controls comes from the page's HTML, and
index.html is not part of this model. The constructor assumes what the
code implies:
- record is shown but disabled until the model has loaded;
- stop and the indicator are hidden, and stop is not disabled;
- copy and clear are disabled;
- the text is empty;
- the time display reads "0:00".

## Model

| member | source | states |
|---|---|---|
| `JsText.IntToString` | app.js:112 | `toString()` of an integer: the definition; its meaning is stated by `IntToStringShape`, `NatToDecimalCanonical` and the two round-trip lemmas |
| `JsText.PadStart` | app.js:112 | `padStart(width, fill)`: the definition; its meaning is stated by `PadStartShape` |
| `JsText.Trim` | app.js:167 | `trim()`: the definition; its meaning is stated by `TrimSlice`, `TrimUnique` and `TrimIdempotent` |
| `JsText.NatToDecimalCanonical` | app.js:112 | `toString()` of a natural number is a digit string with no superfluous leading zero; it is "0" only for zero and one digit exactly below ten |
| `JsText.DecimalOfNatToDecimal` | app.js:112 | reading the decimal spelling of `n` back gives `n` |
| `JsText.NatToDecimalOfDecimal` | app.js:112 | every canonical digit string is the spelling of its own value (the other direction of the round trip) |
| `JsText.IntToStringShape` | app.js:112 | a non-negative integer is spelled as its canonical digits; a negative one as '-' followed by the digits of its magnitude |
| `JsText.PadStartShape` | app.js:112 | `padStart(width, fill)` gives the string preceded by exactly enough fill characters to reach `width`, and never shortens it |
| `JsText.TrimSlice` | app.js:167 | `trim()` gives a slice of its input that neither starts nor ends with JavaScript white space, with only white space before and after it |
| `JsText.TrimUnique` | app.js:167 | any slice with only white space around it that is itself trimmed is the result of `trim()`, so `trim()` is exactly that slice |
| `JsText.TrimIdempotent` | app.js:167 | trimming twice is trimming once |
| `JsText.TrimStartSlice` | app.js:167 | stripping from the front removes only white space and leaves a suffix that does not start with white space |
| `JsText.TrimEndSlice` | app.js:167 | stripping from the back removes only white space and leaves a prefix that does not end with white space |
| `RecordingTime.TruncRem` | app.js:111 | JavaScript's `%` with divisor 60: the dividend is 60 times the quotient truncated toward zero plus the remainder; the remainder lies strictly between -60 and 60 and takes the sign of the dividend |
| `RecordingTime.PadTwo` | app.js:112 | a seconds value below 100, padded to two places, is two digits that read back as that value |
| `RecordingTime.DisplayFields` | app.js:108-112 | for `now >= start` the display is canonical minutes, ':' and two digits; the two digits are below 60, and minutes * 60 + seconds is `(now - start) div 1000` |
| `RecordingTime.DisplayRoundTrip` | app.js:108-112 | parsing the display of a non-negative interval gives back its elapsed whole seconds |
| `RecordingTime.DisplayInjective` | app.js:108-112 | two displays of non-negative intervals are equal if and only if their elapsed whole seconds are equal |
| `RecordingTime.Display` | app.js:108-112 | `updateRecordingTime`'s text: the definition; its meaning is stated by `DisplayFields`, `DisplayRoundTrip`, `DisplayInjective` and `DisplayParsesIff` |
| `RecordingTime.DisplayAtStart` | app.js:97-98 | the display within the first second after the start, as when the two clock readings of `startRecording` are less than a second apart, is "0:00" |
| `RecordingTime.NegativeIntervalNoParse` | app.js:108-112 | for any start time later than the clock reading the display starts with '-' and does not parse |
| `RecordingTime.DisplayParsesIff` | app.js:108-112 | the display parses if and only if the recording started no later than the clock reading |
| `RecordingTime.NegativeIntervalDisplay` | app.js:109-112 | an instance: a start time 5 s after the clock reading shows "-1:-5", which does not parse |
| `Transcript.Append` | app.js:166-173 | the text after one successful transcription: the definition; its meaning is stated by `AppendShape`, `AppendAllPrefix` and `AppendAllJoin` |
| `Transcript.AppendShape` | app.js:166-173 | the old text is a prefix of the new; an empty text becomes the trimmed result; otherwise what is added is exactly a blank line and the trimmed result |
| `Transcript.AppendAllSnoc` | app.js:166-173 | one more successful transcription acts on the text left by all those before it |
| `Transcript.AppendAllPrefix` | app.js:166-173 | text already in the buffer is never lost or changed by later transcriptions |
| `Transcript.AppendAllJoin` | app.js:166-173 | starting from non-empty text, the buffer is that text and every trimmed result, in order, joined by blank lines |
| `Transcript.FromEmptyJoin` | app.js:166-173 | starting from an empty buffer whose first result is not blank, the buffer is all trimmed results joined by blank lines |
| `Transcript.LeadingBlank` | app.js:167-173 | counts the results at the front that trim to the empty string: all before the count do, and the one at the count does not |
| `Transcript.AppendAllFromEmpty` | app.js:166-173 | starting from an empty buffer, the buffer is the trimmed results joined by blank lines, without the blank ones that arrived while it was still empty |
| `Transcript.TrimAll` | app.js:167 | each transcription is trimmed, and their number and order are kept |
| `AudioChunks.Kept` | app.js:78 | the `size > 0` test of the `dataavailable` handler: the definition, used by `Collected` |
| `AudioChunks.Collected` | app.js:77-81 | the chunk list after a session's data events: the definition; its meaning is stated by `CollectedMembers`, `CollectedSnoc`, `CollectedConcat` and `CollectedBytes` |
| `AudioChunks.CollectedMembers` | app.js:77-81 | a chunk is in the list if and only if some data event carried it and its size is positive; the list is no longer than the events |
| `AudioChunks.CollectedConcat` | app.js:77-81 | collecting over two stretches of events is collecting each in turn and concatenating, so earlier chunks stay where they were |
| `AudioChunks.CollectedSnoc` | app.js:77-81 | a data event appends its chunk at the end when its size is positive and otherwise changes nothing |
| `AudioChunks.CollectedBytes` | app.js:78-79 | dropping the empty chunks never changes the bytes of the recording that the Blob is built from |
| `App.TranscriberApp.constructor` | app.js:21-31 | the page at load: no transcriber, no recorder, no chunks, no start time, empty text, record shown and disabled, copy and clear disabled, status "loading" |
| `App.TranscriberApp.InitializeModel` | app.js:29-62 | once the pipeline is created the transcriber is ready and record is enabled; if creation throws only the status changes |
| `App.TranscriberApp.StartRecording` | app.js:65-105 | with the microphone refused nothing changes; otherwise a recorder is recording, the chunk list is empty, stop replaces record and is enabled, the indicator shows, the start time is the first clock reading, the display is the time from it to the second reading ("0:00" when the second is less than a second after the first), and an interval still live becomes a stray timer |
| `App.TranscriberApp.Tick` | app.js:99 | a firing of any live interval, stray ones included, sets the display to the formatted time since the start; with no interval live nothing fires |
| `App.TranscriberApp.RecorderEnded` | app.js:83-86 | a recorder that ends by itself becomes inactive and nothing else changes: the interval, the indicator and the stop button stay as they were |
| `App.TranscriberApp.OnDataAvailable` | app.js:77-81 | a chunk is appended at the end exactly when its size is positive; earlier chunks are unchanged |
| `App.TranscriberApp.StopRecording` | app.js:116-128 | with no recorder or an inactive one nothing changes; otherwise the recorder becomes inactive, stop is disabled, the indicator and timer stop and the status says processing |
| `App.TranscriberApp.ProcessAudio` | app.js:131-196 | on success the text becomes `Append(old text, result)` and copy and clear are enabled; on failure (including no transcriber) the text and copy/clear are unchanged; either way record is shown and enabled and stop hidden |
| `App.TranscriberApp.CopyToClipboard` | app.js:199-217 | the clipboard receives exactly the current text when the write succeeds and an alert is the outcome otherwise; the method may change no field |
| `App.TranscriberApp.ClearTranscription` | app.js:220-226 | confirmed: the text is "" and copy and clear are disabled; declined: nothing changes |
| `App.TranscriberApp.CopyEnabledWithText` | app.js:175-176 | in every reachable state copy and clear are enabled whenever the text is non-empty |
| `App.TranscriberApp.TextIsJoined` | app.js:166-173 | in every reachable state the text is the transcriptions since the last clear, trimmed and joined by blank lines, without the blank ones that arrived while the text was empty |

## Left out

- Creating the recognition pipeline, its download progress and percentage
  (app.js:35-50). These are a foreign library and floating point. Only
  success or failure of loading is modelled.
- The recognizer call and its parameters (app.js:158-163). The recognizer
  is a foreign function. Its outcome is the `transcribe` parameter.
- Building the Blob, `arrayBuffer` and `decodeAudioData`
  (app.js:134-141). These are a browser decoder. Their failures are part
  of the same `transcribe` outcome.
- Averaging two channels into one (app.js:145-154). This is Float32
  arithmetic inside the decoding step.
- `getUserMedia`, the `MediaRecorder` object, the mime-type choice,
  `mediaRecorder.start()` and stopping the stream's tracks (app.js:67-74,
  84, 88). These are device APIs. Microphone access is the `micGranted`
  flag.
- StartRecording: a throw after `audioChunks` was reset but before the
  controls were updated is not modelled. The whole `try` block succeeds
  or fails as one step.
- The recorder's `paused` state. The page never pauses a recorder.
- `setInterval`, `clearInterval`, `setTimeout` and `Date.now`. These are
  timers and the clock. The interval named by `recordingInterval` is a
  flag, stray intervals are a count, each clock reading is a parameter, and
  each firing is a `Tick` call. When it fires is not modelled.
- `alert`, console logging, status icons, the copy button's temporary
  "Copied!" label (app.js:204-211) and other DOM text and style updates.
  These are user-interface side effects. Status messages are a `Status`
  value.
- Typing into the transcript box. index.html is not part of this model, so
  whether the box is editable is unknown. The model assumes only the
  handlers change the text.
- Async interleaving between `onstop` and `processAudio`. Each handler is
  one atomic step. `ProcessAudio` requires an inactive recorder, which is
  when `onstop` fires.
- `toString()` switches to exponent notation at 10^21. Minute counts never
  reach that, so the model always spells decimal digits.
- JavaScript strings are UTF-16 code units, while Dafny chars here are
  Unicode scalar values. Every character `trim()` removes is a single code
  unit, so this makes no difference.
