/**
  The page's mutable state and its event handlers: the model-loading step,
  the record and stop buttons, the recorder's `dataavailable` and `stop`
  events, the elapsed-time timer, and the copy and clear buttons.

  Everything the handlers get from the browser or from the speech
  recognizer is a parameter: whether the microphone was granted, the clock
  reading, the bytes of a chunk, the outcome of decoding and transcribing
  the recording, the answer to the confirmation dialog and whether the
  clipboard write succeeded. Each handler runs as one atomic step.
  The recorder can also end by itself (its tracks ended, or an error):
  that is `RecorderEnded`, after which the browser fires `stop` as well.
 */
module App {
  import opened Wrappers
  import opened RecordingTime
  import opened Transcript
  import opened AudioChunks

  /** `mediaRecorder`: none yet, or a recorder whose `state` is "recording" or "inactive". */
  datatype RecorderState = NoRecorder | Recording | Inactive

  /** The message in `statusText` (the icon beside it follows the message). */
  datatype Status =
    | LoadingModel        // "Loading Whisper Small model..."
    | ModelReady          // "Model loaded! Ready to record."
    | ModelFailed         // "Error: ..." from loading
    | ProcessingAudio     // "Processing audio..."
    | TranscriptionDone   // "Transcription complete! Ready to record again."
    | ProcessingFailed    // "Error: ..." from decoding or transcribing

  /** The page's controls: which are displayed and which are disabled. */
  datatype Controls = Controls(
    recordShown: bool,      // recordBtn is displayed
    recordDisabled: bool,   // recordBtn.disabled
    stopShown: bool,        // stopBtn is displayed
    stopDisabled: bool,     // stopBtn.disabled
    indicatorShown: bool,   // recordingIndicator is displayed
    copyDisabled: bool,     // copyBtn.disabled
    clearDisabled: bool)    // clearBtn.disabled

  /** What `copyToClipboard` achieves: the clipboard now holds `content`, or an alert is shown. */
  datatype CopyOutcome = Copied(content: string) | CopyFailed

  class TranscriberApp {
    var transcriberReady: bool      // transcriber != null
    var recorder: RecorderState     // mediaRecorder
    var chunks: seq<Chunk>          // audioChunks
    var startTime: Option<int>      // recordingStartTime, in milliseconds
    var timerRunning: bool          // recordingInterval names an interval not yet cleared
    var strayTimers: nat            // earlier intervals whose handle was overwritten; they keep firing
    var timeDisplay: string         // recordingTime's text
    var text: string                // transcriptionText's value
    var status: Status              // statusText's message
    var ui: Controls                // the buttons and the recording indicator

    /** Every `dataavailable` payload of the current session, empty ones included. */
    ghost var sessionEvents: seq<Chunk>
    /** Every transcription appended since the page loaded or was last cleared. */
    ghost var transcriptions: seq<string>

    /** What holds in every state the handlers can reach. */
    ghost predicate Valid()
      reads this
    {
      // the chunk list is exactly the non-empty payloads of the session, in order
      && chunks == Collected(sessionEvents)
      // the text is exactly the transcriptions appended since the last clear
      && text == AppendAll("", transcriptions)
      // copy and clear are enabled together, and whenever there is text
      && ui.copyDisabled == ui.clearDisabled
      && (ui.copyDisabled ==> text == "")
      // exactly one of record and stop is displayed
      && ui.recordShown == !ui.stopShown
      // while recording the timer runs and stop is usable; the indicator
      // shows exactly while the interval `recordingInterval` names is live
      && (recorder.Recording? ==> timerRunning)
      && (timerRunning <==> ui.indicatorShown)
      && (recorder.Recording? ==> ui.stopShown && !ui.stopDisabled)
      // any interval that fires has a start time to count from
      && (timerRunning || strayTimers > 0 ==> startTime.Some?)
    }

    /**
      The page as loaded, with `initializeModel` begun: record shown but
      disabled, stop hidden, copy and clear disabled, empty text.
     */
    constructor ()
      ensures Valid()
      ensures !transcriberReady && recorder == NoRecorder && chunks == [] && startTime == None
      ensures !timerRunning && strayTimers == 0
      ensures timeDisplay == "0:00" && text == "" && status == LoadingModel
      ensures ui == Controls(recordShown := true, recordDisabled := true,
                             stopShown := false, stopDisabled := false, indicatorShown := false,
                             copyDisabled := true, clearDisabled := true)
    {
      transcriberReady, recorder, chunks, startTime := false, NoRecorder, [], None;
      timerRunning, strayTimers := false, 0;
      timeDisplay, text, status := "0:00", "", LoadingModel;
      ui := Controls(recordShown := true, recordDisabled := true,
                     stopShown := false, stopDisabled := false, indicatorShown := false,
                     copyDisabled := true, clearDisabled := true);
      sessionEvents, transcriptions := [], [];
    }

    /** The end of `initializeModel`: the pipeline was created (`loaded`) or threw. */
    method InitializeModel(loaded: bool)
      requires Valid()
      modifies this`transcriberReady, this`ui, this`status
      ensures Valid()
      ensures loaded ==> transcriberReady && ui == old(ui).(recordDisabled := false)
                         && status == ModelReady
      ensures !loaded ==> transcriberReady == old(transcriberReady) && ui == old(ui)
                          && status == ModelFailed
    {
      if loaded {
        transcriberReady := true;
        status := ModelReady;
        ui := ui.(recordDisabled := false);
      } else {
        status := ModelFailed;
      }
    }

    /**
      `startRecording`. The clock is read twice: `now` becomes the start
      time, and `now'` is the reading the immediate `updateRecordingTime`
      call takes. When the microphone is refused, an alert is shown and
      nothing changes. Otherwise a new recorder is recording, the chunk
      list is empty, stop replaces record, and a new interval runs from
      `now`; an interval still live from before is not cleared, only its
      handle is overwritten, so it becomes a stray timer.
     */
    method StartRecording(micGranted: bool, now: int, now': int)
      requires Valid()
      modifies this`recorder, this`chunks, this`sessionEvents, this`ui, this`startTime,
               this`timerRunning, this`strayTimers, this`timeDisplay
      ensures Valid()
      ensures !micGranted ==> unchanged(this)
      ensures micGranted ==> recorder == Recording && chunks == [] && sessionEvents == []
      ensures micGranted ==> ui == old(ui).(recordShown := false, stopShown := true,
                                             stopDisabled := false, indicatorShown := true)
      ensures micGranted ==> startTime == Some(now) && timerRunning
                             && strayTimers == old(strayTimers) + (if old(timerRunning) then 1 else 0)
      ensures micGranted ==> timeDisplay == Display(now', now)
      ensures micGranted && now <= now' < now + 1000 ==> timeDisplay == "0:00"
    {
      if micGranted {
        recorder := Recording;
        chunks, sessionEvents := [], [];
        ui := ui.(recordShown := false, stopShown := true, stopDisabled := false,
                  indicatorShown := true);
        startTime := Some(now);
        if timerRunning {
          strayTimers := strayTimers + 1;
        }
        timerRunning := true;
        Tick(now');
        if now <= now' < now + 1000 {
          DisplayAtStart(now, now');
        }
      }
    }

    /**
      `updateRecordingTime` at clock reading `now`, fired by a live interval
      (a stray one included). With no interval live nothing fires.
     */
    method Tick(now: int)
      requires Valid()
      modifies this`timeDisplay
      ensures Valid()
      ensures old(timerRunning) || old(strayTimers) > 0 ==> timeDisplay == Display(now, startTime.value)
      ensures !old(timerRunning) && old(strayTimers) == 0 ==> timeDisplay == old(timeDisplay)
    {
      if timerRunning || strayTimers > 0 {
        timeDisplay := Display(now, startTime.value);
      }
    }

    /** `ondataavailable`: the chunk goes at the end of the list only when its size is positive. */
    method OnDataAvailable(data: Chunk)
      requires Valid()
      modifies this`chunks, this`sessionEvents
      ensures Valid()
      ensures chunks == old(chunks) + (if |data| > 0 then [data] else [])
      ensures sessionEvents == old(sessionEvents) + [data]
    {
      CollectedSnoc(sessionEvents, data);
      if |data| > 0 {
        chunks := chunks + [data];
      }
      sessionEvents := sessionEvents + [data];
    }

    /**
      `stopRecording`: does nothing unless a recorder exists and is not
      inactive; then the recorder stops, stop is disabled, the indicator and
      timer stop, and the status says the audio is being processed.
     */
    method StopRecording()
      requires Valid()
      modifies this`recorder, this`ui, this`timerRunning, this`status
      ensures Valid()
      ensures !old(recorder).Recording? ==> unchanged(this)
      ensures old(recorder).Recording? ==>
                recorder == Inactive && !timerRunning && status == ProcessingAudio
                && ui == old(ui).(stopDisabled := true, indicatorShown := false)
    {
      if recorder.Recording? {
        recorder := Inactive;
        ui := ui.(stopDisabled := true, indicatorShown := false);
        timerRunning := false;
        status := ProcessingAudio;
      }
    }

    /**
      The recorder ends by itself while recording (its tracks ended, say):
      it becomes inactive and the browser then fires `stop`, but nothing
      of `stopRecording` runs, so the interval stays live, the indicator
      stays on and stop stays enabled until `processAudio` hides it.
     */
    method RecorderEnded()
      requires Valid()
      requires recorder.Recording?
      modifies this`recorder
      ensures Valid()
      ensures recorder == Inactive
    {
      recorder := Inactive;
    }

    /**
      `processAudio`, run by the recorder's `onstop`. `transcribe` stands
      for everything between the chunk list and the recognized text:
      building the Blob, decoding, down-mixing and the recognizer; None
      means one of them threw. With no transcriber loaded the call throws
      as well. On success the trimmed text is appended and copy and clear
      are enabled; on failure the text is unchanged. Either way record is
      shown and enabled again and stop is hidden.
     */
    method ProcessAudio(transcribe: seq<Chunk> -> Option<string>)
      requires Valid()
      requires recorder.Inactive?  // onstop fires once the recorder has stopped
      modifies this`text, this`transcriptions, this`ui, this`status
      ensures Valid()
      ensures ui.recordShown && !ui.recordDisabled && !ui.stopShown
      ensures var outcome := if transcriberReady then transcribe(chunks) else None;
              if outcome.Some? then
                text == Append(old(text), outcome.value)
                && transcriptions == old(transcriptions) + [outcome.value]
                && status == TranscriptionDone
                && ui == old(ui).(recordShown := true, recordDisabled := false, stopShown := false,
                                  copyDisabled := false, clearDisabled := false)
              else
                text == old(text) && transcriptions == old(transcriptions)
                && status == ProcessingFailed
                && ui == old(ui).(recordShown := true, recordDisabled := false, stopShown := false)
    {
      var outcome := if transcriberReady then transcribe(chunks) else None;
      if outcome.Some? {
        AppendAllSnoc("", transcriptions, outcome.value);
        text := Append(text, outcome.value);
        transcriptions := transcriptions + [outcome.value];
        ui := ui.(copyDisabled := false, clearDisabled := false);
        status := TranscriptionDone;
      } else {
        status := ProcessingFailed;
      }
      ui := ui.(recordShown := true, stopShown := false, recordDisabled := false);
    }

    /**
      `copyToClipboard`: hands the whole text to the clipboard; reports
      whether the write succeeded. It changes none of the page's state.
     */
    method CopyToClipboard(writeOk: bool) returns (r: CopyOutcome)
      ensures writeOk ==> r == Copied(text)
      ensures !writeOk ==> r == CopyFailed
    {
      if writeOk {
        r := Copied(text);
      } else {
        r := CopyFailed;
      }
    }

    /** `clearTranscription`: with the dialog confirmed the text is emptied and copy and clear disabled. */
    method ClearTranscription(confirmed: bool)
      requires Valid()
      modifies this`text, this`transcriptions, this`ui
      ensures Valid()
      ensures confirmed ==> text == "" && transcriptions == []
                            && ui == old(ui).(copyDisabled := true, clearDisabled := true)
      ensures !confirmed ==> unchanged(this)
    {
      if confirmed {
        text, transcriptions := "", [];
        ui := ui.(copyDisabled := true, clearDisabled := true);
      }
    }

    /** In every reachable state copy is usable whenever there is text to copy. */
    lemma CopyEnabledWithText()
      requires Valid()
      ensures text != "" ==> !ui.copyDisabled && !ui.clearDisabled
    {
    }

    /**
      In every reachable state the text is the transcriptions since the last
      clear, trimmed and joined by blank lines, except for blank ones that
      arrived while the text was still empty.
     */
    lemma TextIsJoined()
      requires Valid()
      ensures text == Join(TrimAll(transcriptions)[LeadingBlank(transcriptions)..])
    {
      AppendAllFromEmpty(transcriptions);
    }
  }
}
