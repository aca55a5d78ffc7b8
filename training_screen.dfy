/** The training screen: the typed answer, the submit guard and the button
    it disables, the record button that drives the screen's own audio
    recorder, and the player and message shown under the answer. */
module TrainingScreen {
  import opened Types
  import opened JsString
  import opened UseAudioRecorder

  /** A call the record button makes on the recorder hook. */
  datatype RecorderCall = StopRecording | ResetRecording | StartRecording

  /** `!answerText.trim()`, the submit button's `disabled`: exactly when the
      text is whitespace only (or empty). */
  function SubmitDisabled(answerText: string): (disabled: bool)
    ensures disabled <==> IsBlank(answerText)
  {
    TrimEmptyIffBlank(answerText);
    Trim(answerText) == []
  }

  class TrainingScreen {
    const scenario: TrainingScenario
    const recorder: AudioRecorder
    var answerText: string

    ghost predicate Valid()
      reads this, recorder
    {
      recorder.Valid()
    }

    /** The screen as first shown for a scenario: no text and a fresh
        recorder with nothing recorded. */
    constructor (scenario: TrainingScenario)
      ensures Valid() && this.scenario == scenario && answerText == ""
      ensures fresh(recorder) && recorder.Cleared() && recorder.error == None
    {
      this.scenario := scenario;
      recorder := new AudioRecorder();
      answerText := "";
    }

    /** The text area's `onChange`. */
    method SetAnswerText(text: string)
      modifies this
      ensures answerText == text
    {
      answerText := text;
    }

    /** `handleSubmit`: the arguments of the `onSubmit` calls it makes. A
        blank answer makes none, exactly when the button is disabled; any
        other answer makes one call with the text as typed, not trimmed. */
    method HandleSubmit() returns (submitted: seq<string>)
      ensures submitted == [] <==> SubmitDisabled(answerText)
      ensures IsBlank(answerText) ==> submitted == []
      ensures !IsBlank(answerText) ==> submitted == [answerText]
    {
      if Trim(answerText) != [] {
        TrimEmptyIffBlank(answerText);
        submitted := [answerText];
      } else {
        TrimEmptyIffBlank(answerText);
        submitted := [];
      }
    }

    /** `toggleRecording`, with a device request that settles as `capture`.
        While recording it only stops the recorder. Otherwise it resets
        the recorder and then starts it, so a granted stream begins a fresh
        recording and a denial leaves a cleared recorder with the message. */
    method ToggleRecording(capture: Capture) returns (calls: seq<RecorderCall>)
      requires Valid()
      modifies recorder
      ensures Valid()
      ensures old(recorder.isRecording) ==>
        && calls == [StopRecording]
        && !recorder.isRecording && recorder.audioUrl == old(recorder.audioUrl)
        && recorder.error == old(recorder.error) && recorder.recorder == old(recorder.recorder)
        && recorder.chunks == old(recorder.chunks) && recorder.liveStreams == old(recorder.liveStreams)
      ensures !old(recorder.isRecording) ==> calls == [ResetRecording, StartRecording]
      ensures !old(recorder.isRecording) && capture.Denied? ==>
        && recorder.Cleared() && recorder.error == Some(MicrophoneDenied)
        && recorder.liveStreams == old(recorder.liveStreams)
      ensures !old(recorder.isRecording) && capture.Granted? ==>
        && recorder.isRecording && recorder.audioUrl == None && recorder.chunks == []
        && recorder.recorder == Some(Recorder(capture.stream)) && recorder.error == None
        && recorder.liveStreams == old(recorder.liveStreams) + {capture.stream}
    {
      if recorder.isRecording {
        var _ := recorder.Stop();
        calls := [StopRecording];
      } else {
        recorder.Reset();
        recorder.Start(capture);
        calls := [ResetRecording, StartRecording];
      }
    }

    /** `{audioURL && <audio …/>}`: the player and the URL it plays, shown
        exactly when the recorder has a URL; what it plays is WebM audio. */
    function AudioPlayer(): (src: Option<AudioUrl>)
      reads this, recorder
      ensures src.Some? <==> recorder.audioUrl.Some?
      ensures src.Some? ==> src.value == recorder.audioUrl.value
      ensures Valid() && src.Some? ==> src.value.blob.mimeType == RecordingMimeType
    {
      recorder.audioUrl
    }

    /** `{error && <p>…</p>}`: a message is shown only when it is a
        non-empty string; as the recorder only ever holds the denial
        message, the line shows exactly when there is an error. */
    function ErrorLine(): (line: Option<string>)
      reads this, recorder
      ensures line.Some? ==> line == recorder.error && line.value != ""
      ensures recorder.Valid() ==> (line.Some? <==> recorder.error.Some?)
    {
      if recorder.error.Some? && recorder.error.value != "" then recorder.error else None
    }
  }
}
