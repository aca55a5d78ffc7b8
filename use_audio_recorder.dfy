/** The `useAudioRecorder` hook: the recording flag, the playable URL, the
    error message, the recorder reference and the chunk buffer it keeps
    between renders, and the three controls it returns. The browser's
    capture device, `MediaRecorder`, `Blob` and object URLs are opaque
    values here: a device request either grants a stream or is denied, a
    recorder is known by the stream it records, and a URL stands for the
    blob it was made from. */
module UseAudioRecorder {
  import opened Types

  /** A microphone stream handed out by the browser. */
  datatype Stream = Stream(id: nat)

  /** One piece of recorded audio delivered by a `dataavailable` event. */
  datatype Chunk = Chunk(id: nat)

  /** A `MediaRecorder` over a stream. */
  datatype Recorder = Recorder(stream: Stream)

  /** A `Blob`: its parts in order and its MIME type. */
  datatype Blob = Blob(parts: seq<Chunk>, mimeType: string)

  /** An object URL made from a blob. */
  datatype AudioUrl = ObjectUrl(blob: Blob)

  /** How a request for the microphone settles. */
  datatype Capture = Denied | Granted(stream: Stream)

  const MicrophoneDenied: string := "Microphone access was denied. Please enable it in your browser settings."
  const RecordingMimeType: string := "audio/webm"

  class AudioRecorder {
    var isRecording: bool
    var audioUrl: Option<AudioUrl>
    var error: Option<string>
    /** `mediaRecorderRef.current`. */
    var recorder: Option<Recorder>
    /** `audioChunksRef.current`. */
    var chunks: seq<Chunk>
    /** The streams whose tracks have not been stopped: the microphone is
        in use while this is non-empty. */
    var liveStreams: set<Stream>

    /** Recording always has a recorder behind it, a URL always plays WebM
        audio, and the only message the hook ever shows is the denial
        message. */
    ghost predicate Valid()
      reads this
    {
      && (isRecording ==> recorder.Some?)
      && (audioUrl.Some? ==> audioUrl.value.blob.mimeType == RecordingMimeType)
      && (error == None || error == Some(MicrophoneDenied))
    }

    /** Nothing recorded and nothing to play. */
    predicate Cleared()
      reads this
    {
      !isRecording && audioUrl == None && recorder == None && chunks == []
    }

    /** The hook's initial state. */
    constructor ()
      ensures Valid() && Cleared() && error == None && liveStreams == {}
    {
      isRecording := false;
      audioUrl := None;
      error := None;
      recorder := None;
      chunks := [];
      liveStreams := {};
    }

    /** `startRecording`, with the device request settled as `capture`. The
        error is cleared first; while recording nothing else happens and no
        device is requested. A granted stream starts a new recording with an
        empty buffer and no URL; a denial leaves only the message. */
    method Start(capture: Capture)
      requires Valid()
      modifies this
      ensures Valid()
      ensures old(isRecording) ==>
        && error == None
        && isRecording && audioUrl == old(audioUrl) && recorder == old(recorder)
        && chunks == old(chunks) && liveStreams == old(liveStreams)
      ensures !old(isRecording) && capture.Denied? ==>
        && error == Some(MicrophoneDenied) && !isRecording
        && audioUrl == old(audioUrl) && recorder == old(recorder)
        && chunks == old(chunks) && liveStreams == old(liveStreams)
      ensures !old(isRecording) && capture.Granted? ==>
        && error == None && isRecording && audioUrl == None && chunks == []
        && recorder == Some(Recorder(capture.stream))
        && liveStreams == old(liveStreams) + {capture.stream}
    {
      error := None;
      if isRecording {
        return;
      }
      match capture
      case Denied =>
        error := Some(MicrophoneDenied);
        isRecording := false;
      case Granted(stream) =>
        liveStreams := liveStreams + {stream};
        isRecording := true;
        audioUrl := None;
        chunks := [];
        recorder := Some(Recorder(stream));
    }

    /** `stopRecording`: without a recording or a recorder nothing happens;
        otherwise the recorder is asked to stop (returned as `stopped`, whose
        `stop` event comes later) and the flag drops. */
    method Stop() returns (stopped: Option<Recorder>)
      requires Valid()
      modifies this
      ensures Valid()
      ensures !old(isRecording) || old(recorder).None? ==> stopped == None && unchanged(this)
      ensures old(isRecording) && old(recorder).Some? ==>
        && stopped == old(recorder) && !isRecording
        && audioUrl == old(audioUrl) && error == old(error) && recorder == old(recorder)
        && chunks == old(chunks) && liveStreams == old(liveStreams)
    {
      if !isRecording || recorder.None? {
        return None;
      }
      stopped := recorder;
      isRecording := false;
    }

    /** `resetRecording`: everything recorded is dropped. The message stays,
        and no stream is released: the microphone stays in use if it was.
        A second reset changes nothing. */
    method Reset()
      requires Valid()
      modifies this
      ensures Valid() && Cleared()
      ensures error == old(error) && liveStreams == old(liveStreams)
      ensures old(Cleared()) ==> unchanged(this)
    {
      isRecording := false;
      audioUrl := None;
      recorder := None;
      chunks := [];
    }

    /** The `dataavailable` listener: the chunk goes to the end of the
        buffer, after the earlier ones. */
    method OnDataAvailable(chunk: Chunk)
      requires Valid()
      modifies this
      ensures Valid()
      ensures chunks == old(chunks) + [chunk]
      ensures isRecording == old(isRecording) && audioUrl == old(audioUrl) && error == old(error)
      ensures recorder == old(recorder) && liveStreams == old(liveStreams)
    {
      chunks := chunks + [chunk];
    }

    /** The `stop` listener of the recorder over `stream`: the URL is made
        from the whole buffer, in order, as WebM audio, and that stream's
        tracks are stopped. */
    method OnStop(stream: Stream)
      requires Valid()
      modifies this
      ensures Valid()
      ensures audioUrl == Some(ObjectUrl(Blob(old(chunks), RecordingMimeType)))
      ensures liveStreams == old(liveStreams) - {stream}
      ensures isRecording == old(isRecording) && error == old(error)
      ensures recorder == old(recorder) && chunks == old(chunks)
    {
      audioUrl := Some(ObjectUrl(Blob(chunks, RecordingMimeType)));
      liveStreams := liveStreams - {stream};
    }
  }
}
