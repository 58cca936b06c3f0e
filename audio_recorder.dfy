/** The recorder component: the session controller that starts and stops either a
    streaming session (microphone, socket to the speech service, a recorder whose
    chunks go to the socket, messages merged into the transcript) or a buffered one
    (through the recorder hook, then one batch transcription). Platform outcomes are
    parameters; what the component does to the outside world is kept in logs. */
module AudioRecorderComponent {
  import opened Media
  import Transcript
  import opened RecorderHook

  const MissingKeyError :=
    "Deepgram API key is not configured. Please add VITE_DEEPGRAM_API_KEY to your environment variables."
  const StopFailedPrefix := "Failed to stop recording: "

  /** `!apiKey` is false: an absent key and the empty string are both falsy. */
  function Configured(apiKey: Option<string>): (r: bool)
    ensures r <==> apiKey != None && apiKey != Some("")
  {
    match apiKey
    case None => false
    case Some(key) => |key| > 0
  }

  /** The message a streaming start fails with, if it fails: that of the microphone,
      then of the socket connection, then of the recorder constructor. */
  function StreamingStartError(mic: Result<MediaStream>, connect: Result<nat>, recorderError: Option<string>): (r: Option<string>)
    ensures r.None? <==> mic.Ok? && connect.Ok? && recorderError.None?
    ensures mic.Err? ==> r == Some(mic.error)
    ensures mic.Ok? && connect.Err? ==> r == Some(connect.error)
    ensures mic.Ok? && connect.Ok? ==> r == recorderError
  {
    if mic.Err? then Some(mic.error)
    else if connect.Err? then Some(connect.error)
    else recorderError
  }

  function Messages(e: Option<string>): seq<string>
  {
    if e.Some? then [e.value] else []
  }

  /** The blob a buffered stop produces: the buffered chunks, then the final flush if it is non-empty. */
  function StoppedBlob(buffered: seq<Chunk>, flush: Chunk): Blob
  {
    Blob(Concat(buffered + (if flush.Size() > 0 then [flush] else [])), BlobType)
  }

  class AudioRecorder {
    const apiKey: Option<string>
    const hook: UseAudioRecorder

    // React state
    var transcript: string
    var streamingText: string
    var isTranscribing: bool
    var isStreaming: bool
    var useStreaming: bool

    // refs of the streaming session, and whether `onmessage`/`ondataavailable` are
    // installed on the socket and recorder they hold
    var socket: Option<Socket>
    var recorder: Option<RecorderState>
    var audioStream: Option<MediaStream>
    var wired: bool

    // what the component has done to the outside world
    var errors: seq<string>              // `onError` arguments
    var delivered: seq<string>           // `onTranscription` arguments
    var sent: seq<Chunk>                 // `socket.send` arguments
    var stoppedStreams: seq<MediaStream> // streams whose tracks were stopped
    var transcribeCalls: seq<Blob>       // `transcribeAudio` arguments

    ghost predicate Valid()
      reads this, hook
    {
      && hook.Valid()
      // the microphone of a streaming session is held exactly while it reports streaming
      && (isStreaming <==> audioStream.Some?)
      && (wired ==> socket.Some? && recorder.Some?)
      // a transcription in flight is finished before control returns
      && !isTranscribing
    }

    function View(): Transcript.View
      reads this`transcript, this`streamingText
    {
      Transcript.View(transcript, streamingText)
    }

    /** Messages reach the handler and chunks reach the socket only while this holds. */
    predicate Listening()
      reads this`wired, this`socket
    {
      wired && socket.Some? && socket.value.state == Open
    }

    twostate predicate StreamingUnchanged()
      reads this`socket, this`recorder, this`audioStream, this`wired, this`isStreaming, this`sent, this`stoppedStreams
    {
      && socket == old(socket) && recorder == old(recorder) && audioStream == old(audioStream)
      && wired == old(wired) && isStreaming == old(isStreaming)
      && sent == old(sent) && stoppedStreams == old(stoppedStreams)
    }

    constructor (apiKey: Option<string>)
      ensures Valid() && fresh(hook)
      ensures this.apiKey == apiKey && useStreaming
      ensures transcript == "" && streamingText == "" && !isStreaming
      ensures socket == None && recorder == None && audioStream == None && !wired
      ensures errors == [] && delivered == [] && sent == [] && stoppedStreams == [] && transcribeCalls == []
      ensures !hook.isRecording && hook.recorder == None && hook.chunks == []
      ensures hook.audioBlob == None && hook.audioUrl == "" && hook.stream == None && !hook.pendingStop
      ensures hook.resolved == [] && hook.stoppedStreams == [] && hook.revokedUrls == []
    {
      this.apiKey := apiKey;
      hook := new UseAudioRecorder();
      transcript, streamingText := "", "";
      isTranscribing, isStreaming, useStreaming := false, false, true;
      socket, recorder, audioStream, wired := None, None, None, false;
      errors, delivered, sent, stoppedStreams, transcribeCalls := [], [], [], [], [];
    }

    /** The mode checkbox, which is disabled while either kind of session runs. */
    method SetUseStreaming(on: bool)
      requires Valid()
      modifies this`useStreaming
      ensures Valid()
      ensures useStreaming == if hook.isRecording || isStreaming then old(useStreaming) else on
    {
      if !hook.isRecording && !isStreaming {
        useStreaming := on;
      }
    }

    /** `handleStartRecording`. Without a key: the key error is reported and nothing else
        happens, so no microphone is requested and no mode runs. With one: see
        `StartSession`. The mode is left as it was. */
    method HandleStartRecording(mic: Result<MediaStream>, connect: Result<nat>, recorderError: Option<string>)
      requires Valid()
      modifies this, hook
      ensures Valid()
      ensures useStreaming == old(useStreaming)
      ensures !Configured(apiKey) ==>
        && errors == old(errors) + [MissingKeyError]
        && unchanged(hook) && View() == old(View()) && StreamingUnchanged()
        && delivered == old(delivered) && transcribeCalls == old(transcribeCalls)
      ensures Configured(apiKey) ==> SessionStarted(mic, connect, recorderError)
    {
      if !Configured(apiKey) {
        errors := errors + [MissingKeyError];
        return;
      }
      StartSession(mic, connect, recorderError);
    }

    /** What a start with a key leaves: the error cleared, both texts emptied, and exactly
        one of the two starts run, chosen by the mode in force, with its failure reported. */
    twostate predicate SessionStarted(mic: Result<MediaStream>, connect: Result<nat>, recorderError: Option<string>)
      reads this, hook
    {
      && transcript == "" && streamingText == ""
      && delivered == old(delivered) && transcribeCalls == old(transcribeCalls)
      && useStreaming == old(useStreaming)
      && (old(useStreaming) ==>
            && errors == old(errors) + [""] + Messages(StreamingStartError(mic, connect, recorderError))
            && unchanged(hook)
            && StreamingStarted(mic, connect, recorderError))
      && (!old(useStreaming) ==>
            && errors == old(errors) + [""] + (if mic.Err? || recorderError.Some? then [MicrophoneError] else [])
            && StreamingUnchanged()
            && (mic.Err? || recorderError.Some? ==> unchanged(hook))
            && (mic.Ok? && recorderError.None? ==>
                  && hook.isRecording && hook.chunks == [] && !hook.pendingStop && hook.stream == Some(mic.value)
                  && hook.audioBlob == old(hook.audioBlob) && hook.audioUrl == old(hook.audioUrl)
                  && hook.resolved == old(hook.resolved) && hook.stoppedStreams == old(hook.stoppedStreams)
                  && hook.revokedUrls == old(hook.revokedUrls)))
    }

    /** The `try` block of `handleStartRecording`: the error is cleared, both texts are
        emptied, and the streaming or the buffered start runs; what it throws is reported. */
    method StartSession(mic: Result<MediaStream>, connect: Result<nat>, recorderError: Option<string>)
      requires Valid()
      modifies this, hook
      ensures Valid()
      ensures SessionStarted(mic, connect, recorderError)
    {
      // `onError('')` and the clearing of both texts come first in the source; neither
      // start reads or writes them, so they are applied together with the outcome here,
      // with `''` still logged before any failure message
      if useStreaming {
        var failure := StartStreamingTranscription(mic, connect, recorderError);
        errors := errors + [""] + Messages(failure);
      } else {
        var started := hook.StartRecording(mic, recorderError);
        errors := errors + [""] + (if started.Err? then [started.error] else []);
      }
      transcript := "";
      streamingText := "";
    }

    /** What a streaming start leaves behind. The microphone is held and the session
        reports streaming as soon as it is acquired, whether or not the socket or the
        recorder then fails; the new socket is kept once open; the handlers are
        installed and the recorder runs only when everything succeeded. */
    twostate predicate StreamingStarted(mic: Result<MediaStream>, connect: Result<nat>, recorderError: Option<string>)
      reads this`sent, this`stoppedStreams, this`socket, this`recorder, this`audioStream, this`wired, this`isStreaming
    {
      && sent == old(sent) && stoppedStreams == old(stoppedStreams)
      && (mic.Err? ==>
            socket == old(socket) && recorder == old(recorder) && audioStream == old(audioStream)
            && wired == old(wired) && isStreaming == old(isStreaming))
      && (mic.Ok? ==> audioStream == Some(mic.value) && isStreaming)
      && (mic.Ok? && connect.Err? ==>
            socket == old(socket) && recorder == old(recorder) && wired == old(wired))
      && (mic.Ok? && connect.Ok? ==> socket == Some(Socket(connect.value, Open)))
      && (mic.Ok? && connect.Ok? && recorderError.Some? ==> recorder == old(recorder) && !wired)
      && (mic.Ok? && connect.Ok? && recorderError.None? ==> recorder == Some(Recording) && wired)
    }

    /** `startStreamingTranscription`; returns the message it throws, if any. */
    method StartStreamingTranscription(mic: Result<MediaStream>, connect: Result<nat>, recorderError: Option<string>)
      returns (failure: Option<string>)
      requires Valid()
      modifies this
      ensures Valid()
      ensures failure == StreamingStartError(mic, connect, recorderError)
      ensures StreamingStarted(mic, connect, recorderError)
      ensures View() == old(View()) && errors == old(errors)
      ensures delivered == old(delivered) && transcribeCalls == old(transcribeCalls)
      ensures useStreaming == old(useStreaming)
    {
      if mic.Err? {
        return Some(mic.error);
      }
      audioStream := Some(mic.value);
      isStreaming := true;
      if connect.Err? {
        return Some(connect.error);
      }
      socket := Some(Socket(connect.value, Open));
      wired := false;
      if recorderError.Some? {
        return recorderError;
      }
      recorder := Some(Recording);
      wired := true;
      failure := None;
    }

    /** `socket.onmessage`: while listening, the message is merged into the texts and a
        final fragment is passed to `onTranscription`; otherwise nothing happens. */
    method OnMessage(m: Transcript.Message)
      requires Valid()
      modifies this`transcript, this`streamingText, this`delivered
      ensures Valid()
      ensures old(Listening()) ==>
        && View() == Transcript.Merge(old(View()), m).view
        && delivered == old(delivered) + Transcript.OptionToSeq(Transcript.Merge(old(View()), m).emitted)
      ensures !old(Listening()) ==> View() == old(View()) && delivered == old(delivered)
    {
      if Listening() {
        var step := Transcript.Merge(View(), m);
        transcript, streamingText := step.view.transcript, step.view.streamingText;
        delivered := delivered + Transcript.OptionToSeq(step.emitted);
      }
    }

    /** The streaming recorder's `ondataavailable`: a chunk is sent only when it is
        non-empty and the socket is open. */
    method OnChunk(chunk: Chunk)
      requires Valid()
      modifies this`sent
      ensures Valid()
      ensures sent == if Listening() && chunk.Size() > 0 then old(sent) + [chunk] else old(sent)
    {
      if Listening() && chunk.Size() > 0 {
        sent := sent + [chunk];
      }
    }

    /** The connection finished closing, or the service dropped it. */
    method OnSocketClosed()
      requires Valid()
      modifies this`socket
      ensures Valid()
      ensures socket == if old(socket).Some? then Some(Socket(old(socket).value.id, Closed)) else None
      ensures !Listening()
    {
      if socket.Some? {
        socket := Some(Socket(socket.value.id, Closed));
      }
    }

    /** `handleStopRecording`: the mode in force at the call decides. Streaming: the
        session is torn down. Buffered: see `StopBufferedRecording`. */
    method HandleStopRecording(flush: Chunk, url: string, transcription: Result<string>)
      requires Valid()
      modifies this, hook
      ensures Valid()
      ensures useStreaming == old(useStreaming)
      ensures old(useStreaming) ==> unchanged(hook) && errors == old(errors) && transcribeCalls == old(transcribeCalls)
      ensures old(useStreaming) ==> StreamingStopped()
      ensures !old(useStreaming) ==> BufferedStopped(flush, url, transcription)
    {
      if useStreaming {
        StopStreamingTranscription();
      } else {
        StopBufferedRecording(flush, url, transcription);
      }
    }

    /** What a buffered stop leaves. A rejected stop is reported with its prefix and
        changes nothing else. An accepted one: the blob of the buffered and flushed chunks
        is kept with the new object URL, the stop promise resolved with it once, the
        hook's microphone stopped and forgotten, and the blob transcribed exactly once. */
    twostate predicate BufferedStopped(flush: Chunk, url: string, transcription: Result<string>)
      reads this, hook
    {
      && (old(hook.recorder) != Some(Recording) ==>
            && errors == old(errors) + [StopFailedPrefix + NoActiveRecording]
            && unchanged(hook) && View() == old(View()) && StreamingUnchanged()
            && delivered == old(delivered) && transcribeCalls == old(transcribeCalls))
      && (old(hook.recorder) == Some(Recording) ==>
            var blob := StoppedBlob(old(hook.chunks), flush);
            && transcribeCalls == old(transcribeCalls) + [blob]
            && hook.resolved == old(hook.resolved) + [blob] && hook.audioBlob == Some(blob)
            && hook.audioUrl == url
            && !hook.isRecording && hook.recorder == Some(Inactive) && hook.stream == None && !hook.pendingStop
            && hook.chunks == old(hook.chunks) + (if flush.Size() > 0 then [flush] else [])
            && hook.revokedUrls == old(hook.revokedUrls)
            && hook.stoppedStreams == old(hook.stoppedStreams) + (if old(hook.stream).Some? then [old(hook.stream).value] else [])
            && StreamingUnchanged() && streamingText == old(streamingText)
            && Transcribed(transcription))
    }

    /** The buffered half of `handleStopRecording`: the hook is stopped (a rejection is
        reported with a prefix), the recorder flushes its last chunk, the stop event
        yields the blob, and that blob is transcribed. */
    method StopBufferedRecording(flush: Chunk, url: string, transcription: Result<string>)
      requires Valid()
      modifies this, hook
      ensures Valid()
      ensures useStreaming == old(useStreaming)
      ensures BufferedStopped(flush, url, transcription)
    {
      var status := hook.StopRecording();
      if status.Failed? {
        errors := errors + [StopFailedPrefix + status.error];
        return;
      }
      assert hook.stream == old(hook.stream) && hook.stoppedStreams == old(hook.stoppedStreams);
      hook.DataAvailable(flush);
      assert hook.chunks == old(hook.chunks) + (if flush.Size() > 0 then [flush] else []);
      var blob := hook.OnStop(url);
      assert blob == Some(StoppedBlob(old(hook.chunks), flush));
      if blob.Some? {
        HandleTranscribe(blob, transcription);
      }
    }

    /** After a batch transcription: a result replaces the transcript (it is not appended)
        and goes to `onTranscription`; a failure is reported and leaves the transcript. */
    twostate predicate Transcribed(transcription: Result<string>)
      reads this
    {
      && (transcription.Ok? ==>
            transcript == transcription.value && delivered == old(delivered) + [transcription.value]
            && errors == old(errors))
      && (transcription.Err? ==>
            transcript == old(transcript) && delivered == old(delivered)
            && errors == old(errors) + [transcription.error])
    }

    /** What stopping a streaming session leaves: recorder stopped, socket closing, the
        microphone released and forgotten, not streaming and not listening; the texts,
        and the recorder hook, untouched. */
    twostate predicate StreamingStopped()
      reads this
    {
      && recorder == (if old(recorder).Some? then Some(Inactive) else None)
      && socket == (if old(socket).Some? then Some(Close(old(socket).value)) else None)
      && audioStream == None && !isStreaming && !Listening()
      && stoppedStreams == old(stoppedStreams) + (if old(audioStream).Some? then [old(audioStream).value] else [])
      && View() == old(View()) && sent == old(sent) && delivered == old(delivered)
    }

    /** `stopStreamingTranscription`. */
    method StopStreamingTranscription()
      requires Valid()
      modifies this
      ensures Valid()
      ensures StreamingStopped()
      ensures errors == old(errors) && transcribeCalls == old(transcribeCalls)
      ensures useStreaming == old(useStreaming)
    {
      if recorder.Some? {
        recorder := Some(Inactive);
      }
      if socket.Some? {
        socket := Some(Close(socket.value));
      }
      if audioStream.Some? {
        stoppedStreams := stoppedStreams + [audioStream.value];
        audioStream := None;
      }
      isStreaming := false;
    }

    /** `handleTranscribe(blob)`: the blob given, else the hook's blob; with neither,
        nothing happens; otherwise one transcription call, whose outcome is applied,
        and `isTranscribing` is false again whether it succeeded or failed. */
    method HandleTranscribe(blob: Option<Blob>, transcription: Result<string>)
      requires Valid()
      modifies this
      ensures Valid()
      ensures blob.None? && hook.audioBlob.None? ==>
        View() == old(View()) && errors == old(errors) && delivered == old(delivered)
        && transcribeCalls == old(transcribeCalls)
      ensures blob.Some? || hook.audioBlob.Some? ==>
        && transcribeCalls == old(transcribeCalls) + [if blob.Some? then blob.value else hook.audioBlob.value]
        && Transcribed(transcription)
      ensures streamingText == old(streamingText) && StreamingUnchanged()
      ensures useStreaming == old(useStreaming)
    {
      var chosen := if blob.Some? then blob else hook.audioBlob;
      if chosen.None? {
        return;
      }
      isTranscribing := true;
      transcribeCalls := transcribeCalls + [chosen.value];
      match transcription {
        case Ok(text) =>
          transcript := text;
          delivered := delivered + [text];
        case Err(message) =>
          errors := errors + [message];
      }
      isTranscribing := false;
    }

    /** `handleClearText`: both texts emptied and the hook's recording cleared. */
    method HandleClearText()
      requires Valid()
      modifies this`transcript, this`streamingText, hook`audioBlob, hook`audioUrl, hook`revokedUrls
      ensures Valid()
      ensures transcript == "" && streamingText == ""
      ensures hook.audioBlob == None && hook.audioUrl == ""
      ensures hook.revokedUrls == old(hook.revokedUrls) + (if old(hook.audioUrl) != "" then [old(hook.audioUrl)] else [])
      ensures Transcript.CopyText(View()) == None && Transcript.CharCount(View()) == None
    {
      transcript, streamingText := "", "";
      hook.ClearRecording();
    }

    /** The unmount cleanup: the socket is closed and the microphone's tracks stopped. */
    method Unmount()
      requires Valid()
      modifies this`socket, this`stoppedStreams
      ensures Valid()
      ensures socket == if old(socket).Some? then Some(Close(old(socket).value)) else None
      ensures stoppedStreams == old(stoppedStreams) + (if audioStream.Some? then [audioStream.value] else [])
      ensures !Listening()
    {
      if socket.Some? {
        socket := Some(Close(socket.value));
      }
      if audioStream.Some? {
        stoppedStreams := stoppedStreams + [audioStream.value];
      }
    }
  }

  /** The blob a buffered stop yields is the hook's buffer after the flush, concatenated. */
  lemma ConcatOfFlush(buffered: seq<Chunk>, flush: Chunk)
    ensures StoppedBlob(buffered, flush).data
         == Concat(buffered) + (if flush.Size() > 0 then flush.data else [])
  {
    ConcatSplit(buffered, if flush.Size() > 0 then [flush] else []);
    assert Concat([flush]) == Concat([flush][..0]) + flush.data;
  }
}
