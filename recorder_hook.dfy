/** The buffered recorder hook: one MediaRecorder over one microphone stream,
    whose chunks are buffered in place and combined into one blob when the
    recorder stops. The asynchronous pieces are separate calls in the order the
    platform runs them: `StartRecording`, any number of `DataAvailable`,
    `StopRecording`, the final `DataAvailable` flush, then `OnStop`. */
module RecorderHook {
  import opened Media

  const BlobType := "audio/webm;codecs=opus"
  const MicrophoneError := "Could not access microphone. Please check permissions."
  const NoActiveRecording := "No active recording to stop"

  class UseAudioRecorder {
    // React state
    var isRecording: bool
    var audioBlob: Option<Blob>
    var audioUrl: string
    var stream: Option<MediaStream>

    // refs: the recorder (None before the first start), whether `stopRecording` has
    // installed its `onstop` handler on it, the chunk buffer, and whether a stop
    // promise is waiting to be resolved
    var recorder: Option<RecorderState>
    var onStopInstalled: bool
    var chunks: seq<Chunk>
    var pendingStop: bool

    // what the hook has done to the outside world
    var resolved: seq<Blob>              // values the stop promises were resolved with
    var stoppedStreams: seq<MediaStream> // streams whose tracks were stopped
    var revokedUrls: seq<string>         // `URL.revokeObjectURL` arguments

    ghost var acceptedStops: nat         // `stopRecording` calls that did not reject

    ghost predicate Valid()
      reads this
    {
      // the buffer holds only non-empty chunks
      && AllNonEmpty(chunks)
      // the flag mirrors the recorder
      && (isRecording <==> recorder == Some(Recording))
      // `onstop` is installed only by an accepted stop, which left the recorder inactive
      && (onStopInstalled ==> recorder == Some(Inactive))
      && (pendingStop ==> onStopInstalled)
      // each accepted stop resolves its promise at most once
      && |resolved| + (if pendingStop then 1 else 0) <= acceptedStops
    }

    constructor ()
      ensures Valid()
      ensures !isRecording && audioBlob == None && audioUrl == "" && stream == None
      ensures recorder == None && chunks == [] && !pendingStop
      ensures resolved == [] && stoppedStreams == [] && revokedUrls == []
    {
      isRecording, audioBlob, audioUrl, stream := false, None, "", None;
      recorder, onStopInstalled, chunks, pendingStop := None, false, [], false;
      resolved, stoppedStreams, revokedUrls := [], [], [];
      acceptedStops := 0;
    }

    /** `startRecording`. `mic` is the outcome of `getUserMedia`, `recorderError` that
        of `new MediaRecorder`. Either failure surfaces as the one microphone error and
        changes nothing; success installs a fresh recording recorder, empties the buffer,
        forgets any pending stop, holds the stream and returns it. */
    method StartRecording(mic: Result<MediaStream>, recorderError: Option<string>) returns (r: Result<MediaStream>)
      requires Valid()
      modifies this
      ensures Valid()
      ensures mic.Err? || recorderError.Some? ==> r == Err(MicrophoneError) && unchanged(this)
      ensures mic.Ok? && recorderError.None? ==>
        && r == mic
        && recorder == Some(Recording) && !onStopInstalled && isRecording
        && chunks == [] && !pendingStop && stream == Some(mic.value)
        && audioBlob == old(audioBlob) && audioUrl == old(audioUrl)
        && resolved == old(resolved) && stoppedStreams == old(stoppedStreams)
        && revokedUrls == old(revokedUrls)
    {
      if mic.Err? || recorderError.Some? {
        return Err(MicrophoneError);
      }
      recorder := Some(Inactive);
      onStopInstalled := false;
      chunks := [];
      pendingStop := false;
      stream := Some(mic.value);
      recorder := Some(Recording);
      isRecording := true;
      r := mic;
    }

    /** `ondataavailable`: a non-empty chunk goes to the end of the buffer; an empty one,
        or an event before any recorder exists, changes nothing. */
    method DataAvailable(chunk: Chunk)
      requires Valid()
      modifies this`chunks
      ensures Valid()
      ensures chunks == if recorder.Some? && chunk.Size() > 0 then old(chunks) + [chunk] else old(chunks)
    {
      if recorder.Some? && chunk.Size() > 0 {
        chunks := chunks + [chunk];
      }
    }

    /** `stopRecording`: rejected, changing nothing, unless a recorder is recording;
        otherwise the promise is stored, `onstop` installed, the recorder stopped and
        `isRecording` cleared at once. */
    method StopRecording() returns (r: Status)
      requires Valid()
      modifies this
      ensures Valid()
      ensures old(recorder) != Some(Recording) ==> r == Failed(NoActiveRecording) && unchanged(this)
      ensures old(recorder) == Some(Recording) ==>
        && r == Done
        && pendingStop && onStopInstalled && recorder == Some(Inactive) && !isRecording
        && acceptedStops == old(acceptedStops) + 1
        && chunks == old(chunks) && stream == old(stream)
        && audioBlob == old(audioBlob) && audioUrl == old(audioUrl)
        && resolved == old(resolved) && stoppedStreams == old(stoppedStreams)
        && revokedUrls == old(revokedUrls)
    {
      if recorder != Some(Recording) {
        return Failed(NoActiveRecording);
      }
      pendingStop := true;
      onStopInstalled := true;
      recorder := Some(Inactive);
      isRecording := false;
      acceptedStops := acceptedStops + 1;
      r := Done;
    }

    /** The recorder's `stop` event. With the handler installed: the blob is the
        buffered chunks in order, the new object URL `url` is kept, a waiting promise is
        resolved with the blob and forgotten, and a held stream is released. Without it
        (a recorder stopped by `cancelRecording`) nothing happens. */
    method OnStop(url: string) returns (value: Option<Blob>)
      requires Valid()
      modifies this
      ensures Valid()
      ensures !old(onStopInstalled) ==> value == None && unchanged(this)
      ensures old(onStopInstalled) ==>
        && audioBlob == Some(Blob(Concat(old(chunks)), BlobType))
        && audioUrl == url
        && (value == if old(pendingStop) then audioBlob else None)
        && resolved == old(resolved) + (if old(pendingStop) then [audioBlob.value] else [])
        && !pendingStop
        && stream == None
        && stoppedStreams == old(stoppedStreams) + (if old(stream).Some? then [old(stream).value] else [])
        && chunks == old(chunks) && recorder == old(recorder) && isRecording == old(isRecording)
        && onStopInstalled && revokedUrls == old(revokedUrls) && acceptedStops == old(acceptedStops)
    {
      if !onStopInstalled {
        return None;
      }
      var blob := Blob(Concat(chunks), BlobType);
      audioBlob := Some(blob);
      audioUrl := url;
      // the waiting promise, if any, is resolved and forgotten
      value := if pendingStop then Some(blob) else None;
      resolved := resolved + (if pendingStop then [blob] else []);
      pendingStop := false;
      // a held stream has its tracks stopped and is forgotten
      stoppedStreams := stoppedStreams + (if stream.Some? then [stream.value] else []);
      stream := None;
    }

    /** `cancelRecording`: whatever the prior state, the recorder is no longer recording,
        the stream is released, the blob is dropped and the buffer emptied. A pending stop
        and the object URL are left as they were. */
    method CancelRecording()
      requires Valid()
      modifies this
      ensures Valid()
      ensures !isRecording && audioBlob == None && chunks == [] && stream == None
      ensures recorder == if old(recorder) == Some(Recording) then Some(Inactive) else old(recorder)
      ensures stoppedStreams == old(stoppedStreams) + (if old(stream).Some? then [old(stream).value] else [])
      ensures onStopInstalled == old(onStopInstalled) && pendingStop == old(pendingStop)
      ensures audioUrl == old(audioUrl) && resolved == old(resolved) && revokedUrls == old(revokedUrls)
      ensures acceptedStops == old(acceptedStops)
    {
      if recorder == Some(Recording) {
        recorder := Some(Inactive);
      }
      if stream.Some? {
        stoppedStreams := stoppedStreams + [stream.value];
        stream := None;
      }
      isRecording := false;
      audioBlob := None;
      chunks := [];
    }

    /** `clearRecording`: the blob is dropped; a non-empty URL is revoked and reset to `''`. */
    method ClearRecording()
      requires Valid()
      modifies this`audioBlob, this`audioUrl, this`revokedUrls
      ensures Valid()
      ensures audioBlob == None && audioUrl == ""
      ensures revokedUrls == old(revokedUrls) + (if old(audioUrl) != "" then [old(audioUrl)] else [])
    {
      audioBlob := None;
      if audioUrl != "" {
        revokedUrls := revokedUrls + [audioUrl];
        audioUrl := "";
      }
    }
  }

  /** The chunks of `cs` that have a non-zero size, in order. */
  function NonEmpty(cs: seq<Chunk>): (r: seq<Chunk>)
    ensures AllNonEmpty(r)
    ensures |r| <= |cs|
  {
    if cs == [] then []
    else NonEmpty(cs[..|cs| - 1]) + (if cs[|cs| - 1].Size() > 0 then [cs[|cs| - 1]] else [])
  }

  /** Filtering two runs of events is filtering each: the buffer keeps arrival order
      across any split of the events. */
  lemma {:induction false} NonEmptyConcat(a: seq<Chunk>, b: seq<Chunk>)
    ensures NonEmpty(a + b) == NonEmpty(a) + NonEmpty(b)
    decreases |b|
  {
    if b == [] {
      assert a + b == a;
    } else {
      var init, last := b[..|b| - 1], b[|b| - 1];
      assert (a + b)[..|a + b| - 1] == a + init;
      NonEmptyConcat(a, init);
    }
  }

  /** The blob's size is the total size of the chunks that arrived. */
  lemma {:induction false} BlobSize(cs: seq<Chunk>)
    ensures |Concat(NonEmpty(cs))| == TotalSize(cs)
    decreases |cs|
  {
    if cs != [] {
      var init, last := cs[..|cs| - 1], cs[|cs| - 1];
      BlobSize(init);
      if last.Size() > 0 {
        ConcatSplit(NonEmpty(init), [last]);
        assert [last][..0] == [];
      } else {
        assert NonEmpty(cs) == NonEmpty(init);
        assert TotalSize(cs) == TotalSize(init);
      }
    }
  }
}
