/** Opaque platform values the recorder code handles: audio chunks and blobs
    produced by the media encoder, microphone streams, recorder and socket states,
    and the success/failure shapes of platform calls. */
module Media {

  newtype byte = x: int | 0 <= x < 256

  datatype Option<+T> = None | Some(value: T)

  /** A platform call that either returns a value or throws an Error with a message. */
  datatype Result<+T> = Ok(value: T) | Err(error: string)

  /** A call that returns nothing or fails with a message (a promise resolved or rejected). */
  datatype Status = Done | Failed(error: string)

  /** One encoded slice delivered by a `dataavailable` event; its size is its byte count. */
  datatype Chunk = Chunk(data: seq<byte>) {
    function Size(): nat { |data| }
  }

  /** A `Blob`: the bytes of its parts in order, and its MIME type. */
  datatype Blob = Blob(data: seq<byte>, mimeType: string)

  /** A microphone stream handle; stopping its tracks is recorded by the owner. */
  datatype MediaStream = MediaStream(id: nat)

  /** `MediaRecorder.state` ('paused' is never entered by this code). */
  datatype RecorderState = Inactive | Recording

  /** `WebSocket.readyState` once the connection has opened. */
  datatype ReadyState = Open | Closing | Closed

  datatype Socket = Socket(id: nat, state: ReadyState)

  /** `socket.close()`: an open socket starts closing; otherwise nothing changes. */
  function Close(s: Socket): (r: Socket)
    ensures r.id == s.id && r.state != Open
    ensures s.state != Open ==> r == s
  {
    if s.state == Open then Socket(s.id, Closing) else s
  }

  /** The bytes of a blob built from `parts`: every part's bytes, in order. */
  function Concat(parts: seq<Chunk>): (r: seq<byte>)
    ensures |r| == TotalSize(parts)
  {
    if parts == [] then [] else Concat(parts[..|parts| - 1]) + parts[|parts| - 1].data
  }

  function TotalSize(parts: seq<Chunk>): nat
  {
    if parts == [] then 0 else TotalSize(parts[..|parts| - 1]) + parts[|parts| - 1].Size()
  }

  predicate AllNonEmpty(parts: seq<Chunk>)
  {
    forall i :: 0 <= i < |parts| ==> parts[i].Size() > 0
  }

  /** Building a blob from two runs of parts is building each and joining the bytes. */
  lemma {:induction false} ConcatSplit(a: seq<Chunk>, b: seq<Chunk>)
    ensures Concat(a + b) == Concat(a) + Concat(b)
    decreases |b|
  {
    if b == [] {
      assert a + b == a;
    } else {
      var last := b[|b| - 1];
      assert (a + b)[..|a + b| - 1] == a + b[..|b| - 1];
      ConcatSplit(a, b[..|b| - 1]);
    }
  }

  /** A blob built from non-empty parts is empty exactly when there are no parts. */
  lemma {:induction false} ConcatEmptyIff(parts: seq<Chunk>)
    requires AllNonEmpty(parts)
    ensures Concat(parts) == [] <==> parts == []
  {
  }
}
