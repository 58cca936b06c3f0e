# Voice-to-text recorder: a Dafny model

This project models the logic of a browser voice-to-text client that records the
microphone and sends the audio to a hosted speech-recognition service, either
streamed over a WebSocket or uploaded once recording stops. Three parts are modelled.

- **The recorder component** (`AudioRecorder`, module `AudioRecorderComponent`). It is a class whose
  fields are the component's state and refs. Its methods are the start and stop
  handlers, the socket and recorder event handlers, batch transcription, clearing and
  unmount. The merge of service messages into the pair (transcript, partial text) is a
  pure reducer in module `Transcript`, together with the copy-text and character-count
  expressions. Fold lemmas relate a run of messages to what the user sees and to the
  `onTranscription` calls it makes.
- **The buffered recorder hook** (`useAudioRecorder`, module `RecorderHook`). It is a class with
  the hook's state, its chunk buffer and its refs, and start, chunk, stop,
  stop-event, cancel and clear methods. Its invariant says three things. Every buffered
  chunk is non-empty. `isRecording` mirrors the recorder's state. Each accepted stop
  resolves its promise at most once. Each event appends to the buffer at its end, so
  over any run of events the buffer is the filter `NonEmpty` of the events
  (`NonEmptyConcat`), and the blob's size is their total size (`BlobSize`).
- **The history list** (`App`, module `History`). Prepend-if-non-blank, delete by id,
  clear-all, the copy-all string and the export text are pure functions of the list.
  Lemmas cover order preservation, undoing an add, idempotence, the well-formedness
  invariant and the exact layout of the exported text.

Module `Text` models the JavaScript `trim`, `join` and `repeat` these rely on.
Module `Media` holds the opaque platform values: chunks, blobs, streams, recorder
states and sockets.

Platform and network calls are parameters of the methods that make them. The outcome of
`getUserMedia`, of the socket connection, of `new MediaRecorder` and of the batch
transcription is passed in as a `Result`, and the new object URL as a string. What the
code does to the outside world is recorded in log fields: `onError` and
`onTranscription` arguments, chunks sent on the socket, streams whose tracks were
stopped, transcription requests, stop-promise resolutions and revoked URLs. Asynchronous
steps are separate calls in the order the platform runs them. A buffered stop, for
example, is `StopRecording`, then the recorder's final `dataavailable`, then its `stop`
event, then transcription.

The model follows the code as written, including six behaviours that look unintended:

- The first final fragment after a start is appended as `'' + ' ' + text`, so the
  transcript starts with a space (`Transcript.SessionTranscript`). Joining the finals
  with `' '` would avoid the stray space.
- Stopping a stream closes the socket right away. A closing socket delivers no more
  messages, so finals still in flight are dropped (`StreamingStopped` gives
  `!Listening()`).
- Stopping a stream leaves the last partial text showing: `stopStreamingTranscription`
  never clears `streamingText`, and `StreamingStopped` keeps both texts as they were.
- If the socket connection or the recorder constructor fails, the microphone stays
  held and `isStreaming` stays true until the user stops (`StreamingStarted`).
- In the hook, a stream acquired before `new MediaRecorder` throws is never stored and
  never stopped. The model only reports the microphone error and leaves the hook's
  state unchanged.
- A `Blob` is always truthy, so a buffered stop sends even an empty recording to
  transcription.

## Model

| member | source | states |
|---|---|---|
| Text.TrimStart | src/App.jsx:11 | the result is a suffix of the input that starts with a non-space; every removed character is white space |
| Text.TrimEnd | src/App.jsx:11 | the result is a prefix of the input that ends with a non-space; every removed character is white space |
| Text.Trim | src/App.jsx:11 | the trimmed text is no longer than the input and neither starts nor ends with white space |
| Text.TrimInfix | src/components/AudioRecorder.jsx:262 | when the white space is exactly what lies before position i and from position j on, and `s[i]`, `s[j - 1]` are not white space, `s.trim()` is the infix `s[i..j]` |
| Text.TrimEmptyIff | src/App.jsx:11 | `s.trim()` is empty exactly when every character of `s` is ECMAScript white space or a line terminator |
| Text.TrimIdempotent | src/components/AudioRecorder.jsx:262 | trimming twice is trimming once |
| Text.Join | src/App.jsx:30 | a non-empty join starts with the first part and ends with the last |
| Text.JoinConcat | src/App.jsx:30 | joining two non-empty runs is joining each with one separator between them, so join keeps list order |
| Text.JoinEmptyIff | src/App.jsx:30-31 | with a non-empty separator, the joined string is empty only for no parts or a single empty part |
| Text.Repeat | src/App.jsx:46 | `c.repeat(n)` has length n and every character is c |
| Media.Close | src/components/AudioRecorder.jsx:146-148 | `close()` keeps the socket's identity and leaves it not open; a socket already closing or closed is unchanged |
| Media.Concat | src/hooks/useAudioRecorder.js:57-59 | the blob's byte count is the total size of its parts |
| Media.ConcatSplit | src/hooks/useAudioRecorder.js:57-59 | a blob built from two runs of chunks is the bytes of the first run followed by those of the second |
| Media.ConcatEmptyIff | src/hooks/useAudioRecorder.js:33-37 | a blob built from non-empty chunks is empty exactly when there are no chunks |
| History.IsBlank | src/App.jsx:11 | `!text.trim()` holds exactly when every character of the text is white space |
| History.HandleTranscription | src/App.jsx:10-19 | blank text leaves the list unchanged; otherwise the entry of the given id, untrimmed text, time and date goes to the front, the length grows by one, the old list follows in order, and well-formedness is preserved |
| History.HandleDelete | src/App.jsx:66-68 | the result holds exactly the entries whose id differs, loses one entry per matching entry, and an absent id leaves the list unchanged |
| History.DeleteKeepsOrder | src/App.jsx:66-68 | deleting from a concatenation is deleting from each part, so the survivors keep their relative order |
| History.DeleteIdempotent | src/App.jsx:66-68 | deleting the same id twice is deleting it once |
| History.DeleteUndoesAdd | src/App.jsx:10-18 | deleting an entry just added under a fresh id returns the list as it was before the add |
| History.DeletePreservesWellFormed | src/App.jsx:66-68 | deletion keeps every remaining entry non-blank |
| History.HandleClearAll | src/App.jsx:60-64 | the list is emptied when confirmed and left unchanged otherwise |
| History.Texts | src/App.jsx:30 | `map(t => t.text)` keeps length and order |
| History.HandleCopyAll | src/App.jsx:29-31 | the clipboard text is the texts joined by a blank line, and nothing is written when that string is empty |
| History.CopyAllWritesIffNonEmpty | src/App.jsx:29-31 | for a list of non-blank entries, copy-all writes something exactly when the list is non-empty |
| History.CopyAllAfterAdd | src/App.jsx:30 | after an add, copy-all gives the new text, a blank line, then the previous copy-all text |
| History.ExportBlock | src/App.jsx:46 | a block has length date + time + text + 55; it is `[`, the date, a space, the time, `]` and a line break, then the entry's text, a line break and the 50-dash rule |
| History.Blocks | src/App.jsx:45-46 | one export block per entry, in list order |
| History.HandleExport | src/App.jsx:42-47 | export does nothing on an empty list; otherwise its text starts with the first entry's block and ends with the 50-dash rule |
| History.ExportCons | src/App.jsx:45-47 | the export of a list is its first block, a blank line, then the export of the rest |
| History.ExportSingle | src/App.jsx:45-47 | the export of a one-entry list is that entry's block alone, with no separator |
| Transcript.Fragment | src/components/AudioRecorder.jsx:86-88 | a message contributes text only when it parsed and its first alternative's transcript is present and non-empty |
| Transcript.Merge | src/components/AudioRecorder.jsx:84-102 | a final fragment is appended after a space, clears the partial text and is emitted once; a partial fragment replaces the partial text without touching the transcript or emitting; any other message changes nothing |
| Transcript.FinalsAppend | src/components/AudioRecorder.jsx:89-94 | one more message adds its text to the finals exactly when it is a final fragment |
| Transcript.SpacedAppend | src/components/AudioRecorder.jsx:90 | appending one final adds a space and its text at the end |
| Transcript.MergeAllEmitsFinals | src/components/AudioRecorder.jsx:89-94 | over any run of messages, `onTranscription` is called once per final fragment, with its text, in arrival order |
| Transcript.MergeAllTranscript | src/components/AudioRecorder.jsx:89-97 | over any run of messages, the transcript is the old one followed by each final text after a space; partial text never enters it |
| Transcript.MergeAllStreamingText | src/components/AudioRecorder.jsx:91-97 | the partial text is that of the last contributing message, or empty if that message was final, or unchanged if no message contributed |
| Transcript.SpacedIsJoin | src/components/AudioRecorder.jsx:90 | the appended finals are a leading space followed by the finals joined by single spaces |
| Transcript.SessionTranscript | src/components/AudioRecorder.jsx:48-97 | from a start, the transcript stays empty until a final arrives and is then a leading space followed by the finals joined by spaces |
| Transcript.NoFinals | src/components/AudioRecorder.jsx:95-97 | a run with no final fragment contributes no finals |
| Transcript.PartialsThenFinal | src/components/AudioRecorder.jsx:89-97 | any partials or ignored messages followed by one final append exactly that final after a space, leave the partial text empty and call back once |
| Transcript.CopyText | src/components/AudioRecorder.jsx:191-193 | the copied text is the transcript if non-empty, else the partial text, and nothing is copied when both are empty |
| Transcript.CharCount | src/components/AudioRecorder.jsx:260-262 | the count is shown only when some text is present and is at most the two lengths plus one |
| Transcript.CharCountOfBoth | src/components/AudioRecorder.jsx:262 | when the transcript starts and the partial text ends with a non-space, the count is both lengths plus one for the joining space |
| Transcript.CharCountAfterSession | src/components/AudioRecorder.jsx:262 | after a session, with a transcript of the stray leading space and the committed text and no partial text, the count is the committed text's length |
| Transcript.CharCountZeroIff | src/components/AudioRecorder.jsx:262 | the shown count is zero exactly when both texts are white space only |
| RecorderHook.UseAudioRecorder.constructor | src/hooks/useAudioRecorder.js:4-11 | the hook starts not recording, with no blob, an empty URL, no stream, no recorder and an empty buffer |
| RecorderHook.UseAudioRecorder.StartRecording | src/hooks/useAudioRecorder.js:13-47 | a microphone or recorder failure reports the single microphone error and changes nothing; success installs a recording recorder, empties the buffer, drops any pending stop, holds the stream and sets `isRecording` |
| RecorderHook.UseAudioRecorder.DataAvailable | src/hooks/useAudioRecorder.js:33-37 | a chunk is appended at the end only if its size is positive |
| RecorderHook.UseAudioRecorder.StopRecording | src/hooks/useAudioRecorder.js:49-82 | with no recorder or an inactive one, the stop is rejected with "No active recording to stop" and nothing changes; otherwise the promise is stored, the handler installed, the recorder stopped and `isRecording` cleared at once |
| RecorderHook.UseAudioRecorder.OnStop | src/hooks/useAudioRecorder.js:56-74 | the blob is the buffered chunks in order; a waiting promise is resolved once with it and then cleared; a held stream is stopped and forgotten |
| RecorderHook.UseAudioRecorder.CancelRecording | src/hooks/useAudioRecorder.js:84-97 | from any state: not recording, no blob, empty buffer, no stream, and a held stream is stopped |
| RecorderHook.UseAudioRecorder.ClearRecording | src/hooks/useAudioRecorder.js:99-105 | the blob is dropped; the URL is revoked and reset to empty only when it was non-empty |
| RecorderHook.NonEmpty | src/hooks/useAudioRecorder.js:33-37 | the chunks kept from a run of events are all non-empty and no more numerous than the events |
| RecorderHook.NonEmptyConcat | src/hooks/useAudioRecorder.js:33-37 | the chunks kept from two runs of events are those kept from the first run followed by those kept from the second, so the buffer keeps arrival order |
| RecorderHook.BlobSize | src/hooks/useAudioRecorder.js:33-59 | the blob's size equals the total size of every chunk that arrived |
| AudioRecorderComponent.Configured | src/components/AudioRecorder.jsx:42 | `!apiKey` is false exactly when a key is present and is not the empty string |
| AudioRecorderComponent.StreamingStartError | src/components/AudioRecorder.jsx:62-115 | a streaming start fails exactly when the microphone, the connection or the recorder fails, and reports the message of the first failing step: the microphone's, else the connection's, else the recorder's |
| AudioRecorderComponent.AudioRecorder.constructor | src/components/AudioRecorder.jsx:7-28 | the component starts in streaming mode with empty texts, no refs, no handlers and empty logs; its fresh hook is not recording and holds no recorder, buffer, blob, URL, stream or pending stop, with empty logs |
| AudioRecorderComponent.AudioRecorder.SetUseStreaming | src/components/AudioRecorder.jsx:214-218 | the mode changes only while no session of either kind runs |
| AudioRecorderComponent.AudioRecorder.HandleStartRecording | src/components/AudioRecorder.jsx:41-60 | with no key, only the key error is reported and neither mode runs, so no microphone is requested; with one, the session start below happens; the mode is left unchanged either way |
| AudioRecorderComponent.AudioRecorder.StartSession | src/components/AudioRecorder.jsx:47-59 | the error is cleared and both texts emptied; the mode in force at the call, which stays unchanged, decides which start runs: streaming leaves the hook untouched and reports the first failing step's message; buffered leaves the streaming refs untouched, reports the microphone error on failure, and otherwise starts the hook recording with an empty buffer and the new stream while its blob, URL and logs stay as they were |
| AudioRecorderComponent.AudioRecorder.StartStreamingTranscription | src/components/AudioRecorder.jsx:62-115 | the microphone is held and streaming reported once acquired; the socket is kept once open; handlers are installed and the recorder runs only when all three steps succeed |
| AudioRecorderComponent.AudioRecorder.OnMessage | src/components/AudioRecorder.jsx:84-102 | while the socket is open with handlers attached, the texts become the merge of the message and a final is passed to `onTranscription`; otherwise nothing changes |
| AudioRecorderComponent.AudioRecorder.OnChunk | src/components/AudioRecorder.jsx:104-108 | a chunk is sent only if it is non-empty and the socket is open; otherwise nothing is sent |
| AudioRecorderComponent.AudioRecorder.OnSocketClosed | src/components/AudioRecorder.jsx:105 | once the socket reports closed, it is no longer open, so no message or chunk is handled |
| AudioRecorderComponent.AudioRecorder.HandleStopRecording | src/components/AudioRecorder.jsx:126-140 | the mode in force at the call decides and is left unchanged; streaming: the session is torn down and the hook untouched; buffered: the buffered stop below happens |
| AudioRecorderComponent.AudioRecorder.StopBufferedRecording | src/components/AudioRecorder.jsx:129-138 | a rejected stop is reported with its prefix and changes nothing else; an accepted one leaves the recorder inactive and the buffer holding the buffered chunks and a non-empty flush, yields their blob, keeps the new object URL, resolves the promise once, stops and forgets the hook's microphone, revokes no URL, and transcribes that blob exactly once; the mode is unchanged |
| AudioRecorderComponent.AudioRecorder.StopStreamingTranscription | src/components/AudioRecorder.jsx:142-154 | the recorder is stopped, the socket closed, the microphone released and its ref cleared, and streaming set false, with both texts unchanged |
| AudioRecorderComponent.AudioRecorder.HandleTranscribe | src/components/AudioRecorder.jsx:173-189 | with no blob nothing happens; otherwise one transcription call is made, a result replaces the transcript and is passed on, a failure is reported, and `isTranscribing` is false afterwards either way |
| AudioRecorderComponent.AudioRecorder.HandleClearText | src/components/AudioRecorder.jsx:204-208 | both texts are emptied and the hook's blob and URL cleared, a non-empty URL is revoked and no other, leaving nothing to copy or count |
| AudioRecorderComponent.AudioRecorder.Unmount | src/components/AudioRecorder.jsx:30-39 | the socket is closed and a held microphone's tracks are stopped |
| AudioRecorderComponent.ConcatOfFlush | src/hooks/useAudioRecorder.js:33-59 | the blob of a buffered stop is the bytes of the buffered chunks followed by the final flush's bytes, if it had any |

## Left out

- The service module `src/services/deepgram.js` (HTTP upload, socket opening, the 401 message) is not part of this model. Its results are the `transcription` and `connect` parameters.
- Browser media encoding, `Blob` construction details beyond concatenation, and `URL.createObjectURL`: streams and sockets are numbered handles, chunks are byte sequences, and the object URL is a parameter.
- Promise timing, the 250 ms slice interval and event dispatch: each asynchronous step is a separate call in platform order. `isTranscribing` is therefore false whenever control returns.
- The hook's `useEffect` cleanup (src/hooks/useAudioRecorder.js:107-116). It revokes the old URL and stops the old stream whenever `audioUrl` or `stream` changes and on unmount. The model has only the component's own unmount cleanup.
- Stale closures: `handleTranscribe` reads the hook's current blob, and `onstop` the current stream. In the source these come from the render in which the handler was created.
- `onTranscription` is assumed present. The component guards the call with `if (onTranscription)`, and the application always passes it.
- `App`'s `handleError` timer, `alert`, clipboard writes, the download anchor, `window.confirm` (a boolean parameter), `Date.now()` ids and locale date/time strings (parameters), and all rendering.
- The API key lookup from the environment is the constructor's optional `apiKey`.
- JSON parsing itself: a message is given already parsed, or as `Unparsable`.
- Transcript.CharCount: Dafny's string length counts Unicode scalar values, while `.length` counts UTF-16 code units, so a character outside the Basic Multilingual Plane counts once here and twice in the browser.
- RecorderHook.UseAudioRecorder.DataAvailable: that the buffer is exactly the filter of every chunk that arrived is stated per event by this method and over any run by `NonEmptyConcat`. The class invariant keeps only that every buffered chunk is non-empty, which keeps the proofs of the component's methods within the resource limit.
- RecorderHook.UseAudioRecorder.StartRecording: a `start()` failure after the refs are set is not modelled, and neither is the stream leaked when the recorder constructor throws. The failure path changes nothing.
