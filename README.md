# aug-sdk video upload, modelled in Dafny

This project models the upload path of `AugmendVideoClient` in
`src/aug_sdk/video.py` (the aug-sdk Python client). The client uploads a
video to the Augmend service in four phases:

1. It negotiates an upload session (`_start_video_import_multipart`).
2. It sends the file in 10 MiB chunks to the video server, one request per
   chunk, in index order.
3. It finalizes the import on the web server (`_finish_video_import`) and
   receives a workspace id.
4. It polls the workspace's processing status until it reads state 0
   (`_wait_for_video_processing`).

Along the way it passes progress and error messages to a logging callback.

The model replaces the network with a **scripted service**. A `Script`
holds one reply for the negotiate request, one per chunk request, one for
finalize, and a finite list of status replies. Every remote call first
records its request, then reads the next scripted reply. If the script has
no reply left, the run fails with `ScriptEnded`, and that request is still
recorded.

What an upload does is captured by a `Run`: its result (the workspace id or
a `Failure`), the requests sent in order, and the messages logged in order.

The files:

- `chunking.dfy` (module `Chunking`) holds the chunk plan: the chunk count,
  offsets and payloads, and the proof that the chunks cover the file
  exactly.
- `protocol.dfy` (module `Protocol`) holds the replies, requests, failures
  and log messages. `Text` gives the exact string the callback receives for
  each `Message`, including the decimal rendering of numbers.
- `polling.dfy` (module `Polling`) holds `PollRun`, which describes the
  poll loop one reply at a time. Beside it, `Seen` and `Changes` give an
  independent description of what the loop reads and logs.
- `upload.dfy` (module `Upload`) holds one specification function per
  phase, chained by `UploadRun`. The lemmas here cover the request order,
  where each failure stops the upload, and what a successful upload
  returns.
- `client.dfy` (module `Client`) holds the class `VideoClient`. Its fields
  `log` and `sent` are appended to in place. Its methods follow the Python
  methods statement by statement, loops included. Each is proved to leave
  exactly the result, requests and log that its specification function
  describes.

Modelling decisions:

- A JSON object is a `map<string, string>`.
- A "falsy" negotiate reply is the empty map.
- A "falsy" workspace id is the empty string.
- A status reply is one of three cases:
  - `Unreachable`: the GET itself raised, for example no connection or a
    timeout. This fails with `TransportError(PollCall)`.
  - `Unreadable`: the body is not JSON, or it lacks `state` or `desc`.
    This fails with `ProtocolError(PollCall)`.
  - A readable `(state, desc)` pair.

  The status poll does not check the HTTP status. A reply with an error
  status but a readable body is therefore read like any other reply.
- Python's `KeyError` on a missing field becomes
  `ProtocolError(call)`.
- A POST that raises, for lack of a connection or through
  `raise_for_status`, becomes `TransportError(call)`.
- An `error` field becomes `ApplicationError(message)`. The same message is
  logged before the exception is raised.
- For an empty file, `upload_video` computes 0 chunks and sends none:
  finalize directly follows negotiate (`EmptyFileSkipsChunks`).

## Model

| member | source | states |
|---|---|---|
| `Chunking.TotalChunks` | src/aug_sdk/video.py:41-42 | the chunk count is the ceiling of size / CHUNK_SIZE: enough chunks to hold every byte, one fewer would not be, and it is 0 exactly for an empty file |
| `Chunking.TotalChunksIsLeast` | src/aug_sdk/video.py:42 | the chunk count is the least k whose capacity k * CHUNK_SIZE covers the file |
| `Chunking.ExactMultiple` | src/aug_sdk/video.py:42 | a size that is a multiple of CHUNK_SIZE gives exactly that many chunks, with no trailing empty chunk |
| `Chunking.ReadAt` | src/aug_sdk/video.py:47-48 | seek then read gives at most `count` bytes, each equal to the file's byte at that offset; it gives fewer at the end of the file and none past it |
| `Chunking.ChunkShape` | src/aug_sdk/video.py:45-48 | every planned chunk is non-empty and at most CHUNK_SIZE bytes; all but the last are exactly CHUNK_SIZE; the last holds the remainder; each is the slice of the file at offset index * CHUNK_SIZE |
| `Chunking.PlanPrefix` | src/aug_sdk/video.py:44-48 | the first k chunks, concatenated, are the first min(k * CHUNK_SIZE, size) bytes of the file |
| `Chunking.PlanCoversFile` | src/aug_sdk/video.py:44-48 | the chunks concatenated in index order are exactly the file |
| `Chunking.TwentyFiveMiBFile` | src/aug_sdk/video.py:41-48 | a 25 MiB file is cut into three chunks of 10, 10 and 5 MiB |
| `Protocol.NatToString` | src/aug_sdk/video.py:54-56 | the decimal text of a number (`str`) is non-empty and made of digits only. It has no leading zero: it starts with '0' only for 0, which is the single digit "0". With `NatToStringRoundTrip`, this pins the canonical text |
| `Protocol.NatToStringRoundTrip` | src/aug_sdk/video.py:54-56 | the decimal text of a number reads back as that number |
| `Protocol.FractionDetermines` | src/aug_sdk/video.py:61 | the text `k/total` determines both k and total |
| `Protocol.ChunkTextDetermines` | src/aug_sdk/video.py:61 | two progress messages with the same text name the same chunk number and the same chunk count |
| `Polling.ChangesCons` | src/aug_sdk/video.py:122-124 | a status in front of a sequence is kept exactly when its state differs from the state before it, and the rest is compared against it |
| `Polling.ChangesAlternate` | src/aug_sdk/video.py:111-124 | in the logged statuses, the first state differs from the sentinel and each state differs from the one logged before it; the last logged state is the last state read |
| `Polling.PollLogIsChanges` | src/aug_sdk/video.py:110-126 | the poller's log is the sequence of statuses read, up to the first state 0, with consecutive repeats removed (starting from the sentinel) |
| `Polling.PollRunRequests` | src/aug_sdk/video.py:112-126 | the poller sends one status request for the same workspace per status read, plus one more when the reply is missing or has no status. It succeeds exactly when the last status read has state 0. Otherwise it fails with ScriptEnded if the replies ran out, TransportError if the request raised, or ProtocolError if the reply had no status |
| `Polling.PollIgnoresLaterReplies` | src/aug_sdk/video.py:125-126 | once the poller has returned on state 0, or stopped on a request that raised or a reply without a status, replies after it are never consumed |
| `Polling.FirstStatusLogged` | src/aug_sdk/video.py:111-124 | the first status read is always logged unless its state equals the sentinel -1000 |
| `Polling.QueuedRunningDone` | src/aug_sdk/video.py:110-126 | the replies (5, queued), (5, queued), (10, running), (0, done) give four requests, success, and three messages, with the repeated state logged once |
| `Upload.LeadingAccepted` | src/aug_sdk/video.py:45-61 | the number of chunks the loop gets through: every one before it was accepted, and (unless all were) the next one failed or had no reply |
| `Upload.LeadingAcceptedIs` | src/aug_sdk/video.py:45-61 | those three conditions determine the count uniquely |
| `Upload.ChunkPhaseStopsAt` | src/aug_sdk/video.py:59-61 | when chunk k is the first not accepted, the loop has sent chunks 0..k, logged k progress messages, and fails naming chunk k |
| `Upload.ChunkPhaseCompletes` | src/aug_sdk/video.py:45-61 | when every chunk is accepted, the loop has sent every chunk request and logged "Chunk k/total" for k = 1..total, in order |
| `Upload.ChunkRequestsCarryFile` | src/aug_sdk/video.py:45-57 | chunk request i goes to the video server with index i, offset i * CHUNK_SIZE, the common chunk count and the i-th planned payload (non-empty, at most CHUNK_SIZE); the payloads make up the file |
| `Upload.ChunkPhaseInOrder` | src/aug_sdk/video.py:45-59 | the chunk loop sends chunk requests numbered 0, 1, 2, ... in that order |
| `Upload.UploadInProtocolOrder` | src/aug_sdk/video.py:21-68 | for every script, the requests sent are a prefix of: negotiate, every chunk request in index order, finalize. So a finalize is sent only after every chunk. Requests beyond that prefix exist only when the finalize reply named a non-empty workspace without an error, and each of them polls that workspace. Without a session, only negotiate is sent |
| `Upload.TransferInOrder` | src/aug_sdk/video.py:45-67 | after the negotiation, the requests are a prefix of every chunk request in order followed by finalize. Anything beyond that polls the workspace the finalize reply named |
| `Upload.StartErrorStopsBeforeChunks` | src/aug_sdk/video.py:80-86 | an `error` field in the negotiate reply is logged, becomes the failure, and only the negotiate request was sent |
| `Upload.NoChunkWithoutSession` | src/aug_sdk/video.py:27-34 | a negotiation that yields no session (transport failure, error field, empty reply, missing field) ends the upload with only the negotiate request sent; an empty reply fails with StartFailed and logs nothing |
| `Upload.ChunkFailureStopsUpload` | src/aug_sdk/video.py:59-61 | a failed (or unanswered) chunk k after k accepted ones ends the upload: negotiate plus chunks 0..k were sent, k progress messages logged, no finalize and no poll |
| `Upload.FinishErrorStopsBeforePolling` | src/aug_sdk/video.py:99-105 | with every chunk accepted, an `error` field in the finalize reply is logged and ends the upload after negotiate, every chunk and finalize, before any poll |
| `Upload.EmptyWorkspaceStopsBeforePolling` | src/aug_sdk/video.py:63-65 | an empty workspace id ends the upload with FinishFailed after finalize, before any poll |
| `Upload.EmptyFileSkipsChunks` | src/aug_sdk/video.py:41-45 | for an empty file no chunk request is sent and finalize directly follows negotiate |
| `Upload.SuccessfulUpload` | src/aug_sdk/video.py:63-68 | a successful upload returns the finalize reply's non-empty `workspaceId`; it sent negotiate, every chunk (which carry the whole file), finalize, then polls for that same workspace, the last of which read state 0 |
| `Upload.TwentyFiveMiBUpload` | src/aug_sdk/video.py:21-68 | a 25 MiB file against a service that accepts everything gives negotiate, three chunks, finalize and one poll, three progress messages and one state message, and returns the workspace id |
| `Client.VideoClient.constructor` | src/aug_sdk/video.py:10-14 | a new client has the given root host, an empty log and no requests sent |
| `Client.VideoClient.WithDefaultHost` | src/aug_sdk/video.py:10-14 | a client created without a root host talks to "augmend.com", with an empty log and no requests sent |
| `Client.VideoClient.StartVideoImportMultipart` | src/aug_sdk/video.py:70-87 | sends the negotiate request; it fails on a transport error; it logs and fails on an `error` field; otherwise it returns the reply |
| `Client.VideoClient.FinishVideoImport` | src/aug_sdk/video.py:89-108 | sends the finalize request; it fails on a transport error; it logs and fails on an `error` field; it fails on a missing `workspaceId`; otherwise it returns it |
| `Client.VideoClient.WaitForVideoProcessing` | src/aug_sdk/video.py:110-126 | the poll loop leaves exactly the result, requests and log of `PollRun` from the sentinel, so `PollLogIsChanges` and `PollRunRequests` describe it |
| `Client.VideoClient.UploadVideo` | src/aug_sdk/video.py:21-35 | the whole upload leaves exactly the result, requests and log of `UploadRun`, so every `Upload` lemma describes it |
| `Client.VideoClient.SendChunksAndComplete` | src/aug_sdk/video.py:41-68 | the part after the session was read leaves exactly what `TransferRun` describes |
| `Client.VideoClient.SendChunks` | src/aug_sdk/video.py:41-61 | the chunk loop leaves exactly what `ChunkPhase` describes: the chunk requests in order up to the first failure, and one progress message per accepted chunk |
| `Client.VideoClient.FinishAndWait` | src/aug_sdk/video.py:63-68 | finalize, the workspace-id check and the wait leave exactly what `CompleteRun` describes |

## Left out

- HTTP itself is not modelled: URLs, headers, the API key, multipart
  encoding and `verify_ssl`. Each remote call is a scripted reply.
- Requests carry the host they go to, but not the URL path or the headers.
- Real file I/O is not modelled. The file is a byte sequence, so
  `os.path.getsize` is its length and `seek` plus `read` is `ReadAt`.
- `os.path.basename(file_path)` is the `name` parameter.
- JSON decoding is abstracted. Values are strings, and falsiness is the
  empty map or the empty string. A negotiate or finalize reply that is a
  JSON value other than an object is not modelled. The poller's `state` is
  an integer.
- Form fields that Python sends as `str(...)` (index, count, offset) are
  kept as numbers in the request. Their decimal text is `NatToString`.
- `time.sleep(15)` has no logical effect and is left out.
- The unbounded `while True` poll loop runs over a finite script. Running
  out of replies ends the run with `ScriptEnded(PollCall)` instead of
  looping for ever. The model therefore promises nothing about a server
  that never reports state 0.
- The logging callback is assumed to be set. When it is `None`, the source
  logs nothing, and the model does not cover that case.
- `get_document` is a single fetch plus one key lookup, and is not part of
  this model.
- The order of requests relative to log messages is not recorded. `Run`
  and the client keep them as two separate sequences. For example, the
  source logs "Chunk k/total" after chunk k-1 is accepted and before the
  next chunk request is sent, and the model does not record that.
- Cancellation, deadlines and retries are not implemented by the code, and
  are not modelled.
