/** The sequencing of `upload_video`: negotiate a session, send the chunks
    in index order, finalize, then poll until processing is done.  Each
    phase is a function from the scripted replies to its `Run`; `UploadRun`
    chains them, stopping at the first failure. */
module Upload {
  import opened Chunking
  import opened Protocol
  import opened Polling

  /** The name under which every video is announced. */
  const VIDEO_NAME: string := "API video"

  /** `_start_video_import_multipart`: one request to the root host; an
      `error` field is logged and ends the upload. */
  function StartRun(host: string, reply: Reply): Run<Json>
  {
    var request := Negotiate(host, VIDEO_NAME);
    match reply
    case TransportFailure => Run(Err(TransportError(StartCall)), [request], [])
    case Body(json) =>
      if "error" in json then
        var message := StartApiError(json["error"]);
        Run(Err(ApplicationError(message)), [request], [message])
      else Run(Ok(json), [request], [])
  }

  /** The session `upload_video` reads out of the negotiate reply: an empty
      reply is refused, and so is one missing any of the four fields. */
  function SessionOf(json: Json): Result<Session>
  {
    if |json| == 0 then Err(StartFailed)
    else if "video_id" !in json || "video_server" !in json || "server" !in json || "token" !in json then
      Err(ProtocolError(StartCall))
    else Ok(Session(json["video_id"], json["video_server"], json["server"], json["token"]))
  }

  /** The negotiation succeeds and yields a session. */
  predicate Negotiates(host: string, reply: Reply)
  {
    var start := StartRun(host, reply).result;
    start.Ok? && SessionOf(start.value).Ok?
  }

  function NegotiatedSession(host: string, reply: Reply): Session
    requires Negotiates(host, reply)
  {
    SessionOf(StartRun(host, reply).result.value).value
  }

  /** The request for chunk `index`: sent to the video server with the
      session's id and token, the chunk's position and its payload. */
  function ChunkRequest(session: Session, name: string, file: seq<Byte>, index: nat): Request
  {
    UploadChunk(session.videoServer, name, session.videoId, session.token,
                index, TotalChunks(|file|), ChunkOffset(index), ChunkPayload(file, index))
  }

  /** The requests for every chunk, in index order. */
  function ChunkRequests(session: Session, name: string, file: seq<Byte>): seq<Request>
  {
    seq(TotalChunks(|file|), i requires 0 <= i => ChunkRequest(session, name, file, i))
  }

  /** The progress messages for the first `count` chunks of `total`. */
  function ChunkLines(count: nat, total: nat): seq<Message>
  {
    seq(count, j requires 0 <= j => ChunkUploaded(j + 1, total))
  }

  /** How many of the first `total` chunks the script accepts before the
      first that fails or has no reply. */
  function LeadingAccepted(replies: seq<Reply>, total: nat): (k: nat)
    ensures k <= total && k <= |replies|
    ensures forall j :: 0 <= j < k ==> replies[j].Body?
    ensures k < total ==> k == |replies| || replies[k].TransportFailure?
  {
    if total == 0 || replies == [] || replies[0].TransportFailure? then 0
    else 1 + LeadingAccepted(replies[1..], total - 1)
  }

  /** The ensures of LeadingAccepted determine it: the count is the
      first chunk index that is not accepted (or `total`). */
  lemma {:induction false} LeadingAcceptedIs(replies: seq<Reply>, total: nat, k: nat)
    requires k <= total
    requires k <= |replies| && forall j :: 0 <= j < k ==> replies[j].Body?
    requires k < total ==> k == |replies| || replies[k].TransportFailure?
    ensures LeadingAccepted(replies, total) == k
  {
    if k > 0 {
      assert replies[0].Body?;
      assert forall j :: 0 <= j < k - 1 ==> replies[1..][j] == replies[j + 1];
      LeadingAcceptedIs(replies[1..], total - 1, k - 1);
    }
  }

  /** The chunk loop: chunks are sent in index order, each accepted one is
      logged, and the first failure ends the loop. */
  function ChunkPhase(session: Session, name: string, file: seq<Byte>, replies: seq<Reply>): Run<()>
  {
    var total := TotalChunks(|file|);
    var k := LeadingAccepted(replies, total);
    var requests := ChunkRequests(session, name, file);
    if k == total then Run(Ok(()), requests, ChunkLines(total, total))
    else
      var failure := if k == |replies| then ScriptEnded(ChunkCall(k)) else TransportError(ChunkCall(k));
      Run(Err(failure), requests[..k + 1], ChunkLines(k, total))
  }

  /** When chunk `k` is the first not accepted (its reply is a failure or
      missing), the loop has sent chunks `0 .. k`, logged `k` messages and
      fails naming chunk `k`. */
  lemma ChunkPhaseStopsAt(session: Session, name: string, file: seq<Byte>, replies: seq<Reply>, k: nat)
    requires k < TotalChunks(|file|)
    requires k <= |replies| && forall j :: 0 <= j < k ==> replies[j].Body?
    requires k == |replies| || replies[k].TransportFailure?
    ensures ChunkPhase(session, name, file, replies) ==
            Run(Err(if k == |replies| then ScriptEnded(ChunkCall(k)) else TransportError(ChunkCall(k))),
                ChunkRequests(session, name, file)[..k + 1], ChunkLines(k, TotalChunks(|file|)))
  {
    LeadingAcceptedIs(replies, TotalChunks(|file|), k);
  }

  /** When every chunk is accepted, the loop has sent every chunk request
      and logged one message per chunk. */
  lemma ChunkPhaseCompletes(session: Session, name: string, file: seq<Byte>, replies: seq<Reply>)
    requires TotalChunks(|file|) <= |replies|
    requires forall j :: 0 <= j < TotalChunks(|file|) ==> replies[j].Body?
    ensures var total := TotalChunks(|file|);
            ChunkPhase(session, name, file, replies) ==
            Run(Ok(()), ChunkRequests(session, name, file), ChunkLines(total, total))
  {
    LeadingAcceptedIs(replies, TotalChunks(|file|), TotalChunks(|file|));
  }

  /** `_finish_video_import`: one request to the web server; an `error`
      field is logged and ends the upload; otherwise the `workspaceId`. */
  function FinishRun(webServer: string, videoId: string, reply: Reply): Run<string>
  {
    var request := Finalize(webServer, videoId);
    match reply
    case TransportFailure => Run(Err(TransportError(FinishCall)), [request], [])
    case Body(json) =>
      if "error" in json then
        var message := FinishApiError(json["error"]);
        Run(Err(ApplicationError(message)), [request], [message])
      else if "workspaceId" !in json then Run(Err(ProtocolError(FinishCall)), [request], [])
      else Run(Ok(json["workspaceId"]), [request], [])
  }

  /** `r`, preceded by the requests and messages of an earlier phase. */
  function After<T>(sent: seq<Request>, logged: seq<Message>, r: Run<T>): Run<T>
  {
    Run(r.result, sent + r.sent, logged + r.logged)
  }

  /** `upload_video` as a whole, against a scripted service. */
  function UploadRun(host: string, name: string, file: seq<Byte>, script: Script): Run<string>
  {
    var start := StartRun(host, script.start);
    if start.result.Err? then Run(Err(start.result.failure), start.sent, start.logged)
    else
      var session := SessionOf(start.result.value);
      if session.Err? then Run(Err(session.failure), start.sent, start.logged)
      else After(start.sent, start.logged, TransferRun(host, session.value, name, file, script))
  }

  /** What `upload_video` does once it holds a session: the chunks, then
      finalize and poll. */
  function TransferRun(host: string, session: Session, name: string, file: seq<Byte>, script: Script): Run<string>
  {
    var chunks := ChunkPhase(session, name, file, script.chunks);
    if chunks.result.Err? then Run(Err(chunks.result.failure), chunks.sent, chunks.logged)
    else After(chunks.sent, chunks.logged, CompleteRun(host, session, script))
  }

  /** What `upload_video` does once every chunk was accepted: finalize; a
      missing or empty workspace id ends it, otherwise the workspace is
      polled and its id returned. */
  function CompleteRun(host: string, session: Session, script: Script): Run<string>
  {
    var finish := FinishRun(session.webServer, session.videoId, script.finish);
    if finish.result.Err? then Run(Err(finish.result.failure), finish.sent, finish.logged)
    else if finish.result.value == "" then Run(Err(FinishFailed), finish.sent, finish.logged)
    else
      var wid := finish.result.value;
      var poll := PollRun(host, wid, script.polls, 0, INITIAL_STATE);
      After(finish.sent, finish.logged, Run(if poll.result.Ok? then Ok(wid) else Err(poll.result.failure), poll.sent, poll.logged))
  }

  // ---------------------------------------------------------------------
  // The chunk requests

  /** Chunk request `i` carries index `i`, offset `i * CHUNK_SIZE`, the
      same chunk count as every other, and the `i`-th planned payload; the
      payloads in index order make up the file. */
  lemma ChunkRequestsCarryFile(session: Session, name: string, file: seq<Byte>)
    ensures var rs := ChunkRequests(session, name, file);
            && |rs| == TotalChunks(|file|)
            && (forall i :: 0 <= i < |rs| ==>
                  && rs[i].UploadChunk?
                  && rs[i].host == session.videoServer
                  && rs[i].index == i
                  && rs[i].offset == i * CHUNK_SIZE
                  && rs[i].totalChunks == |rs|
                  && rs[i].payload == Plan(file)[i]
                  && 0 < |rs[i].payload| <= CHUNK_SIZE)
            && Concat(Plan(file)) == file
  {
    var rs := ChunkRequests(session, name, file);
    forall i | 0 <= i < |rs|
      ensures 0 < |rs[i].payload| <= CHUNK_SIZE
    {
      ChunkShape(file, i);
    }
    PlanCoversFile(file);
  }

  // ---------------------------------------------------------------------
  // Order of the requests

  /** The requests of an upload up to finalize: negotiate, every chunk in
      index order, then finalize. */
  function Steps(host: string, s: Session, name: string, file: seq<Byte>): seq<Request>
  {
    [Negotiate(host, VIDEO_NAME)] + ChunkRequests(s, name, file) + [Finalize(s.webServer, s.videoId)]
  }

  /** The finalize reply names a workspace to poll: no `error` field and a
      non-empty `workspaceId`. */
  predicate GivesWorkspace(reply: Reply)
  {
    reply.Body? && "error" !in reply.json && "workspaceId" in reply.json && reply.json["workspaceId"] != ""
  }

  /** The chunk loop sends chunk requests numbered 0, 1, 2, ... in order. */
  lemma ChunkPhaseInOrder(s: Session, name: string, file: seq<Byte>, replies: seq<Reply>)
    ensures var sent := ChunkPhase(s, name, file, replies).sent;
            forall i :: 0 <= i < |sent| ==> sent[i].UploadChunk? && sent[i].index == i
  {
  }

  /** Whatever the script, the requests go out in protocol order: they are
      a prefix of negotiate, every chunk in index order, finalize; requests
      beyond that are polls, sent only when finalize named a workspace, and
      each polls that workspace. */
  lemma UploadInProtocolOrder(host: string, name: string, file: seq<Byte>, script: Script)
    ensures var r := UploadRun(host, name, file, script);
            && r.sent != [] && r.sent[0] == Negotiate(host, VIDEO_NAME)
            && (!Negotiates(host, script.start) ==> r.sent == [Negotiate(host, VIDEO_NAME)])
            && (Negotiates(host, script.start) ==>
                  var steps := Steps(host, NegotiatedSession(host, script.start), name, file);
                  if |r.sent| <= |steps| then r.sent == steps[..|r.sent|]
                  else
                    && r.sent[..|steps|] == steps
                    && GivesWorkspace(script.finish)
                    && forall j :: |steps| <= j < |r.sent| ==> r.sent[j] == PollStatus(host, script.finish.json["workspaceId"]))
  {
    var negotiate := Negotiate(host, VIDEO_NAME);
    var r := UploadRun(host, name, file, script);
    if Negotiates(host, script.start) {
      var s := NegotiatedSession(host, script.start);
      var t := TransferRun(host, s, name, file, script).sent;
      var rest := ChunkRequests(s, name, file) + [Finalize(s.webServer, s.videoId)];
      var steps := Steps(host, s, name, file);
      assert r.sent == [negotiate] + t;
      assert steps == [negotiate] + rest;
      TransferInOrder(host, s, name, file, script);
      if |t| <= |rest| {
        assert steps[..|r.sent|] == [negotiate] + rest[..|t|];
      } else {
        assert r.sent[..|steps|] == [negotiate] + t[..|rest|];
        assert forall j :: |steps| <= j < |r.sent| ==> r.sent[j] == t[j - 1];
      }
    }
  }

  /** After the negotiation: a prefix of every chunk in index order and
      finalize; anything beyond is polls of the workspace finalize named. */
  lemma TransferInOrder(host: string, s: Session, name: string, file: seq<Byte>, script: Script)
    ensures var t := TransferRun(host, s, name, file, script).sent;
            var rest := ChunkRequests(s, name, file) + [Finalize(s.webServer, s.videoId)];
            if |t| <= |rest| then t == rest[..|t|]
            else
              && t[..|rest|] == rest
              && GivesWorkspace(script.finish)
              && forall j :: |rest| <= j < |t| ==> t[j] == PollStatus(host, script.finish.json["workspaceId"])
  {
    var requests := ChunkRequests(s, name, file);
    var finalize := Finalize(s.webServer, s.videoId);
    var rest := requests + [finalize];
    var chunks := ChunkPhase(s, name, file, script.chunks);
    var t := TransferRun(host, s, name, file, script).sent;
    if chunks.result.Err? {
      var k := LeadingAccepted(script.chunks, TotalChunks(|file|));
      assert t == requests[..k + 1];
      assert rest[..k + 1] == requests[..k + 1];
    } else {
      var finish := FinishRun(s.webServer, s.videoId, script.finish);
      assert chunks.sent == requests;
      if finish.result.Err? || finish.result.value == "" {
        assert t == rest;
      } else {
        var wid := finish.result.value;
        var poll := PollRun(host, wid, script.polls, 0, INITIAL_STATE);
        PollRunRequests(host, wid, script.polls, 0, INITIAL_STATE);
        assert |poll.sent| > 0;
        assert t == rest + poll.sent;
        assert t[..|rest|] == rest;
        assert forall j :: |rest| <= j < |t| ==> t[j] == poll.sent[j - |rest|];
      }
    }
  }

  // ---------------------------------------------------------------------
  // Where each failure stops the upload

  /** An `error` field in the negotiate reply is logged and ends the upload
      before any chunk is sent. */
  lemma StartErrorStopsBeforeChunks(host: string, name: string, file: seq<Byte>, script: Script)
    requires script.start.Body? && "error" in script.start.json
    ensures var r := UploadRun(host, name, file, script);
            var message := StartApiError(script.start.json["error"]);
            && r.result == Err(ApplicationError(message))
            && r.sent == [Negotiate(host, VIDEO_NAME)]
            && r.logged == [message]
  {
  }

  /** Any negotiation that does not yield a session (a transport failure,
      an `error` field, an empty reply, a missing field) ends the upload
      with only the negotiate request sent. */
  lemma NoChunkWithoutSession(host: string, name: string, file: seq<Byte>, script: Script)
    requires !Negotiates(host, script.start)
    ensures var r := UploadRun(host, name, file, script);
            && r.result.Err?
            && r.sent == [Negotiate(host, VIDEO_NAME)]
            && (script.start.Body? && "error" !in script.start.json ==> r.logged == [])
            && (script.start.Body? && script.start.json == map[] ==> r.result == Err(StartFailed))
  {
  }

  /** When chunk `k` fails (or has no reply) after chunks `0 .. k-1` were
      accepted, exactly chunks `0 .. k` were sent and `k` progress messages
      logged; there is no finalize and no poll. */
  lemma ChunkFailureStopsUpload(host: string, name: string, file: seq<Byte>, script: Script, k: nat)
    requires Negotiates(host, script.start)
    requires k < TotalChunks(|file|)
    requires k <= |script.chunks| && forall j :: 0 <= j < k ==> script.chunks[j].Body?
    requires k == |script.chunks| || script.chunks[k].TransportFailure?
    ensures var r := UploadRun(host, name, file, script);
            var s := NegotiatedSession(host, script.start);
            && r.result == Err(if k == |script.chunks| then ScriptEnded(ChunkCall(k)) else TransportError(ChunkCall(k)))
            && r.sent == [Negotiate(host, VIDEO_NAME)] + ChunkRequests(s, name, file)[..k + 1]
            && r.logged == ChunkLines(k, TotalChunks(|file|))
  {
    LeadingAcceptedIs(script.chunks, TotalChunks(|file|), k);
  }

  /** With every chunk accepted, an `error` field in the finalize reply is
      logged and ends the upload after all chunks, before any poll. */
  lemma FinishErrorStopsBeforePolling(host: string, name: string, file: seq<Byte>, script: Script)
    requires Negotiates(host, script.start)
    requires TotalChunks(|file|) <= |script.chunks|
    requires forall j :: 0 <= j < TotalChunks(|file|) ==> script.chunks[j].Body?
    requires script.finish.Body? && "error" in script.finish.json
    ensures var r := UploadRun(host, name, file, script);
            var s := NegotiatedSession(host, script.start);
            var message := FinishApiError(script.finish.json["error"]);
            var total := TotalChunks(|file|);
            && r.result == Err(ApplicationError(message))
            && r.sent == [Negotiate(host, VIDEO_NAME)] + ChunkRequests(s, name, file) + [Finalize(s.webServer, s.videoId)]
            && r.logged == ChunkLines(total, total) + [message]
  {
    var total := TotalChunks(|file|);
    LeadingAcceptedIs(script.chunks, total, total);
  }

  /** With every chunk accepted, an empty workspace id ends the upload
      before any poll. */
  lemma EmptyWorkspaceStopsBeforePolling(host: string, name: string, file: seq<Byte>, script: Script)
    requires Negotiates(host, script.start)
    requires TotalChunks(|file|) <= |script.chunks|
    requires forall j :: 0 <= j < TotalChunks(|file|) ==> script.chunks[j].Body?
    requires script.finish.Body? && "error" !in script.finish.json
    requires "workspaceId" in script.finish.json && script.finish.json["workspaceId"] == ""
    ensures var r := UploadRun(host, name, file, script);
            var s := NegotiatedSession(host, script.start);
            && r.result == Err(FinishFailed)
            && r.sent == [Negotiate(host, VIDEO_NAME)] + ChunkRequests(s, name, file) + [Finalize(s.webServer, s.videoId)]
  {
    var total := TotalChunks(|file|);
    LeadingAcceptedIs(script.chunks, total, total);
  }

  /** An empty file has no chunks: finalize follows negotiation directly. */
  lemma EmptyFileSkipsChunks(host: string, name: string, script: Script)
    requires Negotiates(host, script.start)
    ensures var r := UploadRun(host, name, [], script);
            var s := NegotiatedSession(host, script.start);
            && |r.sent| >= 2
            && r.sent[..2] == [Negotiate(host, VIDEO_NAME), Finalize(s.webServer, s.videoId)]
            && (forall j :: 0 <= j < |r.sent| ==> !r.sent[j].UploadChunk?)
  {
    var s := NegotiatedSession(host, script.start);
    var r := UploadRun(host, name, [], script);
    assert ChunkRequests(s, name, []) == [];
    var finish := FinishRun(s.webServer, s.videoId, script.finish);
    if finish.result.Ok? && finish.result.value != "" {
      PollRunRequests(host, finish.result.value, script.polls, 0, INITIAL_STATE);
    }
  }

  // ---------------------------------------------------------------------
  // A successful upload

  /** A successful upload returns the `workspaceId` of the finalize reply,
      after sending negotiate, every chunk (which together carry the whole
      file), finalize, and status polls for that same workspace, the last
      of which reported state 0. */
  lemma SuccessfulUpload(host: string, name: string, file: seq<Byte>, script: Script)
    requires UploadRun(host, name, file, script).result.Ok?
    ensures var r := UploadRun(host, name, file, script);
            var wid := r.result.value;
            && Negotiates(host, script.start)
            && script.finish.Body? && "workspaceId" in script.finish.json
            && wid == script.finish.json["workspaceId"] && wid != ""
            && var s := NegotiatedSession(host, script.start);
            var prefix := [Negotiate(host, VIDEO_NAME)] + ChunkRequests(s, name, file) + [Finalize(s.webServer, s.videoId)];
            && |r.sent| > |prefix|
            && r.sent[..|prefix|] == prefix
            && (forall j :: |prefix| <= j < |r.sent| ==> r.sent[j] == PollStatus(host, wid))
            && Seen(script.polls, 0) != [] && Seen(script.polls, 0)[|Seen(script.polls, 0)| - 1].state == 0
            && Concat(Plan(file)) == file
  {
    var r := UploadRun(host, name, file, script);
    var s := NegotiatedSession(host, script.start);
    var total := TotalChunks(|file|);
    var n := LeadingAccepted(script.chunks, total);
    var wid := r.result.value;
    var prefix := [Negotiate(host, VIDEO_NAME)] + ChunkRequests(s, name, file) + [Finalize(s.webServer, s.videoId)];
    var poll := PollRun(host, wid, script.polls, 0, INITIAL_STATE);
    PollRunRequests(host, wid, script.polls, 0, INITIAL_STATE);
    assert r.sent == prefix + poll.sent;
    assert r.sent[..|prefix|] == prefix;
    PlanCoversFile(file);
  }

  /** A 25 MiB file against a service that accepts everything and reports
      state 0 at once: negotiate, three chunk requests, finalize and one
      poll are sent, and the upload returns the workspace id "w1". */
  lemma TwentyFiveMiBUpload(host: string, name: string, file: seq<Byte>)
    requires |file| == 25 * 1024 * 1024
    ensures var negotiated := map["video_id" := "v1", "video_server" := "vs", "server" := "ws", "token" := "t"];
            var script := Script(Body(negotiated), [Body(map[]), Body(map[]), Body(map[])],
                                 Body(map["workspaceId" := "w1"]), [Polled(Status(0, "done"))]);
            var r := UploadRun(host, name, file, script);
            var chunks := ChunkRequests(Session("v1", "vs", "ws", "t"), name, file);
            && r.result == Ok("w1")
            && |chunks| == 3
            && r.sent == [Negotiate(host, VIDEO_NAME)] + chunks + [Finalize("ws", "v1"), PollStatus(host, "w1")]
            && r.logged == [ChunkUploaded(1, 3), ChunkUploaded(2, 3), ChunkUploaded(3, 3), StateChanged(Status(0, "done"))]
  {
    var negotiated := map["video_id" := "v1", "video_server" := "vs", "server" := "ws", "token" := "t"];
    var replies := [Body(map[]), Body(map[]), Body(map[])];
    var script := Script(Body(negotiated), replies, Body(map["workspaceId" := "w1"]), [Polled(Status(0, "done"))]);
    assert "video_id" in negotiated && |negotiated| != 0;
    var s := Session("v1", "vs", "ws", "t");
    assert SessionOf(negotiated) == Ok(s);
    TwentyFiveMiBFile(file);
    ChunkPhaseCompletes(s, name, file, replies);
    assert ChunkLines(3, 3) == [ChunkUploaded(1, 3), ChunkUploaded(2, 3), ChunkUploaded(3, 3)];
    assert FinishRun(s.webServer, s.videoId, script.finish) == Run(Ok("w1"), [Finalize("ws", "v1")], []);
    assert PollRun(host, "w1", script.polls, 0, INITIAL_STATE) ==
           Run(Ok(()), [PollStatus(host, "w1")], [StateChanged(Status(0, "done"))]);
  }
}
