/** `AugmendVideoClient`: the client object whose methods send requests
    and pass messages to its logging callback.  The service is scripted:
    each method receives the replies its requests get.  `sent` records the
    requests in the order they go out and `log` the messages in the order
    they are logged.  Every method is proved to do exactly what the
    corresponding function of the Upload and Polling modules describes. */
module Client {
  import opened Chunking
  import opened Protocol
  import opened Polling
  import opened Upload

  /** The root host a client talks to when none is given. */
  const DEFAULT_ROOT_HOST: string := "augmend.com"

  class VideoClient {
    /** The host of the negotiate and status endpoints. */
    const rootHost: string
    /** The messages passed to the logging callback, oldest first. */
    var log: seq<Message>
    /** The requests sent, oldest first. */
    var sent: seq<Request>

    constructor (rootHost: string)
      ensures this.rootHost == rootHost && log == [] && sent == []
    {
      this.rootHost := rootHost;
      log := [];
      sent := [];
    }

    /** A client for the default root host. */
    constructor WithDefaultHost()
      ensures rootHost == DEFAULT_ROOT_HOST && log == [] && sent == []
    {
      rootHost := DEFAULT_ROOT_HOST;
      log := [];
      sent := [];
    }

    /** `_start_video_import_multipart`. */
    method StartVideoImportMultipart(reply: Reply) returns (r: Result<Json>)
      modifies this
      ensures var run := StartRun(rootHost, reply);
              r == run.result && sent == old(sent) + run.sent && log == old(log) + run.logged
    {
      sent := sent + [Negotiate(rootHost, VIDEO_NAME)];
      if reply.TransportFailure? {
        return Err(TransportError(StartCall));
      }
      var data := reply.json;
      if "error" in data {
        var message := StartApiError(data["error"]);
        log := log + [message];
        return Err(ApplicationError(message));
      }
      return Ok(data);
    }

    /** `_finish_video_import`. */
    method FinishVideoImport(webServer: string, videoId: string, reply: Reply) returns (r: Result<string>)
      modifies this
      ensures var run := FinishRun(webServer, videoId, reply);
              r == run.result && sent == old(sent) + run.sent && log == old(log) + run.logged
    {
      sent := sent + [Finalize(webServer, videoId)];
      if reply.TransportFailure? {
        return Err(TransportError(FinishCall));
      }
      var data := reply.json;
      if "error" in data {
        var message := FinishApiError(data["error"]);
        log := log + [message];
        return Err(ApplicationError(message));
      }
      if "workspaceId" !in data {
        return Err(ProtocolError(FinishCall));
      }
      return Ok(data["workspaceId"]);
    }

    /** `_wait_for_video_processing`: poll until a state 0 is read. */
    method WaitForVideoProcessing(wid: string, replies: seq<PollReply>) returns (r: Result<()>)
      modifies this
      ensures var run := PollRun(rootHost, wid, replies, 0, INITIAL_STATE);
              r == run.result && sent == old(sent) + run.sent && log == old(log) + run.logged
    {
      ghost var run := PollRun(rootHost, wid, replies, 0, INITIAL_STATE);
      var lastState := INITIAL_STATE;
      var next := 0;
      while true
        invariant next <= |replies|
        invariant PollRun(rootHost, wid, replies, next, lastState).result == run.result
        invariant sent + PollRun(rootHost, wid, replies, next, lastState).sent == old(sent) + run.sent
        invariant log + PollRun(rootHost, wid, replies, next, lastState).logged == old(log) + run.logged
        decreases |replies| - next
      {
        sent := sent + [PollStatus(rootHost, wid)];
        if next == |replies| {
          return Err(ScriptEnded(PollCall));
        }
        var reply := replies[next];
        if reply.Unreachable? {
          return Err(TransportError(PollCall));
        }
        if reply.Unreadable? {
          return Err(ProtocolError(PollCall));
        }
        var state, desc := reply.status.state, reply.status.desc;
        if state == 0 {
          if state != lastState {
            log := log + [StateChanged(Status(state, desc))];
          }
          return Ok(());
        }
        PollRunRound(rootHost, wid, replies, next, lastState);
        if state != lastState {
          log := log + [StateChanged(Status(state, desc))];
          lastState := state;
        }
        next := next + 1;
      }
    }

    /** `upload_video`: negotiate, send every chunk in order, finalize,
        wait for processing, and return the workspace id. */
    method UploadVideo(name: string, file: seq<Byte>, script: Script) returns (r: Result<string>)
      modifies this
      ensures var run := UploadRun(rootHost, name, file, script);
              r == run.result && sent == old(sent) + run.sent && log == old(log) + run.logged
    {
      var start := StartVideoImportMultipart(script.start);
      if start.Err? {
        return Err(start.failure);
      }
      var data := start.value;
      if |data| == 0 {
        return Err(StartFailed);
      }
      if "video_id" !in data || "video_server" !in data || "server" !in data || "token" !in data {
        return Err(ProtocolError(StartCall));
      }
      var videoId, videoServer, webServer, token := data["video_id"], data["video_server"], data["server"], data["token"];
      var session := Session(videoId, videoServer, webServer, token);
      assert SessionOf(data) == Ok(session);
      r := SendChunksAndComplete(session, name, file, script);
    }

    /** The part of `upload_video` after the session fields were read: the
        chunk loop, then finalize and the wait for processing. */
    method SendChunksAndComplete(session: Session, name: string, file: seq<Byte>, script: Script)
      returns (r: Result<string>)
      modifies this
      ensures var run := TransferRun(rootHost, session, name, file, script);
              r == run.result && sent == old(sent) + run.sent && log == old(log) + run.logged
    {
      var chunks := SendChunks(session, name, file, script.chunks);
      if chunks.Err? {
        return Err(chunks.failure);
      }
      r := FinishAndWait(session, script);
    }

    /** The chunk loop of `upload_video`: chunk `i` is read at offset
        `i * CHUNK_SIZE` and sent with its index, the chunk count and its
        offset; each accepted chunk is logged, and a failed one ends the loop. */
    method SendChunks(session: Session, name: string, file: seq<Byte>, replies: seq<Reply>)
      returns (r: Result<()>)
      modifies this
      ensures var run := ChunkPhase(session, name, file, replies);
              r == run.result && sent == old(sent) + run.sent && log == old(log) + run.logged
    {
      var videoId, videoServer, token := session.videoId, session.videoServer, session.token;
      var totalSize := |file|;
      var totalChunks := totalSize / CHUNK_SIZE + (if totalSize % CHUNK_SIZE != 0 then 1 else 0);
      var chunkIndex := 0;
      while chunkIndex < totalChunks
        invariant chunkIndex <= totalChunks == TotalChunks(|file|)
        invariant chunkIndex <= |replies| && forall j :: 0 <= j < chunkIndex ==> replies[j].Body?
        invariant sent == old(sent) + ChunkRequests(session, name, file)[..chunkIndex]
        invariant log == old(log) + ChunkLines(chunkIndex, totalChunks)
      {
        var chunkOffset := chunkIndex * CHUNK_SIZE;
        var chunkData := ReadAt(file, chunkOffset, CHUNK_SIZE);
        sent := sent + [UploadChunk(videoServer, name, videoId, token, chunkIndex, totalChunks, chunkOffset, chunkData)];
        assert ChunkRequests(session, name, file)[..chunkIndex + 1] ==
               ChunkRequests(session, name, file)[..chunkIndex] + [ChunkRequest(session, name, file, chunkIndex)];
        if chunkIndex == |replies| || replies[chunkIndex].TransportFailure? {
          ChunkPhaseStopsAt(session, name, file, replies, chunkIndex);
          if chunkIndex == |replies| {
            return Err(ScriptEnded(ChunkCall(chunkIndex)));
          }
          return Err(TransportError(ChunkCall(chunkIndex)));
        }
        log := log + [ChunkUploaded(chunkIndex + 1, totalChunks)];
        assert ChunkLines(chunkIndex + 1, totalChunks) ==
               ChunkLines(chunkIndex, totalChunks) + [ChunkUploaded(chunkIndex + 1, totalChunks)];
        chunkIndex := chunkIndex + 1;
      }
      ChunkPhaseCompletes(session, name, file, replies);
      assert ChunkRequests(session, name, file)[..totalChunks] == ChunkRequests(session, name, file);
      return Ok(());
    }

    /** The end of `upload_video`: finalize, check the workspace id, wait
        for processing and return the id. */
    method FinishAndWait(session: Session, script: Script) returns (r: Result<string>)
      modifies this
      ensures var run := CompleteRun(rootHost, session, script);
              r == run.result && sent == old(sent) + run.sent && log == old(log) + run.logged
    {
      var wid := FinishVideoImport(session.webServer, session.videoId, script.finish);
      if wid.Err? {
        return Err(wid.failure);
      }
      if wid.value == "" {
        return Err(FinishFailed);
      }
      var done := WaitForVideoProcessing(wid.value, script.polls);
      if done.Err? {
        return Err(done.failure);
      }
      return Ok(wid.value);
    }
  }
}
