/** What the video client exchanges with the service: the replies it can
    get, the requests it sends, the failures that end an upload, and the
    text of the messages it passes to its logging callback. */
module Protocol {
  import opened Chunking

  /** A decoded JSON object, its values abstracted to strings. */
  type Json = map<string, string>

  /** The reply to a POST: either the request raises (no connection, or
      `raise_for_status` on an error status), or the body is a JSON object. */
  datatype Reply = TransportFailure | Body(json: Json)

  /** One processing status, the `state` and `desc` fields of a poll reply. */
  datatype Status = Status(state: int, desc: string)

  /** The reply to a status poll: the GET itself raises (no connection or
      a timeout; the HTTP status is not checked), the body holds no
      readable status, or it holds one. */
  datatype PollReply = Unreachable | Unreadable | Polled(status: Status)

  /** The replies a scripted service gives, one list per endpoint. */
  datatype Script = Script(start: Reply, chunks: seq<Reply>, finish: Reply, polls: seq<PollReply>)

  /** The four remote calls, for naming the one that failed. */
  datatype Call = StartCall | ChunkCall(index: nat) | FinishCall | PollCall

  /** Why an upload stopped. */
  datatype Failure =
    | TransportError(call: Call)         // the request raised: no connection, or an error HTTP status
    | ApplicationError(message: Message) // the reply carried an `error` field; the message is also logged
    | StartFailed                        // the negotiate reply was an empty object
    | FinishFailed                       // the workspace id in the finalize reply was empty
    | ProtocolError(call: Call)          // an expected field was missing from the reply
    | ScriptEnded(call: Call)            // the script holds no reply for this request

  datatype Result<T> = Ok(value: T) | Err(failure: Failure)

  /** The negotiated upload session. */
  datatype Session = Session(videoId: string, videoServer: string, webServer: string, token: string)

  /** The requests the client sends, with the host each goes to. */
  datatype Request =
    | Negotiate(host: string, videoName: string)
    | UploadChunk(host: string, fileName: string, videoId: string, token: string,
                  index: nat, totalChunks: nat, offset: nat, payload: seq<Byte>)
    | Finalize(host: string, videoId: string)
    | PollStatus(host: string, workspaceId: string)

  /** The messages passed to the logging callback; `Text` gives the exact
      string the callback receives. */
  datatype Message =
    | ChunkUploaded(chunk: nat, total: nat)  // chunk number `chunk` (1-based) of `total` was accepted
    | StartApiError(error: string)           // the negotiate reply carried `error`
    | FinishApiError(error: string)          // the finalize reply carried `error`
    | StateChanged(status: Status)           // the poller read a state other than the last one

  /** The observable effect of running (part of) an upload: its result,
      the requests sent in order, and the messages logged in order. */
  datatype Run<T> = Run(result: Result<T>, sent: seq<Request>, logged: seq<Message>)

  function DigitChar(d: nat): char
    requires d < 10
  {
    "0123456789"[d]
  }

  /** The decimal digits of `n`, as Python's `str` writes them. */
  function NatToString(n: nat): (s: string)
    ensures |s| > 0
    ensures forall j :: 0 <= j < |s| ==> '0' <= s[j] <= '9'
    ensures s[0] == '0' ==> n == 0
    ensures |s| == 1 || s[0] != '0'
    decreases n
  {
    if n < 10 then [DigitChar(n)] else NatToString(n / 10) + [DigitChar(n % 10)]
  }

  /** The number a string of decimal digits denotes. */
  function DigitsValue(s: string): nat
    requires forall j :: 0 <= j < |s| ==> '0' <= s[j] <= '9'
  {
    if s == [] then 0 else 10 * DigitsValue(s[..|s| - 1]) + (s[|s| - 1] - '0') as nat
  }

  /** The decimal text of a number reads back as that number. */
  lemma {:induction false} NatToStringRoundTrip(n: nat)
    ensures DigitsValue(NatToString(n)) == n
  {
    var s := NatToString(n);
    if n >= 10 {
      NatToStringRoundTrip(n / 10);
      assert s[..|s| - 1] == NatToString(n / 10);
    }
  }

  function IntToString(i: int): string
  {
    if i < 0 then "-" + NatToString(-i) else NatToString(i)
  }

  /** `k/total` in decimal. */
  function ChunkFraction(k: nat, total: nat): string
  {
    NatToString(k) + "/" + NatToString(total)
  }

  /** The text of a message, as the client formats it. */
  function Text(m: Message): string
  {
    match m
    case ChunkUploaded(chunk, total) => "Chunk " + ChunkFraction(chunk, total) + " uploaded successfully"
    case StartApiError(error) => "Error from start_video_import_multipart API: " + error
    case FinishApiError(error) => "Error from finish_video_import API: " + error
    case StateChanged(status) => "Current state is: " + IntToString(status.state) + " - " + status.desc
  }

  /** The number of decimal digits `w` starts with. */
  function DigitRun(w: string): nat
  {
    if w == [] || !('0' <= w[0] <= '9') then 0 else 1 + DigitRun(w[1..])
  }

  /** Digits followed by a non-digit: the run of leading digits is exactly
      the digits. */
  lemma {:induction false} DigitRunOf(x: string, u: string)
    requires forall j :: 0 <= j < |x| ==> '0' <= x[j] <= '9'
    requires u != [] && !('0' <= u[0] <= '9')
    ensures DigitRun(x + u) == |x|
  {
    if x != [] {
      assert (x + u)[1..] == x[1..] + u;
      DigitRunOf(x[1..], u);
    }
  }

  /** Equal strings with the same prefix and suffix have the same middle. */
  lemma Cancel(p: string, m1: string, m2: string, s: string)
    requires p + m1 + s == p + m2 + s
    ensures m1 == m2
  {
    assert m1 == (p + m1 + s)[|p|..|p| + |m1|];
  }

  /** `k/total` determines both numbers. */
  lemma FractionDetermines(a: nat, b: nat, c: nat, d: nat)
    requires ChunkFraction(a, b) == ChunkFraction(c, d)
    ensures a == c && b == d
  {
    var na, nb, nc, nd := NatToString(a), NatToString(b), NatToString(c), NatToString(d);
    assert ChunkFraction(a, b) == na + ("/" + nb) && ChunkFraction(c, d) == nc + ("/" + nd);
    DigitRunOf(na, "/" + nb);
    DigitRunOf(nc, "/" + nd);
    assert na == ChunkFraction(a, b)[..|na|] && nc == ChunkFraction(c, d)[..|nc|];
    assert nb == ChunkFraction(a, b)[|na| + 1..] && nd == ChunkFraction(c, d)[|nc| + 1..];
    NatToStringRoundTrip(a);
    NatToStringRoundTrip(c);
    NatToStringRoundTrip(b);
    NatToStringRoundTrip(d);
  }

  /** A progress message names its chunk number and chunk count
      unambiguously: the text determines both numbers. */
  lemma ChunkTextDetermines(a: nat, b: nat, c: nat, d: nat)
    requires Text(ChunkUploaded(a, b)) == Text(ChunkUploaded(c, d))
    ensures a == c && b == d
  {
    Cancel("Chunk ", ChunkFraction(a, b), ChunkFraction(c, d), " uploaded successfully");
    FractionDetermines(a, b, c, d);
  }
}
