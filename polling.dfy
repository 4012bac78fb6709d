/** The processing poller `_wait_for_video_processing`: poll the status of
    a workspace, log a state whenever it differs from the last one logged,
    and return on the first state 0.  `PollRun` follows the loop one reply
    at a time; `Seen` and `Changes` describe its outcome independently. */
module Polling {
  import opened Protocol

  /** The sentinel the poller starts from as "last logged state". */
  const INITIAL_STATE: int := -1000

  /** What the poll loop does with the scripted replies from index `next`
      on, having last logged `lastState`: each round sends one status
      request and reads the next reply. */
  function PollRun(host: string, wid: string, replies: seq<PollReply>, next: nat, lastState: int): Run<()>
    requires next <= |replies|
    decreases |replies| - next
  {
    var request := PollStatus(host, wid);
    if next == |replies| then Run(Err(ScriptEnded(PollCall)), [request], [])
    else
      match replies[next]
      case Unreachable => Run(Err(TransportError(PollCall)), [request], [])
      case Unreadable => Run(Err(ProtocolError(PollCall)), [request], [])
      case Polled(status) =>
        var changed := status.state != lastState;
        var lines := if changed then [StateChanged(status)] else [];
        var last := if changed then status.state else lastState;
        if status.state == 0 then Run(Ok(()), [request], lines)
        else
          var rest := PollRun(host, wid, replies, next + 1, last);
          Run(rest.result, [request] + rest.sent, lines + rest.logged)
  }

  /** A round that reads a non-zero status: one request, the status logged
      if it differs from `lastState`, and the rest compared against it. */
  lemma PollRunRound(host: string, wid: string, replies: seq<PollReply>, next: nat, lastState: int)
    requires next < |replies| && replies[next].Polled? && replies[next].status.state != 0
    ensures var p := replies[next].status;
            var rest := PollRun(host, wid, replies, next + 1, p.state);
            PollRun(host, wid, replies, next, lastState) ==
              Run(rest.result, [PollStatus(host, wid)] + rest.sent,
                  (if p.state != lastState then [StateChanged(p)] else []) + rest.logged)
  {
  }

  /** The statuses the poller reads from index `next` on: every reply up
      to and including the first whose state is 0, stopping short of a
      reply without a status. */
  function Seen(replies: seq<PollReply>, next: nat): seq<Status>
    requires next <= |replies|
    decreases |replies| - next
  {
    if next == |replies| || !replies[next].Polled? then []
    else if replies[next].status.state == 0 then [replies[next].status]
    else [replies[next].status] + Seen(replies, next + 1)
  }

  /** The statuses of `ps` whose state differs from the state just before
      them (from `initial` for the first): consecutive repeats removed. */
  function Changes(initial: int, ps: seq<Status>): seq<Status>
    decreases |ps|
  {
    if ps == [] then []
    else
      var n := |ps| - 1;
      var before := if n == 0 then initial else ps[n - 1].state;
      Changes(initial, ps[..n]) + (if ps[n].state != before then [ps[n]] else [])
  }

  /** The log messages for a sequence of statuses. */
  function Lines(ps: seq<Status>): seq<Message>
  {
    seq(|ps|, i requires 0 <= i < |ps| => StateChanged(ps[i]))
  }

  /** The state the poller compares against after reading `ps`. */
  function LastState(initial: int, ps: seq<Status>): int
  {
    if ps == [] then initial else ps[|ps| - 1].state
  }

  lemma LinesAppend(a: seq<Status>, b: seq<Status>)
    ensures Lines(a + b) == Lines(a) + Lines(b)
  {
  }

  /** Reading one more status in front: it is kept exactly when it differs
      from the state before it, and it becomes the state the rest is
      compared against. */
  lemma {:induction false} ChangesCons(initial: int, p: Status, ps: seq<Status>)
    ensures Changes(initial, [p] + ps) ==
            (if p.state != initial then [p] else []) + Changes(p.state, ps)
    decreases |ps|
  {
    var all := [p] + ps;
    if ps == [] {
      assert all[..0] == [];
    } else {
      var n := |ps|;
      assert all[..n] == [p] + ps[..n - 1];
      ChangesCons(initial, p, ps[..n - 1]);
    }
  }

  /** The last status kept by `Changes` has the state of the last status
      read, so consecutive kept statuses always have different states and
      the first one differs from `initial`. */
  lemma {:induction false} ChangesAlternate(initial: int, ps: seq<Status>)
    ensures var cs := Changes(initial, ps);
            && (cs != [] ==> cs[0].state != initial)
            && (forall j :: 0 < j < |cs| ==> cs[j].state != cs[j - 1].state)
            && LastState(initial, cs) == LastState(initial, ps)
    decreases |ps|
  {
    if ps != [] {
      var n := |ps| - 1;
      var before := if n == 0 then initial else ps[n - 1].state;
      var prior := Changes(initial, ps[..n]);
      ChangesAlternate(initial, ps[..n]);
      assert LastState(initial, ps[..n]) == before;
      if ps[n].state != before {
        var cs := prior + [ps[n]];
        assert Changes(initial, ps) == cs;
        assert forall j :: 0 <= j < |prior| ==> cs[j] == prior[j];
        assert prior != [] ==> cs[0] == prior[0] && cs[|prior| - 1] == prior[|prior| - 1];
      } else {
        assert Changes(initial, ps) == prior;
      }
    }
  }

  /** The log of the poll loop is the statuses it reads, with consecutive
      repeats removed. */
  lemma {:induction false} PollLogIsChanges(host: string, wid: string, replies: seq<PollReply>, next: nat, lastState: int)
    requires next <= |replies|
    ensures PollRun(host, wid, replies, next, lastState).logged == Lines(Changes(lastState, Seen(replies, next)))
    decreases |replies| - next
  {
    if next < |replies| && replies[next].Polled? {
      var p := replies[next].status;
      var head: seq<Status> := if p.state != lastState then [p] else [];
      var logged := PollRun(host, wid, replies, next, lastState).logged;
      if p.state == 0 {
        ChangesCons(lastState, p, []);
        calc {
          Lines(Changes(lastState, Seen(replies, next)));
          { assert Seen(replies, next) == [p] + []; }
          Lines(head + Changes(p.state, []));
          { assert head + Changes(p.state, []) == head; }
          Lines(head);
          logged;
        }
      } else {
        var later := Seen(replies, next + 1);
        var rest := PollRun(host, wid, replies, next + 1, p.state).logged;
        PollRunRound(host, wid, replies, next, lastState);
        PollLogIsChanges(host, wid, replies, next + 1, p.state);
        calc {
          Lines(Changes(lastState, Seen(replies, next)));
          { assert Seen(replies, next) == [p] + later; }
          Lines(Changes(lastState, [p] + later));
          { ChangesCons(lastState, p, later); }
          Lines(head + Changes(p.state, later));
          { LinesAppend(head, Changes(p.state, later)); }
          Lines(head) + Lines(Changes(p.state, later));
          Lines(head) + rest;
          logged;
        }
      }
    }
  }

  /** The poll loop sends one status request for the workspace per reply it
      reads, plus one for the reply that was missing or had no status, and it
      succeeds exactly when the last status read has state 0; otherwise it
      failed for want of a reply, on a request that raised, or on a reply
      without a status. */
  lemma {:induction false} PollRunRequests(host: string, wid: string, replies: seq<PollReply>, next: nat, lastState: int)
    requires next <= |replies|
    ensures var r := PollRun(host, wid, replies, next, lastState);
            var seen := Seen(replies, next);
            && next + |seen| <= |replies|
            && |r.sent| == |seen| + (if r.result.Ok? then 0 else 1)
            && (forall j :: 0 <= j < |r.sent| ==> r.sent[j] == PollStatus(host, wid))
            && (r.result.Ok? <==> seen != [] && seen[|seen| - 1].state == 0)
            && (r.result.Err? ==>
                  r.result.failure ==
                    if next + |seen| == |replies| then ScriptEnded(PollCall)
                    else if replies[next + |seen|].Unreachable? then TransportError(PollCall)
                    else ProtocolError(PollCall))
    decreases |replies| - next
  {
    if next < |replies| && replies[next].Polled? && replies[next].status.state != 0 {
      var p := replies[next].status;
      PollRunRequests(host, wid, replies, next + 1, if p.state != lastState then p.state else lastState);
    }
  }

  /** Once the loop has stopped on a reply, further replies are never
      consumed: appending to the script changes nothing. */
  lemma {:induction false} PollIgnoresLaterReplies(host: string, wid: string, replies: seq<PollReply>, more: seq<PollReply>, next: nat, lastState: int)
    requires next <= |replies|
    requires PollRun(host, wid, replies, next, lastState).result != Err(ScriptEnded(PollCall))
    ensures PollRun(host, wid, replies + more, next, lastState) == PollRun(host, wid, replies, next, lastState)
    decreases |replies| - next
  {
    assert (replies + more)[next] == replies[next];
    if replies[next].Polled? && replies[next].status.state != 0 {
      var p := replies[next].status;
      PollIgnoresLaterReplies(host, wid, replies, more, next + 1, if p.state != lastState then p.state else lastState);
    }
  }

  /** The first reply is always logged unless its state is the sentinel. */
  lemma FirstStatusLogged(host: string, wid: string, replies: seq<PollReply>)
    requires replies != [] && replies[0].Polled? && replies[0].status.state != INITIAL_STATE
    ensures var r := PollRun(host, wid, replies, 0, INITIAL_STATE);
            r.logged != [] && r.logged[0] == StateChanged(replies[0].status)
  {
  }

  /** Replies (5, queued), (5, queued), (10, running), (0, done): three
      messages, the repeated state logged once, and four requests. */
  lemma QueuedRunningDone(host: string, wid: string)
    ensures var queued, running, done := Status(5, "queued"), Status(10, "running"), Status(0, "done");
            var r := PollRun(host, wid, [Polled(queued), Polled(queued), Polled(running), Polled(done)], 0, INITIAL_STATE);
            && r.result == Ok(())
            && |r.sent| == 4
            && r.logged == [StateChanged(queued), StateChanged(running), StateChanged(done)]
  {
    var queued, running, done := Status(5, "queued"), Status(10, "running"), Status(0, "done");
    var replies := [Polled(queued), Polled(queued), Polled(running), Polled(done)];
    var request := PollStatus(host, wid);
    assert PollRun(host, wid, replies, 3, 10) == Run(Ok(()), [request], [StateChanged(done)]);
    assert PollRun(host, wid, replies, 2, 5) == Run(Ok(()), [request, request], [StateChanged(running), StateChanged(done)]);
    assert PollRun(host, wid, replies, 1, 5) == Run(Ok(()), [request, request, request], [StateChanged(running), StateChanged(done)]);
  }
}
