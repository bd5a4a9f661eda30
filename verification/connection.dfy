/** `H3Connection`: the worker's per-connection state and the methods that move it. quiche is
    an oracle whose answers are scripts: any sequence of poll results and body reads, after
    which it answers `Done`. */
module Connection {
  import opened Common
  import opened ReceiveSteps
  import opened Queues
  import opened Blocked
  import opened Sending
  import opened WorkerLog

  class H3Connection {
    const window: Option<nat>
    const conn: nat
    var readCredit: map<StreamId, nat>
    var pendingBody: map<StreamId, RecvBuf>
    var pendingReadable: set<StreamId>
    var largestAccepted: Option<StreamId>
    const blocked: BlockedStreams
    var trailerFin: set<StreamId>
    var nextRequest: StreamId
    // quiche's answers still to come, and its answers to all body reads
    var polls: seq<PollAnswer>
    var recvs: seq<RecvAnswer>
    ghost const script: seq<RecvAnswer>
    // the run so far, and what it makes of every stream and of the tokens sent
    ghost var trace: Trace
    ghost var streams: Streams
    ghost var log: seq<(StreamId, Token)>
    ghost var bodyReads: Reads

    ghost predicate Explained()
      reads this`trace, this`streams, this`log, this`bodyReads
    {
      Explains(window, trace, streams, log, bodyReads)
    }

    /** The maps are exactly what a legal run of primitive steps leaves. */
    ghost predicate Core()
      reads this`readCredit, this`pendingBody, this`pendingReadable, this`trace, this`streams, this`log, this`bodyReads
    {
      Explained() && Tracks(readCredit, pendingBody, pendingReadable, streams)
    }

    /** The body reads so far got quiche's answers one after the other; `recvs` is what is left. */
    ghost predicate OnScript()
      reads this`recvs, this`bodyReads
    {
      Follows(script, bodyReads) && recvs == Unread(script, bodyReads)
    }

    /** Between events: an open DATA edge is in `pending_readable` unless its last read
        returned zero bytes; only then is a receive buffer kept, neither empty nor full. */
    ghost predicate Settled()
      reads this`streams
    {
      forall id {:trigger streams(id)} :: SettledStream(streams(id))
    }

    /** Earlier batches flatten to `sent`; with the current one they are the whole log. */
    ghost predicate InSync(sent: seq<(StreamId, Token)>, batch: seq<Event>)
      reads this`log
    {
      log == sent + Flat(batch, conn)
    }

    constructor (conn: nat, window: Option<nat>, polls: seq<PollAnswer>, recvs: seq<RecvAnswer>)
      ensures Core() && Settled() && OnScript() && InSync([], []) && blocked.Ok() && fresh(blocked) && blocked.members == {}
      ensures this.conn == conn && this.window == window && this.polls == polls && this.recvs == recvs
      ensures readCredit == map[] && pendingBody == map[] && pendingReadable == {}
      ensures forall id :: streams(id) == IDLE
    {
      this.conn, this.window, this.polls, this.recvs, this.script := conn, window, polls, recvs, recvs;
      readCredit, pendingBody, pendingReadable := map[], map[], {};
      largestAccepted, trace, log, bodyReads := None, [], [], [];
      blocked := new BlockedStreams();
      trailerFin, nextRequest := {}, 0;
      streams := (x: StreamId) => IDLE;
    }

    // ----- primitive steps -----

    ghost method Record(id: StreamId, step: Step)
      requires Explained() && Enabled(streams(id), step) && StepReads(id, step) == []
      modifies `trace, `streams, `log
      ensures old(trace) <= trace && Explained()
      ensures streams(id) == Apply(window, old(streams)(id), step)
      ensures SameElsewhere(old(streams), streams, id)
      ensures log == old(log) + StepTokens(old(streams)(id), id, step)
    {
      ghost var next := Update(streams, id, Apply(window, streams(id), step));
      ExplainsPush(window, trace, streams, next, log, bodyReads, id, step);
      assert bodyReads + [] == bodyReads;
      trace, streams, log := trace + [(id, step)], next, log + StepTokens(streams(id), id, step);
    }

    /** A body read. */
    ghost method RecordRead(id: StreamId, step: Step)
      requires Explained() && Enabled(streams(id), step) && (step.Recv? || step.Settle?)
      modifies `trace, `streams, `log, `bodyReads
      ensures old(trace) <= trace && Explained() && log == old(log)
      ensures streams(id) == Apply(window, old(streams)(id), step)
      ensures SameElsewhere(old(streams), streams, id)
      ensures bodyReads == old(bodyReads) + StepReads(id, step)
    {
      ghost var next := Update(streams, id, Apply(window, streams(id), step));
      ExplainsPush(window, trace, streams, next, log, bodyReads, id, step);
      assert log + [] == log;
      trace, streams, bodyReads := trace + [(id, step)], next, bodyReads + StepReads(id, step);
    }

    method AddReadCredit(id: StreamId, bytes: nat)
      requires Core()
      modifies `readCredit, `trace, `streams, `log
      ensures old(trace) <= trace && Core()
      ensures streams(id) == Apply(window, old(streams)(id), Grant(bytes))
      ensures SameElsewhere(old(streams), streams, id)
      ensures log == old(log)
    {
      Record(id, Grant(bytes));
      if window.Some? && id in readCredit {
        readCredit := readCredit[id := Min(readCredit[id] + bytes, window.value)];
      }
    }

    /** A stream without a credit entry gets the whole window. */
    method GrantWindow(id: StreamId)
      requires Core() && id !in pendingBody
      modifies `readCredit, `trace, `streams, `log
      ensures old(trace) <= trace && Core() && log == old(log) + [(id, HeadersToken)]
      ensures streams(id) == Apply(window, old(streams)(id), Open)
      ensures SameElsewhere(old(streams), streams, id)
    {
      assert streams(id).pending == Get(pendingBody, id);
      Record(id, Open);
      if window.Some? && id !in readCredit {
        readCredit := readCredit[id := window.value];
      }
    }

    method OpenStream(id: StreamId, fin: bool, batch: seq<Event>, ghost sent: seq<(StreamId, Token)>)
      returns (out: seq<Event>)
      requires Core() && InSync(sent, batch) && id !in pendingBody
      modifies `readCredit, `trace, `streams, `log
      ensures old(trace) <= trace && Core() && InSync(sent, out)
      ensures streams(id) == Apply(window, old(streams)(id), Open)
      ensures SameElsewhere(old(streams), streams, id)
      ensures out == batch + [HeadersEvent(conn, id, fin, None)]
    {
      GrantWindow(id);
      out := batch + [HeadersEvent(conn, id, fin, None)];
      FlatPush(batch, HeadersEvent(conn, id, fin, None), conn);
      StaysInSync(old(log), sent, Flat(batch, conn), (id, HeadersToken));
    }

    method Park(id: StreamId)
      requires Core() && streams(id).edge
      modifies `pendingReadable, `trace, `streams, `log
      ensures old(trace) <= trace && Core() && pendingReadable == old(pendingReadable) + {id}
      ensures streams(id) == Apply(window, old(streams)(id), ReceiveSteps.Park)
      ensures SameElsewhere(old(streams), streams, id)
      ensures log == old(log)
    {
      Record(id, ReceiveSteps.Park);
      pendingReadable := pendingReadable + {id};
    }

    method Pick(id: StreamId)
      requires Core() && id in pendingReadable && (id in readCredit ==> readCredit[id] > 0)
      modifies `pendingReadable, `trace, `streams, `log
      ensures old(trace) <= trace && Core() && pendingReadable == old(pendingReadable) - {id}
      ensures streams(id) == Apply(window, old(streams)(id), ReceiveSteps.Pick)
      ensures SameElsewhere(old(streams), streams, id)
      ensures log == old(log)
    {
      assert streams(id).credit == Get(readCredit, id);
      Record(id, ReceiveSteps.Pick);
      pendingReadable := pendingReadable - {id};
    }

    method CheckoutBuffer(id: StreamId)
      requires Core() && id !in pendingBody && (id in readCredit ==> readCredit[id] > 0)
      modifies `pendingBody, `trace, `streams, `log
      ensures old(trace) <= trace && Core()
      ensures streams(id) == Apply(window, old(streams)(id), Checkout)
      ensures SameElsewhere(old(streams), streams, id)
      ensures log == old(log)
    {
      assert streams(id).credit == Get(readCredit, id) && streams(id).pending == Get(pendingBody, id);
      Record(id, Checkout);
      var limit := if id in readCredit then readCredit[id] else RECV_CHUNK;
      pendingBody := pendingBody[id := RecvBuf(Min(RECV_CHUNK, limit), [])];
    }

    method Receive(id: StreamId, bytes: Bytes)
      requires Core() && id in pendingBody && |bytes| <= pendingBody[id].Room()
      requires streams(id).edge
      modifies `pendingBody, `readCredit, `trace, `streams, `log, `bodyReads
      ensures old(trace) <= trace && Core()
      ensures streams(id) == Apply(window, old(streams)(id), Recv(bytes))
      ensures SameElsewhere(old(streams), streams, id)
      ensures log == old(log) && bodyReads == old(bodyReads) + [(id, Got(bytes))]
    {
      assert streams(id).credit == Get(readCredit, id) && streams(id).pending == Get(pendingBody, id);
      RecordRead(id, Recv(bytes));
      pendingBody := pendingBody[id := pendingBody[id].(data := pendingBody[id].data + bytes)];
      if id in readCredit {
        readCredit := readCredit[id := if readCredit[id] < |bytes| then 0 else readCredit[id] - |bytes|];
      }
    }

    method RecycleBuffer(id: StreamId)
      requires Core() && id in pendingBody && pendingBody[id].data == []
      modifies `pendingBody, `trace, `streams, `log
      ensures old(trace) <= trace && Core()
      ensures streams(id) == Apply(window, old(streams)(id), Recycle)
      ensures SameElsewhere(old(streams), streams, id)
      ensures log == old(log)
    {
      assert streams(id).pending == Get(pendingBody, id);
      Record(id, Recycle);
      pendingBody := pendingBody - {id};
    }

    /** A DATA edge arrives; only the history changes. */
    ghost method NoteEdge(id: StreamId)
      requires Core()
      modifies `trace, `streams, `log
      ensures old(trace) <= trace && Core()
      ensures streams(id) == Apply(window, old(streams)(id), Edge)
      ensures SameElsewhere(old(streams), streams, id)
      ensures log == old(log)
    {
      Record(id, Edge);
    }

    /** A read that ends the edge: quiche is drained or fails. */
    ghost method NoteEnd(id: StreamId, failed: bool)
      requires Core()
      modifies `trace, `streams, `log, `bodyReads
      ensures old(trace) <= trace && Core()
      ensures streams(id) == Apply(window, old(streams)(id), Settle(failed))
      ensures SameElsewhere(old(streams), streams, id)
      ensures log == old(log) && bodyReads == old(bodyReads) + [(id, if failed then Failed else Done)]
    {
      RecordRead(id, Settle(failed));
    }

    /** The receive buffer leaves the map with its bytes. */
    method TakeBuffer(id: StreamId, rides: bool) returns (payload: Bytes)
      requires Core() && id in pendingBody && pendingBody[id].data != [] && (rides ==> EndsWith(streams(id).out, HeadersToken))
      modifies `pendingBody, `trace, `streams, `log
      ensures old(trace) <= trace && Core() && payload == Held(old(streams)(id))
      ensures streams(id) == Apply(window, old(streams)(id), Flush(rides))
      ensures SameElsewhere(old(streams), streams, id)
      ensures log == old(log) + [(id, DataToken(payload, rides))]
    {
      assert streams(id).pending == Get(pendingBody, id);
      payload := pendingBody[id].data;
      Record(id, Flush(rides));
      pendingBody := pendingBody - {id};
    }

    method FlushBuffer(id: StreamId, batch: seq<Event>, ghost sent: seq<(StreamId, Token)>)
      returns (out: seq<Event>, pushed: bool)
      requires Core() && InSync(sent, batch) && id in pendingBody && pendingBody[id].data != []
      modifies `pendingBody, `trace, `streams, `log
      ensures old(trace) <= trace && Core() && InSync(sent, out)
      ensures streams(id) == Apply(window, old(streams)(id), Flush(!pushed))
      ensures SameElsewhere(old(streams), streams, id)
      ensures |out| == |batch| + (if pushed then 1 else 0) && pushed == !Coalesces(batch, conn, id)
      ensures pushed ==> out == batch + [DataEvent(conn, id, Held(old(streams)(id)))]
    {
      var rides := Coalesces(batch, conn, id);
      if rides {
        CoalescingFollowsHeaders(window, trace, sent, batch, conn, id);
        assert Replay(window, trace, id) == streams(id);
      }
      var payload := TakeBuffer(id, rides);
      CoalescingKeepsOrder(batch, conn, id, payload);
      StaysInSync(old(log), sent, Flat(batch, conn), (id, DataToken(payload, rides)));
      out, pushed := PushBody(batch, conn, id, payload), !Coalesces(batch, conn, id);
    }

    ghost method EmitToken(id: StreamId, token: Token)
      requires Core() && (token.FinishedToken? || token.ResetToken? || token.ErrorToken?)
      requires token.FinishedToken? ==> streams(id).phase.Ended? && streams(id).pending.None?
      modifies `trace, `streams, `log
      ensures old(trace) <= trace && Core() && log == old(log) + [(id, token)]
      ensures streams(id) == old(streams)(id).(out := old(streams)(id).out + [token],
                                               errors := old(streams)(id).errors + (if token.ErrorToken? then 1 else 0))
      ensures SameElsewhere(old(streams), streams, id)
    {
      Record(id, Emit(token));
    }

    method PushToken(id: StreamId, token: Token, batch: seq<Event>, ghost sent: seq<(StreamId, Token)>)
      returns (out: seq<Event>)
      requires Core() && InSync(sent, batch) && (token.FinishedToken? || token.ResetToken? || token.ErrorToken?)
      requires token.FinishedToken? ==> streams(id).phase.Ended? && streams(id).pending.None?
      modifies `trace, `streams, `log
      ensures old(trace) <= trace && Core() && InSync(sent, out) && out == batch + [TokenEvent(conn, id, token)]
      ensures streams(id) == old(streams)(id).(out := old(streams)(id).out + [token],
                                               errors := old(streams)(id).errors + (if token.ErrorToken? then 1 else 0))
      ensures SameElsewhere(old(streams), streams, id)
    {
      EmitToken(id, token);
      FlatToken(batch, conn, id, token);
      StaysInSync(old(log), sent, Flat(batch, conn), (id, token));
      out := batch + [TokenEvent(conn, id, token)];
    }

    method RetireStream(id: StreamId)
      requires Core()
      modifies `readCredit, `pendingReadable, `trace, `streams, `log
      ensures old(trace) <= trace && Core()
      ensures streams(id) == Apply(window, old(streams)(id), Retire)
      ensures SameElsewhere(old(streams), streams, id)
      ensures log == old(log) && pendingReadable == old(pendingReadable) - {id}
    {
      Record(id, Retire);
      readCredit := readCredit - {id};
      pendingReadable := pendingReadable - {id};
    }

    /** `clear_stream_tracking`, receive side. */
    method Forget(id: StreamId)
      requires Core()
      modifies `readCredit, `pendingBody, `pendingReadable, `trace, `streams, `log
      ensures old(trace) <= trace && Core()
      ensures streams(id) == Apply(window, old(streams)(id), Clear)
      ensures SameElsewhere(old(streams), streams, id)
      ensures log == old(log)
      ensures pendingReadable == old(pendingReadable) - {id}
    {
      Record(id, Clear);
      readCredit := readCredit - {id};
      pendingReadable := pendingReadable - {id};
      pendingBody := pendingBody - {id};
    }

    // ----- composite operations -----

    /** Hand a stream's receive buffer to JS, or recycle it when empty. */
    method PushPending(id: StreamId, batch: seq<Event>, ghost sent: seq<(StreamId, Token)>)
      returns (out: seq<Event>, pushed: bool)
      requires Core() && InSync(sent, batch)
      modifies `pendingBody, `trace, `streams, `log
      ensures old(trace) <= trace && Core() && InSync(sent, out)
      ensures |out| == |batch| + (if pushed then 1 else 0)
      ensures pushed <==> Held(old(streams)(id)) != [] && !Coalesces(batch, conn, id)
      ensures pushed ==> out == batch + [DataEvent(conn, id, Held(old(streams)(id)))]
      ensures streams(id) == old(streams)(id).(pending := None, out := streams(id).out)
      ensures SameElsewhere(old(streams), streams, id)
    {
      assert streams(id).pending == Get(pendingBody, id);
      if id !in pendingBody {
        out, pushed := batch, false;
      } else if pendingBody[id].data == [] {
        RecycleBuffer(id);
        out, pushed := batch, false;
      } else {
        out, pushed := FlushBuffer(id, batch, sent);
      }
    }

    /** quiche's next answer, cut to the room there is; a script that has ended answers `Done`. */
    method NextRecv(room: nat) returns (answer: RecvAnswer)
      modifies `recvs
      ensures var scripted := Nth(old(recvs), 0);
        answer == if scripted.Got? then Got(scripted.bytes[..Min(room, |scripted.bytes|)]) else scripted
      ensures recvs == if old(recvs) == [] then [] else old(recvs)[1..]
    {
      if recvs == [] { return Done; }
      answer := recvs[0];
      recvs := recvs[1..];
      if answer.Got? && |answer.bytes| > room {
        answer := Got(answer.bytes[..room]);
      }
    }

    /** What one read of `room` bytes should give. */
    ghost predicate Gives(room: nat, scripted: RecvAnswer, drained: bool, failed: bool, bytes: Bytes)
    {
      && (failed <==> scripted.Failed?) && (drained <==> scripted.Done?)
      && bytes == if scripted.Got? then scripted.bytes[..Min(room, |scripted.bytes|)] else []
    }

    /** One read into a buffer with room, with quiche's next answer: bytes go into the buffer,
        `Done` or a failure ends the edge, an empty read stalls it. */
    method ReadOnce(id: StreamId) returns (drained: bool, failed: bool, bytes: Bytes)
      requires Core() && OnScript() && id in pendingBody && !pendingBody[id].Full()
      requires streams(id).edge && !streams(id).readable && !streams(id).stalled
      modifies `readCredit, `pendingBody, `recvs, `trace, `streams, `log, `bodyReads
      ensures old(trace) <= trace && Core() && log == old(log) && id in pendingBody && OnScript()
      ensures SameElsewhere(old(streams), streams, id)
      ensures Gives(old(pendingBody)[id].Room(), Nth(old(recvs), 0), drained, failed, bytes)
      ensures recvs == if old(recvs) == [] then [] else old(recvs)[1..]
      ensures pendingBody[id] == old(pendingBody)[id].(data := old(pendingBody)[id].data + bytes)
      ensures !streams(id).readable && streams(id).edge == !(drained || failed)
      ensures streams(id).stalled == (!drained && !failed && bytes == [])
      ensures streams(id).failures == old(streams)(id).failures + (if failed then 1 else 0) && streams(id).errors == old(streams)(id).errors
    {
      var answer := NextRecv(pendingBody[id].Room());
      FollowsPush(script, bodyReads, (id, answer));
      drained, failed, bytes := answer.Done?, answer.Failed?, if answer.Got? then answer.bytes else [];
      TakeAnswer(id, answer);
    }

    /** The answer's effect. */
    method TakeAnswer(id: StreamId, answer: RecvAnswer)
      requires Core() && id in pendingBody && (answer.Got? ==> |answer.bytes| <= pendingBody[id].Room()) && streams(id).edge
      requires var done := bodyReads + [(id, answer)]; Follows(script, done) && recvs == Unread(script, done)
      modifies `readCredit, `pendingBody, `trace, `streams, `log, `bodyReads
      ensures old(trace) <= trace && Core() && log == old(log) && id in pendingBody && OnScript()
      ensures SameElsewhere(old(streams), streams, id)
      ensures pendingBody[id] == old(pendingBody)[id].(data := old(pendingBody)[id].data + (if answer.Got? then answer.bytes else []))
      ensures streams(id).readable == old(streams)(id).readable && streams(id).edge == answer.Got?
      ensures streams(id).stalled == (answer == Got([])) && streams(id).errors == old(streams)(id).errors
      ensures streams(id).failures == old(streams)(id).failures + (if answer.Failed? then 1 else 0)
    {
      if answer.Got? {
        Receive(id, answer.bytes);
      } else {
        NoteEnd(id, answer.Failed?);
        assert pendingBody[id].data + [] == pendingBody[id].data;
      }
      assert streams(id).pending == Get(pendingBody, id);
      assert old(streams)(id).pending == Get(old(pendingBody), id);
    }

    /** A receive buffer with room, a new one if there was none. */
    method EnsureBuffer(id: StreamId)
      requires Core() && (id in readCredit ==> readCredit[id] > 0) && (id in pendingBody ==> !pendingBody[id].Full())
      modifies `pendingBody, `trace, `streams, `log
      ensures old(trace) <= trace && Core() && log == old(log) && id in pendingBody && !pendingBody[id].Full()
      ensures streams(id) == old(streams)(id).(pending := streams(id).pending) && SameElsewhere(old(streams), streams, id)
    {
      if id !in pendingBody {
        CheckoutBuffer(id);
        assert streams(id).pending == Get(pendingBody, id);
      }
    }

    /** The innermost read loop: read until the buffer is full, quiche is drained or fails,
        or a read returns nothing. */
    method FillBuffer(id: StreamId) returns (drained: bool, failed: bool)
      requires Core() && OnScript() && (id in readCredit ==> readCredit[id] > 0)
      requires streams(id).edge && !streams(id).readable && !streams(id).stalled
      requires id in pendingBody ==> !pendingBody[id].Full()
      modifies `readCredit, `pendingBody, `recvs, `trace, `streams, `log, `bodyReads
      ensures old(trace) <= trace && Core() && log == old(log) && id in pendingBody && !(drained && failed)
      ensures SameElsewhere(old(streams), streams, id)
      ensures !streams(id).readable && streams(id).edge == !(drained || failed)
      ensures pendingBody[id].Full() ==> !drained && !failed
      ensures streams(id).stalled == (!drained && !failed && !pendingBody[id].Full())
      ensures |recvs| <= |old(recvs)| && (forall a :: a in recvs ==> a in old(recvs))
      ensures pendingBody[id].Full() ==> |recvs| < |old(recvs)|
      ensures |recvs| < |old(recvs)| || recvs == []
      ensures streams(id).stalled ==> Got([]) in old(recvs)
      ensures streams(id).failures == old(streams)(id).failures + (if failed then 1 else 0) && streams(id).errors == old(streams)(id).errors
      ensures OnScript()
    {
      drained, failed := false, false;
      EnsureBuffer(id);
      var more := true;
      while more && !pendingBody[id].Full()
        invariant old(trace) <= trace && Core() && log == old(log) && id in pendingBody && !(drained && failed)
        invariant SameElsewhere(old(streams), streams, id)
        invariant !streams(id).readable && streams(id).edge == !(drained || failed)
        invariant more ==> !drained && !failed && !streams(id).stalled
        invariant !more ==> !pendingBody[id].Full() && streams(id).stalled == (!drained && !failed)
        invariant |recvs| <= |old(recvs)| && (forall a :: a in recvs ==> a in old(recvs))
        invariant !more || pendingBody[id].Full() ==> |recvs| < |old(recvs)| || recvs == []
        invariant pendingBody[id].Full() ==> |recvs| < |old(recvs)|
        invariant streams(id).stalled ==> Got([]) in old(recvs)
        invariant streams(id).failures == old(streams)(id).failures + (if failed then 1 else 0) && streams(id).errors == old(streams)(id).errors
        invariant OnScript()
        decreases more, |recvs|
      {
        var bytes;
        drained, failed, bytes := ReadOnce(id);
        more := bytes != [];
      }
    }

    /** One round of serving a DATA edge: fill a buffer and pass it on. `again` means the
        buffer filled up, so quiche may hold more. */
    method ServeRound(id: StreamId, budget: nat, batch: seq<Event>, ghost sent: seq<(StreamId, Token)>)
      returns (out: seq<Event>, remaining: nat, again: bool)
      requires Core() && OnScript() && InSync(sent, batch) && 0 < budget && (id in readCredit ==> readCredit[id] > 0)
      requires Serving(streams(id)) && !streams(id).readable
      modifies `readCredit, `pendingBody, `recvs, `trace, `streams, `log, `bodyReads
      ensures old(trace) <= trace && Core() && InSync(sent, out) && SameElsewhere(old(streams), streams, id)
      ensures |out| + remaining == |batch| + budget
      ensures |recvs| <= |old(recvs)| && (forall a :: a in recvs ==> a in old(recvs))
      ensures !streams(id).readable && (|recvs| < |old(recvs)| || recvs == [])
      ensures again ==> |recvs| < |old(recvs)| && Serving(streams(id)) && streams(id).pending.None?
      ensures !again ==> SettledStream(streams(id))
      ensures streams(id).pending.Some? ==> Got([]) in old(recvs)
      ensures Pays(old(streams)(id), streams(id), remaining == 0 && !again)
      ensures OnScript()
    {
      assert streams(id).pending == Get(pendingBody, id);
      var drained, failed := FillBuffer(id);
      assert streams(id).pending == Get(pendingBody, id);
      again := pendingBody[id].Full();
      out, remaining := PassOn(id, drained, failed, budget, batch, sent);
    }

    /** What becomes of the buffer after reading: recycled when empty, passed on when full or
        when quiche has nothing more, kept otherwise. A failure is reported if the budget
        still allows it. */
    method PassOn(id: StreamId, drained: bool, failed: bool, budget: nat, batch: seq<Event>, ghost sent: seq<(StreamId, Token)>)
      returns (out: seq<Event>, remaining: nat)
      requires Core() && InSync(sent, batch) && 0 < budget && id in pendingBody && !(drained && failed)
      modifies `pendingBody, `trace, `streams, `log
      ensures old(trace) <= trace && Core() && InSync(sent, out) && SameElsewhere(old(streams), streams, id)
      ensures |out| + remaining == |batch| + budget
      ensures var keep := !old(pendingBody)[id].Full() && !drained && !failed && old(pendingBody)[id].data != [];
        streams(id) == old(streams)(id).(pending := if keep then old(streams)(id).pending else None, out := streams(id).out,
                                         errors := streams(id).errors)
      // a failure is reported by one error, unless the body's last bytes take the only event left
      ensures streams(id).errors == old(streams)(id).errors +
        (if failed && !Overshoots(old(streams)(id), budget, batch, conn, id) then 1 else 0)
      ensures failed && Overshoots(old(streams)(id), budget, batch, conn, id) ==>
        remaining == 0 && out == batch + [DataEvent(conn, id, Held(old(streams)(id)))]
    {
      out := batch;
      assert streams(id).pending == Get(pendingBody, id);
      var pushed := false;
      if pendingBody[id].data == [] || pendingBody[id].Full() || drained || failed {
        out, pushed := PushPending(id, batch, sent);
      }
      remaining := if pushed then budget - 1 else budget;
      if failed && remaining > 0 {
        out := PushToken(id, ErrorToken, out, sent);
        remaining := remaining - 1;
      }
    }

    /** A receive buffer with room always has the credit to fill it. */
    lemma NothingHeldWithoutCredit(id: StreamId)
      requires Core()
      ensures streams(id).credit == Some(0) && streams(id).pending.Some? ==> streams(id).pending.value.Full()
    {
      LegalTraceKeepsStreams(window, trace, id);
      assert Replay(window, trace, id) == streams(id);
    }

    /** Serve one DATA edge until it is drained, fails, stalls, or runs out of credit or budget. */
    method ServeData(id: StreamId, budget: nat, batch: seq<Event>, ghost sent: seq<(StreamId, Token)>)
      returns (out: seq<Event>, remaining: nat)
      requires Core() && OnScript() && InSync(sent, batch) && 0 < budget
      requires Serving(streams(id)) && (streams(id).readable ==> streams(id).credit == Some(0))
      modifies `readCredit, `pendingBody, `pendingReadable, `recvs, `trace, `streams, `log, `bodyReads
      ensures old(trace) <= trace && Core() && InSync(sent, out) && SameElsewhere(old(streams), streams, id)
      ensures SettledStream(streams(id))
      ensures |out| + remaining == |batch| + budget
      ensures |recvs| <= |old(recvs)| && (forall a :: a in recvs ==> a in old(recvs))
      ensures id in pendingReadable && |recvs| == |old(recvs)| ==> old(streams)(id).credit == Some(0)
      ensures id in pendingReadable || |recvs| < |old(recvs)| || recvs == []
      ensures pendingReadable == old(pendingReadable) || pendingReadable == old(pendingReadable) + {id}
      ensures streams(id).pending.Some? ==> old(streams)(id).pending.Some? || Got([]) in old(recvs)
      ensures Pays(old(streams)(id), streams(id), remaining == 0)
      ensures OnScript()
    {
      out, remaining := batch, budget;
      var again := true;
      assert streams(id).credit == Get(readCredit, id);
      while again
        invariant old(trace) <= trace && Core() && InSync(sent, out) && SameElsewhere(old(streams), streams, id)
        invariant again ==> Serving(streams(id)) && (streams(id).readable ==> streams(id).credit == Some(0))
        invariant again ==> streams(id).pending.None? || remaining > 0
        invariant !again ==> SettledStream(streams(id))
        invariant |out| + remaining == |batch| + budget
        invariant |recvs| <= |old(recvs)| && (forall a :: a in recvs ==> a in old(recvs))
        invariant again && |recvs| == |old(recvs)| ==> streams == old(streams) && remaining == budget
        invariant pendingReadable == old(pendingReadable) || pendingReadable == old(pendingReadable) + {id}
        invariant !again && id in pendingReadable && |recvs| == |old(recvs)| ==> old(streams)(id).credit == Some(0)
        invariant !again ==> id in pendingReadable || |recvs| < |old(recvs)| || recvs == []
        invariant streams(id).pending.Some? ==> old(streams)(id).pending.Some? || Got([]) in old(recvs)
        invariant Pays(old(streams)(id), streams(id), remaining == 0 && !again)
        invariant OnScript()
        decreases again, |recvs|
      {
        out, remaining, again := ServeTurn(id, remaining, out, sent);
      }
    }

    /** One turn of that loop: without budget or credit the edge is parked, otherwise a round is served. */
    method ServeTurn(id: StreamId, budget: nat, batch: seq<Event>, ghost sent: seq<(StreamId, Token)>)
      returns (out: seq<Event>, remaining: nat, again: bool)
      requires Core() && OnScript() && InSync(sent, batch)
      requires Serving(streams(id)) && (streams(id).readable ==> streams(id).credit == Some(0))
      requires streams(id).pending.None? || budget > 0
      modifies `readCredit, `pendingBody, `pendingReadable, `recvs, `trace, `streams, `log, `bodyReads
      ensures old(trace) <= trace && Core() && OnScript() && InSync(sent, out) && SameElsewhere(old(streams), streams, id)
      ensures |out| + remaining == |batch| + budget
      ensures |recvs| <= |old(recvs)| && (forall a :: a in recvs ==> a in old(recvs))
      ensures again ==> |recvs| < |old(recvs)| && Serving(streams(id)) && !streams(id).readable && streams(id).pending.None?
      ensures !again ==> SettledStream(streams(id)) && (id in pendingReadable || |recvs| < |old(recvs)| || recvs == [])
      ensures pendingReadable == if budget == 0 || old(streams)(id).credit == Some(0) then old(pendingReadable) + {id} else old(pendingReadable)
      ensures budget > 0 && old(streams)(id).credit != Some(0) ==> id !in pendingReadable
      ensures streams(id).pending.Some? ==> old(streams)(id).pending.Some? || Got([]) in old(recvs)
      ensures Pays(old(streams)(id), streams(id), remaining == 0 && !again)
    {
      assert streams(id).credit == Get(readCredit, id) && streams(id).readable == (id in pendingReadable);
      if budget == 0 || (id in readCredit && readCredit[id] == 0) {
        NothingHeldWithoutCredit(id);
        Park(id);
        out, remaining, again := batch, budget, false;
      } else {
        out, remaining, again := ServeRound(id, budget, batch, sent);
        assert streams(id).readable == (id in pendingReadable);
      }
    }

    // ----- events reported by quiche -----

    method OnHeaders(id: StreamId, moreFrames: bool, budget: nat, batch: seq<Event>, ghost sent: seq<(StreamId, Token)>)
      returns (out: seq<Event>, remaining: nat)
      requires Core() && Settled() && InSync(sent, batch) && 0 < budget
      modifies `readCredit, `pendingBody, `largestAccepted, `trace, `streams, `log
      ensures old(trace) <= trace && Core() && Settled() && InSync(sent, out) && SameElsewhere(old(streams), streams, id)
      ensures streams(id) == Apply(window, old(streams)(id), Open).(pending := None, out := streams(id).out)
      ensures EndsWith(streams(id).out, HeadersToken)
      ensures EndsBatch(batch, out, old(streams)(id), budget, remaining, conn, id, HeadersEvent(conn, id, !moreFrames, None))
      ensures largestAccepted == Some(if old(largestAccepted).Some? then Max(old(largestAccepted).value, id) else id)
    {
      out, remaining := PushHeaders(id, moreFrames, budget, batch, sent);
      largestAccepted := Some(if largestAccepted.Some? then Max(largestAccepted.value, id) else id);
    }

    /** What is left of an earlier body, then the header section, which opens the stream. */
    method PushHeaders(id: StreamId, moreFrames: bool, budget: nat, batch: seq<Event>, ghost sent: seq<(StreamId, Token)>)
      returns (out: seq<Event>, remaining: nat)
      requires Core() && InSync(sent, batch) && 0 < budget
      modifies `readCredit, `pendingBody, `trace, `streams, `log
      ensures old(trace) <= trace && Core() && InSync(sent, out) && SameElsewhere(old(streams), streams, id)
      ensures streams(id) == Apply(window, old(streams)(id), Open).(pending := None, out := streams(id).out)
      ensures EndsWith(streams(id).out, HeadersToken)
      ensures EndsBatch(batch, out, old(streams)(id), budget, remaining, conn, id, HeadersEvent(conn, id, !moreFrames, None))
    {
      var pushed;
      out, pushed := PushPending(id, batch, sent);
      remaining := if pushed then budget - 1 else budget;
      ghost var flushed, mid := streams(id), out;
      assert streams(id).pending == Get(pendingBody, id);
      out := OpenStream(id, !moreFrames, out, sent);
      assert streams(id).out == flushed.out + [HeadersToken];
      remaining := if remaining > 0 then remaining - 1 else 0;
      EndsBatchHolds(batch, mid, out, old(streams)(id), budget, remaining, pushed, conn, id, HeadersEvent(conn, id, !moreFrames, None));
    }

    method OnFinished(id: StreamId, budget: nat, batch: seq<Event>, ghost sent: seq<(StreamId, Token)>)
      returns (out: seq<Event>, remaining: nat)
      requires Core() && Settled() && InSync(sent, batch) && 0 < budget
      modifies `readCredit, `pendingBody, `pendingReadable, `trace, `streams, `log
      ensures old(trace) <= trace && Core() && Settled() && InSync(sent, out) && SameElsewhere(old(streams), streams, id)
      ensures streams(id) == Apply(window, old(streams)(id), Retire).(pending := None, out := streams(id).out)
      ensures EndsWith(streams(id).out, FinishedToken)
      ensures EndsBatch(batch, out, old(streams)(id), budget, remaining, conn, id, FinishedEvent(conn, id))
      ensures pendingReadable == old(pendingReadable) - {id}
    {
      RetireStream(id);
      out, remaining := PushEnd(id, FinishedToken, budget, batch, sent);
    }

    /** The body's last bytes, then the event that ends it. */
    method PushEnd(id: StreamId, token: Token, budget: nat, batch: seq<Event>, ghost sent: seq<(StreamId, Token)>)
      returns (out: seq<Event>, remaining: nat)
      requires Core() && InSync(sent, batch) && 0 < budget && (token.FinishedToken? || token.ResetToken?)
      requires token.FinishedToken? ==> streams(id).phase.Ended?
      modifies `pendingBody, `trace, `streams, `log
      ensures old(trace) <= trace && Core() && InSync(sent, out) && SameElsewhere(old(streams), streams, id)
      ensures streams(id) == old(streams)(id).(pending := None, out := streams(id).out)
      ensures EndsWith(streams(id).out, token)
      ensures EndsBatch(batch, out, old(streams)(id), budget, remaining, conn, id, TokenEvent(conn, id, token))
    {
      var pushed;
      out, pushed := PushPending(id, batch, sent);
      remaining := if pushed then budget - 1 else budget;
      ghost var mid := out;
      out := PushToken(id, token, out, sent);
      remaining := if remaining > 0 then remaining - 1 else 0;
      EndsBatchHolds(batch, mid, out, old(streams)(id), budget, remaining, pushed, conn, id, TokenEvent(conn, id, token));
    }

    method OnReset(id: StreamId, budget: nat, batch: seq<Event>, ghost sent: seq<(StreamId, Token)>)
      returns (out: seq<Event>, remaining: nat)
      requires Core() && Settled() && InSync(sent, batch) && 0 < budget
      modifies `pendingBody, `trace, `streams, `log
      ensures old(trace) <= trace && Core() && Settled() && InSync(sent, out) && SameElsewhere(old(streams), streams, id)
      ensures streams(id) == old(streams)(id).(pending := None, out := streams(id).out)
      ensures EndsWith(streams(id).out, ResetToken)
      ensures EndsBatch(batch, out, old(streams)(id), budget, remaining, conn, id, ResetEvent(conn, id))
    {
      out, remaining := PushEnd(id, ResetToken, budget, batch, sent);
    }

    /** An event without stream tokens: GOAWAY or a session error. */
    method PushPlain(e: Event, batch: seq<Event>, ghost sent: seq<(StreamId, Token)>) returns (out: seq<Event>)
      requires InSync(sent, batch) && TokensOf(e, conn) == []
      ensures InSync(sent, out) && out == batch + [e]
    {
      FlatPush(batch, e, conn);
      out := batch + [e];
    }

    /** No receive buffer is kept and no read will return zero bytes. */
    ghost predicate Progressing()
      reads this`streams, this`recvs
    {
      Got([]) !in recvs && forall id {:trigger streams(id)} :: streams(id).pending.None?
    }

    /** A stream of `pending_readable` that has credit is served before quiche is polled. */
    method ServeReady(id: StreamId, budget: nat, batch: seq<Event>, ghost sent: seq<(StreamId, Token)>)
      returns (out: seq<Event>, remaining: nat)
      requires Core() && OnScript() && Settled() && InSync(sent, batch) && 0 < budget
      requires id in pendingReadable && (id in readCredit ==> readCredit[id] > 0)
      modifies `readCredit, `pendingBody, `pendingReadable, `recvs, `trace, `streams, `log, `bodyReads
      ensures old(trace) <= trace && Core() && Settled() && InSync(sent, out)
      ensures |out| + remaining == |batch| + budget && |recvs| <= |old(recvs)|
      ensures |recvs| < |old(recvs)| || pendingReadable == old(pendingReadable) - {id}
      ensures old(Progressing()) ==> Progressing()
      ensures Reported(old(streams), streams, remaining == 0)
      ensures OnScript()
    {
      assert streams(id).readable == (id in pendingReadable) && streams(id).credit == Get(readCredit, id);
      Pick(id);
      out, remaining := ServeData(id, budget, batch, sent);
      ReportedOne(old(streams), streams, id, remaining == 0);
    }

    method OnData(id: StreamId, budget: nat, batch: seq<Event>, ghost sent: seq<(StreamId, Token)>)
      returns (out: seq<Event>, remaining: nat)
      requires Core() && OnScript() && Settled() && InSync(sent, batch) && 0 < budget
      requires id in pendingReadable ==> id in readCredit && readCredit[id] == 0
      modifies `readCredit, `pendingBody, `pendingReadable, `recvs, `trace, `streams, `log, `bodyReads
      ensures old(trace) <= trace && Core() && Settled() && InSync(sent, out)
      ensures |out| + remaining == |batch| + budget && |recvs| <= |old(recvs)|
      ensures id in pendingReadable || |recvs| < |old(recvs)| || recvs == []
      ensures old(Progressing()) ==> Progressing()
      ensures Reported(old(streams), streams, remaining == 0)
      ensures OnScript()
    {
      assert streams(id).readable == (id in pendingReadable) && streams(id).credit == Get(readCredit, id);
      NoteEdge(id);
      out, remaining := ServeData(id, budget, batch, sent);
      ReportedOne(old(streams), streams, id, remaining == 0);
    }

    /** The effect of a report other than DATA. */
    ghost predicate Handled(a: PollAnswer, batch: seq<Event>, out: seq<Event>)
      reads this`streams
    {
      match a
      case PollHeaders(id, moreFrames) =>
        && EndsWith(streams(id).out, HeadersToken) && !streams(id).phase.Fresh? && streams(id).pending.None?
        && LastIs(out, HeadersEvent(conn, id, !moreFrames, None))
      case PollFinished(id) => EndsWith(streams(id).out, FinishedToken) && streams(id).phase.Ended? && streams(id).pending.None?
      case PollReset(id) => EndsWith(streams(id).out, ResetToken) && streams(id).pending.None?
      case PollPriority => out == batch
      case PollGoaway(id) => out == batch + [GoawayEvent(conn, id)]
      case PollFailed => out == batch + [SessionErrorEvent(conn)]
      case PollData(_) => true
    }

    /** A report that hands over what is left of a body and adds an event of its own. */
    method OnEnding(answer: PollAnswer, budget: nat, batch: seq<Event>, ghost sent: seq<(StreamId, Token)>)
      returns (out: seq<Event>, remaining: nat)
      requires Core() && Settled() && InSync(sent, batch) && 0 < budget && EndsBody(answer)
      modifies `readCredit, `pendingBody, `pendingReadable, `largestAccepted, `trace, `streams, `log
      ensures old(trace) <= trace && Core() && Settled() && InSync(sent, out)
      ensures Spent(|batch|, budget, |out|, remaining, Excessive(answer, old(streams), budget, batch, conn))
      ensures Excessive(answer, old(streams), budget, batch, conn) ==> out == batch + OverEvents(answer, old(streams)(answer.id), conn)
      ensures old(Progressing()) ==> Progressing()
      ensures Handled(answer, batch, out) && Reported(old(streams), streams, false)
    {
      match answer {
        case PollHeaders(id, moreFrames) => out, remaining := OnHeaders(id, moreFrames, budget, batch, sent);
        case PollFinished(id) => out, remaining := OnFinished(id, budget, batch, sent);
        case PollReset(id) => out, remaining := OnReset(id, budget, batch, sent);
      }
      ReportedOne(old(streams), streams, answer.id, false);
    }

    /** A report about no body: a priority update, GOAWAY or a session error. */
    method OnPlain(answer: PollAnswer, budget: nat, batch: seq<Event>, ghost sent: seq<(StreamId, Token)>)
      returns (out: seq<Event>, remaining: nat)
      requires InSync(sent, batch) && 0 < budget && !EndsBody(answer) && !answer.PollData?
      ensures InSync(sent, out) && Handled(answer, batch, out) && |out| + remaining == |batch| + budget
    {
      out, remaining := batch, budget;
      match answer {
        case PollPriority =>
        case PollGoaway(id) =>
          out := PushPlain(GoawayEvent(conn, id), batch, sent);
          remaining := budget - 1;
        case PollFailed =>
          out := PushPlain(SessionErrorEvent(conn), batch, sent);
          remaining := budget - 1;
      }
    }

    /** One poll result, when no pending stream is ready. */
    method OnAnswer(answer: PollAnswer, budget: nat, batch: seq<Event>, ghost sent: seq<(StreamId, Token)>)
      returns (out: seq<Event>, remaining: nat)
      requires Core() && OnScript() && Settled() && InSync(sent, batch) && 0 < budget
      requires forall id :: id in pendingReadable ==> id in readCredit && readCredit[id] == 0
      modifies `readCredit, `pendingBody, `pendingReadable, `largestAccepted, `recvs, `trace, `streams, `log, `bodyReads
      ensures old(trace) <= trace && Core() && Settled() && InSync(sent, out)
      ensures Spent(|batch|, budget, |out|, remaining, Excessive(answer, old(streams), budget, batch, conn)) && |recvs| <= |old(recvs)|
      ensures Excessive(answer, old(streams), budget, batch, conn) ==> out == batch + OverEvents(answer, old(streams)(answer.id), conn)
      ensures old(Progressing()) ==> Progressing()
      ensures Reported(old(streams), streams, remaining == 0) && OnScript()
      ensures Handled(answer, batch, out)
      ensures answer.PollData? ==> answer.id in pendingReadable || |recvs| < |old(recvs)| || recvs == []
    {
      if answer.PollData? {
        out, remaining := OnData(answer.id, budget, batch, sent);
      } else if EndsBody(answer) {
        out, remaining := OnEnding(answer, budget, batch, sent);
        assert Reported(old(streams), streams, false);
        ReportedFull(old(streams), streams, remaining == 0);
      } else {
        out, remaining := OnPlain(answer, budget, batch, sent);
        assert Unreported(old(streams), streams, None);
      }
    }

    /** quiche's next answer, when no pending stream is ready. */
    method PollNext(budget: nat, batch: seq<Event>, ghost sent: seq<(StreamId, Token)>)
      returns (answer: PollAnswer, out: seq<Event>, remaining: nat)
      requires Core() && OnScript() && Settled() && InSync(sent, batch) && 0 < budget && polls != []
      requires forall id :: id in pendingReadable ==> id in readCredit && readCredit[id] == 0
      modifies `readCredit, `pendingBody, `pendingReadable, `largestAccepted, `polls, `recvs, `trace, `streams, `log, `bodyReads
      ensures old(trace) <= trace && Core() && Settled() && InSync(sent, out)
      ensures Spent(|batch|, budget, |out|, remaining, Excessive(answer, old(streams), budget, batch, conn)) && |recvs| <= |old(recvs)|
      ensures Excessive(answer, old(streams), budget, batch, conn) ==> out == batch + OverEvents(answer, old(streams)(answer.id), conn)
      ensures old(Progressing()) ==> Progressing()
      ensures Reported(old(streams), streams, remaining == 0)
      ensures OnScript()
      ensures answer == old(polls)[0] && polls == old(polls)[1..]
    {
      answer := polls[0];
      polls := polls[1..];
      out, remaining := OnAnswer(answer, budget, batch, sent);
    }

    /** No pending stream has credit. */
    ghost predicate Starved()
      reads this`pendingReadable, this`readCredit
    {
      forall id :: id in pendingReadable ==> id in readCredit && readCredit[id] == 0
    }

    /** One turn of the event loop: a ready pending stream, else quiche's next answer, else idle. */
    method Turn(budget: nat, batch: seq<Event>, ghost sent: seq<(StreamId, Token)>)
      returns (out: seq<Event>, remaining: nat, answer: Option<PollAnswer>, idle: bool, ghost over: bool)
      requires Core() && OnScript() && Settled() && InSync(sent, batch) && 0 < budget
      modifies `readCredit, `pendingBody, `pendingReadable, `largestAccepted, `polls, `recvs, `trace, `streams, `log, `bodyReads
      ensures old(trace) <= trace && Core() && Settled() && InSync(sent, out)
      ensures over <==> answer.Some? && Excessive(answer.value, old(streams), budget, batch, conn)
      ensures Spent(|batch|, budget, |out|, remaining, over) && (over ==> !old(Progressing()))
      ensures over ==> out == batch + OverEvents(answer.value, old(streams)(answer.value.id), conn)
      ensures old(Progressing()) ==> Progressing()
      ensures Reported(old(streams), streams, remaining == 0)
      ensures OnScript()
      ensures answer.Some? ==> old(polls) != [] && answer.value == old(polls)[0] && polls == old(polls)[1..] && !idle
      ensures answer.None? ==> polls == old(polls)
      ensures idle ==> polls == [] && Starved() && out == batch
      ensures old(Starved()) && old(polls) != [] ==> answer.Some?
      ensures |recvs| <= |old(recvs)|
      ensures !idle && answer.None? ==> |recvs| < |old(recvs)| || |pendingReadable| < |old(pendingReadable)|
    {
      answer, idle, over := None, false, false;
      assert Unreported(streams, streams, None);
      if id :| id in pendingReadable && (id in readCredit ==> readCredit[id] > 0) {
        out, remaining := ServeReady(id, budget, batch, sent);
      } else if polls == [] {
        out, remaining, idle := batch, budget, true;
      } else {
        var a;
        a, out, remaining := PollNext(budget, batch, sent);
        answer := Some(a);
        over := Excessive(a, old(streams), budget, batch, conn);
        assert over ==> old(streams)(a.id).pending.Some?;
      }
    }

    /** A turn of the loop with its bookkeeping: the resets and ends it reports are noted. */
    method Advance(budget: nat, batch: seq<Event>, resets: seq<StreamId>, finished: seq<StreamId>, ghost sent: seq<(StreamId, Token)>,
                   ghost start: Moment, ghost answers: seq<PollAnswer>, ghost used: nat, ghost last: Moment)
      returns (out: seq<Event>, remaining: nat, done: bool, resets': seq<StreamId>, finished': seq<StreamId>, ghost used': nat, ghost last': Moment)
      requires Core() && OnScript() && Settled() && InSync(sent, batch) && 0 < budget
      requires Polled(window, conn, sent, start, answers, used, last, trace, batch, budget)
      requires Consumed(answers, used, polls, resets, finished) && Reported(start.streams, streams, false)
      modifies `readCredit, `pendingBody, `pendingReadable, `largestAccepted, `polls, `recvs, `trace, `streams, `log, `bodyReads
      ensures old(trace) <= trace && Core() && Settled() && InSync(sent, out)
      ensures Polled(window, conn, sent, start, answers, used', last', trace, out, remaining)
      ensures EndedOver(answers, used', last', conn) ==> !old(Progressing())
      ensures old(Progressing()) ==> Progressing()
      ensures Reported(start.streams, streams, remaining == 0)
      ensures OnScript()
      ensures Consumed(answers, used', polls, resets', finished')
      ensures (used' == used && last' == last) || (used' == used + 1 && last' == old(Moment(trace, streams, budget, batch)))
      ensures old(Starved()) && old(polls) != [] ==> used' == used + 1
      ensures done ==> PollFailed in answers[..used'] || (polls == [] && Starved())
      ensures done || |polls| + |recvs| < |old(polls)| + |old(recvs)| ||
        (|polls| + |recvs| == |old(polls)| + |old(recvs)| && |pendingReadable| < |old(pendingReadable)|)
    {
      resets', finished', used', last' := resets, finished, used, last;
      ghost var now, over := Moment(trace, streams, budget, batch), false;
      if polls != [] {
        ConsumeOne(answers, used, polls, resets, finished);
      }
      var answer;
      out, remaining, answer, done, over := Turn(budget, batch, sent);
      ReportedAll(start.streams, now.streams, streams, remaining == 0);
      if answer.Some? {
        PolledAnswer(window, conn, sent, start, answers, used, last, now, trace, out, remaining);
        used', last' := used + 1, now;
        done := answer.value.PollFailed?;
        resets' := if answer.value.PollReset? then resets + [answer.value.id] else resets;
        finished' := if answer.value.PollFinished? then finished + [answer.value.id] else finished;
      } else {
        PolledReady(window, conn, sent, start, answers, used, last, now, trace, out, remaining);
      }
    }

    /** The event loop of `poll_h3_events`. It goes on until the budget is used up, quiche
        fails, or quiche has nothing more to report and no pending stream has credit. `last` is
        the moment of the last report. */
    method PollEvents(budget: nat, batch: seq<Event>, ghost sent: seq<(StreamId, Token)>)
      returns (out: seq<Event>, remaining: nat, resets: seq<StreamId>, finished: seq<StreamId>, ghost used: nat, ghost last: Moment)
      requires Core() && OnScript() && Settled() && InSync(sent, batch)
      modifies `readCredit, `pendingBody, `pendingReadable, `largestAccepted, `polls, `recvs, `trace, `streams, `log, `bodyReads
      ensures old(trace) <= trace && Core() && Settled() && InSync(sent, out)
      ensures budget == 0 ==> out == batch && remaining == 0
      ensures Polled(window, conn, sent, old(Moment(trace, streams, budget, batch)), old(polls), used, last, trace, out, remaining)
      ensures EndedOver(old(polls), used, last, conn) ==> !old(Progressing())
      ensures old(Starved()) && old(polls) != [] && 0 < budget ==>
        used > 0 && (used == 1 ==> last == old(Moment(trace, streams, budget, batch)))
      ensures old(Progressing()) ==> Progressing()
      ensures Reported(old(streams), streams, remaining == 0)
      ensures OnScript()
      ensures Consumed(old(polls), used, polls, resets, finished)
      ensures remaining > 0 && PollFailed !in old(polls)[..used] ==> polls == [] && Starved()
    {
      out, remaining, resets, finished := batch, budget, [], [];
      ghost var start, starved := Moment(trace, streams, budget, batch), Starved() && polls != [];
      used, last := 0, start;
      var done := false;
      assert Unreported(streams, streams, None);
      while remaining > 0 && !done
        invariant old(trace) <= trace && Core() && Settled() && InSync(sent, out)
        invariant budget == 0 ==> out == batch && remaining == 0
        invariant Polled(window, conn, sent, start, old(polls), used, last, trace, out, remaining)
        invariant EndedOver(old(polls), used, last, conn) ==> !old(Progressing())
        invariant starved && used == 0 ==> !done && Starved() && start == Moment(trace, streams, remaining, out)
        invariant starved && used == 1 ==> last == start
        invariant old(Progressing()) ==> Progressing()
        invariant Reported(start.streams, streams, remaining == 0)
        invariant OnScript()
        invariant Consumed(old(polls), used, polls, resets, finished)
        invariant done ==> PollFailed in old(polls)[..used] || (polls == [] && Starved())
        decreases !done, |polls| + |recvs|, |pendingReadable|
      {
        out, remaining, done, resets, finished, used, last :=
          Advance(remaining, out, resets, finished, sent, start, old(polls), used, last);
      }
    }

    // ----- tracking and draining -----

    /** `clear_stream_tracking`. */
    method ClearTracking(id: StreamId)
      requires Core() && Settled() && blocked.Ok()
      modifies `readCredit, `pendingBody, `pendingReadable, `trailerFin, `trace, `streams, `log, blocked
      ensures old(trace) <= trace && Core() && Settled() && blocked.Ok()
      ensures streams(id) == Apply(window, old(streams)(id), Clear) && SameElsewhere(old(streams), streams, id)
      ensures log == old(log) && trailerFin == old(trailerFin) - {id}
      ensures blocked.members == old(blocked.members) - {id}
      ensures blocked.queue == Retain(old(blocked.queue), {id})
    {
      Forget(id);
      blocked.Remove(id);
      trailerFin := trailerFin - {id};
    }

    /** The receive-side and event effects of one drain action. */
    method Perform(act: Act, batch: seq<Event>, ghost sent: seq<(StreamId, Token)>) returns (out: seq<Event>)
      requires Core() && Settled() && InSync(sent, batch)
      modifies `readCredit, `pendingBody, `pendingReadable, `trailerFin, `trace, `streams, `log
      ensures old(trace) <= trace && Core() && Settled() && InSync(sent, out)
      ensures old(Progressing()) ==> Progressing()
      ensures out == if act.Prune? then batch else batch + [ActEvent(conn, act)]
      ensures act.Prune? || act.Stop? ==> Forgotten(streams(act.id))
      ensures StillForgotten(old(streams), streams)
    {
      match act {
        case Prune(id) =>
          ForgetQuietly(id);
          out := batch;
        case Stop(id) =>
          ForgetQuietly(id);
          out := PushQuietly(id, ResetToken, batch, sent);
        case Drain(id) => out := PushPlain(DrainEvent(conn, id), batch, sent);
        case Break(id) => out := PushQuietly(id, ErrorToken, batch, sent);
      }
    }

    method ForgetQuietly(id: StreamId)
      requires Core() && Settled()
      modifies `readCredit, `pendingBody, `pendingReadable, `trailerFin, `trace, `streams, `log
      ensures old(trace) <= trace && Core() && Settled() && log == old(log)
      ensures Forgotten(streams(id)) && StillForgotten(old(streams), streams)
      ensures old(Progressing()) ==> Progressing()
    {
      Forget(id);
      trailerFin := trailerFin - {id};
    }

    method PushQuietly(id: StreamId, token: Token, batch: seq<Event>, ghost sent: seq<(StreamId, Token)>) returns (out: seq<Event>)
      requires Core() && Settled() && InSync(sent, batch) && (token.ResetToken? || token.ErrorToken?)
      modifies `trace, `streams, `log
      ensures old(trace) <= trace && Core() && Settled() && InSync(sent, out) && out == batch + [TokenEvent(conn, id, token)]
      ensures old(Progressing()) ==> Progressing()
      ensures StillForgotten(old(streams), streams)
    {
      out := PushToken(id, token, batch, sent);
    }

    method PerformAll(acts: seq<Act>, batch: seq<Event>, ghost sent: seq<(StreamId, Token)>) returns (out: seq<Event>)
      requires Core() && Settled() && InSync(sent, batch)
      modifies `readCredit, `pendingBody, `pendingReadable, `trailerFin, `trace, `streams, `log
      ensures old(trace) <= trace && Core() && Settled() && InSync(sent, out)
      ensures old(Progressing()) ==> Progressing()
      ensures out == batch + ActEvents(conn, acts)
      ensures forall id :: id in Cleared(acts) ==> Forgotten(streams(id))
    {
      out := batch;
      for i := 0 to |acts|
        invariant old(trace) <= trace && Core() && Settled() && InSync(sent, out)
        invariant old(Progressing()) ==> Progressing()
        invariant out == batch + ActEvents(conn, acts[..i])
        invariant forall id :: id in Cleared(acts[..i]) ==> Forgotten(streams(id))
      {
        ActsPush(conn, batch, acts, i);
        out := Perform(acts[i], out, sent);
      }
      assert acts[..|acts|] == acts;
    }

    /** `poll_drain_events`: the blocked list decides (see `Blocked.BlockedStreams.PollDrain`),
        and each decision becomes exactly one event, in order. */
    method PollDrain(closed: StreamId -> bool, writable: seq<StreamId>, cap: StreamId -> CapAnswer,
                     batch: seq<Event>, ghost sent: seq<(StreamId, Token)>)
      returns (out: seq<Event>, acts: seq<Act>)
      requires Core() && Settled() && blocked.Ok() && InSync(sent, batch)
      modifies `readCredit, `pendingBody, `pendingReadable, `trailerFin, `trace, `streams, `log, blocked
      ensures old(trace) <= trace && Core() && Settled() && blocked.Ok() && InSync(sent, out)
      ensures old(Progressing()) ==> Progressing()
      ensures out == batch + ActEvents(conn, acts)
      ensures blocked.members == old(blocked.members) - Leaving(old(blocked.members), closed, Members(writable), cap)
      ensures blocked.queue == Retain(old(blocked.queue), Leaving(old(blocked.members), closed, Members(writable), cap))
      ensures Lists(Woke(acts), Leaving(old(blocked.members), closed, Members(writable), cap) - Cleared(acts))
      ensures Cleared(acts) == Dead(old(blocked.members), closed) + Halted(Members(writable), cap)
      ensures forall id :: id in Cleared(acts) ==> Forgotten(streams(id))
      ensures Exactly(acts, old(blocked.members), closed, Members(writable), cap)
      ensures DrainEvents(conn, ActEvents(conn, acts), old(blocked.members), closed, Members(writable), cap)
    {
      acts := blocked.PollDrain(closed, writable, cap);
      DrainEventsAreDue(conn, acts, old(blocked.members), closed, Members(writable), cap);
      out := PerformAll(acts, batch, sent);
    }

    /** `clear_stream_tracking_if_closed` and the reset list, after the event loop: these streams
        are forgotten, and every other one, finished or not, keeps its state and its place among
        the blocked streams. */
    method ClearEnded(resets: seq<StreamId>, finished: seq<StreamId>, closed: StreamId -> bool)
      requires Core() && Settled() && blocked.Ok()
      modifies `readCredit, `pendingBody, `pendingReadable, `trailerFin, `trace, `streams, `log, blocked
      ensures old(trace) <= trace && Core() && Settled() && blocked.Ok() && log == old(log)
      ensures Purged(old(streams), old(blocked.members), old(blocked.queue), old(trailerFin), EndedStreams(resets, finished, closed))
      ensures old(Progressing()) ==> Progressing()
    {
      ghost var q, a, b := blocked.queue, EndedStreams(resets, [], closed), EndedStreams([], finished, closed);
      assert EndedStreams([], resets, _ => true) == a && a + b == EndedStreams(resets, finished, closed);
      ClearAll(resets, _ => true);
      ghost var mid := streams;
      ClearAll(finished, closed);
      CleanseMore(old(streams), mid, streams, a, b);
      RetainTwice(q, a, b);
    }

    /** The streams of `gone` are forgotten, and only they have left the blocked streams. */
    ghost predicate Swept(gone: set<StreamId>, all: set<StreamId>, q: seq<StreamId>)
      reads this, blocked
    {
      && (forall id :: id in gone ==> Forgotten(streams(id)))
      && blocked.members == all - gone && blocked.queue == Retain(q, gone)
    }

    /** From `f`, `all` and `q`, exactly the streams of `gone` have been cleared. */
    ghost predicate Purged(f: Streams, all: set<StreamId>, q: seq<StreamId>, fins: set<StreamId>, gone: set<StreamId>)
      reads this, blocked
    {
      && Cleansed(f, streams, gone) && blocked.members == all - gone && blocked.queue == Retain(q, gone) && trailerFin == fins - gone
    }

    method ClearAll(ids: seq<StreamId>, closed: StreamId -> bool)
      requires Core() && Settled() && blocked.Ok()
      modifies `readCredit, `pendingBody, `pendingReadable, `trailerFin, `trace, `streams, `log, blocked
      ensures old(trace) <= trace && Core() && Settled() && blocked.Ok() && log == old(log)
      ensures Purged(old(streams), old(blocked.members), old(blocked.queue), old(trailerFin), EndedStreams([], ids, closed))
      ensures old(Progressing()) ==> Progressing()
    {
      RetainNothing(blocked.queue, {});
      ghost var gone := {};
      for i := 0 to |ids|
        invariant old(trace) <= trace && Core() && Settled() && blocked.Ok() && log == old(log)
        invariant gone == EndedStreams([], ids[..i], closed)
        invariant Purged(old(streams), old(blocked.members), old(blocked.queue), old(trailerFin), gone)
        invariant old(Progressing()) ==> Progressing()
      {
        EndedMore(ids, i, closed);
        if closed(ids[i]) {
          ClearOne(ids[i], old(streams), old(blocked.members), old(blocked.queue), old(trailerFin), gone);
          gone := gone + {ids[i]};
        }
      }
      assert ids[..|ids|] == ids;
    }

    method ClearOne(id: StreamId, ghost f: Streams, ghost all: set<StreamId>, ghost q: seq<StreamId>, ghost fins: set<StreamId>, ghost gone: set<StreamId>)
      requires Core() && Settled() && blocked.Ok() && Purged(f, all, q, fins, gone)
      modifies `readCredit, `pendingBody, `pendingReadable, `trailerFin, `trace, `streams, `log, blocked
      ensures old(trace) <= trace && Core() && Settled() && blocked.Ok() && log == old(log)
      ensures Purged(f, all, q, fins, gone + {id})
      ensures old(Progressing()) ==> Progressing()
    {
      RetainTwice(q, gone, {id});
      ClearTracking(id);
      CleanseOne(window, f, old(streams), streams, gone, id);
    }

    method PollDatagrams(datagrams: seq<Bytes>, budget: nat, batch: seq<Event>, ghost sent: seq<(StreamId, Token)>)
      returns (out: seq<Event>)
      requires InSync(sent, batch)
      ensures InSync(sent, out) && out == batch + DatagramEvents(conn, datagrams[..Min(budget, |datagrams|)])
    {
      out := batch;
      var n := Min(budget, |datagrams|);
      for i := 0 to n
        invariant InSync(sent, out) && out == batch + DatagramEvents(conn, datagrams[..i])
      {
        assert datagrams[..i + 1][..i] == datagrams[..i];
        Assoc(batch, DatagramEvents(conn, datagrams[..i]), [DatagramEvent(conn, datagrams[i])]);
        out := PushPlain(DatagramEvent(conn, datagrams[i]), out, sent);
      }
    }

    /** The application events of `poll_h3_events`: none at budget 0, at most one above the
        budget, and never above it while reads into a buffer with room always make progress. */
    method PollApp(budget: nat, datagrams: seq<Bytes>, closed: StreamId -> bool, batch: seq<Event>, ghost sent: seq<(StreamId, Token)>)
      returns (out: seq<Event>, ghost used: nat, ghost last: Moment)
      requires Core() && OnScript() && Settled() && blocked.Ok() && InSync(sent, batch)
      modifies this, blocked
      ensures old(trace) <= trace && Core() && Settled() && blocked.Ok() && InSync(sent, out)
      ensures used <= |old(polls)| && polls == old(polls)[used..]
      ensures Swept(EndedStreams(ResetsOf(old(polls)[..used]), FinishedOf(old(polls)[..used]), closed),
                    old(blocked.members), old(blocked.queue))
      ensures budget == 0 ==> out == batch
      ensures |out| <= |batch| + budget + 1
      ensures |out| == |batch| + budget + 1 <==> EndedOver(old(polls), used, last, conn)
      ensures During(window, conn, sent, old(trace), last, trace) && |last.batch| + last.budget == |batch| + budget
      ensures EndedOver(old(polls), used, last, conn) ==> !old(Progressing()) && Overran(old(polls), used, last, conn, out)
      ensures old(Starved()) && old(polls) != [] && 0 < budget ==>
        used > 0 && (used == 1 ==> last == Moment(old(trace), old(streams), budget, batch))
      ensures old(Progressing()) ==> Progressing()
      // every failed read is reported on its stream, unless the budget is used up
      ensures Reported(old(streams), streams, |out| >= |batch| + budget) && OnScript()
      // a poll that stays below its budget has left nothing behind
      ensures |out| < |batch| + budget && PollFailed !in old(polls)[..used] ==> polls == []
      ensures |out| < |batch| + budget ==> Ends(out, DatagramEvents(conn, datagrams))
    {
      var remaining;
      out, remaining, used, last := PollStreams(budget, closed, batch, sent);
      if remaining > 0 {
        DatagramsEnd(conn, out, datagrams, remaining);
        out := PollDatagrams(datagrams, remaining, out, sent);
      }
    }

    /** The event loop, then the streams it ended. */
    method PollStreams(budget: nat, closed: StreamId -> bool, batch: seq<Event>, ghost sent: seq<(StreamId, Token)>)
      returns (out: seq<Event>, remaining: nat, ghost used: nat, ghost last: Moment)
      requires Core() && OnScript() && Settled() && blocked.Ok() && InSync(sent, batch)
      modifies this, blocked
      ensures old(trace) <= trace && Core() && Settled() && blocked.Ok() && InSync(sent, out)
      ensures used <= |old(polls)| && polls == old(polls)[used..]
      ensures Swept(EndedStreams(ResetsOf(old(polls)[..used]), FinishedOf(old(polls)[..used]), closed),
                    old(blocked.members), old(blocked.queue))
      ensures budget == 0 ==> out == batch && remaining == 0
      ensures Polled(window, conn, sent, old(Moment(trace, streams, budget, batch)), old(polls), used, last, trace, out, remaining)
      ensures EndedOver(old(polls), used, last, conn) ==> !old(Progressing())
      ensures old(Starved()) && old(polls) != [] && 0 < budget ==>
        used > 0 && (used == 1 ==> last == old(Moment(trace, streams, budget, batch)))
      ensures old(Progressing()) ==> Progressing()
      // every failed read is reported on its stream, unless the budget is used up
      ensures Reported(old(streams), streams, remaining == 0) && OnScript()
      ensures remaining > 0 && PollFailed !in old(polls)[..used] ==> polls == []
    {
      var resets, finished;
      out, remaining, resets, finished, used, last := PollEvents(budget, batch, sent);
      ClearAfter(resets, finished, closed, sent, old(Moment(trace, streams, budget, batch)), old(polls), used, last, out, remaining);
    }

    /** The clearing after the loop changes nothing about what the loop did. */
    method ClearAfter(resets: seq<StreamId>, finished: seq<StreamId>, closed: StreamId -> bool, ghost sent: seq<(StreamId, Token)>,
                      ghost start: Moment, ghost answers: seq<PollAnswer>, ghost used: nat, ghost last: Moment, ghost out: seq<Event>, ghost remaining: nat)
      requires Core() && Settled() && blocked.Ok()
      requires Polled(window, conn, sent, start, answers, used, last, trace, out, remaining)
      requires Reported(start.streams, streams, remaining == 0)
      modifies `readCredit, `pendingBody, `pendingReadable, `trailerFin, `trace, `streams, `log, blocked
      ensures old(trace) <= trace && Core() && Settled() && blocked.Ok() && log == old(log)
      ensures Swept(EndedStreams(resets, finished, closed), old(blocked.members), old(blocked.queue))
      ensures Polled(window, conn, sent, start, answers, used, last, trace, out, remaining)
      ensures Reported(start.streams, streams, remaining == 0)
      ensures old(Progressing()) ==> Progressing()
    {
      ClearEnded(resets, finished, closed);
      PolledLater(window, conn, sent, start, answers, used, last, old(trace), trace, out, remaining);
      ReportedThen(start.streams, old(streams), streams, EndedStreams(resets, finished, closed), remaining == 0);
    }

    /** `poll_h3_events`: the application events end at `app`, and the drain events that follow
        are exactly those due on the streams still blocked. `used` answers of quiche were taken. */
    method Poll(budget: nat, datagrams: seq<Bytes>, closed: StreamId -> bool, writable: seq<StreamId>,
                cap: StreamId -> CapAnswer, batch: seq<Event>, ghost sent: seq<(StreamId, Token)>)
      returns (out: seq<Event>, app: nat, acts: seq<Act>, ghost used: nat)
      requires Core() && OnScript() && Settled() && blocked.Ok() && InSync(sent, batch)
      modifies this, blocked
      ensures OnScript() && old(trace) <= trace && Core() && Settled() && blocked.Ok() && InSync(sent, out)
      ensures app <= |out| && app <= |batch| + budget + 1 && out[app..] == ActEvents(conn, acts)
      ensures used <= |old(polls)| && polls == old(polls)[used..]
      ensures var waiting := old(blocked.members) - EndedStreams(ResetsOf(old(polls)[..used]), FinishedOf(old(polls)[..used]), closed);
        && DrainEvents(conn, ActEvents(conn, acts), waiting, closed, Members(writable), cap)
        && blocked.members == waiting - Leaving(waiting, closed, Members(writable), cap)
      ensures budget == 0 ==> app == |batch|
      ensures old(Progressing()) ==> Progressing() && app <= |batch| + budget
    {
      ghost var last;
      out, used, last := PollApp(budget, datagrams, closed, batch, sent);
      app := |out|;
      out, acts := PollDrain(closed, writable, cap, out, sent);
    }

    // ----- sending -----

    /** `send_request`, with quiche's answer: the new stream, `StreamBlocked`, or another error. */
    method SendRequest(started: Option<StreamId>, streamBlocked: bool) returns (id: Option<StreamId>)
      requires blocked.Ok()
      modifies `nextRequest, blocked
      ensures blocked.Ok() && id == started
      ensures nextRequest == if started.Some? then started.value + 4 else old(nextRequest)
      ensures blocked.members ==
        if started.None? && streamBlocked then old(blocked.members) + {old(nextRequest)} else old(blocked.members)
    {
      id := started;
      if started.Some? {
        nextRequest := started.value + 4;
      } else if streamBlocked {
        blocked.Track(nextRequest);
      }
    }

    /** `send_trailers`; `sent` is quiche's answer. */
    method SendTrailers(id: StreamId, sent: bool)
      modifies `trailerFin
      ensures trailerFin == if sent then old(trailerFin) + {id} else old(trailerFin)
      ensures sent ==> FinIsFree(id in trailerFin)
    {
      if sent {
        trailerFin := trailerFin + {id};
      }
    }

    /** `send_body_arcbuf`: a prefix is handed over, the rest comes back with the stream blocked,
        and FIN is accepted exactly on the call that leaves nothing. */
    method SendBody(id: StreamId, buf: Bytes, fin: bool, cap: CapAnswer, answer: SendAnswer) returns (r: SendResult)
      requires blocked.Ok()
      modifies blocked
      ensures blocked.Ok() && r == SendOnce(buf, fin, id in trailerFin, cap, answer)
      ensures Reports(buf, fin, id in trailerFin, cap, answer, r)
      ensures r.Sent? ==>
        && r.written <= |buf| && r.finAccepted == (fin && r.remainder.None?)
        && (if r.remainder.None? then r.written == |buf| && blocked.members == old(blocked.members)
            else r.remainder.value == buf[r.written..] && blocked.members == old(blocked.members) + {id})
      ensures r.SendError? ==> blocked.members == old(blocked.members)
      // a retry without room never reaches quiche
      ensures (buf != [] || fin) && !(buf == [] && id in trailerFin) && cap.Capacity? && cap.bytes < Required(|buf|) ==>
        r == Sent(0, false, Some(buf))
    {
      if buf == [] && fin && id in trailerFin {
        return Sent(0, true, None);
      }
      if buf != [] || fin {
        if !cap.Capacity? { return SendError; }
        if cap.bytes < Required(|buf|) {
          blocked.Track(id);
          return Sent(0, false, Some(buf));
        }
      }
      if buf == [] && !fin {
        return Sent(0, false, None);
      }
      match answer {
        case Wrote(n) =>
          var written := Min(n, |buf|);
          if written < |buf| { blocked.Track(id); }
          var remainder := if written < |buf| then Some(buf[written..]) else None;
          r := Sent(written, fin && remainder.None?, remainder);
        case SendDone =>
          blocked.Track(id);
          r := Sent(0, false, Some(buf));
        case SendFailed =>
          r := SendError;
      }
    }

    method StreamClose(id: StreamId)
      requires Core() && Settled() && blocked.Ok()
      modifies `readCredit, `pendingBody, `pendingReadable, `trailerFin, `trace, `streams, `log, blocked
      ensures old(trace) <= trace && Core() && Settled() && blocked.Ok()
      ensures id !in blocked.members && id !in readCredit && id !in pendingBody && id !in pendingReadable && id !in trailerFin
      ensures SameElsewhere(old(streams), streams, id) && log == old(log)
    {
      ClearTracking(id);
      assert streams(id).credit == Get(readCredit, id) && streams(id).pending == Get(pendingBody, id);
    }
  }

  /** In every state of the worker, for every stream and whatever quiche answered: the DATA
      payloads sent to JS and the receive buffer are exactly the bytes read, in order; credit
      never exceeds the window; and the events sent are what the stream's own run sent. */
  lemma EveryStreamIsSound(c: H3Connection, id: StreamId)
    requires c.Core()
    ensures StreamOk(c.window, c.streams(id))
    ensures Project(c.log, id) == c.streams(id).out
  {
    LegalTraceKeepsStreams(c.window, c.trace, id);
    LogProjects(c.window, c.trace, id);
    assert Replay(c.window, c.trace, id) == c.streams(id);
  }

  /** The errors JS is sent about a stream are counted against its failed reads: `failures` are
      the `Failed` answers of quiche to its body reads, `errors` the error events on the stream. */
  lemma ErrorsAndFailures(c: H3Connection, id: StreamId)
    requires c.Core()
    ensures c.streams(id).failures == FailedReads(c.bodyReads, id)
    ensures c.streams(id).errors == ErrorsIn(Project(c.log, id))
  {
    assert Replay(c.window, c.trace, id) == c.streams(id);
    FailuresCount(c.window, c.trace, id);
    ErrorsCount(c.window, c.trace, id);
    LogProjects(c.window, c.trace, id);
  }

  /** Between events an open DATA edge is left out of `pending_readable` exactly if the stream's
      last read returned no bytes; a receive buffer is kept only then. */
  lemma EdgeIsDroppedExactly(c: H3Connection, id: StreamId)
    requires c.Core() && c.Settled()
    ensures c.streams(id).edge && id !in c.pendingReadable <==> c.streams(id).stalled
    ensures id in c.pendingBody ==> c.streams(id).stalled
  {
    assert c.streams(id).readable == (id in c.pendingReadable) && c.streams(id).pending == Get(c.pendingBody, id);
  }
}
