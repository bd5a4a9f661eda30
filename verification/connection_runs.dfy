/** Single runs of the worker in which a promise fails, as its exact condition says. */
module ConnectionRuns {
  import opened Common
  import opened ReceiveSteps
  import opened WorkerLog
  import opened Connection

  /** A worker without flow control whose first stream has sent its header section. quiche will
      give it one byte, and then `second`. */
  method OpenFirst(conn: nat, second: RecvAnswer) returns (c: H3Connection)
    ensures fresh(c) && fresh(c.blocked) && c.Core() && c.Settled() && c.OnScript() && c.blocked.Ok() && c.conn == conn && c.window == None
    ensures c.polls == [PollFinished(0)] && c.recvs == [Got([7]), second] && c.pendingReadable == {} && c.pendingBody == map[]
    ensures c.streams(0) == Apply(None, IDLE, Open)
  {
    c := new H3Connection(conn, None, [PollFinished(0)], [Got([7]), second]);
    c.GrantWindow(0);
  }

  /** DATA has arrived for it. */
  method StartEdge(conn: nat, second: RecvAnswer) returns (c: H3Connection)
    ensures fresh(c) && fresh(c.blocked) && c.Core() && c.OnScript() && c.blocked.Ok() && c.conn == conn
    ensures c.polls == [PollFinished(0)] && c.recvs == [Got([7]), second] && c.pendingReadable == {} && c.pendingBody == map[]
    ensures forall id :: id != 0 ==> SettledStream(c.streams(id))
    ensures c.streams(0) == Apply(None, IDLE, Open).(edge := true)
  {
    c := OpenFirst(conn, second);
    c.NoteEdge(0);
  }

  /** And a receive buffer is ready. */
  method StartBody(conn: nat, second: RecvAnswer) returns (c: H3Connection)
    ensures fresh(c) && fresh(c.blocked) && c.Core() && c.OnScript() && c.blocked.Ok() && c.conn == conn
    ensures c.polls == [PollFinished(0)] && c.recvs == [Got([7]), second] && c.pendingReadable == {}
    ensures forall id :: id != 0 ==> SettledStream(c.streams(id))
    ensures c.streams(0) == Apply(None, IDLE, Open).(edge := true, pending := Some(RecvBuf(RECV_CHUNK, [])))
  {
    c := StartEdge(conn, second);
    assert c.streams(0).credit == Get(c.readCredit, 0);
    c.CheckoutBuffer(0);
  }

  /** A stream on which, after its header section, one byte was read and then none. */
  method HoldOneByte(conn: nat) returns (c: H3Connection)
    ensures fresh(c) && fresh(c.blocked) && c.Core() && c.Settled() && c.OnScript() && c.blocked.Ok()
    ensures c.polls == [PollFinished(0)] && c.pendingReadable == {}
    ensures Held(c.streams(0)) == [7] && c.streams(0).edge && c.streams(0).stalled
  {
    c := StartBody(conn, Got([]));
    assert c.streams(0).pending == Get(c.pendingBody, 0);
    ReadByte(c);
    ReadByte(c);
    assert c.streams(0).pending == Get(c.pendingBody, 0);
  }

  /** A stream on which one byte was read, and the next read failed. */
  method FailAfterByte(conn: nat) returns (c: H3Connection)
    ensures fresh(c) && c.Core() && c.OnScript() && c.conn == conn && 0 in c.pendingBody
    ensures Held(c.streams(0)) == [7] && c.streams(0).failures == 1 && c.streams(0).errors == 0 && !c.streams(0).edge
  {
    c := StartBody(conn, Failed);
    assert c.streams(0).pending == Get(c.pendingBody, 0);
    ReadByte(c);
    var _, _, bytes := c.ReadOnce(0);
    assert [7] + bytes == [7] && c.streams(0).pending == Get(c.pendingBody, 0);
  }

  /** With one event left, that byte takes it: the failure is never reported, and the stream is not
      read again. */
  method FailSilently(conn: nat) returns (c: H3Connection, out: seq<Event>)
    ensures fresh(c) && c.Core() && c.OnScript() && out == [DataEvent(conn, 0, [7])]
    ensures FailedReads(c.bodyReads, 0) == 1 && ErrorsIn(Project(c.log, 0)) == 0 && !c.streams(0).edge
  {
    c := FailAfterByte(conn);
    assert c.log == c.log + Flat([], conn);
    var remaining;
    out, remaining := c.PassOn(0, false, true, 1, [], c.log);
    ErrorsAndFailures(c, 0);
  }

  /** One read on the first stream of such a worker. */
  method ReadByte(c: H3Connection)
    requires c.Core() && c.OnScript() && 0 in c.pendingBody && c.pendingBody[0].target == RECV_CHUNK && |c.pendingBody[0].data| <= 1
    requires c.recvs != [] && c.recvs[0].Got? && |c.recvs[0].bytes| <= 1
    requires c.streams(0).edge && !c.streams(0).readable && !c.streams(0).stalled
    modifies c
    ensures c.Core() && c.OnScript() && c.polls == old(c.polls) && c.pendingReadable == old(c.pendingReadable)
    ensures c.recvs == old(c.recvs)[1..] && 0 in c.pendingBody
    ensures c.pendingBody[0] == RecvBuf(RECV_CHUNK, old(c.pendingBody[0].data) + old(c.recvs[0].bytes))
    ensures c.streams(0).edge && !c.streams(0).readable && c.streams(0).stalled == (old(c.recvs)[0].bytes == [])
    ensures SameElsewhere(old(c.streams), c.streams, 0)
    ensures c.streams(0).failures == old(c.streams(0).failures) && c.streams(0).errors == old(c.streams(0).errors)
  {
    var _, _, _ := c.ReadOnce(0);
    assert old(c.recvs)[0].bytes[..|old(c.recvs)[0].bytes|] == old(c.recvs)[0].bytes;
  }

  /** The budget can be exceeded: in that state FINISHED arrives, and a poll with a budget of one
      event returns two. */
  method ExceedBudget(c: H3Connection, budget: nat, closed: StreamId -> bool) returns (out: seq<Event>)
    requires c.Core() && c.Settled() && c.OnScript() && c.blocked.Ok() && c.polls == [PollFinished(0)] && c.pendingReadable == {}
    requires Held(c.streams(0)) == [7] && budget == 1
    modifies c, c.blocked
    ensures c.Core() && c.Settled() && c.blocked.Ok() && c.polls == []
    ensures |out| == budget + 1 && out == [DataEvent(c.conn, 0, [7]), FinishedEvent(c.conn, 0)]
  {
    assert c.log == c.log + Flat([], c.conn);
    ghost var used, last;
    out, used, last := c.PollApp(budget, [], closed, [], c.log);
  }
}
