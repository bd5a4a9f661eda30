/** The worker object and the credit protocol together. */
module WorkerProtocol {
  import opened Common
  import opened ReceiveSteps
  import opened Connection
  import opened WorkerLog
  import opened CreditProtocol

  /** One leg of a run of the whole worker next to the stream object of stream `id`: the worker
      takes any steps on any streams, or applies the next credit command for this stream, or
      something happens on the JS side. */
  datatype Leg = Stretch(more: Trace) | Credit | Js(move: Move)

  ghost predicate LegOk(window: nat, id: StreamId, trace: Trace, g: System, leg: Leg) {
    match leg
    case Stretch(more) => Legal(Some(window), trace + more) && Contracted(window, trace, more, id)
    case Credit => g.grants != []
    case Js(m) => !m.Work? && !m.ApplyGrant? && Allowed(g, m)
  }

  function TraceAfter(id: StreamId, trace: Trace, g: System, leg: Leg): Trace {
    match leg
    case Stretch(more) => trace + more
    case Credit => if g.grants == [] then trace else trace + [(id, Grant(g.grants[0]))]
    case Js(_) => trace
  }

  ghost function SystemAfter(window: nat, id: StreamId, trace: Trace, g: System, leg: Leg): System
    requires LegOk(window, id, trace, g, leg)
  {
    match leg
    case Stretch(more) => g.(worker := Replay(Some(window), trace + more, id))
    case Credit => Next(window, g, ApplyGrant)
    case Js(m) => Next(window, g, m)
  }

  /** The legs lead from `trace` and `g` to `end` and `h`. */
  ghost predicate Together(window: nat, id: StreamId, trace: Trace, g: System, legs: seq<Leg>, end: Trace, h: System)
    decreases |legs|
  {
    if legs == [] then trace == end && g == h
    else
      && LegOk(window, id, trace, g, legs[0])
      && Together(window, id, TraceAfter(id, trace, g, legs[0]), SystemAfter(window, id, trace, g, legs[0]), legs[1..], end, h)
  }

  lemma StretchIsReachable(window: nat, hwm: nat, limit: Option<nat>, g: System, trace: Trace, more: Trace, id: StreamId)
    requires Reachable(window, hwm, limit, g) && g.worker == Replay(Some(window), trace, id)
    requires Legal(Some(window), trace + more) && Contracted(window, trace, more, id)
    ensures Reachable(window, hwm, limit, g.(worker := Replay(Some(window), trace + more, id)))
  {
    var init := Init(hwm, limit);
    var moves :| Permitted(window, init, moves) && g == Run(window, init, moves);
    var rest := PollIsRun(window, g, trace, more, id);
    RunConcat(window, init, moves, rest);
  }

  /** One leg of the whole worker is a stretch of the stream's protocol. */
  lemma LegIsReachable(window: nat, hwm: nat, limit: Option<nat>, id: StreamId, trace: Trace, g: System, leg: Leg)
    requires Reachable(window, hwm, limit, g) && g.worker == Replay(Some(window), trace, id) && LegOk(window, id, trace, g, leg)
    ensures Reachable(window, hwm, limit, SystemAfter(window, id, trace, g, leg))
    ensures SystemAfter(window, id, trace, g, leg).worker == Replay(Some(window), TraceAfter(id, trace, g, leg), id)
  {
    match leg {
      case Stretch(more) => StretchIsReachable(window, hwm, limit, g, trace, more, id);
      case Credit =>
        ReachMore(window, hwm, limit, g, ApplyGrant);
        ExtendTrace(Some(window), trace, id, Grant(g.grants[0]));
      case Js(m) => ReachMore(window, hwm, limit, g, m);
    }
  }

  /** Every run of the worker over all its streams, with its credit commands coming from the
      stream object of stream `id`, is a run of that stream's protocol. */
  lemma {:induction false} WorkerRunIsReachable(window: nat, hwm: nat, limit: Option<nat>, id: StreamId,
                                                trace: Trace, g: System, legs: seq<Leg>, end: Trace, h: System)
    requires Reachable(window, hwm, limit, g) && g.worker == Replay(Some(window), trace, id)
    requires Together(window, id, trace, g, legs, end, h)
    ensures Reachable(window, hwm, limit, h) && h.worker == Replay(Some(window), end, id)
    decreases |legs|
  {
    if legs != [] {
      LegIsReachable(window, hwm, limit, id, trace, g, legs[0]);
      WorkerRunIsReachable(window, hwm, limit, id, TraceAfter(id, trace, g, legs[0]),
                           SystemAfter(window, id, trace, g, legs[0]), legs[1..], end, h);
    }
  }

  /** The worker object and a stream object that have run together from the start. */
  ghost predicate RanTogether(c: H3Connection, id: StreamId, window: nat, hwm: nat, limit: Option<nat>, legs: seq<Leg>, g: System)
    reads c
  {
    c.window == Some(window) && Together(window, id, [], Init(hwm, limit), legs, c.trace, g)
  }

  /** No stall, end to end: between two polls of the worker, a live stream with nothing in
      flight and nothing left to read has back its whole window except what JS ignored. If
      every coalesced payload rode on the first HEADERS, its `read_credit` entry is the whole
      window, no DATA edge waits, the worker holds nothing, and everything quiche handed over
      has reached the consumer. A stream whose last read returned zero bytes is outside the
      claim. */
  lemma RestingStreamIsWhole(c: H3Connection, id: StreamId, window: nat, hwm: nat, limit: Option<nat>, legs: seq<Leg>, g: System)
    requires c.Core() && c.Settled() && RanTogether(c, id, window, hwm, limit, legs, g) && 0 < window
    requires Quiescent(g) && id in c.readCredit && !g.js.destroyed && !c.streams(id).stalled
    ensures g.worker == c.streams(id) && g.js.uncredited == 0 && id !in c.pendingBody
    ensures c.readCredit[id] == window - Forfeit(g)
    ensures id in c.pendingReadable ==> Forfeit(g) == window
    ensures RidesFirst(c.streams(id).out) ==>
      && c.readCredit[id] == window && id !in c.pendingReadable
      && (!g.worker.lost ==> g.js.consumed == g.worker.read)
  {
    var init := Init(hwm, limit);
    assert Permitted(window, init, []) && init == Run(window, init, []);
    WorkerRunIsReachable(window, hwm, limit, id, [], init, legs, c.trace, g);
    assert Replay(c.window, c.trace, id) == c.streams(id);
    assert SettledStream(c.streams(id)) && c.streams(id).credit == Get(c.readCredit, id);
    assert c.streams(id).pending == Get(c.pendingBody, id) && c.streams(id).readable == (id in c.pendingReadable);
    QuiescentStreamIsWhole(window, hwm, limit, g);
  }
}
