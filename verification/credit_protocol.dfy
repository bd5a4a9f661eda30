/** The read-credit protocol of one stream: the worker (`ReceiveSteps`), a FIFO of events to
    JS, the stream object (`Readable`) and a FIFO of credit commands back to the worker,
    interleaved in every possible way. */
module CreditProtocol {
  import opened Common
  import opened ReceiveSteps
  import opened Readable

  /** `got` of the worker's tokens have reached JS; the rest are in flight. */
  datatype System = System(worker: Stream, got: nat, js: Reader, grants: seq<nat>)

  datatype Move =
    | Work(step: Step)
    | DeliverNext(direct: bool, routed: bool)
    | NodeRead(taken: nat)   // a read that runs `_read`
    | NodeTake(taken: nat)   // a read that does not
    | Tick(accepted: bool)
    | ApplyGrant
    | Destroy

  function Init(hwm: nat, limit: Option<nat>): System {
    System(IDLE, 0, Start(hwm, limit), [])
  }

  /** What quiche promises: a body is read only between its header sections and its end. Any
      number of header sections may come first, as interim responses do (section 4.1 of
      RFC 9114). */
  predicate WorkerContract(s: Stream, step: Step) {
    match step
    case Open => !s.phase.Ended?
    case Checkout => s.phase.Live?
    case Recv(_) => s.phase.Live?
    case Grant(_) => false
    case _ => true
  }

  predicate Allowed(g: System, m: Move) {
    match m
    case Work(step) => Enabled(g.worker, step) && WorkerContract(g.worker, step)
    case DeliverNext(_, routed) => g.got < |g.worker.out| && (!g.js.destroyed ==> routed)
    case NodeRead(taken) => ReadAllowed(g.js, taken)
    case NodeTake(taken) => taken <= |g.js.buffer|
    case Tick(_) => g.js.scheduled
    case ApplyGrant => g.grants != []
    case Destroy => true
  }

  function Kill(r: Reader): Reader {
    r.(destroyed := true, spill := [], spillBytes := 0)
  }

  /** What one token carries. */
  function Payload(token: Token): Bytes {
    if token.DataToken? then token.bytes else []
  }

  function HeadersIn(ts: seq<Token>): nat {
    if ts == [] then 0
    else HeadersIn(ts[..|ts| - 1]) + (if ts[|ts| - 1].HeadersToken? then 1 else 0)
  }

  /** Data riding on a HEADERS event that is not the stream's first: JS takes the event for
      trailers and does not look at its data. */
  predicate Ignored(before: seq<Token>, token: Token) {
    token.DataToken? && token.rides && HeadersIn(before) > 1
  }

  /** Exactly the data that rides on a HEADERS event with another one before it is ignored. */
  lemma {:induction false} IgnoredMeans(before: seq<Token>, token: Token)
    ensures Ignored(before, token) <==>
      token.DataToken? && token.rides && exists i, j :: 0 <= i < j < |before| && before[i] == HeadersToken && before[j] == HeadersToken
  {
    TwoHeaders(before);
  }

  lemma {:induction false} TwoHeaders(ts: seq<Token>)
    ensures HeadersIn(ts) > 0 <==> HeadersToken in ts
    ensures HeadersIn(ts) > 1 <==> exists i, j :: 0 <= i < j < |ts| && ts[i] == HeadersToken && ts[j] == HeadersToken
  {
    if ts != [] {
      var n := |ts| - 1;
      var front := ts[..n];
      TwoHeaders(front);
      assert ts == front + [ts[n]];
      if HeadersIn(front) > 1 {
        var i, j :| 0 <= i < j < |front| && front[i] == HeadersToken && front[j] == HeadersToken;
        assert ts[i] == HeadersToken && ts[j] == HeadersToken;
      } else if HeadersIn(front) > 0 && ts[n] == HeadersToken {
        var i :| 0 <= i < |front| && front[i] == HeadersToken;
        assert ts[i] == HeadersToken && ts[n] == HeadersToken;
      }
      if i, j :| 0 <= i < j < |ts| && ts[i] == HeadersToken && ts[j] == HeadersToken {
        assert front[i] == HeadersToken;
        if j < n {
          assert front[j] == HeadersToken;
        }
      }
    }
  }

  /** How JS handles one token, after the tokens `before`. */
  function OnToken(r: Reader, before: seq<Token>, token: Token, direct: bool, routed: bool): Reader {
    if !routed || Ignored(before, token) then r
    else match token
      case HeadersToken => r
      case DataToken(bytes, _) => Deliver(r, Some(bytes), direct)
      case FinishedToken => Deliver(r, None, false)
      case ResetToken => Kill(r)
      case ErrorToken => Kill(r)
  }

  /** The payload that reaches a stream object, and the payload that is ignored. */
  function Arrived(ts: seq<Token>): Bytes {
    if ts == [] then []
    else
      var front, t := ts[..|ts| - 1], ts[|ts| - 1];
      if Ignored(front, t) then Arrived(front) else Arrived(front) + Payload(t)
  }

  function Dropped(ts: seq<Token>): Bytes {
    if ts == [] then []
    else
      var front, t := ts[..|ts| - 1], ts[|ts| - 1];
      if Ignored(front, t) then Dropped(front) + Payload(t) else Dropped(front)
  }

  /** Every coalesced payload rides on its stream's first HEADERS event. */
  ghost predicate RidesFirst(ts: seq<Token>) {
    forall k :: 0 <= k < |ts| ==> !Ignored(ts[..k], ts[k])
  }

  predicate Filled(ts: seq<Token>) {
    ts == [] || (Filled(ts[..|ts| - 1]) && (ts[|ts| - 1].DataToken? ==> ts[|ts| - 1].bytes != []))
  }

  lemma {:induction false} PayloadSplits(ts: seq<Token>)
    ensures |Arrived(ts)| + |Dropped(ts)| == |DataOf(ts)|
    ensures Dropped(ts) == [] ==> Arrived(ts) == DataOf(ts)
  {
    if ts != [] {
      PayloadSplits(ts[..|ts| - 1]);
    }
  }

  /** Nothing is ignored exactly when every payload rides on the first HEADERS. */
  lemma {:induction false} NothingDroppedMeans(ts: seq<Token>)
    requires Filled(ts)
    ensures Dropped(ts) == [] <==> RidesFirst(ts)
  {
    if ts != [] {
      var front := ts[..|ts| - 1];
      NothingDroppedMeans(front);
      assert forall k :: 0 <= k < |front| ==> front[k] == ts[k] && front[..k] == ts[..k];
      assert ts[..|front|] == front;
    }
  }

  lemma {:induction false} FilledPrefix(ts: seq<Token>, n: nat)
    requires Filled(ts) && n <= |ts|
    ensures Filled(ts[..n])
  {
    if n < |ts| {
      FilledPrefix(ts[..|ts| - 1], n);
      assert ts[..|ts| - 1][..n] == ts[..n];
    } else {
      assert ts[..n] == ts;
    }
  }

  function Next(window: nat, g: System, m: Move): System
    requires Allowed(g, m)
  {
    match m
    case Work(step) => g.(worker := Apply(Some(window), g.worker, step))
    case DeliverNext(direct, routed) =>
      g.(got := g.got + 1, js := OnToken(g.js, g.worker.out[..g.got], g.worker.out[g.got], direct, routed))
    case NodeRead(taken) => g.(js := ReadCall(g.js, taken))
    case NodeTake(taken) => g.(js := Take(g.js, taken))
    case Tick(accepted) =>
      var (r, sent) := CreditTick(g.js, accepted);
      g.(js := r, grants := if sent.Some? then g.grants + [sent.value] else g.grants)
    case ApplyGrant =>
      g.(worker := Apply(Some(window), g.worker, Grant(g.grants[0])), grants := g.grants[1..])
    case Destroy => g.(js := Kill(g.js))
  }

  function InFlight(g: System): Bytes
    requires g.got <= |g.worker.out|
  {
    DataOf(g.worker.out[g.got..])
  }

  /** Everything the read window is spent on. */
  function Total(g: System): nat
    requires g.got <= |g.worker.out|
  {
    CreditOr(g.worker, 0) + |Held(g.worker)| + |InFlight(g)| + g.js.uncredited + Sum(g.grants)
  }

  /** Bytes that JS has been sent and has ignored; their credit never comes back. */
  function Forfeit(g: System): nat
    requires g.got <= |g.worker.out|
  {
    |Dropped(g.worker.out[..g.got])|
  }

  ghost predicate AccountOk(window: nat, g: System) {
    && g.got <= |g.worker.out|
    && Total(g) + Forfeit(g) <= window
    && (g.worker.phase.Fresh? ==> g.worker.credit.None? && Total(g) + Forfeit(g) == 0)
    && (g.worker.phase.Live? <==> g.worker.credit.Some?)
    && (g.worker.phase.Live? && !g.js.destroyed ==> Total(g) + Forfeit(g) == window)
  }

  /** No payload follows FINISHED. */
  predicate EndIsLast(ts: seq<Token>) {
    ts == [] || (EndIsLast(ts[..|ts| - 1]) && (ts[|ts| - 1].DataToken? ==> FinishedToken !in ts[..|ts| - 1]))
  }

  /** A live stream object knows the end that it has been told, and has been told no other. */
  ghost predicate Told(r: Reader, delivered: seq<Token>) {
    && (FinishedToken in delivered ==> r.ended || None in r.spill)
    && ResetToken !in delivered && ErrorToken !in delivered
  }

  ghost predicate EndOk(g: System)
    requires g.got <= |g.worker.out|
  {
    && EndsWell(g.worker)
    && (g.js.ended || None in g.js.spill ==> FinishedToken in g.worker.out[..g.got])
    && (!g.js.destroyed ==> Told(g.js, g.worker.out[..g.got]))
  }

  ghost predicate Inv(window: nat, g: System) {
    && StreamOk(Some(window), g.worker)
    && ReaderOk(g.js)
    && AccountOk(window, g)
    && EndOk(g)
    && (!g.js.destroyed ==> g.js.received == Arrived(g.worker.out[..g.got]))
  }

  // ----- every move keeps the invariant -----

  lemma AppendInFlight(out: seq<Token>, got: nat, token: Token)
    requires got <= |out|
    ensures DataOf((out + [token])[got..]) == DataOf(out[got..]) + Payload(token)
    ensures (out + [token])[..got] == out[..got]
  {
    assert (out + [token])[got..] == out[got..] + [token];
    DataOfConcat(out[got..], [token]);
  }

  lemma WorkKeepsAccount(window: nat, g: System, step: Step)
    requires Inv(window, g) && Allowed(g, Work(step))
    ensures AccountOk(window, Next(window, g, Work(step)))
    ensures Next(window, g, Work(step)).worker.out[..g.got] == g.worker.out[..g.got]
  {
    match step {
      case Open => AppendInFlight(g.worker.out, g.got, HeadersToken);
      case Emit(token) => AppendInFlight(g.worker.out, g.got, token);
      case Flush(rides) => AppendInFlight(g.worker.out, g.got, DataToken(Held(g.worker), rides));
      case Recv(bytes) => ReadsAreFullyCharged(Some(window), g.worker, bytes);
      case _ =>
    }
  }

  lemma WorkKeepsInv(window: nat, g: System, step: Step)
    requires Inv(window, g) && Allowed(g, Work(step))
    ensures Inv(window, Next(window, g, Work(step)))
  {
    StepKeepsStreamOk(Some(window), g.worker, step);
    WorkKeepsAccount(window, g, step);
    WorkKeepsEnd(window, g, step);
  }

  lemma AppendToken(out: seq<Token>, token: Token)
    requires EndIsLast(out) && Filled(out) && (token.DataToken? ==> token.bytes != [] && FinishedToken !in out)
    ensures EndIsLast(out + [token]) && Filled(out + [token])
  {
    assert (out + [token])[..|out|] == out;
  }

  /** What a worker's stream keeps about the end of its body. */
  ghost predicate EndsWell(s: Stream) {
    EndIsLast(s.out) && Filled(s.out) && (FinishedToken in s.out ==> s.phase.Ended? && Held(s) == [])
  }

  lemma StepEndsWell(window: nat, s: Stream, step: Step)
    requires EndsWell(s) && Enabled(s, step) && WorkerContract(s, step)
    ensures EndsWell(Apply(Some(window), s, step))
  {
    match step {
      case Open => AppendToken(s.out, HeadersToken);
      case Emit(token) => AppendToken(s.out, token);
      case Flush(rides) => AppendToken(s.out, DataToken(Held(s), rides));
      case _ =>
    }
  }

  lemma WorkKeepsEnd(window: nat, g: System, step: Step)
    requires Inv(window, g) && Allowed(g, Work(step))
    requires Next(window, g, Work(step)).worker.out[..g.got] == g.worker.out[..g.got] && g.got <= |Next(window, g, Work(step)).worker.out|
    ensures EndOk(Next(window, g, Work(step)))
  {
    StepEndsWell(window, g.worker, step);
  }

  lemma TakeInFlight(out: seq<Token>, got: nat)
    requires got < |out|
    ensures DataOf(out[got..]) == Payload(out[got]) + DataOf(out[got + 1..])
    ensures var front, t := out[..got], out[got];
      && Arrived(out[..got + 1]) == (if Ignored(front, t) then Arrived(front) else Arrived(front) + Payload(t))
      && |Dropped(out[..got + 1])| == |Dropped(front)| + (if Ignored(front, t) then |Payload(t)| else 0)
  {
    assert out[got..] == [out[got]] + out[got + 1..];
    DataOfConcat([out[got]], out[got + 1..]);
    assert out[..got + 1][..got] == out[..got];
    assert DataOf([out[got]]) == DataOf([]) + Payload(out[got]);
  }

  lemma PushAccounts(r: Reader, chunk: Option<Bytes>, direct: bool)
    ensures var q := PushData(r, chunk, direct);
      && q.uncredited == r.uncredited && q.hwm == r.hwm && q.limit == r.limit
      && (!q.destroyed ==> !r.destroyed && q.received == r.received + BytesOf(chunk))
      && ((q.ended || None in q.spill) ==> (r.ended || None in r.spill || chunk.None?))
      && (!q.destroyed && (r.ended || None in r.spill || chunk.None?) ==> q.ended || None in q.spill)
  {
  }

  /** Handing a chunk to the stream object counts exactly its bytes as uncredited. */
  lemma DeliverAccounts(r: Reader, chunk: Option<Bytes>, direct: bool)
    requires ReaderOk(r)
    ensures Deliver(r, chunk, direct).uncredited == r.uncredited + Size(chunk)
    ensures !Deliver(r, chunk, direct).destroyed ==>
      !r.destroyed && Deliver(r, chunk, direct).received == r.received + BytesOf(chunk)
    ensures var q := Deliver(r, chunk, direct);
      && q.hwm == r.hwm && q.limit == r.limit
      && ((q.ended || None in q.spill) ==> (r.ended || None in r.spill || chunk.None?))
      && (!q.destroyed && (r.ended || None in r.spill || chunk.None?) ==> q.ended || None in q.spill)
  {
    PushAccounts(Count(r, chunk), chunk, direct);
  }

  /** The end arrives and stays, and the token was not a reset or an error. */
  predicate TellsEnd(r: Reader, q: Reader, token: Token) {
    && !token.ResetToken? && !token.ErrorToken?
    && (r.ended || None in r.spill || token.FinishedToken? ==> q.ended || None in q.spill)
  }

  lemma TokenKeepsReader(r: Reader, before: seq<Token>, token: Token, direct: bool, routed: bool)
    requires ReaderOk(r) && (!r.destroyed ==> routed)
    ensures var q := OnToken(r, before, token, direct, routed);
      var bytes := if Ignored(before, token) then [] else Payload(token);
      && ReaderOk(q)
      && q.uncredited <= r.uncredited + |bytes|
      && (!q.destroyed ==> !r.destroyed && q.uncredited == r.uncredited + |bytes| && q.received == r.received + bytes)
      && ((q.ended || None in q.spill) ==> (r.ended || None in r.spill || token.FinishedToken?))
      && (!q.destroyed && !r.destroyed ==> TellsEnd(r, q, token))
  {
    if routed && !Ignored(before, token) && (token.DataToken? || token.FinishedToken?) {
      var chunk := if token.DataToken? then Some(token.bytes) else None;
      var via := token.DataToken? && direct;
      DeliverKeepsReader(r, chunk, via);
      DeliverAccounts(r, chunk, via);
    }
  }

  /** The bytes that the next token brings to the stream object. */
  function Arriving(g: System): Bytes
    requires g.got < |g.worker.out|
  {
    if Ignored(g.worker.out[..g.got], g.worker.out[g.got]) then [] else Payload(g.worker.out[g.got])
  }

  lemma DeliverKeepsAccount(window: nat, g: System, q: Reader)
    requires g.got < |g.worker.out| && AccountOk(window, g)
    requires q.uncredited <= g.js.uncredited + |Arriving(g)|
    requires !q.destroyed ==> !g.js.destroyed && q.uncredited == g.js.uncredited + |Arriving(g)|
    ensures AccountOk(window, g.(got := g.got + 1, js := q))
  {
    TakeInFlight(g.worker.out, g.got);
  }

  lemma DeliverKeepsEnd(g: System, q: Reader)
    requires g.got < |g.worker.out| && EndOk(g)
    requires (q.ended || None in q.spill) ==> (g.js.ended || None in g.js.spill || g.worker.out[g.got].FinishedToken?)
    requires !q.destroyed ==> !g.js.destroyed && TellsEnd(g.js, q, g.worker.out[g.got])
    ensures EndOk(g.(got := g.got + 1, js := q))
  {
    assert g.worker.out[..g.got + 1] == g.worker.out[..g.got] + [g.worker.out[g.got]];
  }

  lemma DeliverKeepsInv(window: nat, g: System, direct: bool, routed: bool)
    requires Inv(window, g) && Allowed(g, DeliverNext(direct, routed))
    ensures Inv(window, Next(window, g, DeliverNext(direct, routed)))
  {
    var q := OnToken(g.js, g.worker.out[..g.got], g.worker.out[g.got], direct, routed);
    assert Next(window, g, DeliverNext(direct, routed)) == g.(got := g.got + 1, js := q);
    TokenKeepsReader(g.js, g.worker.out[..g.got], g.worker.out[g.got], direct, routed);
    DeliverKeepsAccount(window, g, q);
    DeliverKeepsEnd(g, q);
    TakeInFlight(g.worker.out, g.got);
  }

  lemma {:induction false} RefillEnds(r: Reader)
    ensures Refill(r).ended || None in Refill(r).spill <==> r.ended || None in r.spill
    decreases |r.spill|
  {
    if r.spill != [] {
      var (q, more) := PushSpilled(r);
      if more { RefillEnds(q); }
    }
  }

  lemma ReadKeepsInv(window: nat, g: System, taken: nat)
    requires Inv(window, g) && Allowed(g, NodeRead(taken))
    ensures Inv(window, Next(window, g, NodeRead(taken)))
  {
    var r := g.js.(paused := false);
    ReadCallKeepsReader(g.js, taken);
    RefillMoves(r);
    RefillEnds(r);
  }

  lemma TickKeepsInv(window: nat, g: System, accepted: bool)
    requires Inv(window, g) && Allowed(g, Tick(accepted))
    ensures Inv(window, Next(window, g, Tick(accepted)))
  {
    CreditTickKeepsReader(g.js, accepted);
    var (r, sent) := CreditTick(g.js, accepted);
    if sent.Some? {
      assert (g.grants + [sent.value])[..|g.grants|] == g.grants;
    }
  }

  lemma GrantKeepsInv(window: nat, g: System)
    requires Inv(window, g) && Allowed(g, ApplyGrant)
    ensures Inv(window, Next(window, g, ApplyGrant))
  {
    SumHead(g.grants);
    StepKeepsStreamOk(Some(window), g.worker, Grant(g.grants[0]));
  }

  lemma MoveKeepsInv(window: nat, g: System, m: Move)
    requires Inv(window, g) && Allowed(g, m)
    ensures Inv(window, Next(window, g, m))
  {
    match m
    case Work(step) => WorkKeepsInv(window, g, step);
    case DeliverNext(direct, routed) => DeliverKeepsInv(window, g, direct, routed);
    case NodeRead(taken) => ReadKeepsInv(window, g, taken);
    case NodeTake(taken) => TakeKeepsReader(g.js, taken);
    case Tick(accepted) => TickKeepsInv(window, g, accepted);
    case ApplyGrant => GrantKeepsInv(window, g);
    case Destroy =>
  }

  // ----- runs -----

  ghost predicate Permitted(window: nat, g: System, moves: seq<Move>)
    decreases |moves|
  {
    moves == [] || (Allowed(g, moves[0]) && Permitted(window, Next(window, g, moves[0]), moves[1..]))
  }

  function Run(window: nat, g: System, moves: seq<Move>): System
    requires Permitted(window, g, moves)
    decreases |moves|
  {
    if moves == [] then g else Run(window, Next(window, g, moves[0]), moves[1..])
  }

  lemma {:induction false} RunKeepsInv(window: nat, g: System, moves: seq<Move>)
    requires Inv(window, g) && Permitted(window, g, moves)
    ensures Inv(window, Run(window, g, moves))
    decreases |moves|
  {
    if moves != [] {
      MoveKeepsInv(window, g, moves[0]);
      RunKeepsInv(window, Next(window, g, moves[0]), moves[1..]);
    }
  }

  ghost predicate Reachable(window: nat, hwm: nat, limit: Option<nat>, g: System) {
    exists moves :: Permitted(window, Init(hwm, limit), moves) && g == Run(window, Init(hwm, limit), moves)
  }

  lemma MoveKeepsConfig(window: nat, g: System, m: Move)
    requires Inv(window, g) && Allowed(g, m)
    ensures Next(window, g, m).js.hwm == g.js.hwm && Next(window, g, m).js.limit == g.js.limit
  {
    match m {
      case NodeRead(_) => RefillMoves(g.js.(paused := false));
      case DeliverNext(direct, _) =>
        match g.worker.out[g.got] {
          case DataToken(bytes, _) => DeliverAccounts(g.js, Some(bytes), direct);
          case FinishedToken => DeliverAccounts(g.js, None, false);
          case _ =>
        }
      case _ =>
    }
  }

  lemma {:induction false} RunKeepsConfig(window: nat, g: System, moves: seq<Move>)
    requires Inv(window, g) && Permitted(window, g, moves)
    ensures Run(window, g, moves).js.hwm == g.js.hwm && Run(window, g, moves).js.limit == g.js.limit
    decreases |moves|
  {
    if moves != [] {
      MoveKeepsInv(window, g, moves[0]);
      MoveKeepsConfig(window, g, moves[0]);
      RunKeepsConfig(window, Next(window, g, moves[0]), moves[1..]);
    }
  }

  lemma ReachableInv(window: nat, hwm: nat, limit: Option<nat>, g: System)
    requires Reachable(window, hwm, limit, g)
    ensures Inv(window, g) && g.js.hwm == hwm && g.js.limit == limit
  {
    var moves :| Permitted(window, Init(hwm, limit), moves) && g == Run(window, Init(hwm, limit), moves);
    assert Inv(window, Init(hwm, limit));
    RunKeepsInv(window, Init(hwm, limit), moves);
    RunKeepsConfig(window, Init(hwm, limit), moves);
  }

  // ----- main results -----

  /** Conservation: on a live stream the window is always exactly accounted for, and it is
      whole if and only if every coalesced payload so far rode on the first HEADERS. */
  lemma WindowIsConserved(window: nat, hwm: nat, limit: Option<nat>, g: System)
    requires Reachable(window, hwm, limit, g)
    ensures g.got <= |g.worker.out|
    ensures Total(g) + Forfeit(g) <= window
    ensures g.worker.credit.Some? && !g.js.destroyed ==>
      && Total(g) + Forfeit(g) == window
      && (Total(g) == window <==> RidesFirst(g.worker.out[..g.got]))
  {
    ReachableInv(window, hwm, limit, g);
    DeliveredIsFilled(g);
  }

  lemma DeliveredIsFilled(g: System)
    requires g.got <= |g.worker.out| && EndOk(g)
    ensures Forfeit(g) == 0 <==> RidesFirst(g.worker.out[..g.got])
  {
    FilledPrefix(g.worker.out, g.got);
    NothingDroppedMeans(g.worker.out[..g.got]);
  }

  /** The clamp in `add_read_credit` never discards credit, whatever was destroyed or reset. */
  lemma GrantIsNeverClamped(window: nat, hwm: nat, limit: Option<nat>, g: System)
    requires Reachable(window, hwm, limit, g) && g.grants != [] && g.worker.credit.Some?
    ensures Apply(Some(window), g.worker, Grant(g.grants[0])).credit == Some(g.worker.credit.value + g.grants[0])
  {
    ReachableInv(window, hwm, limit, g);
    SumHead(g.grants);
  }

  /** Unread bytes in JS never exceed the window plus the high-water mark. */
  lemma UnreadBytesAreBounded(window: nat, hwm: nat, limit: Option<nat>, g: System)
    requires Reachable(window, hwm, limit, g) && !g.js.destroyed
    ensures |g.js.buffer| + g.js.spillBytes <= window + hwm
  {
    ReachableInv(window, hwm, limit, g);
  }

  /** So a receive limit of at least that sum never destroys a stream. */
  lemma LimitNeverFires(window: nat, hwm: nat, limit: Option<nat>, g: System, direct: bool)
    requires Reachable(window, hwm, limit, g) && !g.js.destroyed
    requires limit.Some? ==> window + hwm <= limit.value
    requires g.got < |g.worker.out| && (g.worker.out[g.got].DataToken? || g.worker.out[g.got].FinishedToken?)
    ensures !Next(window, g, DeliverNext(direct, true)).js.destroyed
  {
    ReachableInv(window, hwm, limit, g);
    TakeInFlight(g.worker.out, g.got);
    assert |g.js.buffer| + g.js.spillBytes + |Payload(g.worker.out[g.got])| <= window + hwm;
    FitsIsNotDestroyed(g.js, g.worker.out[..g.got], g.worker.out[g.got], direct);
  }

  lemma FitsIsNotDestroyed(r: Reader, before: seq<Token>, token: Token, direct: bool)
    requires !r.destroyed && (token.DataToken? || token.FinishedToken?)
    requires r.limit.Some? ==> |r.buffer| + r.spillBytes + |Payload(token)| <= r.limit.value
    ensures !OnToken(r, before, token, direct, true).destroyed
  {
  }

  /** End to end: the stream object has exactly the payload that was not ignored. What the
      consumer took, then Node's buffer, the spill, the events in flight and the worker's
      buffer are the bytes quiche handed over if and only if every coalesced payload so far
      rode on the first HEADERS. */
  lemma BytesStayInOrder(window: nat, hwm: nat, limit: Option<nat>, g: System)
    requires Reachable(window, hwm, limit, g) && !g.js.destroyed && !g.worker.lost
    ensures g.got <= |g.worker.out|
    ensures Contents(g.js) == Arrived(g.worker.out[..g.got])
    ensures Contents(g.js) + InFlight(g) + Held(g.worker) == g.worker.read <==> RidesFirst(g.worker.out[..g.got])
  {
    ReachableInv(window, hwm, limit, g);
    DataOfConcat(g.worker.out[..g.got], g.worker.out[g.got..]);
    assert g.worker.out[..g.got] + g.worker.out[g.got..] == g.worker.out;
    PayloadSplits(g.worker.out[..g.got]);
    DeliveredIsFilled(g);
  }

  lemma {:induction false} NothingFollowsEnd(ts: seq<Token>, got: nat)
    requires EndIsLast(ts) && got <= |ts| && FinishedToken in ts[..got]
    ensures DataOf(ts[got..]) == []
  {
    if got < |ts| {
      var front := ts[..|ts| - 1];
      assert front[..got] == ts[..got];
      NothingFollowsEnd(front, got);
      assert ts[got..][..|ts| - got - 1] == front[got..];
    }
  }

  /** A completed body: once the end has been pushed and the consumer has taken everything, it
      has exactly the bytes quiche handed over, on the same condition. */
  lemma CompletedBodyIsWhole(window: nat, hwm: nat, limit: Option<nat>, g: System)
    requires Reachable(window, hwm, limit, g) && !g.js.destroyed && !g.worker.lost
    requires g.js.ended && g.js.buffer == [] && g.js.spill == []
    ensures g.got <= |g.worker.out| && (g.js.consumed == g.worker.read <==> RidesFirst(g.worker.out[..g.got]))
  {
    ReachableInv(window, hwm, limit, g);
    NothingFollowsEnd(g.worker.out, g.got);
    BytesStayInOrder(window, hwm, limit, g);
    assert Contents(g.js) + InFlight(g) + Held(g.worker) == g.js.consumed;
  }

  /** The end reaches the consumer: a stream object that is not destroyed has ended, or has the end
      spilled, exactly when FINISHED was delivered; a delivered reset or error destroys it. */
  lemma EndIsTold(window: nat, hwm: nat, limit: Option<nat>, g: System)
    requires Reachable(window, hwm, limit, g) && !g.js.destroyed
    ensures g.got <= |g.worker.out|
    ensures FinishedToken in g.worker.out[..g.got] <==> g.js.ended || None in g.js.spill
    ensures ResetToken !in g.worker.out[..g.got] && ErrorToken !in g.worker.out[..g.got]
  {
    ReachableInv(window, hwm, limit, g);
  }

  /** Nothing is left to do: no event or credit in flight, no deferred step, nothing for the
      consumer to read, no `_read` due, and no worker stream that a poll would serve. */
  predicate Quiescent(g: System) {
    && g.got == |g.worker.out| && g.grants == [] && !g.js.scheduled
    && g.js.buffer == [] && !(g.js.paused && !g.js.ended)
    && !(g.worker.readable && CreditOr(g.worker, 1) > 0)
  }

  /** What the worker leaves between polls, on a stream whose last read was not an empty one:
      an open edge is in `pending_readable`, and no receive buffer is kept. */
  predicate AtRest(s: Stream) {
    (s.edge ==> s.readable) && s.pending.None?
  }

  /** No lost wakeup: a live stream at rest has back the whole window except what was ignored.
      A DATA edge is left waiting only if all of the window was ignored. If every coalesced
      payload rode on the first HEADERS, the window is whole, no edge waits and everything
      read has been consumed. */
  lemma QuiescentStreamIsWhole(window: nat, hwm: nat, limit: Option<nat>, g: System)
    requires Reachable(window, hwm, limit, g) && Quiescent(g) && AtRest(g.worker)
    requires g.worker.credit.Some? && !g.js.destroyed && 0 < window
    ensures g.js.uncredited == 0 && g.worker.credit == Some(window - Forfeit(g))
    ensures g.worker.edge ==> Forfeit(g) == window
    ensures RidesFirst(g.worker.out) <==> g.worker.credit == Some(window)
    ensures RidesFirst(g.worker.out) && !g.worker.lost ==> g.js.consumed == g.worker.read
  {
    ReachableInv(window, hwm, limit, g);
    DeliveredIsFilled(g);
    assert g.worker.out[..g.got] == g.worker.out;
    assert !g.js.ended;
    assert g.worker.out[g.got..] == [];
    if !g.worker.lost {
      BytesStayInOrder(window, hwm, limit, g);
      assert g.js.consumed + g.js.buffer + Flatten([]) == g.js.consumed;
      assert Contents(g.js) + InFlight(g) + Held(g.worker) == Contents(g.js);
    }
  }

  // ----- the worker's polls are moves of the protocol -----

  /** Every step of `more` on this stream is one that quiche's contract allows. */
  ghost predicate Contracted(window: nat, trace: Trace, more: Trace, id: StreamId) {
    more == [] ||
    (var n := |more| - 1;
     && Contracted(window, trace, more[..n], id)
     && (more[n].0 == id ==> WorkerContract(Replay(Some(window), trace + more[..n], id), more[n].1)))
  }

  lemma {:induction false} RunPush(window: nat, g: System, moves: seq<Move>, m: Move)
    requires Permitted(window, g, moves) && Allowed(Run(window, g, moves), m)
    ensures Permitted(window, g, moves + [m]) && Run(window, g, moves + [m]) == Next(window, Run(window, g, moves), m)
    decreases |moves|
  {
    if moves == [] {
      assert [m][1..] == [] && moves + [m] == [m];
      assert Permitted(window, Next(window, g, m), []);
    } else {
      RunPush(window, Next(window, g, moves[0]), moves[1..], m);
      assert (moves + [m])[1..] == moves[1..] + [m];
    }
  }

  lemma {:induction false} RunConcat(window: nat, g: System, a: seq<Move>, b: seq<Move>)
    requires Permitted(window, g, a) && Permitted(window, Run(window, g, a), b)
    ensures Permitted(window, g, a + b) && Run(window, g, a + b) == Run(window, Run(window, g, a), b)
    decreases |a|
  {
    if a == [] {
      assert a + b == b;
    } else {
      RunConcat(window, Next(window, g, a[0]), a[1..], b);
      assert (a + b)[1..] == a[1..] + b;
    }
  }

  lemma ReplayPush(window: nat, trace: Trace, more: Trace, id: StreamId)
    requires more != []
    ensures var n := |more| - 1; var front := trace + more[..n];
      && Replay(Some(window), trace + more, id) ==
           (if more[n].0 == id then Apply(Some(window), Replay(Some(window), front, id), more[n].1) else Replay(Some(window), front, id))
      && (Legal(Some(window), trace + more) ==>
            Legal(Some(window), front) && (more[n].0 == id ==> Enabled(Replay(Some(window), front, id), more[n].1)))
  {
    assert (trace + more)[..|trace + more| - 1] == trace + more[..|more| - 1];
  }

  /** Whatever the worker does between two credit commands, over all its streams, is for each
      single stream a permitted stretch of the protocol. */
  lemma {:induction false} PollIsRun(window: nat, g: System, trace: Trace, more: Trace, id: StreamId) returns (moves: seq<Move>)
    requires g.worker == Replay(Some(window), trace, id) && Legal(Some(window), trace + more)
    requires Contracted(window, trace, more, id)
    ensures Permitted(window, g, moves) && Run(window, g, moves) == g.(worker := Replay(Some(window), trace + more, id))
  {
    if more == [] {
      assert trace + more == trace;
      return [];
    }
    var n := |more| - 1;
    ReplayPush(window, trace, more, id);
    moves := PollIsRun(window, g, trace, more[..n], id);
    if more[n].0 == id {
      RunPush(window, g, moves, Work(more[n].1));
      moves := moves + [Work(more[n].1)];
    }
  }

  // ----- a payload that is ignored -----

  lemma ReachMore(window: nat, hwm: nat, limit: Option<nat>, g: System, m: Move)
    requires Reachable(window, hwm, limit, g) && Allowed(g, m)
    ensures Reachable(window, hwm, limit, Next(window, g, m))
  {
    var moves :| Permitted(window, Init(hwm, limit), moves) && g == Run(window, Init(hwm, limit), moves);
    RunPush(window, Init(hwm, limit), moves, m);
  }

  /** The worker's part: an interim response, the response, and one byte that is coalesced into
      the latter's HEADERS event. */
  function InterimThenBody(window: nat): Stream
    requires 0 < window
  {
    IDLE.(phase := Live, credit := Some(window - 1), edge := true, read := [7],
          out := [HeadersToken, HeadersToken, DataToken([7], true)])
  }

  lemma InterimThenBodyIsReached(window: nat, hwm: nat, limit: Option<nat>)
    requires 0 < window
    ensures Reachable(window, hwm, limit, Init(hwm, limit).(worker := InterimThenBody(window)))
  {
    var g := Init(hwm, limit);
    assert Permitted(window, g, []) && g == Run(window, g, []);
    ReachMore(window, hwm, limit, g, Work(Open));
    g := g.(worker := IDLE.(phase := Live, credit := Some(window), out := [HeadersToken]));
    ReachMore(window, hwm, limit, g, Work(Open));
    g := g.(worker := g.worker.(out := [HeadersToken, HeadersToken]));
    ReachMore(window, hwm, limit, g, Work(Edge));
    OneByteIsRead(window, hwm, limit, g.(worker := g.worker.(edge := true)));
  }

  /** One byte is read and coalesced into the HEADERS event just sent. */
  lemma OneByteIsRead(window: nat, hwm: nat, limit: Option<nat>, g0: System)
    requires 0 < window && Reachable(window, hwm, limit, g0)
    requires g0.worker.phase.Live? && g0.worker.credit == Some(window) && g0.worker.pending.None? && g0.worker.edge
    requires !g0.worker.stalled && g0.worker.read == [] && EndsWith(g0.worker.out, HeadersToken)
    ensures Reachable(window, hwm, limit, g0.(worker := g0.worker.(
              credit := Some(window - 1), read := [7], out := g0.worker.out + [DataToken([7], true)])))
  {
    var g := g0;
    ReachMore(window, hwm, limit, g, Work(Checkout));
    g := g.(worker := g.worker.(pending := Some(RecvBuf(Min(RECV_CHUNK, window), []))));
    ReachMore(window, hwm, limit, g, Work(Recv([7])));
    assert [] + [7] == [7];
    g := g.(worker := g.worker.(pending := Some(RecvBuf(Min(RECV_CHUNK, window), [7])), credit := Some(window - 1), read := [7]));
    ReachMore(window, hwm, limit, g, Work(Flush(true)));
  }

  /** The byte is lost to the consumer and its credit to the window. */
  lemma LaterRideIsIgnored(window: nat, hwm: nat, limit: Option<nat>) returns (g: System)
    requires 0 < window
    ensures Reachable(window, hwm, limit, g) && g.worker.out == [HeadersToken, HeadersToken, DataToken([7], true)] && g.got == 3
    ensures !g.js.destroyed && g.worker.read == [7] && g.js.received == [] && Total(g) == window - 1
  {
    InterimThenBodyIsReached(window, hwm, limit);
    var g0 := Init(hwm, limit).(worker := InterimThenBody(window));
    var out := g0.worker.out;
    ReachMore(window, hwm, limit, g0, DeliverNext(false, true));
    ReachMore(window, hwm, limit, g0.(got := 1), DeliverNext(false, true));
    assert out[..2] == [HeadersToken, HeadersToken] && out[..2][..1] == [HeadersToken];
    assert HeadersIn(out[..2]) == 2 by {
      assert [HeadersToken][..0] == [] && HeadersIn([HeadersToken]) == 1;
    }
    ReachMore(window, hwm, limit, g0.(got := 2), DeliverNext(false, true));
    g := g0.(got := 3);
    assert out[3..] == [];
  }
}
