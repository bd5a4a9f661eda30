/** What the worker does to one stream's receive state, one primitive step at a time.
    A run of these steps is the specification that `Connection.H3Connection` is proved
    against: every poll is, seen from any single stream, such a run. */
module ReceiveSteps {
  import opened Common

  const RECV_CHUNK: nat := 64 * 1024

  /** `QuicheRecvBuf`: at most `target` bytes, filled front to back. */
  datatype RecvBuf = RecvBuf(target: nat, data: Bytes) {
    predicate Full() { |data| >= target }
    function Room(): nat { if |data| >= target then 0 else target - |data| }
  }

  /** What is sent to JS about a stream, in order. A HEADERS event that carries coalesced data
      is two tokens, the second of which `rides` on the first. */
  datatype Token = HeadersToken | DataToken(bytes: Bytes, rides: bool) | FinishedToken | ResetToken | ErrorToken

  predicate EndsWith(out: seq<Token>, token: Token) {
    out != [] && out[|out| - 1] == token
  }

  datatype Phase = Fresh | Live | Ended

  /** One stream inside the worker. `credit`, `pending` and `readable` are the entries of
      `read_credit`, `pending_body_data` and `pending_readable`. The rest is history:
      `edge` is a DATA edge quiche reported and has not yet answered with `Done` or an error,
      `stalled` says the last read of that edge succeeded with zero bytes, `read` is every
      byte quiche handed over, `out` every token sent to JS, `lost` that a non-empty
      receive buffer was discarded, and `failures` and `errors` count the reads that failed and
      the errors sent. */
  datatype Stream = Stream(
    phase: Phase, credit: Option<nat>, pending: Option<RecvBuf>, readable: bool,
    edge: bool, stalled: bool, read: Bytes, out: seq<Token>, lost: bool,
    failures: nat, errors: nat)

  const IDLE := Stream(Fresh, None, None, false, false, false, [], [], false, 0, 0)

  datatype Step =
    | Open            // HEADERS: a stream without a credit entry gets the window
    | Edge            // quiche reports DATA
    | Pick            // a ready stream leaves pending_readable
    | Park            // no credit or no budget: into pending_readable
    | Checkout        // an empty receive buffer no larger than the credit
    | Recv(bytes: Bytes)
    | Settle(failed: bool)  // Done or an error ends the edge
    | Recycle         // an empty buffer goes back to its pool
    | Flush(rides: bool)  // the buffer becomes a payload: its own event, or riding on HEADERS
    | Emit(token: Token)
    | Retire          // Finished: receive credit ends with the body
    | Clear           // reset, close or stop: forget the stream
    | Grant(amount: nat)

  function Held(s: Stream): Bytes {
    if s.pending.Some? then s.pending.value.data else []
  }

  function CreditOr(s: Stream, default: nat): nat {
    if s.credit.Some? then s.credit.value else default
  }

  function Apply(window: Option<nat>, s: Stream, step: Step): Stream {
    match step
    case Open =>
      s.(phase := if s.phase.Fresh? then Live else s.phase,
         credit := if s.credit.None? then window else s.credit,
         out := s.out + [HeadersToken])
    case Edge => s.(edge := true, stalled := false)
    case Pick => s.(readable := false)
    case Park => s.(readable := true)
    case Checkout => s.(pending := Some(RecvBuf(Min(RECV_CHUNK, CreditOr(s, RECV_CHUNK)), [])))
    case Recv(bytes) =>
      s.(pending := if s.pending.None? then None
                    else Some(s.pending.value.(data := s.pending.value.data + bytes)),
         credit := if s.credit.None? then None
                   else if s.credit.value < |bytes| then Some(0)
                   else Some(s.credit.value - |bytes|),
         stalled := bytes == [],
         read := s.read + bytes)
    case Settle(failed) => s.(edge := false, stalled := false, failures := s.failures + (if failed then 1 else 0))
    case Recycle => s.(pending := None)
    case Flush(rides) => s.(pending := None, out := s.out + [DataToken(Held(s), rides)])
    case Emit(token) => s.(out := s.out + [token], errors := s.errors + (if token.ErrorToken? then 1 else 0))
    case Retire => s.(phase := Ended, credit := None, readable := false, edge := false, stalled := false)
    case Clear =>
      s.(phase := Ended, credit := None, pending := None, readable := false, edge := false,
         stalled := false, lost := s.lost || Held(s) != [])
    case Grant(n) =>
      s.(credit := if s.credit.None? || window.None? then s.credit
                   else Some(Min(s.credit.value + n, window.value)))
  }

  /** When the worker's code takes each step. */
  predicate Enabled(s: Stream, step: Step) {
    match step
    case Pick => s.readable && CreditOr(s, 1) > 0
    case Park => s.edge
    case Checkout => s.pending.None? && CreditOr(s, 1) > 0
    case Recv(bytes) => s.edge && s.pending.Some? && |bytes| <= s.pending.value.Room()
    case Recycle => s.pending.Some? && s.pending.value.data == []
    case Flush(rides) => Held(s) != [] && (rides ==> EndsWith(s.out, HeadersToken))
    // a new window is granted only when no receive buffer is outstanding
    case Open => s.pending.None?
    // the body is handed over before its end
    case Emit(token) => !token.HeadersToken? && !token.DataToken? && (token.FinishedToken? ==> s.phase.Ended? && s.pending.None?)
    case _ => true
  }

  function DataOf(ts: seq<Token>): Bytes {
    if ts == [] then []
    else DataOf(ts[..|ts| - 1]) + (if ts[|ts| - 1].DataToken? then ts[|ts| - 1].bytes else [])
  }

  lemma {:induction false} DataOfConcat(a: seq<Token>, b: seq<Token>)
    ensures DataOf(a + b) == DataOf(a) + DataOf(b)
  {
    if b == [] {
      assert a + b == a;
    } else {
      DataOfConcat(a, b[..|b| - 1]);
      assert (a + b)[..|a + b| - 1] == a + b[..|b| - 1];
    }
  }

  /** What every step keeps, for every window and every answer of quiche. */
  ghost predicate StreamOk(window: Option<nat>, s: Stream) {
    CreditOk(window, s) && (!s.lost ==> DataOf(s.out) + Held(s) == s.read)
  }

  ghost predicate CreditOk(window: Option<nat>, s: Stream) {
    && (window.None? ==> s.credit.None?)
    && (s.credit.Some? && window.Some? ==> s.credit.value <= window.value)
    && (s.pending.Some? ==> |s.pending.value.data| <= s.pending.value.target <= RECV_CHUNK)
    && (s.pending.Some? && s.credit.Some? ==> s.pending.value.Room() <= s.credit.value)
  }

  lemma StepKeepsCredit(window: Option<nat>, s: Stream, step: Step)
    requires CreditOk(window, s) && Enabled(s, step)
    ensures CreditOk(window, Apply(window, s, step))
  {
  }

  lemma StepKeepsStreamOk(window: Option<nat>, s: Stream, step: Step)
    requires StreamOk(window, s) && Enabled(s, step)
    ensures StreamOk(window, Apply(window, s, step))
  {
    StepKeepsCredit(window, s, step);
    match step {
      case Open => DataOfConcat(s.out, [HeadersToken]);
      case Emit(token) => DataOfConcat(s.out, [token]);
      case Flush(rides) => DataOfConcat(s.out, [DataToken(Held(s), rides)]);
      case Recv(bytes) => Assoc(DataOf(s.out), Held(s), bytes);
      case _ =>
    }
  }

  /** The saturating subtraction in the read loop never saturates: credit falls by exactly
      the bytes read. */
  lemma ReadsAreFullyCharged(window: Option<nat>, s: Stream, bytes: Bytes)
    requires StreamOk(window, s) && Enabled(s, Recv(bytes)) && s.credit.Some?
    ensures Apply(window, s, Recv(bytes)).credit == Some(s.credit.value - |bytes|)
  {
  }

  // ----- runs over all streams of a connection -----

  type Trace = seq<(StreamId, Step)>

  function Replay(window: Option<nat>, trace: Trace, id: StreamId): Stream {
    if trace == [] then IDLE
    else
      var before := Replay(window, trace[..|trace| - 1], id);
      var (who, step) := trace[|trace| - 1];
      if who == id then Apply(window, before, step) else before
  }

  /** Every step of the trace was one the code may take. */
  ghost predicate Legal(window: Option<nat>, trace: Trace) {
    trace == [] ||
    (var (who, step) := trace[|trace| - 1];
     Legal(window, trace[..|trace| - 1]) && Enabled(Replay(window, trace[..|trace| - 1], who), step))
  }

  /** Safety over whole runs: on every stream, with any mix of streams, credits and reads. */
  lemma {:induction false} LegalTraceKeepsStreams(window: Option<nat>, trace: Trace, id: StreamId)
    requires Legal(window, trace)
    ensures StreamOk(window, Replay(window, trace, id))
  {
    if trace != [] {
      LegalTraceKeepsStreams(window, trace[..|trace| - 1], id);
      var (who, step) := trace[|trace| - 1];
      if who == id {
        StepKeepsStreamOk(window, Replay(window, trace[..|trace| - 1], id), step);
      }
    }
  }
}
