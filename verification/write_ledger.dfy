/** What the write half of a stream object promises: the ledger of what Node handed over and the
    transport took, and the effect of every operation on a stream's state. Node hands over one
    write at a time and none after a failure. */
module WriteLedger {
  import opened Common

  // ----- what Node is promised -----

  /** `submitted` is every byte Node handed over, `admitted` what the transport took;
      `outcomes[i]` is how the callback of the i-th write fired; `ended` says that Node has
      handed over its last. `early` is a FIN that went out besides the writes, with trailers, a
      one-call response or a request without body: how many bytes had been admitted then. */
  datatype Ledger = Ledger(
    submitted: Bytes, admitted: Bytes, finWanted: bool, finAdmitted: bool,
    started: nat, pending: bool, outcomes: seq<bool>, ended: bool, early: Option<nat>)

  const FRESH := Ledger([], [], false, false, 0, false, [], false, None)

  datatype Entry =
    | Submit(bytes: Bytes, fin: bool)
    | Admit(count: nat, last: bool)
    | Succeed
    | Fail
    | SkipFinal  // the end, when FIN has been sent already
    | EarlyFin

  function Rest(l: Ledger): Bytes {
    if |l.admitted| <= |l.submitted| then l.submitted[|l.admitted|..] else []
  }

  predicate Permits(l: Ledger, e: Entry) {
    |l.admitted| <= |l.submitted| &&
    match e
    case Submit(_, _) => !l.pending && !l.ended && false !in l.outcomes
    case SkipFinal => !l.pending && !l.ended && false !in l.outcomes
    case EarlyFin => true
    case Admit(n, last) => l.pending && n <= |Rest(l)| && (last ==> l.finWanted && n == |Rest(l)|) && (l.finAdmitted ==> n == 0)
    case Succeed => l.pending && Rest(l) == [] && (l.finWanted ==> l.finAdmitted)
    case Fail => l.pending
  }

  function Post(l: Ledger, e: Entry): Ledger
    requires Permits(l, e)
  {
    match e
    case Submit(bytes, fin) =>
      l.(submitted := l.submitted + bytes, finWanted := fin, started := l.started + 1, pending := true, ended := fin)
    case Admit(n, last) =>
      l.(admitted := l.submitted[..|l.admitted| + n], finAdmitted := l.finAdmitted || last)
    case Succeed => l.(pending := false, outcomes := l.outcomes + [true])
    case Fail => l.(pending := false, outcomes := l.outcomes + [false])
    case SkipFinal => l.(started := l.started + 1, outcomes := l.outcomes + [true], ended := true)
    case EarlyFin => if l.early.None? then l.(early := Some(|l.admitted|)) else l
  }

  /** Admitted bytes are an in-order prefix, the writes' own FIN goes only with the last byte, and
      every write's callback fires exactly once, with success only after full admission. */
  ghost predicate Promise(l: Ledger) {
    && l.admitted <= l.submitted
    && (l.finAdmitted ==> l.finWanted && l.admitted == l.submitted)
    && (l.finWanted ==> l.ended) && (l.early.Some? ==> l.early.value <= |l.admitted|)
    && l.started == |l.outcomes| + (if l.pending then 1 else 0)
    && (forall i :: 0 <= i < |l.outcomes| - 1 ==> l.outcomes[i])
    && (l.pending ==> false !in l.outcomes)
    && (!l.pending && false !in l.outcomes ==> l.admitted == l.submitted && l.finAdmitted == l.finWanted)
  }

  lemma PostKeepsPromise(l: Ledger, e: Entry)
    requires Promise(l) && Permits(l, e)
    ensures Promise(Post(l, e))
  {
    match e
    case Succeed => assert l.submitted[..|l.submitted|] == l.submitted;
    case _ =>
  }

  /** Admitting `taken` bytes of `chunk` leaves the rest of it, then the tail. */
  lemma AdmitLeaves(l: Ledger, chunk: Bytes, tail: Bytes, taken: nat, last: bool)
    requires Permits(l, Admit(taken, last)) && Rest(l) == chunk + tail && taken <= |chunk|
    ensures Rest(Post(l, Admit(taken, last))) == chunk[taken..] + tail
    ensures Promise(l) ==> Post(l, Admit(taken, last)).admitted == l.admitted + chunk[..taken]
  {
    if Promise(l) {
      assert l.admitted == l.submitted[..|l.admitted|] && Rest(l)[..taken] == chunk[..taken];
      assert l.submitted[..|l.admitted| + taken] == l.submitted[..|l.admitted|] + Rest(l)[..taken];
    }
    assert Rest(Post(l, Admit(taken, last))) == Rest(l)[taken..];
  }

  lemma SplitAt(rest: Bytes, chunk: Bytes, tail: Bytes)
    requires rest == chunk + tail
    ensures |chunk| <= |rest| && rest[..|chunk|] == chunk && rest[|chunk|..] == tail
  {
  }

  /** Nothing admitted or called back is ever undone. */
  ghost predicate Grew(l: Ledger, m: Ledger) {
    && |l.admitted| <= |m.admitted| && (l.finAdmitted ==> m.finAdmitted)
    && (l.early.Some? ==> m.early == l.early) && (l.ended ==> m.ended)
    && |l.outcomes| <= |m.outcomes| && m.outcomes[..|l.outcomes|] == l.outcomes
  }

  /** The same writes were handed over. */
  ghost predicate SameWrites(l: Ledger, m: Ledger) {
    && m.submitted == l.submitted && m.started == l.started && m.finWanted == l.finWanted
    && m.ended == l.ended && m.early == l.early && Grew(l, m)
  }

  // ----- the stream object -----

  /** A write callback: Node's own, or the continuation of a slice of bounded write `serial`. */
  datatype Callback = NodeCallback | SliceCallback(serial: nat, end: nat)

  /** A drain callback: retry `chunk`. */
  datatype Retry = Retry(chunk: Bytes, final: bool, callback: Callback)

  /** `BoundedStreamWrite`, while its callback has not fired. */
  datatype Bounded = Bounded(serial: nat, body: Bytes, offset: nat, fin: bool, scheduled: bool)

  /** `streamSend`: a count of bytes taken (at least 1 when a bare FIN is taken), or a throw. */
  datatype SendAnswer = Sent(count: nat) | Threw

  /** What can happen to a stream, with the transport's answers. */
  datatype Op =
    | WriteOp(chunk: Bytes, answer: SendAnswer)
    | FinalOp(chunk: Bytes, answer: SendAnswer)
    | EarlyFinOp(sent: bool)
    | DrainOp(answers: nat -> SendAnswer)
    | ReadyOp(answers: nat -> SendAnswer)
    | BlockedOp
    | SliceOp(answer: SendAnswer)
    | ReleaseOp
    | DestroyOp
    | CloseOp

  /** A stream object's state. */
  datatype State = State(
    blocked: bool, finSent: bool, destroyed: bool, parked: seq<Retry>, bounded: Option<Bounded>,
    admittedBytes: nat, mark: nat, releaseScheduled: bool, delayed: seq<Callback>, ledger: Ledger, wire: Bytes)

  /** How many wake-ups will still call the outstanding callback: a parked chunk, a delayed
      callback, or the next slice's turn. */
  function Wakeups(v: State): nat {
    |v.parked| + |v.delayed| + (if v.bounded.Some? && v.bounded.value.scheduled then 1 else 0)
  }

  /** What every state of a stream keeps: the promise, the transport having exactly the admitted
      bytes, an outstanding callback with exactly one wake-up left (a delayed one has its release
      scheduled), and none after destruction. */
  ghost predicate Sound(v: State) {
    && Promise(v.ledger) && v.wire == v.ledger.admitted && (v.destroyed ==> !v.ledger.pending)
    && Wakeups(v) == (if v.ledger.pending then 1 else 0)
    && (v.delayed != [] ==> v.releaseScheduled)
  }

  /** What Node, the event dispatcher, a timer or the application may do next. Node hands over
      one write at a time, nothing after the end, a failure or destruction. Trailers may be sent
      in every state, so runs in which the wasm transport would postpone them are included. */
  predicate CanDo(limit: Option<nat>, v: State, op: Op) {
    match op
    case WriteOp(chunk, _) => !v.destroyed && Permits(v.ledger, Submit(chunk, false))
    case FinalOp(chunk, _) => !v.destroyed && Permits(v.ledger, Submit(chunk, true))
    case SliceOp(_) => limit.Some? && v.bounded.Some? && v.bounded.value.scheduled
    case ReleaseOp => v.releaseScheduled
    case CloseOp => !v.destroyed
    case _ => true
  }

  /** The bytes an operation hands over. */
  function Handing(v: State, op: Op): Bytes {
    if op.WriteOp? || (op.FinalOp? && !v.finSent) then op.chunk else []
  }

  /** What an operation offers to the transport, and the answer it gets: `bytes`, with FIN if
      `final`, on behalf of `callback`, after which `next` is left of a write in slices. */
  datatype Offer = Offer(bytes: Bytes, final: bool, callback: Callback, next: Option<Bounded>, answer: SendAnswer)

  /** What is left of a write in slices once `cb` has succeeded; nothing after the last slice. */
  function NextSlices(bounded: Option<Bounded>, cb: Callback): Option<Bounded> {
    if cb.NodeCallback? || bounded.None? || cb.end >= |bounded.value.body| then None
    else Some(bounded.value.(offset := cb.end, scheduled := true))
  }

  /** The next slice of a write: at most `limit` bytes, with FIN only at the end. */
  function SliceOffer(limit: nat, b: Bounded, answer: SendAnswer): Offer
    requires b.offset <= |b.body|
  {
    var end := b.offset + Min(limit, |b.body| - b.offset);
    var cb := SliceCallback(b.serial, end);
    Offer(b.body[b.offset..end], b.fin && end == |b.body|, cb, NextSlices(Some(b), cb), answer)
  }

  function RetryOffer(v: State, answer: SendAnswer): Offer
    requires v.parked != []
  {
    var r := v.parked[0];
    Offer(r.chunk, r.final, r.callback, NextSlices(v.bounded, r.callback), answer)
  }

  /** What the operation would offer if the stream were not blocked. */
  function Offering(limit: Option<nat>, v: State, op: Op): Option<Offer> {
    match op
    case WriteOp(chunk, answer) => if Exceeds(limit, chunk) then None else Some(Offer(chunk, false, NodeCallback, None, answer))
    case FinalOp(chunk, answer) =>
      if v.finSent || Exceeds(limit, chunk) then None else Some(Offer(chunk, true, NodeCallback, None, answer))
    case DrainOp(answers) => if v.parked == [] then None else Some(RetryOffer(v, answers(0)))
    case ReadyOp(answers) => if v.parked == [] then None else Some(RetryOffer(v, answers(0)))
    case SliceOp(answer) =>
      if v.bounded.None? || limit.None? || v.bounded.value.offset > |v.bounded.value.body| then None
      else Some(SliceOffer(limit.value, v.bounded.value, answer))
    case _ => None
  }

  predicate Exceeds(limit: Option<nat>, chunk: Bytes) {
    limit.Some? && |chunk| > limit.value
  }

  /** What becomes of an offer: a throw fails the callback. An answer that leaves bytes, or a bare
      FIN, unsent parks exactly these; otherwise the callback succeeds now if the window has room,
      and is delayed if not, and FIN is admitted if it was asked for. `outcomes`, `used` and
      `mark` are the callbacks before, and the window. */
  ghost predicate Settles(o: Offer, admitted: nat, outcomes: seq<bool>, used: nat, mark: nat, w: State) {
    match o.answer
    case Threw => |w.ledger.admitted| == admitted && w.ledger.outcomes == outcomes + [false] && !w.ledger.pending
    case Sent(count) =>
      var left := o.bytes[Min(count, |o.bytes|)..];
      var unsent := left != [] || (o.final && o.bytes == [] && count == 0);
      && |w.ledger.admitted| == admitted + |o.bytes| - |left|
      && w.ledger.finAdmitted == (o.final && !unsent)
      && w.admittedBytes == used + (if unsent then 0 else Max(1, count)) && (unsent || w.releaseScheduled)
      && (if unsent then
            w.parked == [Retry(left, o.final, o.callback)] && w.delayed == [] && w.ledger.outcomes == outcomes && w.ledger.pending
          else if used + Max(1, count) > mark then
            w.parked == [] && w.delayed == [o.callback] && w.ledger.outcomes == outcomes && w.ledger.pending
          else
            && w.parked == [] && w.delayed == [] && w.bounded == o.next
            && w.ledger.pending == o.next.Some? && w.ledger.outcomes == (if o.next.Some? then outcomes else outcomes + [true]))
  }

  /** What a blocked stream does with an offer: it is parked whole. */
  ghost predicate Parks(o: Offer, admitted: nat, outcomes: seq<bool>, used: nat, w: State) {
    && w.parked == [Retry(o.bytes, o.final, o.callback)] && w.delayed == []
    && |w.ledger.admitted| == admitted && w.ledger.outcomes == outcomes && w.ledger.pending && w.admittedBytes == used
  }

  /** What happens to the callbacks when an operation has nothing to offer. */
  ghost predicate Idles(v: State, op: Op, w: State) {
    && w.ledger.admitted == v.ledger.admitted
    && match op
       case WriteOp(chunk, _) => w.ledger.outcomes == v.ledger.outcomes && Sliced(w, chunk, false)
       case FinalOp(chunk, _) =>
         if v.finSent then w.ledger.outcomes == v.ledger.outcomes + [true]
         else w.ledger.outcomes == v.ledger.outcomes && Sliced(w, chunk, true)
       case ReleaseOp =>
         && w.delayed == [] && w.parked == v.parked && w.admittedBytes == 0 && !w.releaseScheduled
         && (if v.delayed == [] then w.ledger.outcomes == v.ledger.outcomes && w.bounded == v.bounded
             else
               var next := NextSlices(v.bounded, v.delayed[0]);
               w.bounded == next && w.ledger.outcomes == (if next.Some? then v.ledger.outcomes else v.ledger.outcomes + [true]))
       case DestroyOp => w.ledger.outcomes == if v.ledger.pending then v.ledger.outcomes + [false] else v.ledger.outcomes
       case CloseOp => w.ledger.outcomes == if v.ledger.pending then v.ledger.outcomes + [false] else v.ledger.outcomes
       case _ =>
         && w.parked == v.parked && w.delayed == v.delayed && w.bounded == v.bounded && w.ledger.outcomes == v.ledger.outcomes
         && w.admittedBytes == v.admittedBytes && w.releaseScheduled == v.releaseScheduled
  }

  /** A chunk above the slice limit waits for its first slice's turn. */
  predicate Sliced(w: State, chunk: Bytes, fin: bool) {
    && w.parked == [] && w.delayed == [] && w.bounded.Some? && w.bounded.value.body == chunk
    && w.bounded.value.offset == 0 && w.bounded.value.fin == fin && w.bounded.value.scheduled
  }

  ghost predicate Outcome(limit: Option<nat>, v: State, op: Op, w: State) {
    var o := Offering(limit, v, op);
    if o.None? then Idles(v, op, w)
    else if v.blocked && !op.DrainOp? then Parks(o.value, |v.ledger.admitted|, v.ledger.outcomes, v.admittedBytes, w)
    else Settles(o.value, |v.ledger.admitted|, v.ledger.outcomes, v.admittedBytes, v.mark, w)
  }

  /** The effect of one operation. */
  ghost predicate Stepped(limit: Option<nat>, v: State, op: Op, w: State) {
    && Grew(v.ledger, w.ledger) && w.mark == v.mark
    && w.ledger.submitted == v.ledger.submitted + Handing(v, op)
    && w.ledger.started == v.ledger.started + (if op.WriteOp? || op.FinalOp? then 1 else 0)
    && w.ledger.early == (if op.EarlyFinOp? && op.sent && v.ledger.early.None? then Some(|v.ledger.admitted|) else v.ledger.early)
    && Outcome(limit, v, op, w)
    && w.finSent == (v.finSent || op.FinalOp? || op.EarlyFinOp?)
    && w.destroyed == (v.destroyed || op.DestroyOp? || op.CloseOp?) && (w.destroyed ==> !w.ledger.pending)
    && w.blocked == (!op.DrainOp? && (v.blocked || op.BlockedOp?))
  }
}
