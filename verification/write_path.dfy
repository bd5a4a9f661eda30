/** The write half of the stream objects: bounded slices, retries on drain, and the local
    write window, proved against `WriteLedger`. */
module WritePath {
  import opened Common
  import opened WriteLedger

  class StreamWriter {
    const limit: Option<nat>
    const highWaterMark: nat
    var blocked: bool
    var finSent: bool
    var destroyed: bool
    var drainCallbacks: seq<Retry>
    var bounded: Option<Bounded>
    var serials: nat
    var admittedBytes: nat
    var releaseScheduled: bool
    var delayed: seq<Callback>
    /** The history as Node and the transport see it; the code of the stream never reads it. */
    var ledger: Ledger
    /** The bytes given to `streamSend` and taken, one after the other. */
    var wire: Bytes

    ghost predicate Config()
      reads this`ledger, this`wire
    {
      highWaterMark > 0 && (limit.Some? ==> limit.value > 0) && Promise(ledger) && wire == ledger.admitted
    }

    /** The window's counters: a delayed callback always has its release scheduled. */
    ghost predicate WindowOk()
      reads this
    {
      (delayed != [] ==> releaseScheduled) && (admittedBytes > 0 ==> releaseScheduled)
      && (delayed == [] ==> admittedBytes <= highWaterMark)
    }

    /** The outstanding write's callback is `cb`, and `tail` is left to admit once the bytes
        `cb` waits for have been. */
    ghost predicate Owes(cb: Callback, tail: Bytes)
      reads this
    {
      match cb
      case NodeCallback => bounded.None? && tail == []
      case SliceCallback(serial, end) =>
        && bounded.Some? && bounded.value.serial == serial && !bounded.value.scheduled
        && limit.Some? && bounded.value.offset < end <= |bounded.value.body|
        && bounded.value.fin == ledger.finWanted && tail == bounded.value.body[end..]
    }

    /** Nobody holds the callback of the outstanding write but the code now running. */
    ghost predicate InHand(chunk: Bytes, final: bool, cb: Callback, tail: Bytes)
      reads this
    {
      && Config() && WindowOk() && ledger.pending && !destroyed && !ledger.finAdmitted
      && drainCallbacks == [] && delayed == []
      && Owes(cb, tail) && Rest(ledger) == chunk + tail
      && final == (ledger.finWanted && tail == [])
    }

    ghost predicate Valid()
      reads this
    {
      && Config() && WindowOk()
      && (!ledger.pending ==> drainCallbacks == [] && delayed == [] && bounded.None?)
      && (ledger.pending ==> !destroyed && (WaitsForDrain() || WaitsForWindow() || WaitsForTurn()))
    }

    ghost predicate WaitsForDrain()
      reads this
    {
      && |drainCallbacks| == 1 && delayed == [] && !ledger.finAdmitted
      && var r := drainCallbacks[0];
         && |r.chunk| <= |Rest(ledger)|
         && Owes(r.callback, Rest(ledger)[|r.chunk|..]) && r.chunk == Rest(ledger)[..|r.chunk|]
         && r.final == (ledger.finWanted && |r.chunk| == |Rest(ledger)|)
    }

    ghost predicate WaitsForWindow()
      reads this
    {
      && drainCallbacks == [] && |delayed| == 1 && Owes(delayed[0], Rest(ledger))
      && ledger.finAdmitted == (ledger.finWanted && Rest(ledger) == [])
    }

    ghost predicate WaitsForTurn()
      reads this
    {
      && drainCallbacks == [] && delayed == [] && !ledger.finAdmitted && limit.Some?
      && bounded.Some? && bounded.value.scheduled && bounded.value.offset < |bounded.value.body|
      && bounded.value.fin == ledger.finWanted && Rest(ledger) == bounded.value.body[bounded.value.offset..]
    }

    constructor (limit: Option<nat>, highWaterMark: nat)
      requires highWaterMark > 0 && (limit.Some? ==> limit.value > 0)
      ensures Valid() && ledger == FRESH && wire == [] && !destroyed && !finSent && !blocked
    {
      this.limit, this.highWaterMark := limit, highWaterMark;
      blocked, finSent, destroyed, drainCallbacks, bounded, serials := false, false, false, [], None, 0;
      admittedBytes, releaseScheduled, delayed, ledger, wire := 0, false, [], FRESH, [];
    }

    method Enter(e: Entry)
      requires Promise(ledger) && Permits(ledger, e)
      modifies `ledger
      ensures ledger == Post(old(ledger), e) && Promise(ledger)
    {
      PostKeepsPromise(ledger, e);
      ledger := Post(ledger, e);
    }

    /** A callback is called with success: everything it waited for has been admitted. */
    method CallBack(cb: Callback)
      requires Config() && WindowOk() && ledger.pending && !destroyed && drainCallbacks == [] && delayed == []
      requires Owes(cb, Rest(ledger)) && ledger.finAdmitted == (ledger.finWanted && Rest(ledger) == [])
      modifies `bounded, `ledger
      ensures Valid() && bounded == NextSlices(old(bounded), cb)
      ensures if bounded.None? then Permits(old(ledger), Succeed) && ledger == Post(old(ledger), Succeed) else ledger == old(ledger)
    {
      match cb
      case NodeCallback =>
        Enter(Succeed);
      case SliceCallback(_, end) =>
        var b := bounded.value;
        if end == |b.body| {
          bounded := None;
          Enter(Succeed);
        } else {
          bounded := Some(b.(offset := end, scheduled := true));
        }
    }

    /** A callback is called with an error. */
    method CallBackError(cb: Callback)
      requires Config() && WindowOk() && ledger.pending && drainCallbacks == [] && delayed == []
      requires cb.NodeCallback? <==> bounded.None?
      requires cb.SliceCallback? ==> bounded.value.serial == cb.serial
      modifies `bounded, `ledger
      ensures Valid() && ledger == Post(old(ledger), Fail)
    {
      bounded := None;
      Enter(Fail);
    }

    /** `completeNativeWrite`. */
    method Complete(count: nat, cb: Callback)
      requires Config() && WindowOk() && ledger.pending && !destroyed && drainCallbacks == [] && delayed == []
      requires Owes(cb, Rest(ledger)) && ledger.finAdmitted == (ledger.finWanted && Rest(ledger) == [])
      modifies `bounded, `ledger, `admittedBytes, `releaseScheduled, `delayed
      ensures Valid() && SameWrites(old(ledger), ledger) && ledger.admitted == old(ledger).admitted && ledger.finAdmitted == old(ledger).finAdmitted
      ensures admittedBytes == old(admittedBytes) + Max(1, count) && releaseScheduled
      ensures if old(admittedBytes) + Max(1, count) > highWaterMark then delayed == [cb] && ledger == old(ledger)
              else && delayed == [] && bounded == NextSlices(old(bounded), cb)
                   && (if bounded.None? then Permits(old(ledger), Succeed) && ledger == Post(old(ledger), Succeed) else ledger == old(ledger))
    {
      admittedBytes := admittedBytes + Max(1, count);
      releaseScheduled := true;
      if admittedBytes <= highWaterMark {
        CallBack(cb);
      } else {
        delayed := delayed + [cb];
      }
    }

    /** Park a chunk until the next drain. */
    method Queue(chunk: Bytes, final: bool, cb: Callback, ghost tail: Bytes)
      requires InHand(chunk, final, cb, tail)
      modifies `drainCallbacks
      ensures Valid() && drainCallbacks == [Retry(chunk, final, cb)]
    {
      SplitAt(Rest(ledger), chunk, tail);
      drainCallbacks := drainCallbacks + [Retry(chunk, final, cb)];
      assert WaitsForDrain();
    }

    /** `_writeChunk` and `_writeFinalChunk` for a chunk within the slice limit. */
    method Attempt(chunk: Bytes, final: bool, cb: Callback, answer: SendAnswer, ghost tail: Bytes)
      requires InHand(chunk, final, cb, tail)
      modifies `bounded, `ledger, `wire, `admittedBytes, `releaseScheduled, `delayed, `drainCallbacks
      ensures Valid() && SameWrites(old(ledger), ledger)
      ensures var o := Offer(chunk, final, cb, NextSlices(old(bounded), cb), answer);
        if blocked then Parks(o, |old(ledger).admitted|, old(ledger).outcomes, old(admittedBytes), Snap())
        else Settles(o, |old(ledger).admitted|, old(ledger).outcomes, old(admittedBytes), highWaterMark, Snap())
    {
      if blocked {
        Queue(chunk, final, cb, tail);
      } else if answer.Threw? {
        CallBackError(cb);
      } else {
        Send(chunk, final, cb, answer.count, tail);
      }
    }

    /** The transport took `count` bytes. */
    method Send(chunk: Bytes, final: bool, cb: Callback, count: nat, ghost tail: Bytes)
      requires InHand(chunk, final, cb, tail)
      modifies `bounded, `ledger, `wire, `admittedBytes, `releaseScheduled, `delayed, `drainCallbacks
      ensures Valid() && SameWrites(old(ledger), ledger)
      ensures Settles(Offer(chunk, final, cb, NextSlices(old(bounded), cb), Sent(count)),
                      |old(ledger).admitted|, old(ledger).outcomes, old(admittedBytes), highWaterMark, Snap())
    {
      var all := if chunk == [] && final then count > 0 else count >= |chunk|;
      if all {
        SendWhole(chunk, final, cb, count, tail);
      } else {
        SendPart(chunk, final, cb, count, tail);
      }
    }

    /** Everything was taken: the callback completes, now or when the window opens. */
    method SendWhole(chunk: Bytes, final: bool, cb: Callback, count: nat, ghost tail: Bytes)
      requires InHand(chunk, final, cb, tail) && |chunk| <= count && !(final && chunk == [] && count == 0)
      modifies `bounded, `ledger, `wire, `admittedBytes, `releaseScheduled, `delayed, `drainCallbacks
      ensures Valid() && SameWrites(old(ledger), ledger)
      ensures Settles(Offer(chunk, final, cb, NextSlices(old(bounded), cb), Sent(count)),
                      |old(ledger).admitted|, old(ledger).outcomes, old(admittedBytes), highWaterMark, Snap())
    {
      Take(chunk, final, cb, |chunk|, true, tail);
      assert chunk[|chunk|..] + tail == tail;
      Complete(count, cb);
    }

    /** The rest waits for the next drain. */
    method SendPart(chunk: Bytes, final: bool, cb: Callback, count: nat, ghost tail: Bytes)
      requires InHand(chunk, final, cb, tail) && (count < |chunk| || (final && chunk == [] && count == 0))
      modifies `ledger, `wire, `drainCallbacks
      ensures Valid() && SameWrites(old(ledger), ledger)
      ensures Settles(Offer(chunk, final, cb, NextSlices(old(bounded), cb), Sent(count)),
                      |old(ledger).admitted|, old(ledger).outcomes, old(admittedBytes), highWaterMark, Snap())
    {
      var taken := Min(count, |chunk|);
      Take(chunk, final, cb, taken, false, tail);
      Queue(chunk[taken..], final, cb, tail);
    }

    /** The bytes taken are admitted, with FIN if that was all. */
    method Take(chunk: Bytes, final: bool, cb: Callback, taken: nat, all: bool, ghost tail: Bytes)
      requires InHand(chunk, final, cb, tail) && taken <= |chunk| && (all ==> taken == |chunk|)
      modifies `ledger, `wire
      ensures Config() && WindowOk() && Owes(cb, tail) && Rest(ledger) == chunk[taken..] + tail
      ensures SameWrites(old(ledger), ledger) && ledger.pending && ledger.outcomes == old(ledger).outcomes
      ensures |ledger.admitted| == |old(ledger).admitted| + taken && ledger.finAdmitted == (final && all)
    {
      AdmitLeaves(ledger, chunk, tail, taken, final && all);
      Enter(Admit(taken, final && all));
      wire := wire + chunk[..taken];
    }

    /** Start a write: at once, or in slices when it exceeds the limit. */
    method Begin(chunk: Bytes, final: bool, answer: SendAnswer)
      requires InHand(chunk, final, NodeCallback, [])
      modifies `bounded, `serials, `ledger, `wire, `admittedBytes, `releaseScheduled, `delayed, `drainCallbacks
      ensures Valid() && SameWrites(old(ledger), ledger)
      ensures Started(chunk, final, answer, |old(ledger).admitted|, old(ledger).outcomes, old(admittedBytes))
    {
      if limit.Some? && |chunk| > limit.value {
        serials := serials + 1;
        bounded := Some(Bounded(serials, chunk, 0, final, true));
        assert chunk[0..] == chunk && Rest(ledger) == chunk;
      } else {
        Attempt(chunk, final, NodeCallback, answer, []);
      }
    }

    /** A new write is sliced above the limit, parked on a blocked stream, and offered otherwise. */
    ghost predicate Started(chunk: Bytes, final: bool, answer: SendAnswer, admitted: nat, outcomes: seq<bool>, used: nat)
      reads this
    {
      var o := Offer(chunk, final, NodeCallback, None, answer);
      if Exceeds(limit, chunk) then
        |ledger.admitted| == admitted && ledger.outcomes == outcomes && ledger.pending && Sliced(Snap(), chunk, final)
      else if blocked then Parks(o, admitted, outcomes, used, Snap())
      else Settles(o, admitted, outcomes, used, highWaterMark, Snap())
    }

    /** `_write`. */
    method Write(chunk: Bytes, answer: SendAnswer)
      requires Valid() && !destroyed && Permits(ledger, Submit(chunk, false))
      modifies this
      ensures Valid() && ledger.submitted == old(ledger).submitted + chunk && Grew(old(ledger), ledger)
      ensures ledger.started == old(ledger).started + 1 && finSent == old(finSent) && !destroyed
      ensures blocked == old(blocked) && ledger.early == old(ledger).early
      ensures Started(chunk, false, answer, |old(ledger).admitted|, old(ledger).outcomes, old(admittedBytes))
    {
      Enter(Submit(chunk, false));
      assert Rest(ledger) == chunk + [];
      Begin(chunk, false, answer);
    }

    /** `_final` with the chunk given to `end`. A FIN already sent (by trailers, or by a response
        or request with `endStream`) makes it succeed without sending anything: the chunk is
        dropped exactly in that case. */
    method Final(chunk: Bytes, answer: SendAnswer) returns (dropped: Bytes)
      requires Valid() && !destroyed && Permits(ledger, Submit(chunk, true))
      modifies this
      ensures Valid() && finSent && Grew(old(ledger), ledger) && !destroyed && ledger.ended
      ensures ledger.started == old(ledger).started + 1 && blocked == old(blocked) && ledger.early == old(ledger).early
      ensures dropped == if old(finSent) then chunk else []
      ensures old(finSent) ==> ledger == Post(old(ledger), SkipFinal)
      ensures !old(finSent) ==>
        && ledger.submitted == old(ledger).submitted + chunk && ledger.finWanted
        && Started(chunk, true, answer, |old(ledger).admitted|, old(ledger).outcomes, old(admittedBytes))
    {
      if finSent {
        Enter(SkipFinal);
        return chunk;
      }
      finSent, dropped := true, [];
      Enter(Submit(chunk, true));
      assert Rest(ledger) == chunk + [];
      Begin(chunk, true, answer);
    }

    /** `sendTrailers`, the one-call response, and a request without body: FIN goes out at once,
        past whatever is still waiting. `sent` says that the transport took it. */
    method SendEarlyFin(sent: bool)
      requires Valid()
      modifies `finSent, `ledger
      ensures Valid() && finSent
      ensures ledger == if sent then Post(old(ledger), EarlyFin) else old(ledger)
    {
      finSent := true;
      if sent {
        Enter(EarlyFin);
      }
    }

    /** The continuation of a bounded write sends its next slice. */
    method NextSlice(answer: SendAnswer)
      requires Valid() && bounded.Some? && bounded.value.scheduled
      modifies this
      ensures Valid() && SameWrites(old(ledger), ledger) && blocked == old(blocked) && destroyed == old(destroyed)
      ensures finSent == old(finSent) && limit.Some? && old(bounded).value.offset <= |old(bounded).value.body|
      ensures var o := SliceOffer(limit.value, old(bounded).value, answer);
        if blocked then Parks(o, |old(ledger).admitted|, old(ledger).outcomes, old(admittedBytes), Snap())
        else Settles(o, |old(ledger).admitted|, old(ledger).outcomes, old(admittedBytes), highWaterMark, Snap())
    {
      var slice, final, cb;
      ghost var tail;
      slice, final, cb, tail := TakeSlice();
      Attempt(slice, final, cb, answer, tail);
    }

    method TakeSlice() returns (slice: Bytes, final: bool, cb: Callback, ghost tail: Bytes)
      requires Valid() && bounded.Some? && bounded.value.scheduled
      modifies `bounded
      ensures InHand(slice, final, cb, tail) && limit.Some? && old(bounded).value.offset <= |old(bounded).value.body|
      ensures forall answer ::
        SliceOffer(limit.value, old(bounded).value, answer) == Offer(slice, final, cb, NextSlices(bounded, cb), answer)
    {
      var b := bounded.value;
      bounded := Some(b.(scheduled := false));
      var end := Min(b.offset + limit.value, |b.body|);
      slice, final, cb, tail := b.body[b.offset..end], b.fin && end == |b.body|, SliceCallback(b.serial, end), b.body[end..];
      assert b.body[b.offset..] == slice + tail;
    }

    /** `fireDrainCallbacks`: the parked chunk, if any, is offered again, or stays parked on a
        stream that is still blocked. */
    method FireDrainCallbacks(answers: nat -> SendAnswer)
      requires Valid()
      modifies this
      ensures Valid() && blocked == old(blocked) && destroyed == old(destroyed) && finSent == old(finSent)
      ensures SameWrites(old(ledger), ledger) && Retried(old(drainCallbacks), answers(0), old(Snap()))
    {
      var callbacks := drainCallbacks;
      drainCallbacks := [];
      for i := 0 to |callbacks|
        invariant |callbacks| <= 1 && blocked == old(blocked) && destroyed == old(destroyed) && finSent == old(finSent)
        invariant i < |callbacks| ==> ledger == old(ledger) && bounded == old(bounded) && admittedBytes == old(admittedBytes) && Parkable(callbacks[0])
        invariant i == |callbacks| ==> Valid() && SameWrites(old(ledger), ledger) && Retried(callbacks, answers(0), old(Snap()))
      {
        RetryParked(callbacks[i], answers(i), old(Snap()));
      }
    }

    /** From `v`, the callbacks that were parked have been tried again. */
    ghost predicate Retried(parked: seq<Retry>, answer: SendAnswer, v: State)
      reads this
    {
      if parked == [] then
        && ledger == v.ledger && drainCallbacks == [] && delayed == v.delayed && bounded == v.bounded
        && admittedBytes == v.admittedBytes && releaseScheduled == v.releaseScheduled
      else
        var r := parked[0];
        var o := Offer(r.chunk, r.final, r.callback, NextSlices(v.bounded, r.callback), answer);
        if blocked then Parks(o, |v.ledger.admitted|, v.ledger.outcomes, v.admittedBytes, Snap())
        else Settles(o, |v.ledger.admitted|, v.ledger.outcomes, v.admittedBytes, highWaterMark, Snap())
    }

    /** A chunk taken from the drain callbacks: it is what the ledger has next. */
    ghost predicate Parkable(r: Retry)
      reads this
    {
      && Config() && WindowOk() && ledger.pending && !destroyed && !ledger.finAdmitted && drainCallbacks == [] && delayed == []
      && |r.chunk| <= |Rest(ledger)| && r.chunk == Rest(ledger)[..|r.chunk|]
      && Owes(r.callback, Rest(ledger)[|r.chunk|..])
      && r.final == (ledger.finWanted && |r.chunk| == |Rest(ledger)|)
    }

    /** One parked chunk is tried again. */
    method RetryParked(r: Retry, answer: SendAnswer, ghost v: State)
      requires Parkable(r) && v.ledger == ledger && v.bounded == bounded && v.admittedBytes == admittedBytes
      modifies `bounded, `ledger, `wire, `admittedBytes, `releaseScheduled, `delayed, `drainCallbacks
      ensures Valid() && SameWrites(old(ledger), ledger) && Retried([r], answer, v)
    {
      ghost var tail := Rest(ledger)[|r.chunk|..];
      assert Rest(ledger) == r.chunk + tail;
      Attempt(r.chunk, r.final, r.callback, answer, tail);
    }

    /** DRAIN: flow control has opened. */
    method OnDrain(answers: nat -> SendAnswer)
      requires Valid()
      modifies this
      ensures Valid() && !blocked && destroyed == old(destroyed) && finSent == old(finSent)
      ensures SameWrites(old(ledger), ledger) && Retried(old(drainCallbacks), answers(0), old(Snap()))
    {
      blocked := false;
      FireDrainCallbacks(answers);
    }

    /** WRITE_READY: the command queue has room; flow-control state stays. */
    method OnWriteReady(answers: nat -> SendAnswer)
      requires Valid()
      modifies this
      ensures Valid() && blocked == old(blocked) && destroyed == old(destroyed) && finSent == old(finSent)
      ensures SameWrites(old(ledger), ledger) && Retried(old(drainCallbacks), answers(0), old(Snap()))
    {
      FireDrainCallbacks(answers);
    }

    method OnBlocked()
      requires Valid()
      modifies `blocked
      ensures Valid() && blocked
    {
      blocked := true;
    }

    /** The window opens on the next turn and releases what it delayed. */
    method ReleaseWindow()
      requires Valid() && releaseScheduled
      modifies this
      ensures Valid() && SameWrites(old(ledger), ledger) && delayed == [] && admittedBytes == 0 && !releaseScheduled
      ensures destroyed == old(destroyed) && finSent == old(finSent) && blocked == old(blocked)
      ensures drainCallbacks == old(drainCallbacks)
      ensures bounded == if old(delayed) == [] then old(bounded) else NextSlices(old(bounded), old(delayed)[0])
      ensures if old(delayed) != [] && bounded.None?
              then Permits(old(ledger), Succeed) && ledger == Post(old(ledger), Succeed)
              else ledger == old(ledger)
    {
      releaseScheduled, admittedBytes := false, 0;
      var callbacks := delayed;
      delayed := [];
      for i := 0 to |callbacks|
        invariant finSent == old(finSent) && blocked == old(blocked) && !releaseScheduled
        invariant |callbacks| <= 1 && destroyed == old(destroyed) && SameWrites(old(ledger), ledger) && delayed == [] && admittedBytes == 0
        invariant i == |callbacks| ==> Valid()
        invariant i < |callbacks| ==> old(WaitsForWindow()) && unchanged(this`ledger) && unchanged(this`bounded)
        invariant i < |callbacks| ==> drainCallbacks == [] && destroyed == old(destroyed) && Config() && WindowOk()
        invariant drainCallbacks == old(drainCallbacks)
        invariant i == |callbacks| ==> bounded == if callbacks == [] then old(bounded) else NextSlices(old(bounded), callbacks[0])
        invariant i == |callbacks| ==>
          if callbacks != [] && bounded.None? then Permits(old(ledger), Succeed) && ledger == Post(old(ledger), Succeed)
          else ledger == old(ledger)
      {
        CallBack(callbacks[i]);
      }
    }

    /** A rejected callback fires with the error, unless its bounded write was already cancelled. */
    method Reject(cb: Callback)
      requires Promise(ledger)
      requires !(cb.SliceCallback? && (bounded.None? || bounded.value.serial != cb.serial)) ==> ledger.pending
      modifies `bounded, `ledger
      ensures Promise(ledger) && SameWrites(old(ledger), ledger)
      ensures if cb.SliceCallback? && (old(bounded).None? || old(bounded).value.serial != cb.serial)
              then ledger == old(ledger) && bounded == old(bounded)
              else ledger == Post(old(ledger), Fail) && bounded.None?
    {
      if cb.SliceCallback? && (bounded.None? || bounded.value.serial != cb.serial) { return; }
      bounded := None;
      Enter(Fail);
    }

    /** `rejectDrainCallbacks`. */
    method RejectDrainCallbacks()
      requires Valid()
      modifies `drainCallbacks, `bounded, `ledger
      ensures Valid() && SameWrites(old(ledger), ledger) && drainCallbacks == []
      ensures old(drainCallbacks) != [] ==> Permits(old(ledger), Fail) && ledger == Post(old(ledger), Fail)
      ensures old(drainCallbacks) == [] ==> ledger == old(ledger)
    {
      var callbacks := drainCallbacks;
      drainCallbacks := [];
      for i := 0 to |callbacks|
        invariant |callbacks| <= 1 && SameWrites(old(ledger), ledger) && drainCallbacks == []
        invariant i == 0 ==> unchanged(this`ledger) && unchanged(this`bounded)
        invariant i == |callbacks| ==> Valid()
        invariant i == |callbacks| && callbacks != [] ==> Permits(old(ledger), Fail) && ledger == Post(old(ledger), Fail)
        invariant callbacks == [] ==> ledger == old(ledger)
      {
        Reject(callbacks[i].callback);
      }
    }

    /** `_destroy`: the outstanding callback, wherever it waits, fires once with the error. */
    method Destroy()
      requires Valid()
      modifies this
      ensures Valid() && destroyed && SameWrites(old(ledger), ledger) && ledger.admitted == old(ledger).admitted
      ensures finSent == old(finSent) && blocked == old(blocked)
      ensures !ledger.pending && ledger.started == |ledger.outcomes|
      ensures ledger.outcomes == if old(ledger).pending then old(ledger).outcomes + [false] else old(ledger).outcomes
    {
      if bounded.Some? {
        CancelBounded();
      } else {
        RejectDrainCallbacks();
        if |delayed| > 0 {
          assert |delayed| == 1 && WaitsForWindow();
          var cb := delayed[0];
          admittedBytes, delayed := 0, [];
          Reject(cb);
        }
      }
      admittedBytes := 0;
      destroyed := true;
    }

    /** The bounded write is cancelled first; its slice's own callback is then ignored. */
    method CancelBounded()
      requires Valid() && bounded.Some?
      modifies this
      ensures Valid() && ledger == Post(old(ledger), Fail) && bounded.None?
      ensures drainCallbacks == [] && delayed == [] && !destroyed && finSent == old(finSent) && blocked == old(blocked)
    {
      bounded := None;
      Enter(Fail);
      var retries, late := drainCallbacks, delayed;
      drainCallbacks, delayed, admittedBytes := [], [], 0;
      if |retries| > 0 { Reject(retries[0].callback); }
      if |late| > 0 { Reject(late[0]); }
    }

    /** `close`. */
    method Close()
      requires Valid() && !destroyed
      modifies this
      ensures Valid() && destroyed && !ledger.pending && SameWrites(old(ledger), ledger) && ledger.admitted == old(ledger).admitted
      ensures finSent == old(finSent) && blocked == old(blocked)
      ensures ledger.outcomes == if old(ledger).pending then old(ledger).outcomes + [false] else old(ledger).outcomes
    {
      RejectDrainCallbacks();
      Destroy();
    }

    // ----- every run of the object -----

    function Snap(): State
      reads this
    {
      State(blocked, finSent, destroyed, drainCallbacks, bounded, admittedBytes, highWaterMark, releaseScheduled, delayed, ledger, wire)
    }

    lemma ValidIsSound()
      requires Valid()
      ensures Sound(Snap())
    {
    }
  }
}
