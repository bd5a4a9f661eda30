/** Progress of the read-credit loop: whatever has happened to a stream, delivering what is in
    flight, reading what has arrived and letting the deferred credit steps run brings it to rest. */
module CreditProgress {
  import opened Common
  import opened ReceiveSteps
  import opened Readable
  import opened CreditProtocol

  /** Moves that bring nothing new: the worker reads no more bytes, and the command queue accepts. */
  predicate Winding(m: Move) {
    match m
    case Work(step) => step.Flush? || step.Recycle? || step.Pick? || step == Settle(false)
    case Tick(accepted) => accepted
    case Destroy => false
    case _ => true
  }

  /** Such moves lead from `g` to `h`. */
  ghost predicate Leads(window: nat, g: System, moves: seq<Move>, h: System) {
    Permitted(window, g, moves) && Run(window, g, moves) == h && forall m :: m in moves ==> Winding(m)
  }

  lemma LeadsNowhere(window: nat, g: System)
    ensures Leads(window, g, [], g)
  {
  }

  lemma LeadsOne(window: nat, g: System, m: Move)
    requires Inv(window, g) && Allowed(g, m) && Winding(m)
    ensures Leads(window, g, [m], Next(window, g, m)) && Inv(window, Next(window, g, m))
  {
    LeadsNowhere(window, g);
    RunPush(window, g, [], m);
    assert [] + [m] == [m];
    MoveKeepsInv(window, g, m);
  }

  lemma LeadsOn(window: nat, g: System, a: seq<Move>, h: System, b: seq<Move>, k: System)
    requires Leads(window, g, a, h) && Leads(window, h, b, k)
    ensures Leads(window, g, a + b, k)
  {
    RunConcat(window, g, a, b);
  }

  /** The receive buffer is passed on or recycled. */
  lemma PassBuffer(window: nat, g: System) returns (moves: seq<Move>, h: System)
    requires Inv(window, g)
    ensures Leads(window, g, moves, h) && Inv(window, h) && |moves| <= 1
    ensures h.worker.pending.None? && h.js == g.js && h.grants == g.grants && h.got == g.got
    ensures h.worker.out == g.worker.out || (exists bytes :: h.worker.out == g.worker.out + [DataToken(bytes, false)])
    ensures h.worker == g.worker.(pending := None, out := h.worker.out)
  {
    moves, h := [], g;
    LeadsNowhere(window, g);
    if g.worker.pending.Some? {
      var m := Work(if Held(g.worker) == [] then Recycle else Flush(false));
      LeadsOne(window, g, m);
      moves, h := [m], Next(window, g, m);
    }
  }

  /** An undelivered reset or error, or a receive limit below window and mark. */
  ghost predicate Fatal(window: nat, g: System) {
    || (exists k :: g.got <= k < |g.worker.out| && (g.worker.out[k].ResetToken? || g.worker.out[k].ErrorToken?))
    || (g.js.limit.Some? && g.js.limit.value < window + g.js.hwm)
  }

  /** An event adds at most one chunk to the spill, and destroys the stream object only if it is a
      reset, an error, or too much. */
  lemma TokenSpills(r: Reader, before: seq<Token>, token: Token)
    requires !r.destroyed
    ensures var q := OnToken(r, before, token, false, true);
      && |q.spill| <= |r.spill| + 1
      && (q.destroyed && !token.ResetToken? && !token.ErrorToken? ==>
            r.limit.Some? && r.limit.value < |r.buffer| + r.spillBytes + |Payload(token)|)
  {
  }

  /** Whatever arrives next fits into window and mark. */
  lemma NextFits(window: nat, g: System)
    requires Inv(window, g) && !g.js.destroyed && g.got < |g.worker.out|
    ensures |g.js.buffer| + g.js.spillBytes + |Payload(g.worker.out[g.got])| <= window + g.js.hwm
  {
    TakeInFlight(g.worker.out, g.got);
  }

  /** One event is delivered; only a fatal one destroys the stream object. */
  lemma DeliverOne(window: nat, g: System) returns (h: System)
    requires Inv(window, g) && !g.js.destroyed && g.got < |g.worker.out|
    ensures Leads(window, g, [DeliverNext(false, true)], h) && Inv(window, h)
    ensures h.got == g.got + 1 && h.worker == g.worker && h.grants == g.grants
    ensures h.js.hwm == g.js.hwm && h.js.limit == g.js.limit && |h.js.spill| <= |g.js.spill| + 1
    ensures h.js.destroyed ==> Fatal(window, g)
  {
    var m := DeliverNext(false, true);
    LeadsOne(window, g, m);
    MoveKeepsConfig(window, g, m);
    TokenSpills(g.js, g.worker.out[..g.got], g.worker.out[g.got]);
    NextFits(window, g);
    h := Next(window, g, m);
  }

  /** All events in flight are delivered, unless one of them is fatal. */
  lemma {:induction false} DeliverAll(window: nat, g: System) returns (moves: seq<Move>, h: System)
    requires Inv(window, g) && !g.js.destroyed
    ensures Leads(window, g, moves, h) && Inv(window, h) && |moves| <= |g.worker.out| - g.got
    ensures h.worker == g.worker && h.grants == g.grants && |h.js.spill| <= |g.js.spill| + |g.worker.out| - g.got
    ensures h.js.destroyed ==> Fatal(window, g)
    ensures !h.js.destroyed ==> h.got == |g.worker.out|
    decreases |g.worker.out| - g.got
  {
    moves, h := [], g;
    LeadsNowhere(window, g);
    if g.got < |g.worker.out| {
      var next := DeliverOne(window, g);
      moves, h := [DeliverNext(false, true)], next;
      if !next.js.destroyed {
        var more;
        more, h := DeliverAll(window, next);
        LeadsOn(window, g, [DeliverNext(false, true)], next, more, h);
        moves := [DeliverNext(false, true)] + more;
      }
    }
  }

  /** Nothing is left to read. */
  predicate Empty(r: Reader) {
    r.buffer == [] && !(r.paused && !r.ended)
  }

  /** A read of the whole buffer takes it and brings in spilled chunks. */
  lemma ReadOnceMore(window: nat, g: System) returns (h: System)
    requires Inv(window, g) && !g.js.destroyed && !g.js.ended
    ensures Leads(window, g, [NodeRead(|g.js.buffer|)], h) && Inv(window, h) && h == g.(js := h.js)
    ensures !h.js.destroyed && (g.js.spill != [] ==> |h.js.spill| < |g.js.spill|) && (g.js.spill == [] ==> h.js.spill == [] && Empty(h.js))
  {
    LeadsOne(window, g, NodeRead(|g.js.buffer|));
    h := Next(window, g, NodeRead(|g.js.buffer|));
    var r := g.js.(paused := false);
    RefillMoves(r);
    DrainSpillKeepsPrefix(g.js);
  }

  /** The consumer reads everything. */
  lemma {:induction false} ReadAll(window: nat, g: System) returns (moves: seq<Move>, h: System)
    requires Inv(window, g) && !g.js.destroyed
    ensures Leads(window, g, moves, h) && Inv(window, h) && |moves| <= |g.js.spill| + 2 && (Empty(g.js) ==> moves == [])
    ensures h == g.(js := h.js) && !h.js.destroyed && Empty(h.js)
    decreases |g.js.spill|, !Empty(g.js)
  {
    moves, h := [], g;
    LeadsNowhere(window, g);
    if !Empty(g.js) {
      if g.js.ended {
        LeadsOne(window, g, NodeTake(|g.js.buffer|));
        moves, h := [NodeTake(|g.js.buffer|)], Next(window, g, NodeTake(|g.js.buffer|));
      } else {
        var next := ReadOnceMore(window, g);
        var more;
        more, h := ReadAll(window, next);
        LeadsOn(window, g, [NodeRead(|g.js.buffer|)], next, more, h);
        moves := [NodeRead(|g.js.buffer|)] + more;
      }
    }
  }

  /** A deferred credit step runs, and its credit is accepted. */
  lemma TickOnce(window: nat, g: System) returns (moves: seq<Move>, h: System)
    requires Inv(window, g) && !g.js.destroyed && Empty(g.js)
    ensures Leads(window, g, moves, h) && Inv(window, h) && |moves| <= 1
    ensures h == g.(js := h.js, grants := h.grants) && |h.grants| <= |g.grants| + 1
    ensures !h.js.destroyed && Empty(h.js) && !h.js.scheduled
  {
    moves, h := [], g;
    LeadsNowhere(window, g);
    if g.js.scheduled {
      LeadsOne(window, g, Tick(true));
      moves, h := [Tick(true)], Next(window, g, Tick(true));
    }
  }

  /** The worker applies the credit commands. */
  lemma {:induction false} GrantAll(window: nat, g: System) returns (moves: seq<Move>, h: System)
    requires Inv(window, g)
    ensures Leads(window, g, moves, h) && Inv(window, h) && |moves| <= |g.grants|
    ensures h == g.(worker := h.worker, grants := []) && h.worker == g.worker.(credit := h.worker.credit)
    decreases |g.grants|
  {
    moves, h := [], g;
    LeadsNowhere(window, g);
    if g.grants != [] {
      LeadsOne(window, g, ApplyGrant);
      var next, more := Next(window, g, ApplyGrant), [];
      more, h := GrantAll(window, next);
      LeadsOn(window, g, [ApplyGrant], next, more, h);
      moves := [ApplyGrant] + more;
    }
  }

  /** The worker serves the stream if it may, and quiche has nothing more. */
  lemma ServeOnce(window: nat, g: System) returns (moves: seq<Move>, h: System)
    requires Inv(window, g) && g.worker.pending.None?
    ensures Leads(window, g, moves, h) && Inv(window, h) && |moves| <= 2
    ensures AtRest(h.worker) && !(h.worker.readable && CreditOr(h.worker, 1) > 0)
    ensures h == g.(worker := h.worker)
    ensures h.worker == g.worker.(readable := h.worker.readable, edge := h.worker.edge, stalled := h.worker.stalled)
  {
    moves, h := [], g;
    LeadsNowhere(window, g);
    if g.worker.readable && CreditOr(g.worker, 1) > 0 {
      LeadsOne(window, g, Work(Pick));
      moves, h := [Work(Pick)], Next(window, g, Work(Pick));
    }
    if h.worker.edge && !h.worker.readable {
      var next := h;
      LeadsOne(window, next, Work(Settle(false)));
      h := Next(window, next, Work(Settle(false)));
      LeadsOn(window, g, moves, next, [Work(Settle(false))], h);
      moves := moves + [Work(Settle(false))];
    }
  }

  /** The JS side comes to rest. */
  lemma SettleReader(window: nat, g: System) returns (moves: seq<Move>, h: System)
    requires Inv(window, g) && !g.js.destroyed && g.got == |g.worker.out|
    ensures Leads(window, g, moves, h) && Inv(window, h) && |moves| <= |g.js.spill| + |g.grants| + 4
    ensures h.got == g.got && h.grants == [] && h.worker == g.worker.(credit := h.worker.credit)
    ensures !h.js.destroyed && Empty(h.js) && !h.js.scheduled
  {
    var a, b, c, g1, g2;
    a, g1 := ReadAll(window, g);
    b, g2 := TickOnce(window, g1);
    c, h := GrantAll(window, g2);
    LeadsOn(window, g, a, g1, b, g2);
    LeadsOn(window, g, a + b, g2, c, h);
    moves := a + b + c;
  }

  /** Everything the worker holds or has sent reaches the stream object, unless something fatal does. */
  lemma DeliverOut(window: nat, g: System) returns (moves: seq<Move>, h: System)
    requires Inv(window, g) && !g.js.destroyed
    ensures Leads(window, g, moves, h) && Inv(window, h) && |moves| <= |g.worker.out| - g.got + 2
    ensures h.worker == g.worker.(pending := None, out := h.worker.out) && h.grants == g.grants
    ensures |h.js.spill| <= |g.js.spill| + |g.worker.out| - g.got + 1
    ensures h.js.destroyed ==> Fatal(window, g)
    ensures !h.js.destroyed ==> h.got == |h.worker.out|
  {
    var a, b, mid;
    a, mid := PassBuffer(window, g);
    b, h := DeliverAll(window, mid);
    LeadsOn(window, g, a, mid, b, h);
    moves := a + b;
    if Fatal(window, mid) && !(g.js.limit.Some? && g.js.limit.value < window + g.js.hwm) {
      var k :| mid.got <= k < |mid.worker.out| && (mid.worker.out[k].ResetToken? || mid.worker.out[k].ErrorToken?);
      assert g.worker.out[k] == mid.worker.out[k];
    }
  }

  /** With everything delivered, both sides come to rest. */
  lemma SettleBoth(window: nat, g: System) returns (moves: seq<Move>, h: System)
    requires Inv(window, g) && !g.js.destroyed && g.got == |g.worker.out| && g.worker.pending.None?
    ensures Leads(window, g, moves, h) && |moves| <= |g.js.spill| + |g.grants| + 6
    ensures !h.js.destroyed && Quiescent(h) && AtRest(h.worker)
    ensures h.worker.phase == g.worker.phase && h.worker.read == g.worker.read && h.worker.lost == g.worker.lost
  {
    var a, b, mid;
    a, mid := SettleReader(window, g);
    b, h := ServeOnce(window, mid);
    LeadsOn(window, g, a, mid, b, h);
    moves := a + b;
  }

  /** From every reachable state of an undestroyed stream, a bounded run without new bytes brings
      the whole loop to rest, with the end seen by the consumer if there is one, unless a reset, an error or a receive limit destroys the stream on
      the way. */
  lemma StreamComesToRest(window: nat, hwm: nat, limit: Option<nat>, g: System) returns (moves: seq<Move>, h: System)
    requires Reachable(window, hwm, limit, g) && !g.js.destroyed
    ensures g.got <= |g.worker.out|
    ensures Leads(window, g, moves, h) && |moves| <= 2 * (|g.worker.out| - g.got) + |g.js.spill| + |g.grants| + 9
    ensures Reachable(window, hwm, limit, h)
    ensures h.js.destroyed ==> Fatal(window, g)
    ensures !h.js.destroyed ==> Quiescent(h) && AtRest(h.worker) && (h.js.ended <==> FinishedToken in h.worker.out)
    ensures h.worker.phase == g.worker.phase && h.worker.read == g.worker.read && h.worker.lost == g.worker.lost
  {
    ReachableInv(window, hwm, limit, g);
    moves, h := DeliverOut(window, g);
    if !h.js.destroyed {
      var mid, more := h, [];
      more, h := SettleBoth(window, mid);
      LeadsOn(window, g, moves, mid, more, h);
      moves := moves + more;
    }
    ReachThrough(window, hwm, limit, g, moves, h);
    ReachableInv(window, hwm, limit, h);
    assert !h.js.destroyed ==> h.worker.out[..h.got] == h.worker.out;
  }

  lemma ReachThrough(window: nat, hwm: nat, limit: Option<nat>, g: System, moves: seq<Move>, h: System)
    requires Reachable(window, hwm, limit, g) && Leads(window, g, moves, h)
    ensures Reachable(window, hwm, limit, h)
  {
    var init := Init(hwm, limit);
    var before :| Permitted(window, init, before) && g == Run(window, init, before);
    RunConcat(window, init, before, moves);
  }

  /** So credit never gets stuck: a live stream that is not destroyed on the way gets its whole
      window back, less what JS ignored, and its consumer every byte read, if nothing was ignored. */
  lemma CreditComesBack(window: nat, hwm: nat, limit: Option<nat>, g: System) returns (moves: seq<Move>, h: System)
    requires Reachable(window, hwm, limit, g) && g.worker.phase.Live? && !g.js.destroyed && 0 < window
    ensures Leads(window, g, moves, h) && Reachable(window, hwm, limit, h) && (h.js.destroyed ==> Fatal(window, g))
    ensures h.got <= |h.worker.out|
    ensures !h.js.destroyed ==>
      && h.worker.credit == Some(window - Forfeit(h)) && h.js.uncredited == 0
      && (RidesFirst(h.worker.out) ==> h.worker.credit == Some(window))
      && (RidesFirst(h.worker.out) && !g.worker.lost ==> h.js.consumed == g.worker.read)
  {
    moves, h := StreamComesToRest(window, hwm, limit, g);
    ReachableInv(window, hwm, limit, h);
    if !h.js.destroyed {
      QuiescentStreamIsWhole(window, hwm, limit, h);
    }
  }
}
