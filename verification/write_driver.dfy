/** The object's operations, one by one and in any sequence, are steps and runs of the ledger. */
module WriteDriver {
  import opened Common
  import opened WriteLedger
  import opened WritePath
  import opened WriteRuns

  /** One operation, with exactly its effect. */
  method Do(w: StreamWriter, op: Op)
    requires w.Valid() && CanDo(w.limit, w.Snap(), op)
    modifies w
    ensures w.Valid() && Stepped(w.limit, old(w.Snap()), op, w.Snap())
  {
    if op.WriteOp? {
      DoWrite(w, op.chunk, op.answer);
    } else if op.FinalOp? {
      DoFinal(w, op.chunk, op.answer);
    } else if op.DrainOp? || op.ReadyOp? || op.SliceOp? {
      DoWakeup(w, op);
    } else if op.EarlyFinOp? {
      DoEarlyFin(w, op.sent);
    } else if op.BlockedOp? {
      DoBlocked(w);
    } else {
      DoTurn(w, op);
    }
  }

  method DoWrite(w: StreamWriter, chunk: Bytes, answer: SendAnswer)
    requires w.Valid() && CanDo(w.limit, w.Snap(), WriteOp(chunk, answer))
    modifies w
    ensures w.Valid() && Stepped(w.limit, old(w.Snap()), WriteOp(chunk, answer), w.Snap())
  {
    w.ValidIsSound();
    w.Write(chunk, answer);
    w.ValidIsSound();
  }

  method DoFinal(w: StreamWriter, chunk: Bytes, answer: SendAnswer)
    requires w.Valid() && CanDo(w.limit, w.Snap(), FinalOp(chunk, answer))
    modifies w
    ensures w.Valid() && Stepped(w.limit, old(w.Snap()), FinalOp(chunk, answer), w.Snap())
  {
    assert w.ledger.submitted + [] == w.ledger.submitted;
    w.ValidIsSound();
    var _ := w.Final(chunk, answer);
    w.ValidIsSound();
  }

  /** A wake-up that offers waiting bytes again. */
  method DoWakeup(w: StreamWriter, op: Op)
    requires w.Valid() && CanDo(w.limit, w.Snap(), op) && (op.DrainOp? || op.ReadyOp? || op.SliceOp?)
    modifies w
    ensures w.Valid() && Stepped(w.limit, old(w.Snap()), op, w.Snap())
  {
    assert w.ledger.submitted + [] == w.ledger.submitted;
    match op {
      case DrainOp(answers) => w.OnDrain(answers);
      case ReadyOp(answers) => w.OnWriteReady(answers);
      case SliceOp(answer) => w.NextSlice(answer);
    }
  }

  /** The window opens, or the stream ends. */
  method DoTurn(w: StreamWriter, op: Op)
    requires w.Valid() && CanDo(w.limit, w.Snap(), op) && (op.ReleaseOp? || op.DestroyOp? || op.CloseOp?)
    modifies w
    ensures w.Valid() && Stepped(w.limit, old(w.Snap()), op, w.Snap())
  {
    assert w.ledger.submitted + [] == w.ledger.submitted;
    match op {
      case ReleaseOp => w.ReleaseWindow();
      case DestroyOp => w.Destroy();
      case CloseOp => w.Close();
    }
  }

  method DoEarlyFin(w: StreamWriter, sent: bool)
    requires w.Valid()
    modifies w
    ensures w.Valid() && Stepped(w.limit, old(w.Snap()), EarlyFinOp(sent), w.Snap())
  {
    assert w.ledger.submitted + [] == w.ledger.submitted && w.ledger.outcomes[..|w.ledger.outcomes|] == w.ledger.outcomes;
    w.SendEarlyFin(sent);
  }

  method DoBlocked(w: StreamWriter)
    requires w.Valid()
    modifies w
    ensures w.Valid() && Stepped(w.limit, old(w.Snap()), BlockedOp, w.Snap())
  {
    assert w.ledger.submitted + [] == w.ledger.submitted && w.ledger.outcomes[..|w.ledger.outcomes|] == w.ledger.outcomes;
    w.OnBlocked();
  }

  /** One operation more, or none if its caller may not perform it. */
  method Extend(w: StreamWriter, op: Op, ghost r: Run) returns (ghost more: Run)
    requires w.Valid() && Happens(w.limit, r) && r.state == w.Snap()
    modifies w
    ensures w.Valid() && Happens(w.limit, more) && more == Then(r, op, w.Snap())
  {
    if CanDo(w.limit, w.Snap(), op) {
      Do(w, op);
    }
    w.ValidIsSound();
    more := Then(r, op, w.Snap());
  }

  /** Every script of operations is a run of the object, whatever the transport answers. */
  method RunAll(w: StreamWriter, script: seq<Op>) returns (ghost r: Run)
    requires w.Valid()
    modifies w
    ensures w.Valid() && Happens(w.limit, r) && Ops(r) == script
    ensures First(r) == old(w.Snap()) && r.state == w.Snap()
    decreases |script|
  {
    if script == [] {
      w.ValidIsSound();
      r := Start(w.Snap());
    } else {
      ghost var before := RunAll(w, script[..|script| - 1]);
      r := Extend(w, script[|script| - 1], before);
      assert script == script[..|script| - 1] + [script[|script| - 1]];
    }
  }

  /** What is still to do for the outstanding write. */
  ghost function Remaining(v: State): nat {
    8 * |Rest(v.ledger)| + (if v.blocked then 4 else 0) + (if v.parked != [] then 2 else if v.delayed != [] then 1 else 0)
  }

  /** The wake-up that the outstanding write waits for, with a transport that takes everything. */
  method Wake(w: StreamWriter)
    requires w.Valid() && w.ledger.pending
    modifies w
    ensures w.Valid() && SameWrites(old(w.ledger), w.ledger)
    ensures w.ledger.pending ==> w.ledger.outcomes == old(w.ledger.outcomes) && Remaining(w.Snap()) < Remaining(old(w.Snap()))
    ensures !w.ledger.pending ==> w.ledger.outcomes == old(w.ledger.outcomes) + [true]
  {
    if w.blocked || w.drainCallbacks != [] {
      var all := if w.drainCallbacks == [] then 0 else |w.drainCallbacks[0].chunk| + 1;
      w.OnDrain(_ => Sent(all));
    } else if w.delayed != [] {
      w.ReleaseWindow();
    } else {
      w.NextSlice(Sent(w.limit.value));
    }
  }

  /** No write is ever stuck: from every state in which one is outstanding, drains, turns and a
      transport that takes what it is offered complete it. Everything handed over is then on the
      wire, with FIN if it was wanted, and its callback has succeeded, once. */
  method FinishWrite(w: StreamWriter)
    requires w.Valid() && w.ledger.pending
    modifies w
    ensures w.Valid() && !w.ledger.pending && SameWrites(old(w.ledger), w.ledger)
    ensures w.ledger.outcomes == old(w.ledger.outcomes) + [true]
    ensures w.wire == w.ledger.submitted && w.ledger.finAdmitted == w.ledger.finWanted
  {
    while w.ledger.pending
      invariant w.Valid() && SameWrites(old(w.ledger), w.ledger)
      invariant w.ledger.outcomes == if w.ledger.pending then old(w.ledger.outcomes) else old(w.ledger.outcomes) + [true]
      decreases w.ledger.pending, Remaining(w.Snap())
    {
      Wake(w);
    }
    w.ValidIsSound();
  }

  /** A run in which FIN overtakes: a blocked stream has one byte waiting when trailers are sent. */
  method OvertakeByte() returns (w: StreamWriter)
    ensures fresh(w) && w.Valid() && w.finSent && w.ledger.pending && Rest(w.ledger) == [7]
    ensures !w.ledger.finAdmitted && Overtaken(w.ledger)
  {
    w := new StreamWriter(None, 1);
    w.OnBlocked();
    w.Write([7], Sent(0));
    w.SendEarlyFin(true);
  }
}
