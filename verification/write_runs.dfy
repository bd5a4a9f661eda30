/** Runs of a stream's write half: any sequence of its operations, and what holds over all of it. */
module WriteRuns {
  import opened Common
  import opened WriteLedger

  /** A run so far: its operations, and the state after each of them. */
  datatype Run = Start(state: State) | Then(before: Run, op: Op, state: State)

  function First(r: Run): State {
    match r case Start(v) => v case Then(before, _, _) => First(before)
  }

  function Ops(r: Run): seq<Op> {
    match r case Start(_) => [] case Then(before, op, _) => Ops(before) + [op]
  }

  /** Every state is sound. An operation has exactly its effect where its caller may perform it,
      and is skipped elsewhere. */
  ghost predicate Happens(limit: Option<nat>, r: Run) {
    && Sound(r.state)
    && (r.Then? ==>
          && Happens(limit, r.before)
          && (if CanDo(limit, r.before.state, r.op) then Stepped(limit, r.before.state, r.op, r.state) else r.state == r.before.state))
  }

  /** The bytes that the run's operations hand over, one after the other. */
  function Handed(limit: Option<nat>, r: Run): Bytes {
    match r
    case Start(_) => []
    case Then(before, op, _) =>
      Handed(limit, before) + (if CanDo(limit, before.state, op) then Handing(before.state, op) else [])
  }

  /** The transport has exactly a prefix, in order, of what was handed over. */
  lemma {:induction false} RunKeepsOrder(limit: Option<nat>, r: Run)
    requires Happens(limit, r)
    ensures r.state.ledger.submitted == First(r).ledger.submitted + Handed(limit, r)
    ensures r.state.wire <= First(r).ledger.submitted + Handed(limit, r)
  {
    if r.Then? {
      RunKeepsOrder(limit, r.before);
      Assoc(First(r).ledger.submitted, Handed(limit, r.before),
            if CanDo(limit, r.before.state, r.op) then Handing(r.before.state, r.op) else []);
    }
  }

  /** Nothing admitted or called back is undone, and a stream once destroyed stays so, with
      nothing outstanding. */
  lemma {:induction false} RunUndoesNothing(limit: Option<nat>, r: Run)
    requires Happens(limit, r)
    ensures Grew(First(r).ledger, r.state.ledger)
    ensures First(r).destroyed ==> r.state.destroyed && !r.state.ledger.pending
  {
    if r.Then? {
      RunUndoesNothing(limit, r.before);
    }
  }

  /** A FIN went out before a byte that Node handed over. */
  predicate Overtaken(l: Ledger) {
    l.early.Some? && l.early.value < |l.submitted|
  }

  /** The operation makes it so: FIN is sent past waiting bytes, or bytes follow such a FIN. */
  predicate Overtakes(v: State, op: Op) {
    || (op.EarlyFinOp? && op.sent && v.ledger.early.None? && Rest(v.ledger) != [])
    || (v.ledger.early.Some? && Handing(v, op) != [])
  }

  /** Some operation of the run does that. */
  predicate OvertakesIn(limit: Option<nat>, r: Run) {
    r.Then? && (OvertakesIn(limit, r.before) || (CanDo(limit, r.before.state, r.op) && Overtakes(r.before.state, r.op)))
  }

  lemma StepOvertakes(limit: Option<nat>, v: State, op: Op, w: State)
    requires Sound(v) && Sound(w) && Stepped(limit, v, op, w)
    ensures Overtaken(w.ledger) <==> Overtaken(v.ledger) || Overtakes(v, op)
  {
    assert |w.ledger.submitted| == |v.ledger.submitted| + |Handing(v, op)|;
  }

  /** FIN precedes a byte of the writes if and only if, somewhere in the run, trailers (or another
      FIN besides the writes) were sent while bytes were waiting, or a non-empty write followed
      them. The writes' own FIN never does. */
  lemma {:induction false} FinIsOvertakenExactly(limit: Option<nat>, r: Run)
    requires Happens(limit, r)
    ensures Overtaken(r.state.ledger) <==> Overtaken(First(r).ledger) || OvertakesIn(limit, r)
    ensures r.state.ledger.finAdmitted ==> r.state.wire == r.state.ledger.submitted
  {
    if r.Then? {
      FinIsOvertakenExactly(limit, r.before);
      if CanDo(limit, r.before.state, r.op) {
        StepOvertakes(limit, r.before.state, r.op, r.state);
      }
    }
  }
}
