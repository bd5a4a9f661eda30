/** The worker's queue of a blocked stream's unsent body, and its flush through
    `H3Connection.SendBody` under any answers of the transport. */
module PendingWrites {
  import opened Common
  import opened Blocked
  import opened Connection
  import opened Sending

  function Concat(chunks: seq<Bytes>): Bytes {
    if chunks == [] then [] else chunks[0] + Concat(chunks[1..])
  }

  lemma {:induction false} ConcatPush(chunks: seq<Bytes>, c: Bytes)
    ensures Concat(chunks + [c]) == Concat(chunks) + c
  {
    if chunks == [] {
      assert [] + [c] == [c] && Concat([c]) == c + [];
    } else {
      ConcatPush(chunks[1..], c);
      assert (chunks + [c])[1..] == chunks[1..] + [c];
      Assoc(chunks[0], Concat(chunks[1..]), c);
    }
  }

  /** Admission units of a write: its bytes, or one for a bare FIN. */
  function Units(len: nat, fin: bool): nat {
    Max(len, if fin then 1 else 0)
  }

  /** `accepted_outbound_payload_units`. */
  function AcceptedUnits(len: nat, fin: bool, written: nat, finAccepted: bool): nat {
    if len == 0 then (if fin && finAccepted then 1 else 0)
    else
      var accepted := Min(written, len);
      if fin && !finAccepted && accepted == len then accepted - 1 else accepted
  }

  /** The units released and those still owed are the units of the write, whatever was taken. */
  lemma UnitsAreConserved(len: nat, fin: bool, written: nat, finAccepted: bool)
    requires finAccepted ==> fin && len <= written
    ensures AcceptedUnits(len, fin, written, finAccepted) + Units(len - Min(written, len), fin && !finAccepted) == Units(len, fin)
  {
  }

  /** What quiche takes of one chunk, by its own answer. */
  function Taken(chunk: Bytes, fin: bool, trailers: bool, answer: (CapAnswer, SendAnswer)): Bytes {
    if Reaches(chunk, fin, trailers, answer.0) then Takes(chunk, answer.1) else []
  }

  /** What quiche takes of a queue of chunks offered one after the other, until one is not taken
      whole. */
  function QueueTaken(chunks: seq<Bytes>, fin: bool, trailers: bool, answers: nat -> (CapAnswer, SendAnswer), i: nat): Bytes
    decreases |chunks|
  {
    if chunks == [] then []
    else
      var took := Taken(chunks[0], fin && |chunks| == 1, trailers, answers(i));
      if |took| < |chunks[0]| then took else took + QueueTaken(chunks[1..], fin, trailers, answers, i + 1)
  }

  /** A flush so far: `handed` has been taken off the queue `before`, and `chunks` is left. */
  ghost predicate Flushing(before: seq<Bytes>, chunks: seq<Bytes>, handed: Bytes, fin: bool, trailers: bool,
                           answers: nat -> (CapAnswer, SendAnswer), i: nat) {
    && handed + Concat(chunks) == Concat(before)
    && handed + QueueTaken(chunks, fin, trailers, answers, i) == QueueTaken(before, fin, trailers, answers, 0)
  }

  lemma FlushingStep(before: seq<Bytes>, chunks: seq<Bytes>, handed: Bytes, fin: bool, trailers: bool,
                     answers: nat -> (CapAnswer, SendAnswer), i: nat)
    requires Flushing(before, chunks, handed, fin, trailers, answers, i) && chunks != []
    ensures var took := Taken(chunks[0], fin && |chunks| == 1, trailers, answers(i));
      && handed + chunks[0] + Concat(chunks[1..]) == Concat(before)
      && (took == chunks[0] ==> Flushing(before, chunks[1..], handed + took, fin, trailers, answers, i + 1))
      && (|took| < |chunks[0]| ==> handed + took == QueueTaken(before, fin, trailers, answers, 0))
      && (|chunks| == 1 ==> handed + took == QueueTaken(before, fin, trailers, answers, 0))
  {
    var took := Taken(chunks[0], fin && |chunks| == 1, trailers, answers(i));
    Assoc(handed, chunks[0], Concat(chunks[1..]));
    Assoc(handed, took, QueueTaken(chunks[1..], fin, trailers, answers, i + 1));
    if |chunks| == 1 {
      assert took + [] == took;
    }
  }

  datatype Flushed = Flushed(done: bool, released: nat) | FlushError

  class PendingWrite {
    var chunks: seq<Bytes>
    var fin: bool

    /** Only the front chunk can be empty: a bare FIN that was refused. */
    ghost predicate Ok()
      reads this
    {
      forall i :: 1 <= i < |chunks| ==> chunks[i] != []
    }

    constructor (remainder: Bytes, fin: bool)
      ensures Ok() && chunks == [remainder] && this.fin == fin
    {
      chunks, this.fin := [remainder], fin;
    }

    method PushChunk(chunk: Bytes) returns (queued: nat)
      requires Ok()
      modifies `chunks
      ensures Ok() && queued == |chunk| && Concat(chunks) == old(Concat(chunks)) + chunk
    {
      ConcatPush(chunks, chunk);
      queued := |chunk|;
      if queued > 0 {
        chunks := chunks + [chunk];
      }
    }

    method SetFin()
      modifies `fin
      ensures fin
    {
      fin := true;
    }

    /** Send the front chunk; what the transport leaves goes back to the front. */
    method SendFront(conn: H3Connection, id: StreamId, answer: (CapAnswer, SendAnswer))
      returns (outcome: SendResult, sendFin: bool, units: nat, ghost handed: Bytes)
      requires chunks != [] && conn.blocked.Ok()
      modifies `chunks, conn.blocked
      ensures conn.blocked.Ok() && sendFin == (fin && |old(chunks)| == 1)
      ensures outcome.SendError? ==> chunks == old(chunks)[1..] && old(Concat(chunks)) == old(chunks)[0] + Concat(chunks)
      ensures handed == Taken(old(chunks)[0], sendFin, id in conn.trailerFin, answer)
      ensures outcome.SendError? ==> handed == [] && (sendFin || old(chunks)[0] != [])
      ensures outcome.Sent? ==>
        && handed + Concat(chunks) == old(Concat(chunks))
        && outcome.finAccepted == (sendFin && outcome.remainder.None?)
        && units == |handed| + (if outcome.finAccepted && old(chunks)[0] == [] then 1 else 0)
        && (if outcome.remainder.None? then handed == old(chunks)[0] && chunks == old(chunks)[1..]
            else && id in conn.blocked.members && (|handed| < |old(chunks)[0]| || (sendFin && old(chunks)[0] == []))
                 && chunks == [old(chunks)[0][|handed|..]] + old(chunks)[1..])
    {
      var buf := chunks[0];
      chunks := chunks[1..];
      sendFin := fin && chunks == [];
      outcome := conn.SendBody(id, buf, sendFin, answer.0, answer.1);
      handed, units := Taken(buf, sendFin, id in conn.trailerFin, answer), 0;
      if outcome.Sent? {
        units := AcceptedUnits(|buf|, sendFin, outcome.written, outcome.finAccepted);
        if outcome.remainder.Some? {
          Assoc(handed, outcome.remainder.value, Concat(chunks));
          assert buf == handed + outcome.remainder.value;
          ghost var rest := chunks;
          chunks := [outcome.remainder.value] + chunks;
          assert chunks[1..] == rest;
        }
      }
    }

    /** A bare FIN after the last chunk. */
    method SendBareFin(conn: H3Connection, id: StreamId, answer: (CapAnswer, SendAnswer)) returns (r: Flushed)
      requires chunks == [] && fin && conn.blocked.Ok()
      modifies `chunks, conn.blocked
      ensures conn.blocked.Ok() && Concat(chunks) == []
      ensures r.FlushError? ==> chunks == []
      ensures r.Flushed? ==> r.done == (chunks == []) && r.released == (if r.done then 1 else 0) && (!r.done ==> chunks == [[]] && id in conn.blocked.members)
    {
      var outcome := conn.SendBody(id, [], true, answer.0, answer.1);
      if outcome.SendError? { return FlushError; }
      if outcome.remainder.Some? {
        chunks := [outcome.remainder.value];
        assert chunks[1..] == [];
      }
      return Flushed(outcome.finAccepted, AcceptedUnits(0, true, outcome.written, outcome.finAccepted));
    }

    /** What a flush must leave and release. */
    ghost predicate Accounts(id: StreamId, conn: H3Connection, before: seq<Bytes>, r: Flushed, handed: Bytes, finHanded: bool, failed: Bytes)
      reads this, conn.blocked
    {
      if r.FlushError? then !finHanded && handed + failed + Concat(chunks) == Concat(before)
      else
        && Ok() && handed + Concat(chunks) == Concat(before)
        && r.done == (chunks == []) && finHanded == (fin && r.done)
        && (!r.done ==> id in conn.blocked.members)
        && r.released + (if r.done then 0 else Units(|Concat(chunks)|, fin)) == Units(|Concat(before)|, fin)
    }

    /** `flush_pending_write_with_progress`. `handed` is what quiche took, by its own answers: with
        what is still queued it is exactly the old queue, in order. FIN is handed over exactly when the
        flush finishes a write that wants it, an unfinished flush leaves the stream blocked, and
        the released units plus those still queued are the units queued before. On a transport
        error exactly the chunk that was being sent, `failed`, is lost. */
    method Flush(conn: H3Connection, id: StreamId, answers: nat -> (CapAnswer, SendAnswer))
      returns (r: Flushed, ghost handed: Bytes, ghost finHanded: bool, ghost failed: Bytes)
      requires Ok() && conn.blocked.Ok()
      modifies `chunks, conn.blocked
      ensures conn.blocked.Ok() && handed == QueueTaken(old(chunks), fin, id in conn.trailerFin, answers, 0)
      ensures Accounts(id, conn, old(chunks), r, handed, finHanded, failed)
    {
      var stop, released, i;
      stop, released, i, handed, finHanded, failed := FlushChunks(conn, id, answers);
      if stop.Some? {
        r := stop.value;
      } else if fin {
        r := SendBareFin(conn, id, answers(i));
        if r.Flushed? {
          r, finHanded := Flushed(r.done, released + r.released), r.done;
        }
      } else {
        r := Flushed(true, released);
      }
    }

    /** Between two chunks of a flush of `before`. */
    ghost predicate Midway(conn: H3Connection, id: StreamId, before: seq<Bytes>, handed: Bytes, released: nat,
                           answers: nat -> (CapAnswer, SendAnswer), i: nat)
      reads this, conn, conn.blocked
    {
      && Ok() && conn.blocked.Ok() && released == |handed|
      && Flushing(before, chunks, handed, fin, id in conn.trailerFin, answers, i)
      && (i > 0 ==> forall k :: 0 <= k < |chunks| ==> chunks[k] != [])
      && (i == 0 ==> handed == []) && (chunks == [] ==> before == [] || !fin)
    }

    /** The chunks one after the other, until one is not taken whole. */
    method FlushChunks(conn: H3Connection, id: StreamId, answers: nat -> (CapAnswer, SendAnswer))
      returns (stop: Option<Flushed>, released: nat, i: nat, ghost handed: Bytes, ghost finHanded: bool, ghost failed: Bytes)
      requires Ok() && conn.blocked.Ok()
      modifies `chunks, conn.blocked
      ensures conn.blocked.Ok() && handed == QueueTaken(old(chunks), fin, id in conn.trailerFin, answers, 0)
      ensures stop.Some? ==> Accounts(id, conn, old(chunks), stop.value, handed, finHanded, failed)
      ensures stop.None? ==>
        chunks == [] && handed == Concat(old(chunks)) && released == |handed| && (old(chunks) == [] || !fin) && !finHanded && failed == []
    {
      i, released, stop := 0, 0, None;
      handed, finHanded, failed := [], false, [];
      while chunks != []
        invariant Midway(conn, id, old(chunks), handed, released, answers, i) && stop.None? && !finHanded && failed == []
        decreases |chunks|
      {
        stop, released, handed, finHanded, failed := FlushOne(conn, id, answers, i, released, old(chunks), handed);
        if stop.Some? { return; }
        i := i + 1;
      }
      assert handed + [] == handed;
    }

    method FlushOne(conn: H3Connection, id: StreamId, answers: nat -> (CapAnswer, SendAnswer), i: nat, units: nat,
                    ghost before: seq<Bytes>, ghost given: Bytes)
      returns (stop: Option<Flushed>, released: nat, ghost handed: Bytes, ghost finHanded: bool, ghost failed: Bytes)
      requires Midway(conn, id, before, given, units, answers, i) && chunks != []
      modifies `chunks, conn.blocked
      ensures conn.blocked.Ok()
      ensures stop.None? ==>
        Midway(conn, id, before, handed, released, answers, i + 1) && |chunks| < |old(chunks)| && !finHanded && failed == []
      ensures stop.Some? ==>
        && handed == QueueTaken(before, fin, id in conn.trailerFin, answers, 0)
        && Accounts(id, conn, before, stop.value, handed, finHanded, failed)
    {
      ghost var queue := chunks;
      var outcome, sendFin, more, now := SendFront(conn, id, answers(i));
      FlushingStep(before, queue, given, fin, id in conn.trailerFin, answers, i);
      if outcome.SendError? {
        assert given + [] == given;
        return Some(FlushError), units, given, false, queue[0];
      }
      Assoc(given, now, Concat(chunks));
      assert |given + now| + |Concat(chunks)| == |Concat(before)|;
      released, handed, finHanded, failed := units + more, given + now, outcome.finAccepted, [];
      if outcome.remainder.Some? {
        assert |Concat(chunks)| == |Concat(before)| - |handed| && chunks != [];
        return Some(Flushed(false, released)), released, handed, false, [];
      }
      stop := if sendFin then Some(Flushed(outcome.finAccepted, released)) else None;
    }
  }
}
