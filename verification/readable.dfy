/** The receive half of an HTTP/3 stream object: `pushData`, `drainPendingReads` and the
    deferred return of read credit. Node's Readable is an oracle: it keeps a byte buffer,
    may hand a pushed chunk straight to a flowing consumer when that buffer is empty, and
    answers `push` with "below the high-water mark". */
module Readable {
  import opened Common

  function Size(chunk: Option<Bytes>): nat {
    if chunk.Some? then |chunk.value| else 0
  }

  function BytesOf(chunk: Option<Bytes>): Bytes {
    if chunk.Some? then chunk.value else []
  }

  function Flatten(chunks: seq<Option<Bytes>>): Bytes {
    if chunks == [] then [] else Flatten(chunks[..|chunks| - 1]) + BytesOf(chunks[|chunks| - 1])
  }

  lemma {:induction false} FlattenHead(chunks: seq<Option<Bytes>>)
    requires chunks != []
    ensures Flatten(chunks) == BytesOf(chunks[0]) + Flatten(chunks[1..])
  {
    var n := |chunks| - 1;
    if n == 0 {
      assert chunks[..0] == [] && chunks[1..] == [];
    } else {
      var mid := chunks[1..n];
      FlattenHead(chunks[..n]);
      assert chunks[..n][1..] == mid && chunks[1..][..n - 1] == mid;
      Assoc(BytesOf(chunks[0]), Flatten(mid), BytesOf(chunks[n]));
    }
  }

  /** `buffer` and `ended` are Node's; `paused`, `spill` and `spillBytes` are
      `readBackpressure`, `pendingReads` and `pendingReadBytes`; `scheduled` says a deferred
      credit step is queued. `received` and `consumed` record what arrived from the worker
      and what the consumer has taken. A `limit` of `None` is `Infinity`. */
  datatype Reader = Reader(
    hwm: nat, limit: Option<nat>, buffer: Bytes, ended: bool,
    paused: bool, spill: seq<Option<Bytes>>, spillBytes: int,
    uncredited: nat, scheduled: bool, destroyed: bool, received: Bytes, consumed: Bytes)

  function Start(hwm: nat, limit: Option<nat>): Reader {
    Reader(hwm, limit, [], false, false, [], 0, 0, false, false, [], [])
  }

  predicate BelowMark(r: Reader) { |r.buffer| < r.hwm || r.buffer == [] }

  /** Node's `push`, with its boolean answer. */
  function NodePush(r: Reader, chunk: Option<Bytes>, direct: bool): (Reader, bool) {
    if chunk.None? then (r.(ended := true), false)
    else
      var q := if direct && r.buffer == [] then r.(consumed := r.consumed + chunk.value)
               else r.(buffer := r.buffer + chunk.value);
      (q, !q.ended && BelowMark(q))
  }

  predicate Overflows(r: Reader, chunk: Option<Bytes>) {
    chunk.Some? && r.limit.Some? && |r.buffer| + r.spillBytes + Size(chunk) > r.limit.value
  }

  function Spill(r: Reader, chunk: Option<Bytes>): Reader {
    r.(spill := r.spill + [chunk], spillBytes := r.spillBytes + Size(chunk), received := r.received + BytesOf(chunk))
  }

  function PushThrough(r: Reader, chunk: Option<Bytes>, direct: bool): Reader {
    var (q, more) := NodePush(r.(received := r.received + BytesOf(chunk)), chunk, direct);
    if more then q else q.(paused := true)
  }

  function PushData(r: Reader, chunk: Option<Bytes>, direct: bool): Reader {
    if r.destroyed then r
    else if Overflows(r, chunk) then r.(spill := [], spillBytes := 0, destroyed := true)
    else if r.paused then Spill(r, chunk)
    else PushThrough(r, chunk, direct)
  }

  /** `drainPendingReads`: clear the flag, then push spilled chunks until one is refused. */
  function DrainSpill(r: Reader): Reader {
    Refill(r.(paused := false))
  }

  /** One turn of that loop: the oldest spilled chunk goes to Node. */
  function PushSpilled(r: Reader): (Reader, bool)
    requires r.spill != []
  {
    NodePush(r.(spill := r.spill[1..], spillBytes := r.spillBytes - Size(r.spill[0])), r.spill[0], false)
  }

  function Refill(r: Reader): Reader
    decreases |r.spill|
  {
    if r.spill == [] then r
    else
      var (q, more) := PushSpilled(r);
      if more then Refill(q) else q.(paused := true)
  }

  function Schedule(r: Reader): Reader {
    if r.scheduled || r.destroyed || r.paused || r.uncredited == 0 then r else r.(scheduled := true)
  }

  function Count(r: Reader, chunk: Option<Bytes>): Reader {
    r.(uncredited := r.uncredited + Size(chunk))
  }

  /** `_pushData`. */
  function Deliver(r: Reader, chunk: Option<Bytes>, direct: bool): Reader {
    Schedule(PushData(Count(r, chunk), chunk, direct))
  }

  /** Node's `read` of `taken` bytes: `_read` runs, then the bytes leave the buffer. */
  function ReadCall(r: Reader, taken: nat): Reader
    requires taken <= |r.buffer|
  {
    DrainSpillKeepsPrefix(r);
    Take(Schedule(DrainSpill(r)), taken)
  }

  /** Bytes leave Node's buffer without `_read`: the buffer stays at the mark, a `_read` is
      already outstanding, or the end has been pushed. */
  function Take(r: Reader, taken: nat): Reader
    requires taken <= |r.buffer|
  {
    r.(buffer := r.buffer[taken..], consumed := r.consumed + r.buffer[..taken])
  }

  /** The deferred credit step; `accepted` is the command queue's answer. The second result
      is the credit sent, if any. */
  function CreditTick(r: Reader, accepted: bool): (Reader, Option<nat>) {
    var q := r.(scheduled := false);
    if q.destroyed || q.paused || q.uncredited == 0 then (q, None)
    else if accepted then (q.(uncredited := 0), Some(q.uncredited))
    else (q.(scheduled := true), None)
  }

  lemma {:induction false} DrainSpillKeepsPrefix(r: Reader)
    ensures r.buffer <= Refill(r).buffer
    ensures r.buffer <= DrainSpill(r).buffer
    decreases |r.spill|, r.paused
  {
    if r.paused {
      DrainSpillKeepsPrefix(r.(paused := false));
    }
    if r.spill != [] {
      var (q, more) := PushSpilled(r);
      if more { DrainSpillKeepsPrefix(q); }
    }
  }

  // ----- invariant -----

  /** Every byte received, in order: taken by the consumer, in Node's buffer, or spilled. */
  function Contents(r: Reader): Bytes {
    r.consumed + r.buffer + Flatten(r.spill)
  }

  ghost predicate BytesOk(r: Reader) {
    && r.spillBytes == |Flatten(r.spill)|
    && (!r.destroyed ==> Contents(r) == r.received)
  }

  /** Nothing is lost, duplicated or reordered; unread bytes stay within the uncredited bytes
      plus the high-water mark and within the receive limit; and uncredited bytes without backpressure always have a
      credit step scheduled. */
  ghost predicate ReaderOk(r: Reader) {
    BytesOk(r) && SizesOk(r) && (!r.destroyed && r.uncredited > 0 && !r.paused ==> r.scheduled)
  }

  ghost predicate SizesOk(r: Reader) {
    !r.destroyed ==>
      && |r.buffer| + r.spillBytes <= r.uncredited + r.hwm
      && (r.limit.Some? ==> |r.buffer| + r.spillBytes <= r.limit.value)
      && (!r.paused ==> r.spill == [] && BelowMark(r))
  }

  lemma ScheduleKeepsReader(r: Reader)
    requires BytesOk(r) && SizesOk(r)
    ensures ReaderOk(Schedule(r))
  {
    var q := Schedule(r);
    assert Contents(q) == Contents(r);
  }

  lemma PushThroughKeepsBytes(r: Reader, chunk: Option<Bytes>, direct: bool)
    requires BytesOk(r) && !r.destroyed && r.spill == []
    ensures BytesOk(PushThrough(r, chunk, direct))
  {
    var q := PushThrough(r, chunk, direct);
    var bytes := BytesOf(chunk);
    assert r.received == r.consumed + r.buffer && Contents(q) == q.consumed + q.buffer;
    if chunk.None? || (direct && r.buffer == []) {
      assert q.buffer == r.buffer && q.consumed == (if chunk.None? then r.consumed else r.consumed + bytes);
    } else {
      Assoc(r.consumed, r.buffer, bytes);
    }
  }

  lemma SpillKeepsBytes(r: Reader, chunk: Option<Bytes>)
    requires BytesOk(r) && !r.destroyed
    ensures BytesOk(Spill(r, chunk))
  {
    assert (r.spill + [chunk])[..|r.spill|] == r.spill;
    Assoc(r.consumed + r.buffer, Flatten(r.spill), BytesOf(chunk));
  }

  lemma PushSpilledKeepsContents(r: Reader)
    requires r.spill != []
    ensures Contents(PushSpilled(r).0) == Contents(r)
    ensures |Flatten(PushSpilled(r).0.spill)| == |Flatten(r.spill)| - Size(r.spill[0])
  {
    FlattenHead(r.spill);
    var q := PushSpilled(r).0;
    var head := BytesOf(r.spill[0]);
    assert q.spill == r.spill[1..] && q.consumed == r.consumed && q.buffer == r.buffer + head;
    Assoc(r.consumed, r.buffer, head);
    Assoc(r.consumed + r.buffer, head, Flatten(q.spill));
  }

  /** Refilling Node's buffer moves bytes and changes nothing else. It moves at least one chunk,
      and stops before the last one only if Node refuses more. */
  lemma {:induction false} RefillMoves(r: Reader)
    requires r.spillBytes == |Flatten(r.spill)|
    ensures Contents(Refill(r)) == Contents(r)
    ensures Refill(r).spillBytes == |Flatten(Refill(r).spill)|
    ensures |Refill(r).buffer| + Refill(r).spillBytes == |r.buffer| + r.spillBytes
    ensures Refill(r) == r.(buffer := Refill(r).buffer, ended := Refill(r).ended, paused := Refill(r).paused,
                            spill := Refill(r).spill, spillBytes := Refill(r).spillBytes)
    ensures r.spill != [] ==> |Refill(r).spill| < |r.spill|
    ensures Refill(r).paused && !r.paused ==> Refill(r).ended || !BelowMark(Refill(r))
    ensures !Refill(r).paused ==> Refill(r).spill == [] && (Refill(r).buffer == r.buffer || BelowMark(Refill(r)))
    decreases |r.spill|
  {
    if r.spill != [] {
      PushSpilledKeepsContents(r);
      var (q, more) := PushSpilled(r);
      if more { RefillMoves(q); }
    }
  }

  lemma PushDataKeepsBytes(r: Reader, chunk: Option<Bytes>, direct: bool)
    requires BytesOk(r) && (!r.destroyed && !r.paused ==> r.spill == [])
    ensures BytesOk(PushData(r, chunk, direct))
  {
    if !r.destroyed && !Overflows(r, chunk) {
      if r.paused {
        SpillKeepsBytes(r, chunk);
      } else {
        PushThroughKeepsBytes(r, chunk, direct);
      }
    }
  }

  lemma PushDataKeepsSizes(r: Reader, chunk: Option<Bytes>, direct: bool)
    requires !r.destroyed ==> |r.buffer| + r.spillBytes + Size(chunk) <= r.uncredited + r.hwm
    requires !r.destroyed && r.limit.Some? ==> |r.buffer| + r.spillBytes <= r.limit.value
    requires !r.destroyed && !r.paused ==> r.spill == []
    ensures SizesOk(PushData(r, chunk, direct))
  {
  }

  lemma DeliverKeepsReader(r: Reader, chunk: Option<Bytes>, direct: bool)
    requires ReaderOk(r)
    ensures ReaderOk(Deliver(r, chunk, direct))
  {
    var s := Count(r, chunk);
    CountKeepsBytes(r, chunk);
    PushDataKeepsBytes(s, chunk, direct);
    PushDataKeepsSizes(s, chunk, direct);
    ScheduleKeepsReader(PushData(s, chunk, direct));
  }

  lemma CountKeepsBytes(r: Reader, chunk: Option<Bytes>)
    requires BytesOk(r)
    ensures BytesOk(Count(r, chunk))
  {
    assert Contents(Count(r, chunk)) == Contents(r);
  }

  /** Node calls `_read` only for a read that leaves its buffer below the high-water mark, and
      never after the end of the stream. */
  predicate ReadAllowed(r: Reader, taken: nat) {
    && taken <= |r.buffer| && !r.destroyed && !r.ended
    && (|r.buffer| - taken < r.hwm || taken == |r.buffer|)
  }

  lemma TakeKeepsContents(q: Reader, taken: nat)
    requires taken <= |q.buffer|
    ensures Contents(Take(q, taken)) == Contents(q)
  {
    assert q.buffer[..taken] + q.buffer[taken..] == q.buffer;
    Assoc(q.consumed, q.buffer[..taken], q.buffer[taken..]);
  }

  lemma ReadCallKeepsReader(r: Reader, taken: nat)
    requires ReaderOk(r) && ReadAllowed(r, taken)
    ensures ReaderOk(ReadCall(r, taken))
  {
    RefillMoves(r.(paused := false));
    DrainSpillKeepsPrefix(r);
    TakeKeepsContents(Schedule(DrainSpill(r)), taken);
  }

  lemma TakeKeepsReader(r: Reader, taken: nat)
    requires ReaderOk(r) && taken <= |r.buffer|
    ensures ReaderOk(Take(r, taken))
  {
    TakeKeepsContents(r, taken);
  }

  lemma CreditTickKeepsReader(r: Reader, accepted: bool)
    requires ReaderOk(r)
    ensures ReaderOk(CreditTick(r, accepted).0)
    ensures CreditTick(r, accepted).0.uncredited + (if CreditTick(r, accepted).1.Some? then CreditTick(r, accepted).1.value else 0) == r.uncredited
  {
  }

  /** The receive half as the source's object. */
  class ReceiveHalf {
    const hwm: nat
    const limit: Option<nat>
    var buffer: Bytes
    var ended: bool
    var readBackpressure: bool
    var pendingReads: seq<Option<Bytes>>
    var pendingReadBytes: int
    var uncreditedReadBytes: nat
    var creditRetry: bool
    var destroyed: bool
    ghost var received: Bytes
    ghost var consumed: Bytes

    ghost function View(): Reader
      reads this
    {
      Reader(hwm, limit, buffer, ended, readBackpressure, pendingReads, pendingReadBytes,
             uncreditedReadBytes, creditRetry, destroyed, received, consumed)
    }

    constructor (hwm: nat, limit: Option<nat>)
      ensures View() == Start(hwm, limit) && ReaderOk(View())
    {
      this.hwm, this.limit := hwm, limit;
      buffer, ended, readBackpressure := [], false, false;
      pendingReads, pendingReadBytes, uncreditedReadBytes := [], 0, 0;
      creditRetry, destroyed, received, consumed := false, false, [], [];
    }

    method Push(chunk: Option<Bytes>, direct: bool) returns (more: bool)
      modifies this
      ensures (View(), more) == NodePush(old(View()), chunk, direct)
    {
      if chunk.None? {
        ended, more := true, false;
      } else {
        if direct && buffer == [] {
          consumed := consumed + chunk.value;
        } else {
          buffer := buffer + chunk.value;
        }
        more := !ended && (|buffer| < hwm || |buffer| == 0);
      }
    }

    method PushChunk(chunk: Option<Bytes>, direct: bool)
      modifies this
      ensures View() == PushData(old(View()), chunk, direct)
    {
      if destroyed { return; }
      if chunk.Some? && limit.Some? && |buffer| + pendingReadBytes + |chunk.value| > limit.value {
        pendingReads, pendingReadBytes, destroyed := [], 0, true;
        return;
      }
      received := received + BytesOf(chunk);
      if readBackpressure {
        pendingReads := pendingReads + [chunk];
        pendingReadBytes := pendingReadBytes + Size(chunk);
        return;
      }
      var more := Push(chunk, direct);
      if !more { readBackpressure := true; }
    }

    /** `_pushData`. */
    method OnData(chunk: Option<Bytes>, direct: bool)
      requires ReaderOk(View())
      modifies this
      ensures View() == Deliver(old(View()), chunk, direct) && ReaderOk(View())
    {
      DeliverKeepsReader(View(), chunk, direct);
      CountAndPush(chunk, direct);
    }

    method CountAndPush(chunk: Option<Bytes>, direct: bool)
      modifies this
      ensures View() == Deliver(old(View()), chunk, direct)
    {
      ghost var counted := Count(View(), chunk);
      uncreditedReadBytes := uncreditedReadBytes + Size(chunk);
      assert View() == counted;
      PushChunk(chunk, direct);
      ScheduleReadCredit();
    }

    method ScheduleReadCredit()
      modifies this
      ensures View() == Schedule(old(View()))
    {
      if creditRetry || destroyed || readBackpressure || uncreditedReadBytes == 0 { return; }
      creditRetry := true;
    }

    method DrainPendingReads()
      modifies this
      ensures View() == DrainSpill(old(View()))
    {
      readBackpressure := false;
      while |pendingReads| > 0
        invariant Refill(View()) == DrainSpill(old(View()))
        invariant !readBackpressure
        decreases |pendingReads|
      {
        ghost var turn := PushSpilled(View());
        var chunk := pendingReads[0];
        pendingReads := pendingReads[1..];
        pendingReadBytes := pendingReadBytes - Size(chunk);
        var more := Push(chunk, false);
        assert (View(), more) == turn;
        if !more {
          readBackpressure := true;
          break;
        }
      }
    }

    method Read(taken: nat)
      requires ReaderOk(View()) && ReadAllowed(View(), taken)
      modifies this
      ensures View() == ReadCall(old(View()), taken) && ReaderOk(View())
    {
      ReadCallKeepsReader(View(), taken);
      DrainSpillKeepsPrefix(View());
      DrainPendingReads();
      ScheduleReadCredit();
      consumed := consumed + buffer[..taken];
      buffer := buffer[taken..];
    }

    /** A read that does not make Node call `_read`; also after the end. */
    method TakeBuffered(taken: nat)
      requires ReaderOk(View()) && taken <= |buffer|
      modifies this
      ensures View() == Take(old(View()), taken) && ReaderOk(View())
    {
      TakeKeepsReader(View(), taken);
      consumed := consumed + buffer[..taken];
      buffer := buffer[taken..];
    }

    method ReturnReadCredit(accepted: bool) returns (sent: Option<nat>)
      requires ReaderOk(View()) && creditRetry
      modifies this
      ensures (View(), sent) == CreditTick(old(View()), accepted) && ReaderOk(View())
      // credit that the command queue takes is counted as returned, refused credit is tried again
      ensures var due := !old(destroyed) && !old(readBackpressure) && old(uncreditedReadBytes) > 0;
        && (due && accepted ==> sent == Some(old(uncreditedReadBytes)) && uncreditedReadBytes == 0 && !creditRetry)
        && (due && !accepted ==> sent == None && uncreditedReadBytes == old(uncreditedReadBytes) && creditRetry)
        && (!due ==> sent == None && uncreditedReadBytes == old(uncreditedReadBytes) && !creditRetry)
    {
      CreditTickKeepsReader(View(), accepted);
      creditRetry := false;
      sent := None;
      if destroyed || readBackpressure || uncreditedReadBytes == 0 { return; }
      if accepted {
        sent := Some(uncreditedReadBytes);
        uncreditedReadBytes := 0;
      } else {
        creditRetry := true;
      }
    }
  }
}
