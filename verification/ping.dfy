/** The queue of keep-alive pings: a ping is complete once the transport has sent a packet
    after it and acknowledged bytes after it. Only the front is ever examined. */
module Pings {
  import opened Common

  const USIZE_MAX: nat := 0xFFFF_FFFF_FFFF_FFFF

  datatype Stats = Stats(sent: nat, acked: nat)

  datatype Ping = Ping(startedAt: nat, target: nat, baseline: nat)

  predicate Acked(p: Ping, stats: Stats) {
    stats.sent >= p.target && stats.acked > p.baseline
  }

  /** The ping queued under these counters. */
  function PingAt(now: nat, stats: Stats): Ping {
    Ping(now, Min(stats.sent + 1, USIZE_MAX), stats.acked)
  }

  /** A ping is acknowledged exactly when bytes were acknowledged and a packet was sent since it was
      queued; a counter that cannot grow any more counts as having grown. */
  lemma AckedMeansAnswered(now: nat, before: Stats, stats: Stats)
    requires before.sent <= stats.sent <= USIZE_MAX
    ensures Acked(PingAt(now, before), stats) <==> stats.acked > before.acked && (stats.sent > before.sent || before.sent == USIZE_MAX)
  {
  }

  /** The reference: a full scan that keeps queue order. */
  function Select(q: seq<Ping>, stats: Stats, acked: bool): seq<Ping> {
    if q == [] then []
    else if Acked(q[0], stats) == acked then [q[0]] + Select(q[1..], stats, acked)
    else Select(q[1..], stats, acked)
  }

  /** How many pings the front-only loop takes. */
  function FrontRun(q: seq<Ping>, stats: Stats): (n: nat)
    ensures n <= |q|
  {
    if q == [] || !Acked(q[0], stats) then 0 else 1 + FrontRun(q[1..], stats)
  }

  function Since(p: Ping, now: nat): (elapsed: nat)
    ensures if now >= p.startedAt then p.startedAt + elapsed == now else elapsed == 0
  {
    if now >= p.startedAt then now - p.startedAt else 0
  }

  function Elapsed(q: seq<Ping>, now: nat): seq<nat> {
    if q == [] then [] else Elapsed(q[..|q| - 1], now) + [Since(q[|q| - 1], now)]
  }

  /** No acknowledged ping stands behind an unacknowledged one. */
  ghost predicate FrontFirst(q: seq<Ping>, stats: Stats) {
    forall i, j :: 0 <= i < j < |q| && Acked(q[j], stats) ==> Acked(q[i], stats)
  }

  ghost predicate Sorted(q: seq<Ping>) {
    forall i, j :: 0 <= i < j < |q| ==> q[i].target <= q[j].target && q[i].baseline <= q[j].baseline
  }

  lemma {:induction false} SelectNone(q: seq<Ping>, stats: Stats)
    requires forall i :: 0 <= i < |q| ==> !Acked(q[i], stats)
    ensures Select(q, stats, true) == [] && Select(q, stats, false) == q
  {
    if q != [] {
      SelectNone(q[1..], stats);
      assert q == [q[0]] + q[1..];
    }
  }

  lemma {:induction false} SelectMembers(q: seq<Ping>, stats: Stats, i: nat)
    requires i < |q| && Acked(q[i], stats)
    ensures Select(q, stats, true) != []
  {
    if i > 0 {
      SelectMembers(q[1..], stats, i - 1);
    }
  }

  /** Examining only the front completes what a full scan would exactly when no acknowledged
      ping stands behind an unacknowledged one. */
  lemma {:induction false} FrontOnlyIsExact(q: seq<Ping>, stats: Stats)
    ensures q[..FrontRun(q, stats)] == Select(q, stats, true) <==> FrontFirst(q, stats)
    ensures FrontFirst(q, stats) ==> q[FrontRun(q, stats)..] == Select(q, stats, false)
  {
    if q == [] {
    } else if Acked(q[0], stats) {
      var rest := q[1..];
      FrontOnlyIsExact(rest, stats);
      var n := FrontRun(rest, stats);
      assert q[..1 + n] == [q[0]] + rest[..n];
      assert q[1 + n..] == rest[n..];
      assert FrontFirst(q, stats) <==> FrontFirst(rest, stats) by {
        assert forall i :: 0 <= i < |rest| ==> rest[i] == q[i + 1];
        if FrontFirst(rest, stats) {
          forall i, j | 0 <= i < j < |q| && Acked(q[j], stats) ensures Acked(q[i], stats) {
            if i > 0 {
              assert q[i] == rest[i - 1] && q[j] == rest[j - 1];
            }
          }
        }
      }
      assert ([q[0]] + rest[..n])[1..] == rest[..n];
      assert ([q[0]] + Select(rest, stats, true))[1..] == Select(rest, stats, true);
    } else {
      if FrontFirst(q, stats) {
        SelectNone(q, stats);
      } else {
        var i, j :| 0 <= i < j < |q| && Acked(q[j], stats) && !Acked(q[i], stats);
        SelectMembers(q, stats, j);
      }
    }
  }

  /** Sorted thresholds are acknowledged front first, and the loop stops at the first
      unacknowledged ping. */
  lemma {:induction false} SortedIsFrontFirst(q: seq<Ping>, stats: Stats)
    requires Sorted(q)
    ensures FrontFirst(q, stats)
    ensures forall i :: 0 <= i < |q| ==> (i < FrontRun(q, stats) <==> Acked(q[i], stats))
  {
    if q != [] {
      var rest := q[1..];
      SortedIsFrontFirst(rest, stats);
      assert forall i :: 0 < i < |q| ==> q[i] == rest[i - 1];
    }
  }

  lemma TailIsFrontFirst(all: seq<Ping>, from: nat, stats: Stats)
    requires Sorted(all) && from <= |all|
    ensures FrontFirst(all[from..], stats)
    ensures forall i :: from <= i < |all| ==> (i < from + FrontRun(all[from..], stats) <==> Acked(all[i], stats))
  {
    var q := all[from..];
    SortedIsFrontFirst(q, stats);
    forall i | from <= i < |all| ensures i < from + FrontRun(q, stats) <==> Acked(all[i], stats) {
      assert all[i] == q[i - from];
    }
  }

  class PingState {
    var pending: seq<Ping>
    /** The counters as last shown to this queue. */
    ghost var seen: Stats
    /** Every ping ever queued, and how many of them have completed. */
    ghost var queued: seq<Ping>
    ghost var done: nat

    ghost predicate Valid()
      reads this
    {
      && done <= |queued|
      && pending == queued[done..]
      && Sorted(queued)
      && (forall i :: 0 <= i < |queued| ==> queued[i].target <= Min(seen.sent + 1, USIZE_MAX))
      && (forall i :: 0 <= i < |queued| ==> queued[i].baseline <= seen.acked)
    }

    constructor ()
      ensures Valid() && pending == [] && queued == [] && seen == Stats(0, 0)
    {
      pending := [];
      seen := Stats(0, 0);
      queued := [];
      done := 0;
    }

    method Queue(now: nat, stats: Stats)
      requires Valid() && seen.sent <= stats.sent <= USIZE_MAX && seen.acked <= stats.acked
      modifies this
      ensures Valid() && seen == stats && done == old(done)
      ensures queued == old(queued) + [PingAt(now, stats)]
    {
      var ping := Ping(now, Min(stats.sent + 1, USIZE_MAX), stats.acked);
      pending := pending + [ping];
      queued := queued + [ping];
      seen := stats;
    }

    /** Completes exactly the acknowledged pings of the whole queue, in the order they were
        queued, and leaves exactly the others. */
    method CompleteAcked(now: nat, stats: Stats) returns (completed: seq<nat>)
      requires Valid() && seen.sent <= stats.sent <= USIZE_MAX && seen.acked <= stats.acked
      modifies this
      ensures Valid() && seen == stats && queued == old(queued) && done >= old(done)
      ensures completed == Elapsed(Select(old(pending), stats, true), now)
      ensures pending == Select(old(pending), stats, false)
      ensures forall i :: old(done) <= i < |queued| ==> (i < done <==> Acked(queued[i], stats))
    {
      ghost var q := pending;
      completed := PopFront(now, stats);
      TailIsFrontFirst(queued, done, stats);
      FrontOnlyIsExact(q, stats);
      done := done + FrontRun(q, stats);
      seen := stats;
    }

    /** The loop itself: pop while the front is acknowledged. */
    method PopFront(now: nat, stats: Stats) returns (completed: seq<nat>)
      modifies `pending
      ensures completed == Elapsed(old(pending)[..FrontRun(old(pending), stats)], now)
      ensures pending == old(pending)[FrontRun(old(pending), stats)..]
    {
      completed := [];
      ghost var n := 0;
      ghost var q := pending;
      while pending != [] && Acked(pending[0], stats)
        invariant n <= |q| && pending == q[n..] && completed == Elapsed(q[..n], now)
        invariant FrontRun(q, stats) == n + FrontRun(pending, stats)
        decreases |pending|
      {
        var ping := pending[0];
        pending := pending[1..];
        completed := completed + [Since(ping, now)];
        assert q[..n + 1][..n] == q[..n];
        n := n + 1;
      }
    }
  }
}
