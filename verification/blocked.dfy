/** The blocked streams of a connection and what a drain poll does about them. */
module Blocked {
  import opened Common
  import opened Queues

  /** `stream_capacity`: bytes of room, a peer that stopped reading, or another error. */
  datatype CapAnswer = Capacity(bytes: nat) | Stopped | CapFailed

  /** What a drain poll did about a stream, in order: a closed one is pruned, a stopped one
      cleared and reset, a writable one drained, a failing one reported. */
  datatype Act = Prune(id: StreamId) | Stop(id: StreamId) | Drain(id: StreamId) | Break(id: StreamId)

  /** The streams woken by DRAIN or an error, in order. */
  function Woke(acts: seq<Act>): seq<StreamId> {
    if acts == [] then []
    else
      var a := acts[|acts| - 1];
      Woke(acts[..|acts| - 1]) + (if a.Drain? || a.Break? then [a.id] else [])
  }

  lemma WokePush(acts: seq<Act>, a: Act)
    ensures Woke(acts + [a]) == if a.Drain? || a.Break? then Woke(acts) + [a.id] else Woke(acts)
  {
    assert (acts + [a])[..|acts|] == acts;
  }

  lemma {:induction false} WokeConcat(a: seq<Act>, b: seq<Act>)
    ensures Woke(a + b) == Woke(a) + Woke(b)
  {
    if b == [] {
      assert a + b == a;
    } else {
      WokeConcat(a, b[..|b| - 1]);
      assert (a + b)[..|a + b| - 1] == a + b[..|b| - 1];
    }
  }

  /** Streams cleared without being woken, in order. */
  function Cleared(acts: seq<Act>): set<StreamId> {
    if acts == [] then {}
    else
      var a := acts[|acts| - 1];
      Cleared(acts[..|acts| - 1]) + (if a.Prune? || a.Stop? then {a.id} else {})
  }

  lemma ClearedPush(acts: seq<Act>, a: Act)
    ensures Cleared(acts + [a]) == if a.Prune? || a.Stop? then Cleared(acts) + {a.id} else Cleared(acts)
  {
    assert (acts + [a])[..|acts|] == acts;
  }

  lemma {:induction false} ClearedConcat(a: seq<Act>, b: seq<Act>)
    ensures Cleared(a + b) == Cleared(a) + Cleared(b)
  {
    if b == [] {
      assert a + b == a;
    } else {
      ClearedConcat(a, b[..|b| - 1]);
      assert (a + b)[..|a + b| - 1] == a + b[..|b| - 1];
    }
  }

  /** What a drain poll must do: a blocked stream that is closed is pruned; a writable one is
      stopped if the peer stopped reading and drained otherwise; of the rest, one with capacity
      is drained and one whose capacity is an error is reported. */
  predicate Due(all: set<StreamId>, closed: StreamId -> bool, writable: set<StreamId>, cap: StreamId -> CapAnswer, a: Act) {
    match a
    case Prune(id) => id in all && closed(id)
    case Stop(id) => id in writable && cap(id).Stopped?
    case Drain(id) =>
      && id in all && !closed(id)
      && (if id in writable then !cap(id).Stopped? else cap(id).Capacity? && cap(id).bytes > 0)
    case Break(id) => id in all && !closed(id) && id !in writable && !cap(id).Capacity?
  }

  /** The acts are exactly those due. */
  ghost predicate Exactly(acts: seq<Act>, all: set<StreamId>, closed: StreamId -> bool, writable: set<StreamId>, cap: StreamId -> CapAnswer) {
    forall a {:trigger a in acts} :: a in acts <==> Due(all, closed, writable, cap, a)
  }

  /** Acts about the writable streams, and about the streams probed for capacity. */
  ghost predicate WritableActs(acts: seq<Act>, all: set<StreamId>, seen: set<StreamId>, cap: StreamId -> CapAnswer) {
    forall a {:trigger a in acts} :: a in acts <==>
      a.id in seen && (if cap(a.id).Stopped? then a.Stop? else a.Drain? && a.id in all)
  }

  ghost predicate ProbeActs(acts: seq<Act>, gone: set<StreamId>, cap: StreamId -> CapAnswer) {
    forall a {:trigger a in acts} :: a in acts <==>
      a.id in gone && (if cap(a.id).Capacity? then a.Drain? else a.Break?)
  }

  /** The writable streams `seen` so far have left: the stopped ones cleared, the others woken. */
  ghost predicate Drained(all: set<StreamId>, q: seq<StreamId>, seen: set<StreamId>, cap: StreamId -> CapAnswer,
                          members: set<StreamId>, queue: seq<StreamId>, acts: seq<Act>) {
    && WritableActs(acts, all, seen, cap)
    && Cleared(acts) == Halted(seen, cap)
    && Lists(Woke(acts), all * seen - Halted(seen, cap))
    && members == all - seen
    && queue == Retain(q, seen)
  }

  lemma DrainedStep(all: set<StreamId>, q: seq<StreamId>, seen: set<StreamId>, cap: StreamId -> CapAnswer,
                    members: set<StreamId>, queue: seq<StreamId>, acts: seq<Act>, id: StreamId, out: seq<Act>)
    requires Drained(all, q, seen, cap, members, queue, acts)
    requires out == acts + (if cap(id).Stopped? then [Stop(id)] else if id in members then [Drain(id)] else [])
    requires Woke(out) == if id in members && !cap(id).Stopped? then Woke(acts) + [id] else Woke(acts)
    requires Cleared(out) == if cap(id).Stopped? then Cleared(acts) + {id} else Cleared(acts)
    ensures Drained(all, q, seen + {id}, cap, members - {id}, Retain(queue, {id}), out)
  {
    GrowHalted(all, seen, id, cap);
    RetainTwice(q, seen, {id});
    if id in members && !cap(id).Stopped? {
      ListsPush(Woke(acts), all * seen - Halted(seen, cap), id);
    }
  }

  /** The first `i` streams of `q` have had their turn: those of `gone` were woken, the others
      went to the back. */
  ghost predicate Probed(all: set<StreamId>, q: seq<StreamId>, gone: set<StreamId>, i: nat,
                         members: set<StreamId>, queue: seq<StreamId>, acts: seq<Act>)
    requires i <= |q|
  {
    && queue == q[i..] + Retain(q[..i], gone)
    && members == all - gone * Members(q[..i])
    && Cleared(acts) == {}
    && Lists(Woke(acts), gone * Members(q[..i]))
  }

  lemma ProbeActsPush(acts: seq<Act>, gone: set<StreamId>, id: StreamId, cap: StreamId -> CapAnswer)
    requires ProbeActs(acts, gone, cap)
    ensures ProbeActs(acts + [if cap(id).Capacity? then Drain(id) else Break(id)], gone + {id}, cap)
  {
  }

  lemma ProbedStep(all: set<StreamId>, q: seq<StreamId>, cap: StreamId -> CapAnswer, i: nat,
                   members: set<StreamId>, queue: seq<StreamId>, acts: seq<Act>, after: seq<StreamId>, out: seq<Act>)
    requires Lists(q, all) && i < |q| && Probed(all, q, Freed(all, cap), i, members, queue, acts)
    requires after == if cap(queue[0]) == Capacity(0) then queue[1..] + [queue[0]] else queue[1..]
    requires Woke(out) == (if cap(queue[0]) == Capacity(0) then Woke(acts) else Woke(acts) + [queue[0]])
    requires Cleared(out) == Cleared(acts)
    ensures Probed(all, q, Freed(all, cap), i + 1,
                   if cap(queue[0]) == Capacity(0) then members else members - {queue[0]}, after, out)
  {
    var gone, id, front := Freed(all, cap), q[i], Members(q[..i]);
    var kept := Retain(q[..i], gone);
    RotateOnce(q[i..], kept);
    RetainNext(q, i, gone);
    DistinctAt(q, i);
    GrowWoken(gone, front, id);
    if cap(id) != Capacity(0) {
      ListsPush(Woke(acts), gone * front, id);
      assert after == q[i + 1..] + kept;
    } else {
      assert after == q[i + 1..] + (kept + [id]);
    }
  }

  lemma GrowWoken(gone: set<StreamId>, front: set<StreamId>, id: StreamId)
    requires id !in front
    ensures gone * (front + {id}) == if id in gone then gone * front + {id} else gone * front
  {
  }

  /** `blocked_queue` and `blocked_set`. */
  class BlockedStreams {
    var queue: seq<StreamId>
    var members: set<StreamId>

    ghost predicate Ok()
      reads this
    {
      Lists(queue, members)
    }

    constructor ()
      ensures Ok() && queue == [] && members == {}
    {
      queue, members := [], {};
    }

    method Track(id: StreamId)
      requires Ok()
      modifies this
      ensures Ok() && members == old(members) + {id}
      ensures queue == if id in old(members) then old(queue) else old(queue) + [id]
    {
      if id !in members {
        ListsPush(queue, members, id);
        members := members + {id};
        queue := queue + [id];
      }
    }

    method Remove(id: StreamId)
      requires Ok()
      modifies this
      ensures Ok() && members == old(members) - {id} && queue == Retain(old(queue), {id})
    {
      RetainLists(queue, {id});
      if id in members {
        members := members - {id};
        queue := Retain(queue, {id});
      } else {
        RetainNothing(queue, {id});
      }
    }

    /** `prune_closed_blocked_streams`. */
    method PruneClosed(closed: StreamId -> bool) returns (acts: seq<Act>)
      requires Ok()
      modifies this
      ensures Ok() && Woke(acts) == [] && Cleared(acts) == Dead(old(members), closed)
      ensures forall a {:trigger a in acts} :: a in acts <==> a.Prune? && a.id in old(members) && closed(a.id)
      ensures members == old(members) - Dead(old(members), closed)
      ensures queue == Retain(old(queue), Dead(old(members), closed))
    {
      acts := [];
      var dead := Dead(members, closed);
      RetainNothing(queue, {});
      while dead != {}
        invariant Ok() && Woke(acts) == []
        invariant Cleared(acts) + dead == Dead(old(members), closed)
        invariant forall a {:trigger a in acts} :: a in acts <==> a.Prune? && a.id in Cleared(acts)
        invariant members == old(members) - Cleared(acts) && queue == Retain(old(queue), Cleared(acts))
        decreases dead
      {
        var id :| id in dead;
        RetainTwice(old(queue), Cleared(acts), {id});
        WokePush(acts, Prune(id));
        ClearedPush(acts, Prune(id));
        Remove(id);
        acts := acts + [Prune(id)];
        dead := dead - {id};
      }
    }

    /** One writable stream: a stopped one is cleared and reset, a blocked one drains. */
    method WritableOne(id: StreamId, stopped: bool, acts: seq<Act>) returns (out: seq<Act>)
      requires Ok()
      modifies this
      ensures Ok() && members == old(members) - {id} && queue == Retain(old(queue), {id})
      ensures out == acts + (if stopped then [Stop(id)] else if id in old(members) then [Drain(id)] else [])
      ensures Woke(out) == if id in old(members) && !stopped then Woke(acts) + [id] else Woke(acts)
      ensures Cleared(out) == if stopped then Cleared(acts) + {id} else Cleared(acts)
    {
      out := acts;
      if stopped {
        WokePush(acts, Stop(id));
        ClearedPush(acts, Stop(id));
        out := acts + [Stop(id)];
      } else if id in members {
        WokePush(acts, Drain(id));
        ClearedPush(acts, Drain(id));
        out := acts + [Drain(id)];
      }
      Remove(id);
    }

    method DrainWritable(writable: seq<StreamId>, cap: StreamId -> CapAnswer) returns (acts: seq<Act>)
      requires Ok()
      modifies this
      ensures Ok() && Drained(old(members), old(queue), Members(writable), cap, members, queue, acts)
    {
      acts := [];
      RetainNothing(queue, {});
      for i := 0 to |writable|
        invariant Ok() && Drained(old(members), old(queue), Members(writable[..i]), cap, members, queue, acts)
      {
        var id := writable[i];
        assert writable[..i + 1][..i] == writable[..i];
        ghost var m, q, done := members, queue, acts;
        acts := WritableOne(id, cap(id).Stopped?, acts);
        DrainedStep(old(members), old(queue), Members(writable[..i]), cap, m, q, done, id, acts);
      }
      assert writable[..|writable|] == writable;
    }

    /** The head of the queue has its turn: it leaves by a drain or an error, or goes to the back. */
    method ProbeHead(answer: CapAnswer, acts: seq<Act>) returns (out: seq<Act>)
      requires queue != []
      modifies this
      ensures var id := old(queue)[0];
        && queue == (if answer == Capacity(0) then old(queue)[1..] + [id] else old(queue)[1..])
        && members == (if answer == Capacity(0) then old(members) else old(members) - {id})
        && Woke(out) == (if answer == Capacity(0) then Woke(acts) else Woke(acts) + [id])
        && Cleared(out) == Cleared(acts)
        && out == acts + (if answer == Capacity(0) then [] else if answer.Capacity? then [Drain(id)] else [Break(id)])
    {
      var id := queue[0];
      queue, out := queue[1..], acts;
      if answer == Capacity(0) {
        queue := queue + [id];
      } else {
        var a := if answer.Capacity? then Drain(id) else Break(id);
        WokePush(acts, a);
        ClearedPush(acts, a);
        members := members - {id};
        out := acts + [a];
      }
    }

    /** Connection-level credit can return silently: probe every blocked stream once, in queue
        order, and put the ones still without capacity back. */
    method ProbeBlocked(cap: StreamId -> CapAnswer) returns (acts: seq<Act>)
      requires Ok()
      modifies this
      ensures Ok() && Cleared(acts) == {} && Lists(Woke(acts), Freed(old(members), cap))
      ensures ProbeActs(acts, Freed(old(members), cap), cap)
      ensures members == old(members) - Freed(old(members), cap)
      ensures queue == Retain(old(queue), Freed(old(members), cap))
    {
      acts := [];
      ghost var all, q := members, queue;
      assert q[..0] == [] && q[0..] + [] == q;
      var turns := |queue|;
      for i := 0 to turns
        invariant turns == |q| && Probed(all, q, Freed(all, cap), i, members, queue, acts)
        invariant ProbeActs(acts, Freed(all, cap) * Members(q[..i]), cap)
      {
        var id := queue[0];
        ghost var m, rest, done := members, queue, acts;
        ProbeActsPush(acts, Freed(all, cap) * Members(q[..i]), id, cap);
        acts := ProbeHead(cap(id), acts);
        ProbedStep(all, q, cap, i, m, rest, done, queue, acts);
      }
      assert q[..|q|] == q && queue == Retain(q, Freed(all, cap));
      assert Freed(all, cap) * all == Freed(all, cap);
      RetainLists(q, Freed(all, cap));
    }

    /** `poll_drain_events`. Every stream that leaves is cleared (closed or stopped) or woken by
        exactly one event; the rest stay, in their old order. */
    method PollDrain(closed: StreamId -> bool, writable: seq<StreamId>, cap: StreamId -> CapAnswer) returns (acts: seq<Act>)
      requires Ok()
      modifies this
      ensures Ok()
      ensures members == old(members) - Leaving(old(members), closed, Members(writable), cap)
      ensures queue == Retain(old(queue), Leaving(old(members), closed, Members(writable), cap))
      ensures Cleared(acts) == Dead(old(members), closed) + Halted(Members(writable), cap)
      ensures Lists(Woke(acts), Leaving(old(members), closed, Members(writable), cap) - Cleared(acts))
      ensures Exactly(acts, old(members), closed, Members(writable), cap)
    {
      ghost var all, q, w := members, queue, Members(writable);
      var pruned := PruneClosed(closed);
      var drained := DrainWritable(writable, cap);
      var probed := ProbeBlocked(cap);
      acts := pruned + drained + probed;
      CombineActs(pruned, drained, probed);
      CombineExactly(pruned, drained, probed, all, closed, w, cap);
      LeavingSplits(all, closed, w, cap);
      ListsConcat(Woke(drained), (all - Dead(all, closed)) * w - Halted(w, cap), Woke(probed), Freed(all - Dead(all, closed) - w, cap));
      RetainThrice(q, all, closed, w, cap);
    }
  }

  lemma CombineExactly(a: seq<Act>, b: seq<Act>, c: seq<Act>, all: set<StreamId>, closed: StreamId -> bool,
                       w: set<StreamId>, cap: StreamId -> CapAnswer)
    requires forall x {:trigger x in a} :: x in a <==> x.Prune? && x.id in all && closed(x.id)
    requires WritableActs(b, all - Dead(all, closed), w, cap)
    requires ProbeActs(c, Freed(all - Dead(all, closed) - w, cap), cap)
    ensures Exactly(a + b + c, all, closed, w, cap)
  {
    forall x ensures x in a + b + c <==> Due(all, closed, w, cap, x) {
      assert x in a + b + c <==> x in a || x in b || x in c;
    }
  }

  lemma CombineActs(a: seq<Act>, b: seq<Act>, c: seq<Act>)
    requires Woke(a) == []
    ensures Woke(a + b + c) == Woke(b) + Woke(c)
    ensures Cleared(a + b + c) == Cleared(a) + Cleared(b) + Cleared(c)
  {
    WokeConcat(a, b);
    WokeConcat(a + b, c);
    ClearedConcat(a, b);
    ClearedConcat(a + b, c);
    assert [] + Woke(b) == Woke(b);
  }

  lemma RetainThrice(q: seq<StreamId>, all: set<StreamId>, closed: StreamId -> bool, w: set<StreamId>, cap: StreamId -> CapAnswer)
    requires Members(q) == all
    ensures var dead := Dead(all, closed);
            Retain(Retain(Retain(q, dead), w), Freed(all - dead - w, cap)) == Retain(q, Leaving(all, closed, w, cap))
  {
    var dead := Dead(all, closed);
    var rest := Freed(all - dead - w, cap);
    RetainTwice(q, dead, w);
    RetainTwice(q, dead + w, rest);
    LeavingSplits(all, closed, w, cap);
    RetainOnlyListed(q, dead + w + rest, Leaving(all, closed, w, cap));
  }

  // ----- which streams a drain poll touches -----

  function Dead(s: set<StreamId>, closed: StreamId -> bool): set<StreamId> { set id | id in s && closed(id) }

  function Halted(s: set<StreamId>, cap: StreamId -> CapAnswer): set<StreamId> { set id | id in s && cap(id).Stopped? }

  function Freed(s: set<StreamId>, cap: StreamId -> CapAnswer): set<StreamId> { set id | id in s && cap(id) != Capacity(0) }

  /** A blocked stream leaves when it is closed, writable, has capacity, or fails. */
  function Leaving(s: set<StreamId>, closed: StreamId -> bool, writable: set<StreamId>, cap: StreamId -> CapAnswer): set<StreamId> {
    set id | id in s && (closed(id) || id in writable || cap(id) != Capacity(0))
  }

  lemma GrowHalted(s: set<StreamId>, seen: set<StreamId>, id: StreamId, cap: StreamId -> CapAnswer)
    ensures Halted(seen + {id}, cap) == if cap(id).Stopped? then Halted(seen, cap) + {id} else Halted(seen, cap)
    ensures var woken := s * seen - Halted(seen, cap);
      s * (seen + {id}) - Halted(seen + {id}, cap) == if id in s && !cap(id).Stopped? then woken + {id} else woken
  {
  }

  lemma LeavingSplits(s: set<StreamId>, closed: StreamId -> bool, w: set<StreamId>, cap: StreamId -> CapAnswer)
    ensures var dead := Dead(s, closed); var rest := Freed(s - dead - w, cap);
      && Leaving(s, closed, w, cap) == dead + s * w + rest
      && (s - dead) * w - Halted(w, cap) !! rest
      && Leaving(s, closed, w, cap) - (dead + Halted(w, cap)) == ((s - dead) * w - Halted(w, cap)) + rest
  {
  }
}
