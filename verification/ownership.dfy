/** Where pooled allocations are: every step of the outbound path moves them between the pool's
    bins, the return channel, chunks, shared `ArcBuf` allocations, callers and the allocator. */
module Ownership {
  import opened Common
  import opened Queues

  type Alloc = nat
  type ChunkId = nat
  type HandleId = nat

  /** `homed` are the allocations whose owner carries a way back to the pool. `checkouts` and
      `sentBack` count, for each allocation, how often it left the pool for a chunk and how
      often it was sent back. */
  datatype Places = Places(
    pooled: set<Alloc>, channel: seq<Alloc>, chunks: map<ChunkId, Alloc>, handles: map<HandleId, Alloc>,
    caller: set<Alloc>, freed: set<Alloc>, next: Alloc, homed: set<Alloc>,
    checkouts: Alloc -> nat, sentBack: Alloc -> nat)

  const NOWHERE := Places({}, [], map[], map[], {}, {}, 0, {}, _ => 0, _ => 0)

  datatype Step =
    | Allocate(chunk: ChunkId, homed: bool)           // a chunk in a new allocation
    | Reuse(chunk: ChunkId, a: Alloc)                 // a chunk in a pooled one
    | DropChunk(chunk: ChunkId)
    | ChunkIntoVec(chunk: ChunkId)                    // into_vec, or into_remaining_vec at offset 0
    | ChunkSplitOff(chunk: ChunkId)                   // into_remaining_vec past offset 0: a copy
    | Grow(chunk: ChunkId)                            // an append that reallocates
    | ChunkIntoArc(chunk: ChunkId, handle: HandleId)
    | VecIntoArc(a: Alloc, handle: HandleId)
    | Share(handle: HandleId, other: HandleId)        // clone and split
    | DropHandle(handle: HandleId)
    | HandleIntoVec(handle: HandleId, whole: bool)
    | Drain(kept: bool)                               // drain_returned, one buffer
    | DropVec(a: Alloc)

  function Bump(f: Alloc -> nat, a: Alloc): Alloc -> nat {
    (x: Alloc) => if x == a then f(x) + 1 else f(x)
  }

  ghost predicate Maps(m: map<nat, nat>, x: nat) {
    exists k :: k in m && m[k] == x
  }

  /** Does another live handle share the allocation? */
  ghost predicate Shared(s: Places, h: HandleId)
    requires h in s.handles
  {
    Maps(s.handles - {h}, s.handles[h])
  }

  ghost predicate Enabled(s: Places, step: Step) {
    match step
    case Allocate(c, _) => c !in s.chunks
    case Reuse(c, a) => c !in s.chunks && a in s.pooled
    case DropChunk(c) => c in s.chunks
    case ChunkIntoVec(c) => c in s.chunks
    case ChunkSplitOff(c) => c in s.chunks
    case Grow(c) => c in s.chunks
    case ChunkIntoArc(c, h) => c in s.chunks && h !in s.handles
    case VecIntoArc(a, h) => a in s.caller && h !in s.handles
    case Share(h, k) => h in s.handles && k !in s.handles
    case DropHandle(h) => h in s.handles
    case HandleIntoVec(h, _) => h in s.handles
    case Drain(_) => s.channel != []
    case DropVec(a) => a in s.caller
  }

  /** The last owner lets go: back through the channel if it has a home and the channel has
      room, to the allocator otherwise. */
  function Release(capacity: nat, s: Places, a: Alloc): Places {
    if a in s.homed && |s.channel| < capacity
    then s.(channel := s.channel + [a], homed := s.homed - {a}, sentBack := Bump(s.sentBack, a))
    else s.(freed := s.freed + {a}, homed := s.homed - {a})
  }

  function NewVec(s: Places): Places {
    s.(caller := s.caller + {s.next}, next := s.next + 1)
  }

  ghost function Next(capacity: nat, s: Places, step: Step): Places
    requires Enabled(s, step)
  {
    match step
    case Allocate(c, homed) =>
      s.(chunks := s.chunks[c := s.next], next := s.next + 1,
         homed := if homed then s.homed + {s.next} else s.homed,
         checkouts := if homed then Bump(s.checkouts, s.next) else s.checkouts)
    case Reuse(c, a) =>
      s.(pooled := s.pooled - {a}, chunks := s.chunks[c := a], homed := s.homed + {a}, checkouts := Bump(s.checkouts, a))
    case DropChunk(c) => Release(capacity, s.(chunks := s.chunks - {c}), s.chunks[c])
    case ChunkIntoVec(c) =>
      s.(chunks := s.chunks - {c}, caller := s.caller + {s.chunks[c]}, homed := s.homed - {s.chunks[c]})
    case ChunkSplitOff(c) =>
      NewVec(s.(chunks := s.chunks - {c}, freed := s.freed + {s.chunks[c]}, homed := s.homed - {s.chunks[c]}))
    case Grow(c) => Regrow(s, c)
    case ChunkIntoArc(c, h) => s.(chunks := s.chunks - {c}, handles := s.handles[h := s.chunks[c]])
    case VecIntoArc(a, h) => s.(caller := s.caller - {a}, handles := s.handles[h := a])
    case Share(h, k) => s.(handles := s.handles[k := s.handles[h]])
    case DropHandle(h) => LetGo(capacity, s, h)
    case HandleIntoVec(h, whole) =>
      if whole && !Shared(s, h)
      then s.(handles := s.handles - {h}, caller := s.caller + {s.handles[h]}, homed := s.homed - {s.handles[h]})
      else NewVec(LetGo(capacity, s, h))
    case Drain(kept) =>
      var t := s.(channel := s.channel[1..]);
      if kept then t.(pooled := s.pooled + {s.channel[0]}) else t.(freed := s.freed + {s.channel[0]})
    case DropVec(a) => s.(caller := s.caller - {a}, freed := s.freed + {a})
  }

  /** The chunk moves to a new allocation and keeps its way back; the old one is freed. The new
      allocation counts as checked out for as long as it may still be sent back. */
  function Regrow(s: Places, c: ChunkId): Places
    requires c in s.chunks
  {
    var a, homed := s.chunks[c], s.chunks[c] in s.homed;
    s.(chunks := (s.chunks - {c})[c := s.next], next := s.next + 1, freed := s.freed + {a},
       homed := if homed then s.homed - {a} + {s.next} else s.homed - {a},
       checkouts := if homed then Bump(s.checkouts, s.next) else s.checkouts)
  }

  ghost function LetGo(capacity: nat, s: Places, h: HandleId): Places
    requires h in s.handles
  {
    var t := s.(handles := s.handles - {h});
    if Shared(s, h) then t else Release(capacity, t, s.handles[h])
  }

  /** The step lets go of the last owner of `a`. */
  ghost predicate LetsGo(s: Places, step: Step, a: Alloc) {
    match step
    case DropChunk(c) => c in s.chunks && s.chunks[c] == a
    case DropHandle(h) => h in s.handles && s.handles[h] == a && !Shared(s, h)
    case HandleIntoVec(h, whole) => h in s.handles && s.handles[h] == a && !Shared(s, h) && !whole
    case _ => false
  }

  /** When its last owner goes, an allocation with a home is sent back if the channel has room, and
      only then; otherwise it is freed. Nothing else is sent back or freed. */
  lemma LastOwnerSendsBack(capacity: nat, s: Places, step: Step, a: Alloc)
    requires Enabled(s, step) && LetsGo(s, step, a)
    ensures var t := Next(capacity, s, step);
      if a in s.homed && |s.channel| < capacity
      then t.channel == s.channel + [a] && t.freed == s.freed && t.sentBack(a) == s.sentBack(a) + 1
      else t.channel == s.channel && t.freed == s.freed + {a} && t.sentBack(a) == s.sentBack(a)
    ensures forall b :: b != a ==> Next(capacity, s, step).sentBack(b) == s.sentBack(b)
  {
  }

  /** Why an allocation goes back to the allocator: its last owner lets go without a way or room to
      return, its bytes were copied out of it, an append outgrew it, a returned buffer did not fit
      a bin, or a caller drops it. */
  ghost predicate GivenUp(capacity: nat, s: Places, step: Step, a: Alloc) {
    match step
    case ChunkSplitOff(c) => c in s.chunks && a == s.chunks[c]
    case Grow(c) => c in s.chunks && a == s.chunks[c]
    case Drain(kept) => s.channel != [] && a == s.channel[0] && !kept
    case DropVec(v) => a == v
    case _ => LetsGo(s, step, a) && !(a in s.homed && |s.channel| < capacity)
  }

  /** Why an allocation comes to a caller: it was moved out whole, or is a new copy. */
  ghost predicate MovedOut(s: Places, step: Step, a: Alloc) {
    match step
    case ChunkIntoVec(c) => c in s.chunks && a == s.chunks[c]
    case ChunkSplitOff(_) => a == s.next
    case HandleIntoVec(h, whole) => h in s.handles && a == (if whole && !Shared(s, h) then s.handles[h] else s.next)
    case _ => false
  }

  /** Every step takes each allocation exactly where it should: to the allocator, to a caller, into
      the bins and out of them. */
  lemma EveryMoveIsDue(capacity: nat, s: Places, step: Step, a: Alloc)
    requires Enabled(s, step)
    ensures var t := Next(capacity, s, step);
      && (a in t.freed <==> a in s.freed || GivenUp(capacity, s, step, a))
      && (a in t.caller <==> MovedOut(s, step, a) || (a in s.caller && !(step.DropVec? && step.a == a) && !(step.VecIntoArc? && step.a == a)))
      && (a in t.pooled <==> (a in s.pooled && !(step.Reuse? && step.a == a)) || (step == Drain(true) && s.channel[0] == a))
  {
  }

  // ----- exactly one place -----

  function One(b: bool): nat {
    if b then 1 else 0
  }

  /** In how many places an allocation is. */
  ghost function Homes(s: Places, a: Alloc): nat {
    One(a in s.pooled) + One(a in Members(s.channel)) + One(Maps(s.chunks, a)) + One(Maps(s.handles, a)) +
    One(a in s.caller) + One(a in s.freed)
  }

  /** An allocation has left the pool at most once more often than it was sent back. In the
      pool the two agree; while it has a home to go to, one return is outstanding. */
  ghost predicate CountsOk(s: Places, a: Alloc) {
    && (a >= s.next ==> s.checkouts(a) == 0)
    && s.sentBack(a) <= s.checkouts(a) <= s.sentBack(a) + 1
    && (a in s.pooled || a in Members(s.channel) ==> s.sentBack(a) == s.checkouts(a))
    && (a in s.homed ==> s.checkouts(a) == s.sentBack(a) + 1)
  }

  /** Only chunks and shared allocations have a home to go to. */
  ghost predicate HomedOk(s: Places, a: Alloc) {
    a in s.homed ==> Maps(s.chunks, a) || Maps(s.handles, a)
  }

  /** Everything is in exactly one place, except that `b`, if there is one, is between two. */
  ghost predicate Placed(s: Places, b: Option<Alloc>) {
    && (b.Some? ==> b.value < s.next)
    && (forall a: Alloc :: Homes(s, a) == One(a < s.next && b != Some(a)))
    && (forall a: Alloc :: CountsOk(s, a))
    && (forall a: Alloc :: b != Some(a) ==> HomedOk(s, a))
    && OnePerChunk(s.chunks)
    && Distinct(s.channel)
  }

  ghost predicate Inv(s: Places) {
    Placed(s, None)
  }

  ghost predicate OnePerChunk(m: map<ChunkId, Alloc>) {
    forall c, d :: c in m && d in m && m[c] == m[d] ==> c == d
  }

  // ----- every step keeps it -----

  lemma MapsPut(m: map<nat, nat>, k: nat, v: nat, x: nat)
    requires k !in m
    ensures Maps(m[k := v], x) <==> x == v || Maps(m, x)
  {
    var n := m[k := v];
    if x == v {
      assert k in n && n[k] == x;
    }
    if Maps(m, x) {
      var j :| j in m && m[j] == x;
      assert j in n && n[j] == x;
    }
  }

  lemma MapsDrop(m: map<nat, nat>, k: nat, x: nat)
    requires k in m
    ensures x != m[k] ==> (Maps(m - {k}, x) <==> Maps(m, x))
    ensures OnePerChunk(m) ==> OnePerChunk(m - {k}) && !Maps(m - {k}, m[k])
    ensures Maps(m, m[k])
  {
    if x != m[k] && Maps(m, x) {
      var j :| j in m && m[j] == x;
      assert j in m - {k} && (m - {k})[j] == x;
    }
  }

  // An allocation leaves its place.

  lemma ChunkLeaves(s: Places, c: ChunkId)
    requires Inv(s) && c in s.chunks
    ensures Placed(s.(chunks := s.chunks - {c}), Some(s.chunks[c]))
  {
    var t, b := s.(chunks := s.chunks - {c}), s.chunks[c];
    forall a: Alloc ensures Homes(t, a) == One(a < t.next && a != b) && CountsOk(t, a) && (a != b ==> HomedOk(t, a)) {
      assert Homes(s, a) == One(a < s.next) && CountsOk(s, a) && HomedOk(s, a);
      MapsDrop(s.chunks, c, a);
    }
    assert Homes(s, b) == One(b < s.next);
    MapsDrop(s.chunks, c, b);
  }

  lemma LastHandleLeaves(s: Places, h: HandleId)
    requires Inv(s) && h in s.handles && !Shared(s, h)
    ensures Placed(s.(handles := s.handles - {h}), Some(s.handles[h]))
  {
    var t, b := s.(handles := s.handles - {h}), s.handles[h];
    forall a: Alloc ensures Homes(t, a) == One(a < t.next && a != b) && CountsOk(t, a) && (a != b ==> HomedOk(t, a)) {
      assert Homes(s, a) == One(a < s.next) && CountsOk(s, a) && HomedOk(s, a);
      MapsDrop(s.handles, h, a);
    }
    assert Homes(s, b) == One(b < s.next);
  }

  lemma SharedHandleLeaves(s: Places, h: HandleId)
    requires Inv(s) && h in s.handles && Shared(s, h)
    ensures Inv(s.(handles := s.handles - {h}))
  {
    var t := s.(handles := s.handles - {h});
    forall a: Alloc ensures Homes(t, a) == One(a < t.next) && CountsOk(t, a) && HomedOk(t, a) {
      assert Homes(s, a) == One(a < s.next) && CountsOk(s, a) && HomedOk(s, a);
      MapsDrop(s.handles, h, a);
    }
  }

  lemma VecLeaves(s: Places, b: Alloc)
    requires Inv(s) && b in s.caller
    ensures Placed(s.(caller := s.caller - {b}), Some(b)) && b !in s.homed
  {
    var t := s.(caller := s.caller - {b});
    forall a: Alloc ensures Homes(t, a) == One(a < t.next && a != b) && CountsOk(t, a) && HomedOk(t, a) {
      assert Homes(s, a) == One(a < s.next) && CountsOk(s, a) && HomedOk(s, a);
    }
    assert Homes(s, b) == One(b < s.next) && HomedOk(s, b);
  }

  lemma PooledLeaves(s: Places, b: Alloc)
    requires Inv(s) && b in s.pooled
    ensures Placed(s.(pooled := s.pooled - {b}), Some(b)) && b !in s.homed && s.sentBack(b) == s.checkouts(b)
  {
    var t := s.(pooled := s.pooled - {b});
    forall a: Alloc ensures Homes(t, a) == One(a < t.next && a != b) && CountsOk(t, a) && HomedOk(t, a) {
      assert Homes(s, a) == One(a < s.next) && CountsOk(s, a) && HomedOk(s, a);
    }
    assert Homes(s, b) == One(b < s.next) && HomedOk(s, b) && CountsOk(s, b);
  }

  lemma ReturnedLeaves(s: Places)
    requires Inv(s) && s.channel != []
    ensures var b := s.channel[0];
            Placed(s.(channel := s.channel[1..]), Some(b)) && b !in s.homed && s.sentBack(b) == s.checkouts(b)
  {
    var t, b := s.(channel := s.channel[1..]), s.channel[0];
    MembersPop(s.channel);
    forall a: Alloc ensures Homes(t, a) == One(a < t.next && a != b) && CountsOk(t, a) && HomedOk(t, a) {
      assert Homes(s, a) == One(a < s.next) && CountsOk(s, a) && HomedOk(s, a);
    }
    assert Homes(s, b) == One(b < s.next) && HomedOk(s, b) && CountsOk(s, b);
  }

  // And it arrives in another.

  lemma Arrives(s: Places, b: Alloc, t: Places)
    requires Placed(s, Some(b)) && t.next == s.next && OnePerChunk(t.chunks) && Distinct(t.channel)
    requires forall a: Alloc :: Homes(t, a) == Homes(s, a) + One(a == b)
    requires forall a: Alloc :: (a != b && CountsOk(s, a) && HomedOk(s, a) ==> CountsOk(t, a) && HomedOk(t, a))
    requires CountsOk(t, b) && HomedOk(t, b)
    ensures Inv(t)
  {
    forall a: Alloc ensures Homes(t, a) == One(a < t.next) && CountsOk(t, a) && HomedOk(t, a) {
      assert Homes(s, a) == One(a < s.next && a != b);
      assert CountsOk(s, a) && (a != b ==> HomedOk(s, a));
    }
  }

  lemma VecArrives(s: Places, b: Alloc)
    requires Placed(s, Some(b))
    ensures Inv(s.(caller := s.caller + {b}, homed := s.homed - {b}))
    ensures Inv(s.(freed := s.freed + {b}, homed := s.homed - {b}))
  {
    assert Homes(s, b) == 0 && CountsOk(s, b);
    Arrives(s, b, s.(caller := s.caller + {b}, homed := s.homed - {b}));
    Arrives(s, b, s.(freed := s.freed + {b}, homed := s.homed - {b}));
  }

  lemma PooledArrives(s: Places, b: Alloc)
    requires Placed(s, Some(b)) && b !in s.homed && s.sentBack(b) == s.checkouts(b)
    ensures Inv(s.(pooled := s.pooled + {b}))
  {
    assert Homes(s, b) == 0 && CountsOk(s, b);
    Arrives(s, b, s.(pooled := s.pooled + {b}));
  }

  lemma ReturnedArrives(s: Places, b: Alloc)
    requires Placed(s, Some(b)) && b in s.homed
    ensures Inv(s.(channel := s.channel + [b], homed := s.homed - {b}, sentBack := Bump(s.sentBack, b)))
  {
    var t := s.(channel := s.channel + [b], homed := s.homed - {b}, sentBack := Bump(s.sentBack, b));
    assert Homes(s, b) == 0 && CountsOk(s, b);
    MembersPush(s.channel, b);
    forall a: Alloc ensures Homes(t, a) == Homes(s, a) + One(a == b) {
    }
    forall a: Alloc | a != b && CountsOk(s, a) && HomedOk(s, a) ensures CountsOk(t, a) && HomedOk(t, a) {
    }
    Arrives(s, b, t);
  }

  lemma ReleaseArrives(capacity: nat, s: Places, b: Alloc)
    requires Placed(s, Some(b))
    ensures Inv(Release(capacity, s, b))
  {
    if b in s.homed && |s.channel| < capacity {
      ReturnedArrives(s, b);
    } else {
      VecArrives(s, b);
    }
  }

  lemma ArcArrives(s: Places, b: Alloc, h: HandleId)
    requires Placed(s, Some(b)) && h !in s.handles
    ensures Inv(s.(handles := s.handles[h := b]))
  {
    var t := s.(handles := s.handles[h := b]);
    assert Homes(s, b) == 0 && CountsOk(s, b);
    forall a: Alloc ensures Homes(t, a) == Homes(s, a) + One(a == b) && (HomedOk(s, a) ==> HomedOk(t, a)) {
      MapsPut(s.handles, h, b, a);
    }
    MapsPut(s.handles, h, b, b);
    Arrives(s, b, t);
  }

  lemma ChunkArrives(s: Places, b: Alloc, c: ChunkId, homed: bool)
    requires Placed(s, Some(b)) && c !in s.chunks && b !in s.homed && s.sentBack(b) == s.checkouts(b)
    ensures Inv(s.(chunks := s.chunks[c := b],
                   homed := if homed then s.homed + {b} else s.homed,
                   checkouts := if homed then Bump(s.checkouts, b) else s.checkouts))
  {
    var t := s.(chunks := s.chunks[c := b],
                homed := if homed then s.homed + {b} else s.homed,
                checkouts := if homed then Bump(s.checkouts, b) else s.checkouts);
    assert Homes(s, b) == 0 && CountsOk(s, b);
    forall a: Alloc ensures Homes(t, a) == Homes(s, a) + One(a == b) && (a != b && HomedOk(s, a) ==> HomedOk(t, a)) {
      MapsPut(s.chunks, c, b, a);
    }
    MapsPut(s.chunks, c, b, b);
    assert !Maps(s.chunks, b);
    Arrives(s, b, t);
  }

  /** A new allocation starts out between places. */
  lemma NewLeaves(s: Places)
    requires Inv(s)
    ensures Placed(s.(next := s.next + 1), Some(s.next)) && s.next !in s.homed && s.sentBack(s.next) == s.checkouts(s.next)
  {
    var t := s.(next := s.next + 1);
    forall a: Alloc ensures Homes(t, a) == One(a < t.next && a != s.next) && CountsOk(t, a) && HomedOk(t, a) {
      assert Homes(s, a) == One(a < s.next) && CountsOk(s, a) && HomedOk(s, a);
    }
    assert Homes(s, s.next) == 0 && CountsOk(s, s.next) && HomedOk(s, s.next);
  }

  lemma NewVecKeepsInv(s: Places)
    requires Inv(s)
    ensures Inv(NewVec(s))
  {
    NewLeaves(s);
    var t := s.(next := s.next + 1);
    VecArrives(t, s.next);
    assert NewVec(s) == t.(caller := t.caller + {s.next}, homed := t.homed - {s.next});
  }

  lemma LetGoKeepsInv(capacity: nat, s: Places, h: HandleId)
    requires Inv(s) && h in s.handles
    ensures Inv(LetGo(capacity, s, h))
  {
    if Shared(s, h) {
      SharedHandleLeaves(s, h);
    } else {
      LastHandleLeaves(s, h);
      ReleaseArrives(capacity, s.(handles := s.handles - {h}), s.handles[h]);
    }
  }

  lemma ShareKeepsInv(s: Places, h: HandleId, k: HandleId)
    requires Inv(s) && h in s.handles && k !in s.handles
    ensures Inv(s.(handles := s.handles[k := s.handles[h]]))
  {
    var t := s.(handles := s.handles[k := s.handles[h]]);
    forall a: Alloc ensures Homes(t, a) == One(a < t.next) && CountsOk(t, a) && HomedOk(t, a) {
      assert Homes(s, a) == One(a < s.next) && CountsOk(s, a) && HomedOk(s, a);
      MapsPut(s.handles, k, s.handles[h], a);
      assert a == s.handles[h] ==> Maps(s.handles, a);
    }
  }

  lemma StepKeepsInv(capacity: nat, s: Places, step: Step)
    requires Inv(s) && Enabled(s, step)
    ensures Inv(Next(capacity, s, step))
  {
    match step {
      case Allocate(c, homed) =>
        NewLeaves(s);
        ChunkArrives(s.(next := s.next + 1), s.next, c, homed);
      case Reuse(c, a) =>
        PooledLeaves(s, a);
        ChunkArrives(s.(pooled := s.pooled - {a}), a, c, true);
      case DropChunk(c) =>
        ChunkLeaves(s, c);
        ReleaseArrives(capacity, s.(chunks := s.chunks - {c}), s.chunks[c]);
      case ChunkIntoVec(c) =>
        ChunkLeaves(s, c);
        VecArrives(s.(chunks := s.chunks - {c}), s.chunks[c]);
      case ChunkSplitOff(c) =>
        ChunkLeaves(s, c);
        VecArrives(s.(chunks := s.chunks - {c}), s.chunks[c]);
        NewVecKeepsInv(s.(chunks := s.chunks - {c}, freed := s.freed + {s.chunks[c]}, homed := s.homed - {s.chunks[c]}));
      case Grow(c) => RegrowKeepsInv(s, c);
      case ChunkIntoArc(c, h) =>
        ChunkLeaves(s, c);
        ArcArrives(s.(chunks := s.chunks - {c}), s.chunks[c], h);
      case VecIntoArc(a, h) =>
        VecLeaves(s, a);
        ArcArrives(s.(caller := s.caller - {a}), a, h);
      case Share(h, k) => ShareKeepsInv(s, h, k);
      case DropHandle(h) => LetGoKeepsInv(capacity, s, h);
      case HandleIntoVec(h, whole) =>
        if whole && !Shared(s, h) {
          LastHandleLeaves(s, h);
          VecArrives(s.(handles := s.handles - {h}), s.handles[h]);
        } else {
          LetGoKeepsInv(capacity, s, h);
          NewVecKeepsInv(LetGo(capacity, s, h));
        }
      case Drain(kept) => DrainKeepsInv(s, kept);
      case DropVec(a) =>
        VecLeaves(s, a);
        var t := s.(caller := s.caller - {a});
        VecArrives(t, a);
        assert t.homed - {a} == t.homed;
    }
  }

  lemma RegrowKeepsInv(s: Places, c: ChunkId)
    requires Inv(s) && c in s.chunks
    ensures Inv(Regrow(s, c))
  {
    var a := s.chunks[c];
    ChunkLeaves(s, c);
    var t := s.(chunks := s.chunks - {c});
    VecArrives(t, a);
    var u := t.(freed := t.freed + {a}, homed := t.homed - {a});
    NewLeaves(u);
    ChunkArrives(u.(next := u.next + 1), u.next, c, a in s.homed);
  }

  lemma DrainKeepsInv(s: Places, kept: bool)
    requires Inv(s) && s.channel != []
    ensures Inv(Next(0, s, Drain(kept)))
  {
    ReturnedLeaves(s);
    var t, b := s.(channel := s.channel[1..]), s.channel[0];
    if kept {
      PooledArrives(t, b);
    } else {
      VecArrives(t, b);
      assert t.homed - {b} == t.homed;
    }
  }

  // ----- every run -----

  ghost predicate Run(capacity: nat, s: Places, steps: seq<Step>, t: Places)
    decreases |steps|
  {
    if steps == [] then s == t
    else Enabled(s, steps[0]) && Run(capacity, Next(capacity, s, steps[0]), steps[1..], t)
  }

  lemma {:induction false} RunKeepsInv(capacity: nat, s: Places, steps: seq<Step>, t: Places)
    requires Inv(s) && Run(capacity, s, steps, t)
    ensures Inv(t)
    decreases |steps|
  {
    if steps != [] {
      StepKeepsInv(capacity, s, steps[0]);
      RunKeepsInv(capacity, Next(capacity, s, steps[0]), steps[1..], t);
    }
  }

  /** After any run, every allocation ever made is in exactly one place, in one chunk at most,
      once in the channel at most, and has been sent back at most once per checkout. */
  lemma OnePlaceEach(capacity: nat, steps: seq<Step>, t: Places, a: Alloc)
    requires Run(capacity, NOWHERE, steps, t)
    ensures Homes(t, a) == One(a < t.next)
    ensures OnePerChunk(t.chunks) && Distinct(t.channel)
    ensures t.sentBack(a) <= t.checkouts(a) <= t.sentBack(a) + 1
  {
    RunKeepsInv(capacity, NOWHERE, steps, t);
    assert Homes(t, a) == One(a < t.next) && CountsOk(t, a);
  }

  /** The step that sends an allocation back finds nobody holding it: no chunk and no handle
      has it any more, and this return answers the latest checkout. */
  lemma ReturnIsLast(capacity: nat, steps: seq<Step>, s: Places, step: Step, a: Alloc)
    requires Run(capacity, NOWHERE, steps, s) && Enabled(s, step)
    requires Next(capacity, s, step).sentBack(a) != s.sentBack(a)
    ensures var t := Next(capacity, s, step);
            && !Maps(t.chunks, a) && !Maps(t.handles, a) && a !in t.caller
            && t.sentBack(a) == s.sentBack(a) + 1 == t.checkouts(a)
  {
    RunKeepsInv(capacity, NOWHERE, steps, s);
    StepKeepsInv(capacity, s, step);
    SentBackIsQueued(capacity, s, step, a);
    QueuedIsUnheld(Next(capacity, s, step), a);
  }

  lemma QueuedIsUnheld(t: Places, a: Alloc)
    requires Inv(t) && a in Members(t.channel)
    ensures !Maps(t.chunks, a) && !Maps(t.handles, a) && a !in t.caller && t.sentBack(a) == t.checkouts(a)
  {
    assert Homes(t, a) == One(a < t.next) && CountsOk(t, a);
  }

  lemma SentBackIsQueued(capacity: nat, s: Places, step: Step, a: Alloc)
    requires Enabled(s, step) && Next(capacity, s, step).sentBack(a) != s.sentBack(a)
    ensures a in Members(Next(capacity, s, step).channel)
    ensures Next(capacity, s, step).sentBack(a) == s.sentBack(a) + 1
  {
    MembersPush(s.channel, a);
  }
}
