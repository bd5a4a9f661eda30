/** `ArcBuf`: windows onto shared, reference-counted allocations. */
module ArcBufs {
  import opened Common

  /** The shared allocation; `strong` is the count that `Arc` keeps. */
  class Inner {
    const data: array<Byte>
    var strong: nat

    constructor (a: array<Byte>)
      ensures data == a && strong == 1
    {
      data, strong := a, 1;
    }
  }

  class ArcBuf {
    const inner: Inner
    var offset: nat
    var len: nat

    constructor (i: Inner, o: nat, l: nat)
      ensures inner == i && offset == o && len == l
    {
      inner, offset, len := i, o, l;
    }

    ghost predicate InBounds()
      reads this
    {
      offset + len <= inner.data.Length
    }

    /** The bytes this handle sees. */
    ghost function View(): Bytes
      requires InBounds()
      reads this, inner.data
    {
      inner.data[offset..offset + len]
    }
  }

  /** The live handles on one allocation. */
  ghost function Owners(live: set<ArcBuf>, c: Inner): set<ArcBuf> {
    set h | h in live && h.inner == c
  }

  lemma AddOwner(live: set<ArcBuf>, h: ArcBuf)
    requires h !in live
    ensures |Owners(live + {h}, h.inner)| == |Owners(live, h.inner)| + 1
    ensures forall c :: c != h.inner ==> Owners(live + {h}, c) == Owners(live, c)
  {
    assert Owners(live + {h}, h.inner) == Owners(live, h.inner) + {h};
  }

  lemma DropOwner(live: set<ArcBuf>, h: ArcBuf)
    requires h in live
    ensures |Owners(live - {h}, h.inner)| == |Owners(live, h.inner)| - 1
    ensures forall c :: c != h.inner ==> Owners(live - {h}, c) == Owners(live, c)
  {
    assert Owners(live - {h}, h.inner) == Owners(live, h.inner) - {h};
  }

  /** A count of one means that no other live handle shares the allocation. */
  lemma OnlyOwner(live: set<ArcBuf>, h: ArcBuf)
    requires h in live && |Owners(live, h.inner)| == 1
    ensures forall o :: o in live && o != h ==> o.inner != h.inner
  {
    var s := Owners(live, h.inner);
    assert h in s && |s - {h}| == 0;
    forall o | o in live && o != h ensures o.inner != h.inner {
      assert o.inner == h.inner ==> o in s - {h};
    }
  }

  /** Every live handle's allocation is known, and no two allocations share memory. */
  ghost predicate Shape(live: set<ArcBuf>, cells: set<Inner>) {
    && (forall h :: h in live ==> h.inner in cells)
    && (forall c, d :: c in cells && d in cells && c.data == d.data ==> c == d)
  }

  /** All live handles and the allocations they share. */
  class Buffers {
    ghost var live: set<ArcBuf>
    ghost var cells: set<Inner>

    ghost predicate Valid()
      reads this, live, cells
    {
      && Shape(live, cells)
      && (forall h :: h in live ==> h.InBounds())
      && (forall c :: c in cells ==> c.strong == |Owners(live, c)|)
    }

    constructor ()
      ensures Valid() && live == {} && cells == {}
    {
      live, cells := {}, {};
    }

    /** `from_vec`, and `from_chunk` with the chunk's offset: a first handle takes the
        allocation over. Nobody may share it now; it may well have been wrapped before. */
    method FromVec(v: array<Byte>, offset: nat) returns (h: ArcBuf)
      requires Valid() && offset <= v.Length && forall c :: c in cells ==> c.data != v
      modifies this
      ensures Valid() && fresh(h) && live == old(live) + {h} && h.View() == v[offset..]
      ensures forall o :: o in old(live) ==> o.View() == old(o.View())
    {
      var inner := new Inner(v);
      h := new ArcBuf(inner, offset, v.Length - offset);
      assert Owners(live, inner) == {};
      AddOwner(live, h);
      live := live + {h};
      cells := cells + {inner};
    }

    /** `clone`: the same window again. */
    method Clone(h: ArcBuf) returns (copy: ArcBuf)
      requires Valid() && h in live
      modifies this, h.inner
      ensures Valid() && fresh(copy) && live == old(live) + {copy}
      ensures copy.View() == h.View()
      ensures forall o :: o in old(live) ==> o.View() == old(o.View())
    {
      copy := Share(h, h.offset, h.len);
    }

    /** Another handle on the allocation of `h`. */
    method Share(h: ArcBuf, offset: nat, len: nat) returns (other: ArcBuf)
      requires Valid() && h in live && offset + len <= h.inner.data.Length
      modifies `live, h.inner
      ensures Valid() && fresh(other) && live == old(live) + {other}
      ensures other.inner == h.inner && other.offset == offset && other.len == len
    {
      other := new ArcBuf(h.inner, offset, len);
      h.inner.strong := h.inner.strong + 1;
      AddOwner(live, other);
      live := live + {other};
    }

    /** `split_at`: the handle keeps the front, the result sees the rest. */
    method SplitAt(h: ArcBuf, at: nat) returns (tail: ArcBuf)
      requires Valid() && h in live && at <= h.len
      modifies this, h, h.inner
      ensures Valid() && fresh(tail) && live == old(live) + {tail}
      ensures h.InBounds() && |h.View()| == at && h.View() + tail.View() == old(h.View())
      ensures forall o :: o in old(live) && o != h ==> o.InBounds() && o.View() == old(o.View())
    {
      tail := Share(h, h.offset + at, h.len - at);
      h.len := at;
    }

    /** `try_add_prefix`: in place, but only where nobody else can see it. */
    method TryAddPrefix(h: ArcBuf, prefix: Bytes) returns (ok: bool)
      requires Valid() && h in live
      modifies h, h.inner.data
      ensures Valid()
      ensures ok <==> prefix == [] || (|prefix| <= old(h.offset) && Owners(live, h.inner) == {h})
      ensures h.View() == if ok then prefix + old(h.View()) else old(h.View())
      ensures forall o :: o in live && o != h ==> o.View() == old(o.View())
    {
      if prefix == [] {
        return true;
      }
      if h.offset < |prefix| {
        return false;
      }
      if h.inner.strong != 1 {
        return false;
      }
      OnlyOwner(live, h);
      assert Owners(live, h.inner) == {h};
      var start := h.offset - |prefix|;
      ghost var data, seen := h.inner.data[..], h.View();
      Write(h.inner.data, start, prefix);
      PrefixedWindow(data, start, prefix, h.len, h.inner.data[..]);
      h.offset := start;
      h.len := h.len + |prefix|;
      ok := true;
      assert h.View() == h.inner.data[..][start..start + |prefix| + |seen|];
      forall o | o in live && o != h ensures o.View() == old(o.View()) {
        assert o.inner in cells && o.inner.data != h.inner.data;
      }
    }

    /** `drop`: `last` says that the allocation has lost its last handle, which is when a
        pooled one goes back to its pool. */
    method Drop(h: ArcBuf) returns (last: bool)
      requires Valid() && h in live
      modifies `live, `cells, h.inner
      ensures Valid() && live == old(live) - {h}
      ensures last <==> Owners(live, h.inner) == {}
      ensures cells == if last then old(cells) - {h.inner} else old(cells)
      ensures forall o :: o in live ==> o.View() == old(o.View())
    {
      DropOwner(live, h);
      h.inner.strong := h.inner.strong - 1;
      live := live - {h};
      last := h.inner.strong == 0;
      if last {
        cells := cells - {h.inner};
      }
    }

    /** `into_vec`: the bytes of the window. `moved` says that the allocation itself was handed
        out, which happens exactly when this handle was its only one and saw all of it; then
        it never goes back to a pool. Otherwise the bytes are a copy and the handle is
        dropped. */
    method IntoVec(h: ArcBuf) returns (v: Bytes, moved: bool, last: bool)
      requires Valid() && h in live
      modifies `live, `cells, h.inner
      ensures Valid() && live == old(live) - {h} && v == old(h.View())
      ensures moved <==> |v| == h.inner.data.Length && old(Owners(live, h.inner)) == {h}
      ensures last <==> !moved && Owners(live, h.inner) == {}
      ensures forall o :: o in live ==> o.View() == old(o.View())
    {
      v := h.inner.data[h.offset..h.offset + h.len];
      var whole := h.offset == 0 && h.len == h.inner.data.Length;
      var unique := h.inner.strong == 1;
      if unique {
        OnlyOwner(live, h);
      }
      moved := whole && unique;
      last := Drop(h);
      last := last && !moved;
    }
  }

  /** Writing a prefix just before a window puts it in front of what the window saw. */
  lemma PrefixedWindow(data: Bytes, start: nat, prefix: Bytes, len: nat, after: Bytes)
    requires start + |prefix| + len <= |data|
    requires after == data[..start] + prefix + data[start + |prefix|..]
    ensures after[start..start + |prefix| + len] == prefix + data[start + |prefix|..start + |prefix| + len]
  {
  }

  /** `copy_from_slice`. */
  method Write(a: array<Byte>, start: nat, bytes: Bytes)
    requires start + |bytes| <= a.Length
    modifies a
    ensures a[..] == old(a[..start]) + bytes + old(a[start + |bytes|..])
  {
    for i := 0 to |bytes|
      invariant a[..] == old(a[..start]) + bytes[..i] + old(a[start + i..])
    {
      a[start + i] := bytes[i];
    }
  }
}
