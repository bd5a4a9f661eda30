/** Queues of ids without duplicates, and the set they list: removing ids keeps the rest in
    order, and rotating a whole queue once is the same as filtering it. */
module Queues {
  /** `retain`: the queue without the streams of `gone`, order kept. */
  function Retain(q: seq<nat>, gone: set<nat>): seq<nat> {
    if q == [] then []
    else Retain(q[..|q| - 1], gone) + (if q[|q| - 1] in gone then [] else [q[|q| - 1]])
  }

  function Members(q: seq<nat>): set<nat> {
    if q == [] then {} else Members(q[..|q| - 1]) + {q[|q| - 1]}
  }

  predicate Distinct(q: seq<nat>) {
    q == [] || (Distinct(q[..|q| - 1]) && q[|q| - 1] !in Members(q[..|q| - 1]))
  }

  /** The queue lists exactly the set, without duplicates. */
  predicate Lists(q: seq<nat>, s: set<nat>) {
    Distinct(q) && Members(q) == s
  }

  /** Without recursion: no two positions agree, and the set holds exactly the positions' values. */
  lemma {:induction false} ListsMeans(q: seq<nat>, s: set<nat>)
    requires Lists(q, s)
    ensures forall i, j :: 0 <= i < j < |q| ==> q[i] != q[j]
    ensures forall id :: id in s <==> id in q
  {
    if q != [] {
      ListsMeans(q[..|q| - 1], Members(q[..|q| - 1]));
      assert q == q[..|q| - 1] + [q[|q| - 1]];
    }
  }

  lemma {:induction false} MembersMeans(q: seq<nat>, id: nat)
    ensures id in Members(q) <==> id in q
  {
    if q != [] {
      MembersMeans(q[..|q| - 1], id);
      assert q == q[..|q| - 1] + [q[|q| - 1]];
    }
  }

  lemma ListsPush(q: seq<nat>, s: set<nat>, id: nat)
    requires Lists(q, s) && id !in s
    ensures Lists(q + [id], s + {id})
  {
    assert (q + [id])[..|q|] == q;
  }

  lemma {:induction false} RetainLists(q: seq<nat>, gone: set<nat>)
    ensures Members(Retain(q, gone)) == Members(q) - gone
    ensures Distinct(q) ==> Distinct(Retain(q, gone))
  {
    if q != [] {
      var n := |q| - 1;
      RetainLists(q[..n], gone);
      var kept := Retain(q[..n], gone);
      if q[n] in gone {
        assert Retain(q, gone) == kept + [] == kept;
      } else {
        assert Retain(q, gone) == kept + [q[n]];
        assert (kept + [q[n]])[..|kept|] == kept;
        assert Members(kept + [q[n]]) == Members(kept) + {q[n]};
      }
    }
  }

  lemma {:induction false} RetainTwice(q: seq<nat>, a: set<nat>, b: set<nat>)
    ensures Retain(Retain(q, a), b) == Retain(q, a + b)
  {
    if q != [] {
      var n := |q| - 1;
      RetainTwice(q[..n], a, b);
      if q[n] !in a {
        assert (Retain(q[..n], a) + [q[n]])[..|Retain(q[..n], a)|] == Retain(q[..n], a);
      } else {
        assert Retain(q, a) == Retain(q[..n], a);
      }
    }
  }

  /** Only the listed members of a removal matter. */
  lemma {:induction false} RetainOnlyListed(q: seq<nat>, a: set<nat>, b: set<nat>)
    requires a * Members(q) == b * Members(q)
    ensures Retain(q, a) == Retain(q, b)
  {
    if q != [] {
      var front := Members(q[..|q| - 1]);
      assert front * Members(q) == front;
      assert a * front == a * Members(q) * front && b * front == b * Members(q) * front;
      RetainOnlyListed(q[..|q| - 1], a, b);
      assert q[|q| - 1] in Members(q);
      assert q[|q| - 1] in a <==> q[|q| - 1] in a * Members(q);
    }
  }

  lemma {:induction false} RetainNothing(q: seq<nat>, gone: set<nat>)
    requires gone !! Members(q)
    ensures Retain(q, gone) == q
  {
    if q != [] {
      RetainNothing(q[..|q| - 1], gone);
      assert q == q[..|q| - 1] + [q[|q| - 1]];
    }
  }

  /** Streams that stay listed keep their relative order. */
  lemma {:induction false} RetainKeepsOrder(q: seq<nat>, gone: set<nat>, i: nat, j: nat)
    requires i < j < |q| && q[i] !in gone && q[j] !in gone
    ensures exists i', j' :: 0 <= i' < j' < |Retain(q, gone)| && Retain(q, gone)[i'] == q[i] && Retain(q, gone)[j'] == q[j]
  {
    var n := |q| - 1;
    var kept := Retain(q[..n], gone);
    if j < n {
      RetainKeepsOrder(q[..n], gone, i, j);
      var i', j' :| 0 <= i' < j' < |kept| && kept[i'] == q[i] && kept[j'] == q[j];
      assert Retain(q, gone)[i'] == q[i] && Retain(q, gone)[j'] == q[j];
    } else {
      var i' := RetainFinds(q[..n], gone, i);
      assert Retain(q, gone)[i'] == q[i] && Retain(q, gone)[|kept|] == q[j];
    }
  }

  lemma {:induction false} RetainFinds(q: seq<nat>, gone: set<nat>, i: nat) returns (at: nat)
    requires i < |q| && q[i] !in gone
    ensures at < |Retain(q, gone)| && Retain(q, gone)[at] == q[i]
  {
    var n := |q| - 1;
    if i == n {
      at := |Retain(q[..n], gone)|;
    } else {
      at := RetainFinds(q[..n], gone, i);
    }
  }

  /** One turn of a rotation: the head leaves or goes to the back. */
  lemma RotateOnce(rest: seq<nat>, kept: seq<nat>)
    requires rest != []
    ensures (rest + kept)[0] == rest[0]
    ensures (rest + kept)[1..] == rest[1..] + kept
    ensures (rest + kept)[1..] + [rest[0]] == rest[1..] + (kept + [rest[0]])
  {
  }

  lemma RetainNext(q: seq<nat>, i: nat, gone: set<nat>)
    requires i < |q|
    ensures Retain(q[..i + 1], gone) == if q[i] in gone then Retain(q[..i], gone) else Retain(q[..i], gone) + [q[i]]
    ensures Members(q[..i + 1]) == Members(q[..i]) + {q[i]}
    ensures q[i..][1..] == q[i + 1..]
  {
    assert q[..i + 1][..i] == q[..i];
  }

  lemma {:induction false} DistinctAt(q: seq<nat>, i: nat)
    requires Distinct(q) && i < |q|
    ensures q[i] !in Members(q[..i]) && q[i] in Members(q)
  {
    var n := |q| - 1;
    if i < n {
      DistinctAt(q[..n], i);
      assert q[..n][..i] == q[..i];
    }
  }

  lemma {:induction false} ListsConcat(p: seq<nat>, s: set<nat>, q: seq<nat>, t: set<nat>)
    requires Lists(p, s) && Lists(q, t) && s !! t
    ensures Lists(p + q, s + t)
  {
    if q == [] {
      assert p + q == p;
    } else {
      var n := |q| - 1;
      ListsConcat(p, s, q[..n], Members(q[..n]));
      ListsPush(p + q[..n], s + Members(q[..n]), q[n]);
      assert p + q == p + q[..n] + [q[n]];
    }
  }

  lemma {:induction false} MemberAt(q: seq<nat>, i: nat)
    requires i < |q|
    ensures q[i] in Members(q)
  {
    if i < |q| - 1 {
      MemberAt(q[..|q| - 1], i);
    }
  }

  lemma MembersPush(q: seq<nat>, a: nat)
    ensures Members(q + [a]) == Members(q) + {a}
    ensures Distinct(q) && a !in Members(q) ==> Distinct(q + [a])
  {
    assert (q + [a])[..|q|] == q;
  }

  lemma {:induction false} MembersPop(q: seq<nat>)
    requires q != [] && Distinct(q)
    ensures Members(q[1..]) == Members(q) - {q[0]} && Distinct(q[1..]) && q[0] in Members(q)
  {
    var n := |q| - 1;
    if n == 0 {
      assert q[..0] == [] && q[1..] == [];
    } else {
      MembersPop(q[..n]);
      assert q[..n][1..] == q[1..][..n - 1];
    }
  }
}
