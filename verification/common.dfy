/** Small definitions shared by the whole project. */
module Common {

  newtype Byte = x: int | 0 <= x < 256

  type Bytes = seq<Byte>

  type StreamId = nat

  datatype Option<+T> = None | Some(value: T)

  function Min(a: nat, b: nat): (r: nat)
    ensures r <= a && r <= b && (r == a || r == b)
  {
    if a <= b then a else b
  }

  function Max(a: nat, b: nat): (r: nat)
    ensures r >= a && r >= b && (r == a || r == b)
  {
    if a >= b then a else b
  }

  lemma Assoc<T>(a: seq<T>, b: seq<T>, c: seq<T>)
    ensures a + b + c == a + (b + c)
  {
  }

  function Sum(ns: seq<nat>): nat {
    if ns == [] then 0 else Sum(ns[..|ns| - 1]) + ns[|ns| - 1]
  }

  /** A queue's total loses exactly its head when the head is taken. */
  lemma {:induction false} SumHead(ns: seq<nat>)
    requires ns != []
    ensures Sum(ns) == ns[0] + Sum(ns[1..])
  {
    var n := |ns| - 1;
    if n == 0 {
      assert ns[..0] == [];
    } else {
      SumHead(ns[..n]);
      assert ns[..n][1..] == ns[1..][..n - 1];
    }
  }
}
