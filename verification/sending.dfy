/** One call of `send_body_arcbuf` and retries of what it gives back, against what the transport
    itself has taken. */
module Sending {
  import opened Common
  import opened Blocked

  datatype SendAnswer = Wrote(bytes: nat) | SendDone | SendFailed

  datatype SendResult = Sent(written: nat, finAccepted: bool, remainder: Option<Bytes>) | SendError

  /** Room a DATA frame needs: its type, its length varint and one payload byte. */
  function Required(len: nat): nat {
    1 + (if len <= 63 then 1 else if len <= 16383 then 2 else if len <= 1073741823 then 4 else 8)
      + (if len > 0 then 1 else 0)
  }

  function Pow2(n: nat): nat {
    if n == 0 then 1 else 2 * Pow2(n - 1)
  }

  /** A varint of `k` bytes has two bits for its own length (section 16 of RFC 9000). */
  predicate VarintFits(len: nat, k: nat) {
    k in {1, 2, 4, 8} && len < Pow2(8 * k - 2)
  }

  lemma VarintLimits()
    ensures Pow2(6) == 64 && Pow2(14) == 16384 && Pow2(30) == 1073741824
  {
    assert Pow2(10) == 1024;
    assert Pow2(14) == 16 * Pow2(10);
    assert Pow2(20) == 1024 * Pow2(10) by { assert Pow2(15) == 32 * Pow2(10); assert Pow2(20) == 32 * Pow2(15); }
    assert Pow2(25) == 32 * Pow2(20);
    assert Pow2(30) == 32 * Pow2(25);
  }

  /** The length is counted with the shortest varint that holds it. */
  lemma RequiredIsExact(len: nat, k: nat)
    requires VarintFits(len, k) && forall j: nat :: j < k ==> !VarintFits(len, j)
    ensures Required(len) == 1 + k + (if len > 0 then 1 else 0)
  {
    VarintLimits();
    assert !(1 < k) || !VarintFits(len, 1);
    assert !(2 < k) || !VarintFits(len, 2);
    assert !(4 < k) || !VarintFits(len, 4);
  }

  /** One call of `send_body_arcbuf`; `trailers` says that trailers have already carried FIN. */
  function SendOnce(buf: Bytes, fin: bool, trailers: bool, cap: CapAnswer, answer: SendAnswer): SendResult {
    if buf == [] && fin && trailers then Sent(0, true, None)
    else if (buf != [] || fin) && !cap.Capacity? then SendError
    else if (buf != [] || fin) && cap.bytes < Required(|buf|) then Sent(0, false, Some(buf))
    else if buf == [] && !fin then Sent(0, false, None)
    else match answer
      case Wrote(n) =>
        var written := Min(n, |buf|);
        if written < |buf| then Sent(written, false, Some(buf[written..])) else Sent(written, fin, None)
      case SendDone => Sent(0, false, Some(buf))
      case SendFailed => SendError
  }

  /** The call reaches quiche: there is something to send that trailers have not carried, and
      room for its frame. */
  predicate Reaches(buf: Bytes, fin: bool, trailers: bool, cap: CapAnswer) {
    (buf != [] || (fin && !trailers)) && cap.Capacity? && Required(|buf|) <= cap.bytes
  }

  /** What quiche takes of a buffer offered to it, by its own answer. */
  function Takes(buf: Bytes, answer: SendAnswer): Bytes {
    if answer.Wrote? then buf[..Min(answer.bytes, |buf|)] else []
  }

  /** quiche takes FIN with the last byte. */
  predicate TakesFin(buf: Bytes, fin: bool, answer: SendAnswer) {
    fin && answer.Wrote? && |buf| <= answer.bytes
  }

  /** What one call must report, from what quiche was offered and took. */
  predicate Reports(buf: Bytes, fin: bool, trailers: bool, cap: CapAnswer, answer: SendAnswer, r: SendResult) {
    if Reaches(buf, fin, trailers, cap) then
      match answer
      case Wrote(_) =>
        var taken := Takes(buf, answer);
        r == Sent(|taken|, TakesFin(buf, fin, answer), if |taken| < |buf| then Some(buf[|taken|..]) else None)
      case SendDone => r == Sent(0, false, Some(buf))
      case SendFailed => r == SendError
    else if buf == [] && (!fin || trailers) then r == Sent(0, fin, None)
    else if cap.Capacity? then r == Sent(0, false, Some(buf))
    else r == SendError
  }

  lemma SendOnceReports(buf: Bytes, fin: bool, trailers: bool, cap: CapAnswer, answer: SendAnswer)
    ensures Reports(buf, fin, trailers, cap, answer, SendOnce(buf, fin, trailers, cap, answer))
  {
  }

  /** A bare FIN is accepted at once, whatever the capacity and whatever quiche would answer. */
  ghost predicate FinIsFree(trailers: bool) {
    forall cap, answer :: SendOnce([], true, trailers, cap, answer) == Sent(0, true, None)
  }

  /** That is so exactly after trailers, which have carried FIN already. */
  lemma FinIsFreeAfterTrailers(trailers: bool)
    ensures FinIsFree(trailers) <==> trailers
  {
    if !trailers {
      assert SendOnce([], true, trailers, CapFailed, SendDone) == SendError;
    }
  }

  function Left(rest: Option<Bytes>): Bytes {
    if rest.Some? then rest.value else []
  }

  /** One call takes a prefix and gives the rest back; it accepts FIN only if nothing is left. */
  lemma SendOnceTakesPrefix(buf: Bytes, fin: bool, trailers: bool, cap: CapAnswer, answer: SendAnswer)
    ensures var r := SendOnce(buf, fin, trailers, cap, answer);
      r.Sent? ==>
        && r.written <= |buf| && r.finAccepted == (fin && r.remainder.None?)
        && buf[..r.written] + Left(r.remainder) == buf
  {
    var r := SendOnce(buf, fin, trailers, cap, answer);
    if r.Sent? && r.remainder.None? {
      assert r.written == |buf|;
    }
  }

  /** Retrying what each call gives back: `wire` is what quiche took, by its own answers, and
      `fins` how often it took FIN; `rest` is what is left at the end. */
  datatype Retried = Retried(wire: Bytes, rest: Option<Bytes>, fins: nat)

  function Retry(buf: Bytes, fin: bool, trailers: bool, script: seq<(CapAnswer, SendAnswer)>): Retried
    decreases |script|
  {
    if script == [] then Retried([], Some(buf), 0)
    else
      var (cap, answer) := script[0];
      var reached := Reaches(buf, fin, trailers, cap);
      var took := if reached then Takes(buf, answer) else [];
      var fins := if reached && TakesFin(buf, fin, answer) then 1 else 0;
      match SendOnce(buf, fin, trailers, cap, answer)
      case SendError => Retried(took, Some(buf), fins)
      case Sent(_, _, remainder) =>
        if remainder.None? then Retried(took, None, fins)
        else
          var later := Retry(remainder.value, fin, trailers, script[1..]);
          Retried(took + later.wire, later.rest, fins + later.fins)
  }

  /** Whatever the capacities and answers, quiche gets the body exactly once, in order: what it
      took and what is left are the body. It gets FIN exactly once, when nothing is left, unless
      trailers have carried it. */
  lemma {:induction false} RetryHandsOverOnce(buf: Bytes, fin: bool, trailers: bool, script: seq<(CapAnswer, SendAnswer)>)
    ensures var r := Retry(buf, fin, trailers, script);
      && r.wire + Left(r.rest) == buf
      && r.fins == (if fin && r.rest.None? && !(buf == [] && trailers) then 1 else 0)
    decreases |script|
  {
    if script != [] {
      var (cap, answer) := script[0];
      var once := SendOnce(buf, fin, trailers, cap, answer);
      if once.Sent? && once.remainder.Some? {
        var rest := once.remainder.value;
        RetryHandsOverOnce(rest, fin, trailers, script[1..]);
        var later := Retry(rest, fin, trailers, script[1..]);
        var took := if Reaches(buf, fin, trailers, cap) then Takes(buf, answer) else [];
        assert took + rest == buf;
        Assoc(took, later.wire, Left(later.rest));
      }
    }
  }
}
