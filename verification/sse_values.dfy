/** What the values of single fields become: the printed retry interval, an integer as JavaScript
    reads it, and an id. */
module SseValues {
  import opened Common
  import opened Sse
  import opened SseRoundTrip

  lemma {:induction false} TrimBlanks(blanks: string, s: string)
    requires (forall i :: 0 <= i < |blanks| ==> IsSpace(blanks[i])) && (s == "" || !IsSpace(s[0]))
    ensures TrimStart(blanks + s) == s
  {
    if blanks == "" {
      assert blanks + s == s;
    } else {
      TrimBlanks(blanks[1..], s);
      assert (blanks + s)[1..] == blanks[1..] + s;
    }
  }

  lemma {:induction false} RunOfDigits(digits: string, tail: string)
    requires Digits(digits) && (tail == "" || !IsDigit(tail[0]))
    ensures DigitRun(digits + tail) == |digits|
  {
    if digits == "" {
      assert digits + tail == tail;
    } else {
      RunOfDigits(digits[1..], tail);
      assert (digits + tail)[1..] == digits[1..] + tail;
    }
  }

  /** An id comes back exactly if it contains no NUL; one with NUL leaves the last id as it was. */
  lemma IdComesBack(p: Parser, id: string)
    requires p.lastEventId != id
    ensures ProcessLine(p, Field("id", id)).lastEventId == id <==> '\0' !in id
    ensures '\0' in id ==> ProcessLine(p, Field("id", id)) == p
  {
    FieldValue(p, "id", id);
  }

  /** Signs and digits are not blanks. */
  lemma NotBlank(c: char)
    requires IsDigit(c) || c == '-' || c == '+'
    ensures !IsSpace(c)
  {
  }

  /** A retry value is read as JavaScript reads an integer: blanks, a sign, digits, and anything
      after them is ignored; without digits there is no value. */
  lemma ParseIntReads(blanks: string, sign: string, digits: string, tail: string)
    requires (forall i :: 0 <= i < |blanks| ==> IsSpace(blanks[i])) && sign in {"", "-", "+"} && Digits(digits)
    requires tail == "" || !IsDigit(tail[0])
    requires digits == "" && sign == "" ==> tail == "" || (!IsSpace(tail[0]) && tail[0] != '-' && tail[0] != '+')
    ensures ParseInt(blanks + (sign + (digits + tail))) ==
      if digits == "" then None else Some(if sign == "-" then -(Value(digits) as int) else Value(digits))
  {
    var s := sign + (digits + tail);
    if sign != "" {
      NotBlank(s[0]);
    } else if digits != "" {
      NotBlank(s[0]);
    }
    TrimBlanks(blanks, s);
    ReadIntReads(s, sign, digits, tail);
  }

  lemma ReadIntReads(s: string, sign: string, digits: string, tail: string)
    requires s == sign + (digits + tail) && sign in {"", "-", "+"}
    requires Digits(digits) && (tail == "" || !IsDigit(tail[0]))
    requires sign == "" && digits == "" ==> tail == "" || (tail[0] != '-' && tail[0] != '+')
    ensures ReadInt(s) == if digits == "" then None else Some(if sign == "-" then -(Value(digits) as int) else Value(digits))
  {
    var rest := digits + tail;
    RunOfDigits(digits, tail);
    assert rest[..|digits|] == digits && s[|sign|..] == rest;
    if sign == "" {
      assert s == rest;
    }
  }

  /** The printed interval: one line of digits, whose value is the interval rounded down, and 0
      for a negative one. */
  lemma PrintedRetry(e: Event) returns (digits: string)
    requires e.retry.Some?
    ensures Field("retry", digits) in FieldLines(e) && digits != "" && Digits(digits)
    ensures var r := e.retry.value; if r < 0.0 then Value(digits) == 0 else Value(digits) as real <= r < Value(digits) as real + 1.0
  {
    digits := Decimal(RetryMs(e.retry.value));
    DecimalRoundTrip(RetryMs(e.retry.value));
  }
}
