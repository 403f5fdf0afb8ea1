/** Where a client asks an event stream to resume: a `cursor` parameter or a `Last-Event-ID` header. */
module Cursors {
  import opened Results

  const I64_MAX := 0x7FFF_FFFF_FFFF_FFFF

  datatype CursorError = InvalidCursor

  predicate IsDigit(c: char) {
    '0' <= c <= '9'
  }

  predicate AllDigits(s: string) {
    s != [] && forall c | c in s :: IsDigit(c)
  }

  function DigitOf(c: char): (d: nat)
    requires IsDigit(c)
    ensures d < 10
  {
    c as int - '0' as int
  }

  function Digit(d: nat): (c: char)
    requires d < 10
    ensures IsDigit(c) && DigitOf(c) == d
  {
    ('0' as int + d) as char
  }

  function Value(digits: string): nat
    requires forall c | c in digits :: IsDigit(c)
  {
    if digits == [] then 0
    else
      assert digits[|digits| - 1] in digits;
      10 * Value(digits[..|digits| - 1]) + DigitOf(digits[|digits| - 1])
  }

  /** `str::parse::<i64>`: an optional sign, at least one digit, in range. */
  function ParseI64(raw: string): Option<int> {
    var signed := raw != [] && (raw[0] == '+' || raw[0] == '-');
    var digits := if signed then raw[1..] else raw;
    if !AllDigits(digits) then None
    else
      var n: int := if signed && raw[0] == '-' then 0 - Value(digits) else Value(digits);
      if -I64_MAX - 1 <= n <= I64_MAX then Some(n) else None
  }

  function ParseCursor(cursor: Option<string>, lastEventId: Option<string>): Result<int, CursorError> {
    var raw := if cursor.Some? then cursor.value else if lastEventId.Some? then lastEventId.value else "0";
    match ParseI64(raw)
    case Some(n) => if n >= 0 then Ok(n) else Err(InvalidCursor)
    case None => Err(InvalidCursor)
  }

  /** Decimal notation, as an event's id is sent. */
  function Decimal(n: nat): string {
    (if n < 10 then [] else Decimal(n / 10)) + [Digit(n % 10)]
  }

  lemma ValueOfAppend(digits: string, c: char)
    requires (forall d | d in digits :: IsDigit(d)) && IsDigit(c)
    ensures (forall d | d in digits + [c] :: IsDigit(d)) && Value(digits + [c]) == 10 * Value(digits) + DigitOf(c)
  {
    assert (digits + [c])[..|digits|] == digits;
  }

  lemma ValueOfNothing()
    ensures Value([]) == 0
  {
  }

  lemma DecimalIs(n: nat)
    ensures Decimal(n) == (if n < 10 then [] else Decimal(n / 10)) + [Digit(n % 10)]
  {
  }

  lemma {:induction false} ValueOfDecimal(n: nat)
    ensures AllDigits(Decimal(n)) && Value(Decimal(n)) == n
  {
    hide Decimal, Value;
    var init, d := if n < 10 then [] else Decimal(n / 10), n % 10;
    DecimalIs(n);
    ValueOfNothing();
    if n >= 10 {
      ValueOfDecimal(n / 10);
    }
    ValueOfAppend(init, Digit(d));
    assert Value(init) == n / 10;
  }

  /** An event's id, sent back as either, resumes behind that event; a cursor wins over
      a header, even over a malformed one; with neither, the whole log is replayed. */
  lemma IdsResume(n: nat, other: Option<string>)
    requires n <= I64_MAX
    ensures ParseCursor(Some(Decimal(n)), other) == Ok(n)
    ensures ParseCursor(None, Some(Decimal(n))) == Ok(n)
    ensures ParseCursor(None, None) == Ok(0)
  {
    hide Decimal, Value;
    ValueOfDecimal(n);
    ValueOfDecimal(0);
    DecimalIs(0);
    assert Decimal(n)[0] in Decimal(n);
    assert Decimal(0) == "0";
  }

  /** What is accepted: digits with an optional sign whose value is not negative and
      fits; a minus sign only on zero. */
  lemma AcceptedExactly(raw: string, lastEventId: Option<string>)
    ensures
      var r := ParseCursor(Some(raw), lastEventId);
      var signed := raw != [] && (raw[0] == '+' || raw[0] == '-');
      var digits := if signed then raw[1..] else raw;
      && (r.Ok? <==> AllDigits(digits) && Value(digits) <= (if signed && raw[0] == '-' then 0 else 9_223_372_036_854_775_807))
      && (r.Ok? ==> r.value == Value(digits))
  {
  }
}
