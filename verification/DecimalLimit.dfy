/** The size check that runs on the digits of an integer literal, before the
    literal is decoded to 64 bits (section 6 of RFC 8259). */
module DecimalLimit {
  import opened Prelude

  datatype SizeError = InputTooLarge

  predicate Digit(c: char) { '0' <= c <= '9' }

  predicate AllDigits(s: string) { forall i :: 0 <= i < |s| ==> Digit(s[i]) }

  /** JSON integers have no leading zero. */
  predicate NoLeadingZero(s: string) { |s| > 1 ==> s[0] != '0' }

  function DigitValue(c: char): (v: nat)
    requires Digit(c)
    ensures v < 10
  {
    (c - '0') as int
  }

  /** The number a digit string denotes. */
  function Value(s: string): nat
    requires AllDigits(s)
  {
    if s == [] then 0 else Value(s[..|s|-1]) * 10 + DigitValue(s[|s|-1])
  }

  /** strconv.FormatInt(n, 10) for n >= 0. */
  function Format(n: nat): (s: string)
    ensures AllDigits(s) && |s| > 0
  {
    if n < 10 then ['0' + n as char] else Format(n / 10) + ['0' + (n % 10) as char]
  }

  lemma {:induction false} FormatDenotes(n: nat)
    ensures Value(Format(n)) == n
    ensures NoLeadingZero(Format(n))
    ensures n > 0 ==> Format(n)[0] != '0'
  {
    if n >= 10 {
      FormatDenotes(n / 10);
      var head := Format(n / 10);
      assert Format(n)[..|Format(n)|-1] == head;
    } else {
      assert Format(n)[..0] == [];
    }
  }

  function Pow10(k: nat): (p: nat)
    ensures p > 0
  {
    if k == 0 then 1 else 10 * Pow10(k - 1)
  }

  lemma {:induction false} ValueBelow(s: string)
    requires AllDigits(s)
    ensures Value(s) < Pow10(|s|)
  {
    if s != [] {
      ValueBelow(s[..|s|-1]);
    }
  }

  lemma {:induction false} ValueAtLeast(s: string)
    requires AllDigits(s) && |s| > 0 && s[0] != '0'
    ensures Value(s) >= Pow10(|s| - 1)
  {
    if |s| > 1 {
      ValueAtLeast(s[..|s|-1]);
    } else {
      assert s[..0] == [];
    }
  }

  /** Go's string comparison: lexicographic by character. */
  predicate Less(a: string, b: string) {
    b != [] && (a == [] || a[0] < b[0] || (a[0] == b[0] && Less(a[1..], b[1..])))
  }

  lemma TimesTen(x: int, p: int)
    ensures x * (10 * p) == 10 * (x * p)
  {
  }

  lemma {:induction false} ValueSplit(s: string)
    requires AllDigits(s) && |s| > 0
    ensures AllDigits(s[1..])
    ensures Value(s) == DigitValue(s[0]) * Pow10(|s| - 1) + Value(s[1..])
  {
    if |s| == 1 {
      assert s[..0] == [];
    } else {
      var init, tail := s[..|s|-1], s[1..];
      ValueSplit(init);
      assert init[1..] == tail[..|tail|-1];
      TimesTen(DigitValue(s[0]), Pow10(|s| - 2));
    }
  }

  lemma {:induction false} TimesMonotone(x: nat, y: nat, p: nat)
    requires x > y
    ensures x * p >= y * p + p
    decreases x
  {
    var less := x - 1;
    assert x * p == less * p + p by { TimesSuccessor(less, p); }
    if less > y {
      TimesMonotone(less, y, p);
    }
  }

  lemma TimesSuccessor(x: int, p: int)
    ensures (x + 1) * p == x * p + p
  {
  }

  /** On digit strings of one length, the lexicographic order is the numeric order. */
  lemma {:induction false} SameLengthOrder(a: string, b: string)
    requires AllDigits(a) && AllDigits(b) && |a| == |b|
    ensures Less(b, a) <==> Value(a) > Value(b)
  {
    if a != [] {
      ValueSplit(a);
      ValueSplit(b);
      SameLengthOrder(a[1..], b[1..]);
      ValueBelow(a[1..]);
      ValueBelow(b[1..]);
      var p, x, y := Pow10(|a| - 1), DigitValue(a[0]), DigitValue(b[0]);
      var restA, restB := Value(a[1..]), Value(b[1..]);
      assert |a[1..]| == |a| - 1;
      if x > y {
        TimesMonotone(x, y, p);
      } else if y > x {
        TimesMonotone(y, x, p);
      }
    }
  }

  lemma {:induction false} Pow10Monotone(i: nat, j: nat)
    requires i <= j
    ensures Pow10(i) <= Pow10(j)
  {
    if i < j {
      Pow10Monotone(i, j - 1);
    }
  }

  /** Comparing lengths and then digits compares the numbers. */
  lemma LengthThenDigits(value: string, limit: nat)
    requires AllDigits(value) && |value| > 0 && NoLeadingZero(value)
    ensures |value| > |Format(limit)| || (|value| == |Format(limit)| && Less(Format(limit), value)) <==>
        Value(value) > limit
  {
    var bound := Format(limit);
    FormatDenotes(limit);
    if |value| == |bound| {
      SameLengthOrder(value, bound);
    } else if |value| > |bound| {
      ValueAtLeast(value);
      ValueBelow(bound);
      Pow10Monotone(|bound|, |value| - 1);
    } else {
      ValueBelow(value);
      ValueAtLeast(bound);
      Pow10Monotone(|value|, |bound| - 1);
    }
  }

  /** The part of manifestSizeLimit after the literal of `size_bytes` has been cut out of
      the document: anything but a string of digits passes on to the typed decoder. */
  method ManifestSizeLimit(value: string, limit: nat) returns (r: Result<(), SizeError>)
    ensures value == "" || !AllDigits(value) ==> r.Ok?
    ensures value != "" && AllDigits(value) && NoLeadingZero(value) ==> (r.Err? <==> Value(value) > limit)
  {
    if value == "" {
      return Ok(());
    }
    var i := 0;
    while i < |value|
      invariant 0 <= i <= |value|
      invariant AllDigits(value[..i])
    {
      if value[i] < '0' || value[i] > '9' {
        assert !Digit(value[i]);
        return Ok(());
      }
      i := i + 1;
    }
    assert value[..i] == value;
    var bound := Format(limit);
    if NoLeadingZero(value) {
      LengthThenDigits(value, limit);
    }
    if |value| > |bound| || (|value| == |bound| && Less(bound, value)) {
      return Err(InputTooLarge);
    }
    return Ok(());
  }
}
