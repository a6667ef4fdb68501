/** UTF-8 well-formedness (section 4 of RFC 3629) and the truncation applied to
    every result text before it is stored. */
module Utf8 {
  type byte = b: int | 0 <= b < 256
  type Bytes = seq<byte>

  /** Unicode scalar values: code points that are not surrogates. */
  predicate Scalar(c: int) {
    0 <= c < 0xD800 || 0xE000 <= c < 0x110000
  }

  /** The UTF-8 encoding of one scalar value. */
  function Encode(c: int): (e: Bytes)
    requires Scalar(c)
    ensures 1 <= |e| <= 4
  {
    if c < 0x80 then [c]
    else if c < 0x800 then [0xC0 + c / 64, 0x80 + c % 64]
    else if c < 0x10000 then [0xE0 + c / 4096, 0x80 + c / 64 % 64, 0x80 + c % 64]
    else [0xF0 + c / 262144, 0x80 + c / 4096 % 64, 0x80 + c / 64 % 64, 0x80 + c % 64]
  }

  /** The encoding of a text. */
  function EncodeAll(text: seq<int>): Bytes
    requires forall i :: 0 <= i < |text| ==> Scalar(text[i])
  {
    if text == [] then [] else Encode(text[0]) + EncodeAll(text[1..])
  }

  /** The bytes of a text literal. */
  function Text(s: string): Bytes {
    EncodeAll(seq(|s|, i requires 0 <= i < |s| => s[i] as int))
  }

  function ByteLen(s: string): nat { |Text(s)| }

  predicate Tail(b: int) { 0x80 <= b <= 0xBF }

  /** Length of the well-formed sequence that starts `s`, or 0 when none does:
      the ABNF of RFC 3629, which excludes overlong forms and surrogates. */
  function Lead(s: Bytes): (n: nat)
    ensures n <= |s| && n <= 4
  {
    if |s| >= 1 && s[0] < 0x80 then 1
    else if |s| >= 2 && 0xC2 <= s[0] <= 0xDF && Tail(s[1]) then 2
    else if |s| >= 3 && Tail(s[2]) &&
            ((s[0] == 0xE0 && 0xA0 <= s[1] <= 0xBF) || (0xE1 <= s[0] <= 0xEC && Tail(s[1])) ||
             (s[0] == 0xED && 0x80 <= s[1] <= 0x9F) || (0xEE <= s[0] <= 0xEF && Tail(s[1]))) then 3
    else if |s| >= 4 && Tail(s[2]) && Tail(s[3]) &&
            ((s[0] == 0xF0 && 0x90 <= s[1] <= 0xBF) || (0xF1 <= s[0] <= 0xF3 && Tail(s[1])) ||
             (s[0] == 0xF4 && 0x80 <= s[1] <= 0x8F)) then 4
    else 0
  }

  /** The check the program makes with utf8.ValidString. */
  predicate Valid(s: Bytes)
    decreases |s|
  {
    s == [] || (Lead(s) > 0 && Valid(s[Lead(s)..]))
  }

  /** The scalar value that a well-formed leading sequence encodes. */
  function LeadScalar(s: Bytes): (c: int)
    requires Lead(s) > 0
    ensures Scalar(c)
  {
    var b: seq<int> := s;
    if Lead(s) == 1 then b[0]
    else if Lead(s) == 2 then (b[0] - 0xC0) * 64 + (b[1] - 0x80)
    else if Lead(s) == 3 then (b[0] - 0xE0) * 4096 + (b[1] - 0x80) * 64 + (b[2] - 0x80)
    else (b[0] - 0xF0) * 262144 + (b[1] - 0x80) * 4096 + (b[2] - 0x80) * 64 + (b[3] - 0x80)
  }

  /** Reading back the last base-64 digit. */
  lemma Digit(high: int, low: int)
    requires 0 <= low < 64
    ensures (high * 64 + low) / 64 == high && (high * 64 + low) % 64 == low
  {
  }

  lemma LeadEncodes4(s: Bytes)
    requires Lead(s) == 4
    ensures Encode(LeadScalar(s)) == s[..4]
  {
    var c, b: seq<int> := LeadScalar(s), s;
    var top, mid, next, low := b[0] - 0xF0, b[1] - 0x80, b[2] - 0x80, b[3] - 0x80;
    assert c == ((top * 64 + mid) * 64 + next) * 64 + low;
    Digit((top * 64 + mid) * 64 + next, low);
    Digit(top * 64 + mid, next);
    Digit(top, mid);
    assert c / 4096 == top * 64 + mid;
    assert c / 262144 == top;
  }

  lemma LeadEncodes(s: Bytes)
    requires Lead(s) > 0
    ensures Encode(LeadScalar(s)) == s[..Lead(s)]
  {
    var c, b: seq<int> := LeadScalar(s), s;
    if Lead(s) == 2 {
      Digit(b[0] - 0xC0, b[1] - 0x80);
    } else if Lead(s) == 3 {
      var top, mid, low := b[0] - 0xE0, b[1] - 0x80, b[2] - 0x80;
      assert c == (top * 64 + mid) * 64 + low;
      Digit(top * 64 + mid, low);
      Digit(top, mid);
      assert c / 4096 == top;
    } else if Lead(s) == 4 {
      LeadEncodes4(s);
    }
  }

  lemma EncodeLeads(c: int, rest: Bytes)
    requires Scalar(c)
    ensures Lead(Encode(c) + rest) == |Encode(c)|
    ensures (Encode(c) + rest)[|Encode(c)|..] == rest
  {
  }

  /** Decodes a valid byte string. */
  function Decode(s: Bytes): (text: seq<int>)
    requires Valid(s)
    ensures forall i :: 0 <= i < |text| ==> Scalar(text[i])
    decreases |s|
  {
    if s == [] then [] else [LeadScalar(s)] + Decode(s[Lead(s)..])
  }

  /** Valid means being the encoding of some text of scalar values: one direction... */
  lemma {:induction false} ValidIsEncoded(s: Bytes)
    requires Valid(s)
    ensures EncodeAll(Decode(s)) == s
    decreases |s|
  {
    if s != [] {
      LeadEncodes(s);
      ValidIsEncoded(s[Lead(s)..]);
      assert Decode(s)[1..] == Decode(s[Lead(s)..]);
    }
  }

  /** ...and the other. */
  lemma {:induction false} EncodedIsValid(text: seq<int>)
    requires forall i :: 0 <= i < |text| ==> Scalar(text[i])
    ensures Valid(EncodeAll(text))
  {
    if text != [] {
      EncodeLeads(text[0], EncodeAll(text[1..]));
      EncodedIsValid(text[1..]);
    }
  }

  lemma {:induction false} ValidAppend(a: Bytes, b: Bytes)
    requires Valid(a) && Valid(b)
    ensures Valid(a + b)
    decreases |a|
  {
    if a == [] {
      assert a + b == b;
    } else {
      var n := Lead(a);
      assert (a + b)[n..] == a[n..] + b;
      ValidAppend(a[n..], b);
    }
  }

  /** In a valid text some character boundary lies at most three bytes before any position. */
  lemma {:induction false} BoundaryNear(s: Bytes, k: nat) returns (m: nat)
    requires Valid(s) && k <= |s|
    ensures m <= k <= m + 3 && Valid(s[..m])
    decreases |s|
  {
    if s == [] || k < Lead(s) {
      m := 0;
    } else {
      var n := Lead(s);
      var t := BoundaryNear(s[n..], k - n);
      m := t + n;
      assert s[..m] == s[..n] + s[n..][..t];
      assert Lead(s[..n]) == n && s[..n][n..] == [];
      ValidAppend(s[..n], s[n..][..t]);
    }
  }

  /** `r` is the longest valid prefix of `s` among those of at most `limit` bytes. */
  ghost predicate LongestValidPrefix(s: Bytes, limit: nat, r: Bytes) {
    r <= s && |r| <= limit && Valid(r) &&
    forall m :: |r| < m <= limit && m <= |s| ==> !Valid(s[..m])
  }

  /** What BoundedText returns. */
  function Bounded(s: Bytes, limit: int): (r: Bytes)
    ensures r <= s
  {
    if limit <= 0 || |s| <= limit then s else Shrink(s[..limit])
  }

  function Shrink(s: Bytes): (r: Bytes)
    ensures r <= s && Valid(r)
    decreases |s|
  {
    if |s| > 0 && !Valid(s) then Shrink(s[..|s|-1]) else s
  }

  lemma {:induction false} ShrinkKeeps(s: Bytes, m: nat)
    requires m <= |s| && Valid(s[..m])
    ensures m <= |Shrink(s)|
    decreases |s|
  {
    if m == |s| {
      assert s[..m] == s;
    } else if !Valid(s) {
      assert s[..|s|-1][..m] == s[..m];
      ShrinkKeeps(s[..|s|-1], m);
    }
  }

  /** A text over its limit is cut to its longest valid prefix within the limit. */
  lemma BoundedIsLongestValidPrefix(s: Bytes, limit: int)
    requires 0 < limit < |s|
    ensures LongestValidPrefix(s, limit, Bounded(s, limit))
  {
    forall m | 0 <= m <= limit && Valid(s[..m]) ensures m <= |Bounded(s, limit)| {
      assert s[..limit][..m] == s[..m];
      ShrinkKeeps(s[..limit], m);
    }
  }

  /** Cutting twice cuts once: re-applying the bound when a gated result is stored changes nothing. */
  lemma BoundedIdempotent(s: Bytes, limit: int)
    ensures Bounded(Bounded(s, limit), limit) == Bounded(s, limit)
    ensures limit > 0 ==> |Bounded(s, limit)| <= limit
  {
  }

  /** Of a valid text at most three bytes below the limit are lost, and what is kept is valid. */
  lemma BoundedDropsAtMostThree(s: Bytes, limit: int)
    requires Valid(s) && 0 < limit < |s|
    ensures limit - 3 <= |Bounded(s, limit)| <= limit
    ensures Valid(Bounded(s, limit))
  {
    var m := BoundaryNear(s, limit);
    assert s[..limit][..m] == s[..m];
    ShrinkKeeps(s[..limit], m);
  }

  method BoundedText(value: Bytes, limit: int) returns (r: Bytes)
    ensures r == Bounded(value, limit)
    ensures 0 < limit < |value| ==> LongestValidPrefix(value, limit, r)
  {
    if limit <= 0 || |value| <= limit {
      return value;
    }
    r := value[..limit];
    while |r| > 0 && !Valid(r)
      invariant r <= value[..limit]
      invariant Shrink(r) == Bounded(value, limit)
    {
      r := r[..|r|-1];
    }
    BoundedIsLongestValidPrefix(value, limit);
  }
}
