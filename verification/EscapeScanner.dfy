/** The scan that rejects malformed Unicode escapes before JSON is decoded
    (section 7 of RFC 8259, section 2.2 of RFC 2781). */
module EscapeScanner {
  import opened Prelude
  import opened Utf8

  const QUOTE: byte := 0x22
  const BACKSLASH: byte := 0x5C
  const LOWER_U: byte := 0x75

  function HexDigit(b: int): Option<int> {
    if 0x30 <= b <= 0x39 then Some(b - 0x30)
    else if 0x41 <= b <= 0x46 then Some(b - 0x41 + 10)
    else if 0x61 <= b <= 0x66 then Some(b - 0x61 + 10)
    else None
  }

  /** strconv.ParseUint(text, 16, 16) on four bytes. */
  function ParseHex4(s: Bytes): (n: Option<int>)
    requires |s| == 4
    ensures n.Some? ==> 0 <= n.value < 0x10000
  {
    var a, b, c, d := HexDigit(s[0]), HexDigit(s[1]), HexDigit(s[2]), HexDigit(s[3]);
    if a.Some? && b.Some? && c.Some? && d.Some?
    then Some(a.value * 4096 + b.value * 256 + c.value * 16 + d.value)
    else None
  }

  /** The byte writes this digit, in lower case or as a capital. */
  predicate Writes(b: byte, v: nat)
    requires v < 16
  {
    b as char == "0123456789abcdef"[v] || b as char == "0123456789ABCDEF"[v]
  }

  lemma DigitsExactly(b: byte, v: nat)
    requires v < 16
    ensures HexDigit(b) == Some(v) <==> Writes(b, v)
  {
  }

  lemma DigitBounds(b: byte)
    ensures HexDigit(b).Some? ==> 0 <= HexDigit(b).value < 16
  {
  }

  /** Four bytes are read as the number whose hexadecimal digits they write, in either case... */
  lemma Hex4Reads(s: Bytes, a: nat, b: nat, c: nat, d: nat)
    requires |s| == 4 && a < 16 && b < 16 && c < 16 && d < 16
    requires Writes(s[0], a) && Writes(s[1], b) && Writes(s[2], c) && Writes(s[3], d)
    ensures ParseHex4(s) == Some(a * 4096 + b * 256 + c * 16 + d)
  {
    hide HexDigit, Writes;
    DigitsExactly(s[0], a);
    DigitsExactly(s[1], b);
    DigitsExactly(s[2], c);
    DigitsExactly(s[3], d);
  }

  /** ...and as no number if one of them writes no digit. */
  lemma Hex4Refuses(s: Bytes, i: nat)
    requires |s| == 4 && i < 4 && forall v: nat :: v < 16 ==> !Writes(s[i], v)
    ensures ParseHex4(s) == None
  {
    hide HexDigit, Writes;
    DigitBounds(s[i]);
    if HexDigit(s[i]).Some? {
      DigitsExactly(s[i], HexDigit(s[i]).value);
    }
  }

  predicate High(n: int) { 0xD800 <= n <= 0xDBFF }
  predicate Low(n: int) { 0xDC00 <= n <= 0xDFFF }

  // ---- What the text means ----

  datatype Token = Quote | Plain(b: byte) | Escaped(b: byte) | Code(unit: int)

  /** Splits raw JSON text into tokens. There is no result when a string is left
      open, a backslash ends the text, or a \u has not four hexadecimal digits. */
  function Lex(s: Bytes, inString: bool): Option<seq<Token>>
    decreases |s|
  {
    if s == [] then (if inString then None else Some([]))
    else if s[0] == QUOTE then Cons(Quote, Lex(s[1..], !inString))
    else if !inString || s[0] != BACKSLASH then Cons(Plain(s[0]), Lex(s[1..], inString))
    else if |s| < 2 then None
    else if s[1] != LOWER_U then Cons(Escaped(s[1]), Lex(s[2..], inString))
    else if |s| < 6 || ParseHex4(s[2..6]).None? then None
    else Cons(Code(ParseHex4(s[2..6]).value), Lex(s[6..], inString))
  }

  function Cons(t: Token, rest: Option<seq<Token>>): Option<seq<Token>> {
    if rest.None? then None else Some([t] + rest.value)
  }

  /** A decoded escape: a scalar value, or the replacement character that
      encoding/json silently substitutes for an unpaired surrogate. */
  datatype Char = Rune(c: int) | Replaced

  /** How encoding/json decodes the \u escapes of a token list. */
  function DecodeEscapes(ts: seq<Token>): seq<Char>
    decreases |ts|
  {
    if ts == [] then []
    else if !ts[0].Code? then DecodeEscapes(ts[1..])
    else
      var n := ts[0].unit;
      if !High(n) && !Low(n) then [Rune(n)] + DecodeEscapes(ts[1..])
      else if High(n) && |ts| > 1 && ts[1].Code? && Low(ts[1].unit) then
        [Rune((n - 0xD800) * 0x400 + (ts[1].unit - 0xDC00) + 0x10000)] + DecodeEscapes(ts[2..])
      else [Replaced] + DecodeEscapes(ts[1..])
  }

  /** Surrogates occur only as adjacent high-low pairs. */
  ghost predicate Paired(ts: seq<Token>) {
    && (forall k :: 0 <= k < |ts| && ts[k].Code? && High(ts[k].unit) ==>
          k + 1 < |ts| && ts[k + 1].Code? && Low(ts[k + 1].unit))
    && (forall k :: 0 <= k < |ts| && ts[k].Code? && Low(ts[k].unit) ==>
          0 < k && ts[k - 1].Code? && High(ts[k - 1].unit))
  }

  // ---- The scan ----

  /** Acceptance of the rest of the text, in the order in which the loop reads it. */
  predicate Accepts(s: Bytes, inString: bool)
    decreases |s|
  {
    if s == [] then !inString
    else if s[0] == QUOTE then Accepts(s[1..], !inString)
    else if !inString || s[0] != BACKSLASH then Accepts(s[1..], inString)
    else if |s| < 2 then false
    else if s[1] != LOWER_U then Accepts(s[2..], inString)
    else if |s| < 6 || ParseHex4(s[2..6]).None? then false
    else
      var n := ParseHex4(s[2..6]).value;
      if Low(n) then false
      else if !High(n) then Accepts(s[6..], inString)
      else
        && |s| >= 12 && s[6] == BACKSLASH && s[7] == LOWER_U
        && ParseHex4(s[8..12]).Some? && Low(ParseHex4(s[8..12]).value)
        && Accepts(s[12..], inString)
  }

  ghost predicate NothingReplaced(chars: seq<Char>) {
    Replaced !in chars
  }

  /** The scan accepts exactly the texts whose strings are closed, whose escapes are
      complete, and in whose decoding nothing is replaced. */
  lemma {:induction false} AcceptsMeaning(s: Bytes, inString: bool)
    ensures Accepts(s, inString) <==>
            Lex(s, inString).Some? && NothingReplaced(DecodeEscapes(Lex(s, inString).value))
    decreases |s|
  {
    if s == [] {
    } else if s[0] == QUOTE {
      AcceptsMeaning(s[1..], !inString);
      ConsSkips(Quote, Lex(s[1..], !inString));
    } else if !inString || s[0] != BACKSLASH {
      AcceptsMeaning(s[1..], inString);
      ConsSkips(Plain(s[0]), Lex(s[1..], inString));
    } else if |s| < 2 {
    } else if s[1] != LOWER_U {
      AcceptsMeaning(s[2..], inString);
      ConsSkips(Escaped(s[1]), Lex(s[2..], inString));
    } else if |s| >= 6 && ParseHex4(s[2..6]).Some? {
      CodeMeaning(s, inString);
    }
  }

  lemma ConsSkips(t: Token, rest: Option<seq<Token>>)
    requires !t.Code?
    ensures rest.Some? ==> DecodeEscapes(Cons(t, rest).value) == DecodeEscapes(rest.value)
  {
    if rest.Some? {
      assert ([t] + rest.value)[1..] == rest.value;
    }
  }

  lemma {:induction false} CodeMeaning(s: Bytes, inString: bool)
    requires |s| >= 6 && inString && s[0] == BACKSLASH && s[1] == LOWER_U && ParseHex4(s[2..6]).Some?
    ensures Accepts(s, inString) <==>
            Lex(s, inString).Some? && NothingReplaced(DecodeEscapes(Lex(s, inString).value))
    decreases |s|, 0
  {
    var n, rest := ParseHex4(s[2..6]).value, Lex(s[6..], inString);
    if rest.Some? {
      assert ([Code(n)] + rest.value)[1..] == rest.value;
    }
    if !High(n) {
      AcceptsMeaning(s[6..], inString);
    } else if rest.Some? {
      if |s| >= 12 && s[6] == BACKSLASH && s[7] == LOWER_U {
        assert s[6..][2..6] == s[8..12];
        assert s[6..][6..] == s[12..];
        var low := ParseHex4(s[8..12]).value;
        assert rest.value == [Code(low)] + Lex(s[12..], inString).value;
        assert ([Code(n)] + rest.value)[2..] == Lex(s[12..], inString).value;
        AcceptsMeaning(s[12..], inString);
      } else {
        assert Replaced == DecodeEscapes([Code(n)] + rest.value)[0];
      }
    } else if |s| >= 12 && s[6] == BACKSLASH && s[7] == LOWER_U {
      assert s[6..][2..6] == s[8..12];
      assert s[6..][6..] == s[12..];
      AcceptsMeaning(s[12..], inString);
    }
  }

  predicate PairFirst(ts: seq<Token>) {
    |ts| > 1 && ts[0].Code? && High(ts[0].unit) && ts[1].Code? && Low(ts[1].unit)
  }

  predicate LoneFirst(ts: seq<Token>) {
    ts != [] && ts[0].Code? && (High(ts[0].unit) || Low(ts[0].unit)) && !PairFirst(ts)
  }

  lemma PairedStep(ts: seq<Token>)
    requires ts != []
    ensures Paired(ts) <==> if PairFirst(ts) then Paired(ts[2..]) else !LoneFirst(ts) && Paired(ts[1..])
  {
    if PairFirst(ts) {
      assert forall k :: 2 <= k < |ts| ==> ts[k] == ts[2..][k - 2];
      assert forall k :: 0 <= k < |ts| - 2 ==> ts[2..][k] == ts[k + 2];
    } else {
      assert forall k :: 1 <= k < |ts| ==> ts[k] == ts[1..][k - 1];
      assert forall k :: 0 <= k < |ts| - 1 ==> ts[1..][k] == ts[k + 1];
    }
  }

  lemma ReplacedStep(ts: seq<Token>)
    requires ts != []
    ensures NothingReplaced(DecodeEscapes(ts)) <==>
              if PairFirst(ts) then NothingReplaced(DecodeEscapes(ts[2..]))
                  else !LoneFirst(ts) && NothingReplaced(DecodeEscapes(ts[1..]))
  {
    if LoneFirst(ts) {
      assert DecodeEscapes(ts)[0] == Replaced;
    }
  }

  /** Nothing is replaced exactly when every surrogate belongs to an adjacent pair. */
  lemma {:induction false} PairedDecodes(ts: seq<Token>)
    ensures Paired(ts) <==> NothingReplaced(DecodeEscapes(ts))
    decreases |ts|
  {
    if ts != [] {
      hide Paired, NothingReplaced, DecodeEscapes;
      PairedStep(ts);
      ReplacedStep(ts);
      if PairFirst(ts) {
        PairedDecodes(ts[2..]);
      } else {
        PairedDecodes(ts[1..]);
      }
    }
  }

  lemma {:induction false} UnitsBounded(s: Bytes, inString: bool)
    requires Lex(s, inString).Some?
    ensures forall k :: 0 <= k < |Lex(s, inString).value| && Lex(s, inString).value[k].Code? ==>
              0 <= Lex(s, inString).value[k].unit < 0x10000
    decreases |s|
  {
    if s == [] {
    } else if s[0] == QUOTE {
      UnitsBounded(s[1..], !inString);
    } else if !inString || s[0] != BACKSLASH {
      UnitsBounded(s[1..], inString);
    } else if s[1] != LOWER_U {
      UnitsBounded(s[2..], inString);
    } else {
      UnitsBounded(s[6..], inString);
    }
  }

  lemma {:induction false} RunesAreScalars(ts: seq<Token>)
    requires forall k :: 0 <= k < |ts| && ts[k].Code? ==> 0 <= ts[k].unit < 0x10000
    ensures forall k :: 0 <= k < |DecodeEscapes(ts)| && DecodeEscapes(ts)[k].Rune? ==> Scalar(DecodeEscapes(ts)[k].c)
    decreases |ts|
  {
    if ts != [] {
      RunesAreScalars(ts[1..]);
      if |ts| > 1 {
        RunesAreScalars(ts[2..]);
      }
    }
  }

  /** Every escape of an accepted text decodes to a Unicode scalar value. */
  lemma AcceptedDecodesToScalars(s: Bytes)
    requires Accepts(s, false)
    ensures Lex(s, false).Some? && Paired(Lex(s, false).value)
    ensures forall k :: 0 <= k < |DecodeEscapes(Lex(s, false).value)| ==>
              DecodeEscapes(Lex(s, false).value)[k].Rune? && Scalar(DecodeEscapes(Lex(s, false).value)[k].c)
  {
    AcceptsMeaning(s, false);
    UnitsBounded(s, false);
    RunesAreScalars(Lex(s, false).value);
    PairedDecodes(Lex(s, false).value);
  }

  method ValidEscapes(raw: Bytes) returns (valid: bool)
    ensures valid <==> Lex(raw, false).Some? && Paired(Lex(raw, false).value)
  {
    AcceptsMeaning(raw, false);
    if Lex(raw, false).Some? {
      PairedDecodes(Lex(raw, false).value);
    }
    var inString := false;
    var i := 0;
    while i < |raw|
      invariant 0 <= i <= |raw|
      invariant Accepts(raw, false) == Accepts(raw[i..], inString)
    {
      ghost var rest := raw[i..];
      if raw[i] == QUOTE {
        inString := !inString;
        i := i + 1;
        continue;
      }
      if !inString || raw[i] != BACKSLASH {
        i := i + 1;
        continue;
      }
      i := i + 1;
      if i >= |raw| {
        return false;
      }
      if raw[i] != LOWER_U {
        i := i + 1;
        continue;
      }
      if i + 4 >= |raw| {
        return false;
      }
      assert raw[i+1..i+5] == rest[2..6];
      var n := ParseHex4(raw[i+1..i+5]);
      if n.None? {
        return false;
      }
      i := i + 4;
      if 0xDC00 <= n.value <= 0xDFFF {
        return false;
      }
      if 0xD800 <= n.value <= 0xDBFF {
        if i + 6 >= |raw| || raw[i+1] != BACKSLASH || raw[i+2] != LOWER_U {
          return false;
        }
        assert raw[i+3..i+7] == rest[8..12];
        var low := ParseHex4(raw[i+3..i+7]);
        if low.None? || low.value < 0xDC00 || low.value > 0xDFFF {
          return false;
        }
        i := i + 6;
      }
      i := i + 1;
    }
    return !inString;
  }
}
