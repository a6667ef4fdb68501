/** The string helpers the program takes from Go's strings package. */
module Strings {
  /** unicode.IsSpace. */
  predicate IsSpace(c: char) {
    || ('\t' <= c <= '\r') || c == ' ' || c == '\U{85}' || c == '\U{A0}' || c == '\U{1680}'
    || ('\U{2000}' <= c <= '\U{200A}') || c == '\U{2028}' || c == '\U{2029}' || c == '\U{202F}'
    || c == '\U{205F}' || c == '\U{3000}'
  }

  predicate Blank(s: string) { forall i :: 0 <= i < |s| ==> IsSpace(s[i]) }

  /** No white space at either end. */
  predicate Trimmed(s: string) { s == "" || (!IsSpace(s[0]) && !IsSpace(s[|s| - 1])) }

  function TrimSpace(s: string): (t: string)
    ensures Trimmed(t)
  {
    if s == "" then s
    else if IsSpace(s[0]) then TrimSpace(s[1..])
    else if IsSpace(s[|s| - 1]) then TrimSpace(s[..|s| - 1])
    else s
  }

  /** Trimming takes white space off the ends, and nothing else. */
  lemma {:induction false} TrimShape(s: string) returns (before: string, after: string)
    ensures s == before + TrimSpace(s) + after && Blank(before) && Blank(after)
  {
    before, after := "", "";
    if s != "" {
      if IsSpace(s[0]) {
        before, after := TrimShape(s[1..]);
        before := OneMore(s, before, after);
      } else if IsSpace(s[|s| - 1]) {
        before, after := TrimShape(s[..|s| - 1]);
        after := after + s[|s| - 1..];
      }
    }
  }

  lemma OneMore(s: string, rest: string, after: string) returns (before: string)
    requires s != "" && IsSpace(s[0]) && s[1..] == rest + TrimSpace(s[1..]) + after && Blank(rest)
    ensures s == before + TrimSpace(s) + after && Blank(before)
  {
    before := [s[0]] + rest;
    assert s == [s[0]] + s[1..];
  }

  lemma TrimFixed(s: string)
    requires Trimmed(s)
    ensures TrimSpace(s) == s
  {
  }

  /** Trimming leaves nothing exactly when there was nothing but white space. */
  lemma {:induction false} TrimEmpty(s: string)
    ensures TrimSpace(s) == "" <==> Blank(s)
  {
    if s != "" {
      if IsSpace(s[0]) {
        TrimEmpty(s[1..]);
        assert Blank(s) <==> Blank(s[1..]) by {
          assert forall i :: 1 <= i < |s| ==> s[i] == s[1..][i - 1];
          assert forall i :: 0 <= i < |s| - 1 ==> s[1..][i] == s[i + 1];
        }
      } else if IsSpace(s[|s| - 1]) {
        TrimEmpty(s[..|s| - 1]);
        assert s[..|s| - 1][0] == s[0];
      }
    }
  }

  function LowerChar(c: char): char {
    if 'A' <= c <= 'Z' then c - 'A' + 'a' else c
  }

  function ToLower(s: string): (t: string)
    ensures |t| == |s| && forall i :: 0 <= i < |s| ==> t[i] == LowerChar(s[i])
  {
    seq(|s|, i requires 0 <= i < |s| => LowerChar(s[i]))
  }

  predicate HexChar(c: char) { '0' <= c <= '9' || 'a' <= c <= 'f' || 'A' <= c <= 'F' }

  /** Accepted by hex.DecodeString as 32 bytes. */
  predicate Hex64(s: string) { |s| == 64 && forall i :: 0 <= i < 64 ==> HexChar(s[i]) }

  predicate LowerHex(s: string) { forall i :: 0 <= i < |s| ==> '0' <= s[i] <= '9' || 'a' <= s[i] <= 'f' }

  /** A SHA-256 digest as hex.EncodeToString prints it. */
  predicate Digest(s: string) { |s| == 64 && LowerHex(s) }
}
