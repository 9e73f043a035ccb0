/**
 * Percent-decoding of a captured path segment, as `decodeURIComponent` does it
 * (section 2.1 of RFC 3986), restricted to escapes that stand for one ASCII
 * character: `%XY` with XY a hexadecimal pair below 0x80. Any other `%` is a
 * malformed escape and decoding fails.
 */
module Percent {
  import opened Wrappers

  predicate IsHex(c: char) {
    ('0' <= c <= '9') || ('A' <= c <= 'F') || ('a' <= c <= 'f')
  }

  function HexValue(c: char): (v: nat)
    requires IsHex(c)
    ensures v < 16
  {
    if c <= '9' then c as nat - '0' as nat
    else if c <= 'F' then c as nat - 'A' as nat + 10
    else c as nat - 'a' as nat + 10
  }

  /** The upper-case hexadecimal digit for `v`. */
  function HexDigit(v: nat): (c: char)
    requires v < 16
    ensures IsHex(c) && HexValue(c) == v
  {
    if v < 10 then (48 + v) as char else (55 + v) as char
  }

  /** A well-formed single-character escape starts at position `i`. */
  predicate EscapeAt(s: string, i: nat) {
    i + 2 < |s| && s[i] == '%' && IsHex(s[i + 1]) && IsHex(s[i + 2]) && HexValue(s[i + 1]) < 8
  }

  /** The character escape `i` stands for. */
  function Escaped(s: string, i: nat): (c: char)
    requires EscapeAt(s, i)
    ensures (c as nat) < 128
  {
    (16 * HexValue(s[i + 1]) + HexValue(s[i + 2])) as char
  }

  /** Every `%` in `s` starts a well-formed escape. */
  predicate WellEscaped(s: string) {
    forall i :: 0 <= i < |s| && s[i] == '%' ==> EscapeAt(s, i)
  }

  /** `decodeURIComponent`, failing (None) on a malformed escape. */
  function Decode(s: string): (r: Option<string>)
    decreases |s|
  {
    if s == [] then Some([])
    else if s[0] != '%' then
      var rest := Decode(s[1..]);
      if rest.None? then None else Some([s[0]] + rest.value)
    else if EscapeAt(s, 0) then
      var rest := Decode(s[3..]);
      if rest.None? then None else Some([Escaped(s, 0)] + rest.value)
    else None
  }

  lemma WellEscapedPlain(s: string)
    requires s != [] && s[0] != '%'
    ensures WellEscaped(s) <==> WellEscaped(s[1..])
  {
    if WellEscaped(s) {
      forall i | 0 <= i < |s[1..]| && s[1..][i] == '%' ensures EscapeAt(s[1..], i) {
        assert EscapeAt(s, i + 1);
      }
    }
    if WellEscaped(s[1..]) {
      forall i | 0 <= i < |s| && s[i] == '%' ensures EscapeAt(s, i) {
        assert EscapeAt(s[1..], i - 1);
      }
    }
  }

  lemma WellEscapedEscape(s: string)
    requires EscapeAt(s, 0)
    ensures WellEscaped(s) <==> WellEscaped(s[3..])
  {
    if WellEscaped(s) {
      forall i | 0 <= i < |s[3..]| && s[3..][i] == '%' ensures EscapeAt(s[3..], i) {
        assert EscapeAt(s, i + 3);
      }
    }
    if WellEscaped(s[3..]) {
      forall i | 0 <= i < |s| && s[i] == '%' ensures EscapeAt(s, i) {
        if i >= 3 { assert EscapeAt(s[3..], i - 3); }
      }
    }
  }

  /** Decoding succeeds exactly when every `%` starts a well-formed escape. */
  lemma {:induction false} DecodeSucceedsIff(s: string)
    ensures Decode(s).Some? <==> WellEscaped(s)
    decreases |s|
  {
    if s == [] {
    } else if s[0] != '%' {
      DecodeSucceedsIff(s[1..]);
      WellEscapedPlain(s);
    } else if EscapeAt(s, 0) {
      DecodeSucceedsIff(s[3..]);
      WellEscapedEscape(s);
    } else {
      assert !EscapeAt(s, 0);
    }
  }

  /** Text without a `%` decodes to itself. */
  lemma {:induction false} DecodeVerbatim(s: string)
    requires '%' !in s
    ensures Decode(s) == Some(s)
    decreases |s|
  {
    if s != [] {
      assert '%' !in s[1..];
      DecodeVerbatim(s[1..]);
      assert [s[0]] + s[1..] == s;
    }
  }

  /** Decoding works piece by piece: a well-escaped prefix decodes on its own. */
  lemma {:induction false} DecodeConcat(a: string, b: string)
    requires WellEscaped(a)
    ensures Decode(a).Some?
    ensures Decode(a + b) == if Decode(b).None? then None else Some(Decode(a).value + Decode(b).value)
    decreases |a|
  {
    DecodeSucceedsIff(a);
    if a == [] {
      assert a + b == b && Decode(a) == Some([]);
      if Decode(b).Some? { assert [] + Decode(b).value == Decode(b).value; }
    } else if a[0] != '%' {
      WellEscapedPlain(a);
      DecodeConcat(a[1..], b);
      assert (a + b)[1..] == a[1..] + b && (a + b)[0] == a[0];
      if Decode(b).Some? {
        var x, y := Decode(a[1..]).value, Decode(b).value;
        assert [a[0]] + (x + y) == ([a[0]] + x) + y;
      }
    } else {
      assert EscapeAt(a, 0);
      WellEscapedEscape(a);
      DecodeConcat(a[3..], b);
      assert (a + b)[3..] == a[3..] + b;
      assert EscapeAt(a + b, 0) && Escaped(a + b, 0) == Escaped(a, 0);
      if Decode(b).Some? {
        var x, y := Decode(a[3..]).value, Decode(b).value;
        assert [Escaped(a, 0)] + (x + y) == ([Escaped(a, 0)] + x) + y;
      }
    }
  }

  /** A decoded value is never longer than its escaped form. */
  lemma {:induction false} DecodeShrinks(s: string)
    requires Decode(s).Some?
    ensures |Decode(s).value| <= |s|
    decreases |s|
  {
    if s != [] {
      if s[0] != '%' { DecodeShrinks(s[1..]); } else { DecodeShrinks(s[3..]); }
    }
  }

  /** The characters `encodeURIComponent` leaves as they are. */
  predicate Unreserved(c: char) {
    ('A' <= c <= 'Z') || ('a' <= c <= 'z') || ('0' <= c <= '9') || c in "-_.!~*'()"
  }

  predicate Ascii(s: string) {
    forall i :: 0 <= i < |s| ==> (s[i] as nat) < 128
  }

  /** `encodeURIComponent` on ASCII text: every reserved character becomes `%XY`. */
  function Encode(s: string): (r: string)
    requires Ascii(s)
    ensures WellEscaped(r)
    decreases |s|
  {
    if s == [] then []
    else
      var head := if Unreserved(s[0]) then [s[0]]
                  else ['%', HexDigit(s[0] as nat / 16), HexDigit(s[0] as nat % 16)];
      assert Ascii(s[1..]) by { assert forall i :: 0 <= i < |s[1..]| ==> s[1..][i] == s[i + 1]; }
      var r := head + Encode(s[1..]);
      assert WellEscaped(r) by {
        forall i | 0 <= i < |r| && r[i] == '%' ensures EscapeAt(r, i) {
          if i >= |head| {
            assert r[|head|..] == Encode(s[1..]);
            assert EscapeAt(Encode(s[1..]), i - |head|);
          }
        }
      }
      r
  }

  /** Decoding undoes encoding: the round trip of every ASCII value. */
  lemma {:induction false} DecodeEncode(s: string)
    requires Ascii(s)
    ensures Decode(Encode(s)) == Some(s)
    decreases |s|
  {
    if s != [] {
      assert Ascii(s[1..]) by { assert forall i :: 0 <= i < |s[1..]| ==> s[1..][i] == s[i + 1]; }
      DecodeEncode(s[1..]);
      var e := Encode(s);
      if Unreserved(s[0]) {
        assert e[1..] == Encode(s[1..]);
        assert e[0] == s[0];
      } else {
        var n := s[0] as nat;
        assert e[3..] == Encode(s[1..]);
        assert HexValue(e[1]) == n / 16 && HexValue(e[2]) == n % 16;
        assert EscapeAt(e, 0);
        assert Escaped(e, 0) == s[0];
      }
      assert [s[0]] + s[1..] == s;
    }
  }
}
