/**
 * The string form of a request path (`PathString`'s implicit conversion to
 * string, i.e. `ToUriComponent`): empty when the path has no value, and
 * otherwise the path with every character that may not appear in a URI path
 * percent-escaped as its UTF-8 bytes, while characters that may appear, and
 * escapes already present (`%` and two hex digits), are kept as they are.
 */
module PathString {
  import opened Wrappers

  /** The characters a URI path may hold unescaped: unreserved characters, sub-delimiters, `:`, `@` and `/`. */
  predicate IsValidPathChar(c: char) {
    ('a' <= c <= 'z') || ('A' <= c <= 'Z') || ('0' <= c <= '9') || c in "-._~!$&'()*+,;=:@/"
  }

  predicate IsHexChar(c: char) {
    ('0' <= c <= '9') || ('a' <= c <= 'f') || ('A' <= c <= 'F')
  }

  /** A `%` at `i` followed by two hex digits. */
  predicate IsPercentEncodedAt(s: string, i: nat) {
    i + 2 < |s| && s[i] == '%' && IsHexChar(s[i + 1]) && IsHexChar(s[i + 2])
  }

  /** An upper-case hex digit. */
  function HexDigit(d: int): (c: char)
    requires 0 <= d < 16
    ensures IsHexChar(c) && IsValidPathChar(c)
  {
    if d < 10 then ('0' as int + d) as char else ('A' as int + d - 10) as char
  }

  /** The UTF-8 encoding of one character. */
  function Utf8(c: char): (bytes: seq<int>)
    ensures 1 <= |bytes| <= 4
    ensures forall i :: 0 <= i < |bytes| ==> 0 <= bytes[i] < 256
    ensures c as int < 0x80 <==> bytes == [c as int]
  {
    var n := c as int;
    if n < 0x80 then [n]
    else if n < 0x800 then [0xC0 + n / 0x40, 0x80 + n % 0x40]
    else if n < 0x1_0000 then [0xE0 + n / 0x1000, 0x80 + (n / 0x40) % 0x40, 0x80 + n % 0x40]
    else [0xF0 + n / 0x4_0000 % 8, 0x80 + (n / 0x1000) % 0x40, 0x80 + (n / 0x40) % 0x40, 0x80 + n % 0x40]
  }

  /** Percent-escapes of a byte sequence, `%XY` per byte. */
  function PercentBytes(bytes: seq<int>): (r: string)
    requires forall i :: 0 <= i < |bytes| ==> 0 <= bytes[i] < 256
    ensures |r| == 3 * |bytes|
  {
    if bytes == [] then []
    else ['%', HexDigit(bytes[0] / 16), HexDigit(bytes[0] % 16)] + PercentBytes(bytes[1..])
  }

  /** `Uri.EscapeDataString` of one character that may not appear in a path. */
  function PercentEncode(c: char): (r: string)
    ensures 3 <= |r| <= 12
  {
    PercentBytes(Utf8(c))
  }

  /** The escaping scan over a path value. */
  function Escaped(s: string): string
    decreases |s|
  {
    if s == [] then []
    else if IsPercentEncodedAt(s, 0) then s[..3] + Escaped(s[3..])
    else if IsValidPathChar(s[0]) then [s[0]] + Escaped(s[1..])
    else PercentEncode(s[0]) + Escaped(s[1..])
  }

  /** `ToUriComponent` of a path whose `Value` is `value`: a missing or empty value gives the empty string. */
  function ToUriComponent(value: Option<string>): (r: string)
    ensures value.None? || value == Some("") ==> r == ""
  {
    if value.None? || value.value == "" then "" else Escaped(value.value)
  }

  // ---------------------------------------------------------------- properties

  /** A path made only of path characters is its own string form. */
  lemma {:induction false} ValidPathUnchanged(s: string)
    requires forall i :: 0 <= i < |s| ==> IsValidPathChar(s[i])
    ensures Escaped(s) == s
    decreases |s|
  {
    if s != [] {
      assert !IsPercentEncodedAt(s, 0);
      ValidPathUnchanged(s[1..]);
      assert s == [s[0]] + s[1..];
    }
  }

  /** Escaping is idempotent: the string form of a path is already in escaped form. */
  lemma {:induction false} EscapedIsFixed(s: string)
    ensures Escaped(Escaped(s)) == Escaped(s)
    decreases |s|
  {
    if s != [] {
      EscapedIsFixed(if IsPercentEncodedAt(s, 0) then s[3..] else s[1..]);
      if IsPercentEncodedAt(s, 0) {
        KeptEscapeIsFixed(s[..3], Escaped(s[3..]));
      } else if IsValidPathChar(s[0]) {
        KeptCharIsFixed(s[0], Escaped(s[1..]));
      } else {
        PercentBytesAreFixed(Utf8(s[0]), Escaped(s[1..]));
      }
    }
  }

  /** An escape in front is kept as it is. */
  lemma KeptEscapeIsFixed(e: string, t: string)
    requires |e| == 3 && IsPercentEncodedAt(e, 0)
    ensures Escaped(e + t) == e + Escaped(t)
  {
    var s := e + t;
    assert IsPercentEncodedAt(s, 0);
    assert s[..3] == e && s[3..] == t;
  }

  /** A path character in front is kept as it is. */
  lemma KeptCharIsFixed(c: char, t: string)
    requires IsValidPathChar(c)
    ensures Escaped([c] + t) == [c] + Escaped(t)
  {
    var s := [c] + t;
    assert s[0] == c && s[1..] == t;
  }

  /** Escaped bytes in front are kept as they are. */
  lemma {:induction false} PercentBytesAreFixed(bytes: seq<int>, t: string)
    requires forall i :: 0 <= i < |bytes| ==> 0 <= bytes[i] < 256
    ensures Escaped(PercentBytes(bytes) + t) == PercentBytes(bytes) + Escaped(t)
    decreases |bytes|
  {
    if bytes != [] {
      var e := ['%', HexDigit(bytes[0] / 16), HexDigit(bytes[0] % 16)];
      var rest := PercentBytes(bytes[1..]);
      assert PercentBytes(bytes) == e + rest;
      calc {
        Escaped(PercentBytes(bytes) + t);
        { assert PercentBytes(bytes) + t == e + (rest + t); }
        Escaped(e + (rest + t));
        { KeptEscapeIsFixed(e, rest + t); }
        e + Escaped(rest + t);
        { PercentBytesAreFixed(bytes[1..], t); }
        e + (rest + Escaped(t));
        PercentBytes(bytes) + Escaped(t);
      }
    } else {
      assert PercentBytes(bytes) + t == t;
      assert PercentBytes(bytes) + Escaped(t) == Escaped(t);
    }
  }

  /** A space is escaped as `%20`, and an empty path is the empty string. */
  lemma SpaceIsEscaped()
    ensures ToUriComponent(Some("/a b")) == "/a%20b"
    ensures ToUriComponent(Some("")) == "" && ToUriComponent(None) == ""
  {
    assert Escaped("b") == "b";
    assert Escaped(" b") == "%20b";
    assert Escaped("a b") == "a%20b";
  }
}
