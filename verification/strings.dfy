/**
 * String operations the connector borrows from JavaScript: `toLowerCase`
 * (restricted to ASCII letters), `includes`, and `encodeURIComponent`.
 */
module Strings {

  function LowerChar(c: char): (r: char)
    ensures 'A' <= c <= 'Z' ==> r as int == c as int + 32
    ensures !('A' <= c <= 'Z') ==> r == c
  {
    if 'A' <= c <= 'Z' then (c as int + 32) as char else c
  }

  /** `s.toLowerCase()` on the ASCII letters; every other character is kept. */
  function Lower(s: string): (r: string)
    ensures |r| == |s|
    ensures forall i :: 0 <= i < |s| ==> r[i] == LowerChar(s[i])
  {
    seq(|s|, i requires 0 <= i < |s| => LowerChar(s[i]))
  }

  /** `s.includes(t)`: `t` occurs in `s` as a contiguous piece. */
  predicate Contains(s: string, t: string)
    decreases |s|
  {
    |t| <= |s| && (t <= s || (|s| > 0 && Contains(s[1..], t)))
  }

  /** A piece of `s` can only use characters that occur in `s`. */
  lemma {:induction false} ContainsOnlyCharsOf(s: string, t: string, c: char)
    requires Contains(s, t)
    requires c in t
    ensures c in s
    decreases |s|
  {
    if t <= s {
      var k :| 0 <= k < |t| && t[k] == c;
      assert s[k] == c;
    } else {
      ContainsOnlyCharsOf(s[1..], t, c);
      var k :| 0 <= k < |s[1..]| && s[1..][k] == c;
      assert s[k + 1] == c;
    }
  }

  /** A string contains every piece that starts at one of its positions. */
  lemma {:induction false} ContainsSlice(s: string, i: nat, t: string)
    requires i + |t| <= |s|
    requires s[i..i + |t|] == t
    ensures Contains(s, t)
    decreases i
  {
    if i > 0 {
      assert s[1..][i - 1..i - 1 + |t|] == s[i..i + |t|];
      ContainsSlice(s[1..], i - 1, t);
    } else {
      assert t <= s;
    }
  }

  /** The characters `encodeURIComponent` leaves as they are. */
  predicate Unreserved(c: char)
  {
    ('A' <= c <= 'Z') || ('a' <= c <= 'z') || ('0' <= c <= '9')
    || c in "-_.!~*'()"
  }

  predicate UpperHexDigit(c: char)
  {
    ('0' <= c <= '9') || ('A' <= c <= 'F')
  }

  function HexDigit(d: int): (c: char)
    requires 0 <= d < 16
    ensures UpperHexDigit(c)
  {
    if d < 10 then ('0' as int + d) as char else ('A' as int + d - 10) as char
  }

  /** Distinct values below 16 give distinct digits. */
  lemma HexDigitInjective(d: int, e: int)
    requires 0 <= d < 16 && 0 <= e < 16
    requires HexDigit(d) == HexDigit(e)
    ensures d == e
  {
  }

  /** The UTF-8 bytes of a Unicode scalar value. */
  function Utf8(cp: int): (bytes: seq<int>)
    requires 0 <= cp < 0x110000
    ensures 1 <= |bytes| <= 4
    ensures forall i :: 0 <= i < |bytes| ==> 0 <= bytes[i] < 256
  {
    if cp < 0x80 then [cp]
    else if cp < 0x800 then [0xC0 + cp / 64, 0x80 + cp % 64]
    else if cp < 0x10000 then [0xE0 + cp / 4096, 0x80 + (cp / 64) % 64, 0x80 + cp % 64]
    else [0xF0 + cp / 262144, 0x80 + (cp / 4096) % 64, 0x80 + (cp / 64) % 64, 0x80 + cp % 64]
  }

  /** The first byte of an encoding tells how many bytes it has: below
      `0x80` one, `0xC2`-`0xDF` two, `0xE0`-`0xEF` three, `0xF0`-`0xF4` four. */
  lemma Utf8LeadLength(a: int, b: int)
    requires 0 <= a < 0x110000 && 0 <= b < 0x110000
    requires Utf8(a)[0] == Utf8(b)[0]
    ensures |Utf8(a)| == |Utf8(b)|
  {
  }

  /** Dividing by 64 twice or three times is dividing by 4096 or 262144. */
  lemma DivBy64Twice(x: int)
    requires 0 <= x
    ensures x / 4096 == (x / 64) / 64
    ensures x / 262144 == (x / 4096) / 64
  {
    var q1, q2 := x / 64, (x / 64) / 64;
    assert x == 4096 * q2 + 64 * (q1 % 64) + x % 64;
    var q3 := q2 / 64;
    assert x == 262144 * q3 + 4096 * (q2 % 64) + 64 * (q1 % 64) + x % 64;
  }

  /** Distinct scalar values have distinct encodings. */
  lemma Utf8Injective(a: int, b: int)
    requires 0 <= a < 0x110000 && 0 <= b < 0x110000
    requires Utf8(a) == Utf8(b)
    ensures a == b
  {
    Utf8LeadLength(a, b);
    DivBy64Twice(a);
    DivBy64Twice(b);
    if a >= 0x800 {
      assert a / 64 == b / 64 by {
        assert (a / 64) / 64 == (b / 64) / 64 by {
          if a >= 0x10000 {
            assert (a / 4096) / 64 == (b / 4096) / 64;
          }
        }
        assert (a / 64) == 64 * ((a / 64) / 64) + (a / 64) % 64;
        assert (b / 64) == 64 * ((b / 64) / 64) + (b / 64) % 64;
      }
    }
  }

  /** `%XY` for each byte, with upper-case hexadecimal digits. */
  function PercentBytes(bytes: seq<int>): (r: string)
    requires forall i :: 0 <= i < |bytes| ==> 0 <= bytes[i] < 256
    ensures |r| == 3 * |bytes|
    ensures forall i :: 0 <= i < |r| ==> r[i] == '%' || UpperHexDigit(r[i])
  {
    if bytes == [] then ""
    else ['%', HexDigit(bytes[0] / 16), HexDigit(bytes[0] % 16)] + PercentBytes(bytes[1..])
  }

  /** Percent-escapes of equally many bytes are equal only for equal bytes. */
  lemma {:induction false} PercentBytesInjective(u: seq<int>, v: seq<int>)
    requires forall i :: 0 <= i < |u| ==> 0 <= u[i] < 256
    requires forall i :: 0 <= i < |v| ==> 0 <= v[i] < 256
    requires |u| == |v| && PercentBytes(u) == PercentBytes(v)
    ensures u == v
  {
    if u != [] {
      PercentHead(u);
      PercentHead(v);
      HexDigitInjective(u[0] / 16, v[0] / 16);
      HexDigitInjective(u[0] % 16, v[0] % 16);
      PercentBytesInjective(u[1..], v[1..]);
      assert u == [u[0]] + u[1..] && v == [v[0]] + v[1..];
    }
  }

  /** The escape of the first byte, and the rest. */
  lemma PercentHead(u: seq<int>)
    requires forall i :: 0 <= i < |u| ==> 0 <= u[i] < 256
    requires u != []
    ensures PercentBytes(u)[1] == HexDigit(u[0] / 16) && PercentBytes(u)[2] == HexDigit(u[0] % 16)
    ensures PercentBytes(u)[3..] == PercentBytes(u[1..])
  {
  }

  function EncodeChar(c: char): (r: string)
    ensures Unreserved(c) ==> r == [c]
    ensures !Unreserved(c) ==> |r| >= 3 && r[0] == '%'
    ensures forall i :: 0 <= i < |r| ==> Unreserved(r[i]) || r[i] == '%' || UpperHexDigit(r[i])
  {
    if Unreserved(c) then [c] else PercentBytes(Utf8(c as int))
  }

  /** `encodeURIComponent(s)`: unreserved characters stay, every other
      character becomes the percent-escapes of its UTF-8 bytes. */
  function EncodeUriComponent(s: string): string
  {
    if s == [] then "" else EncodeChar(s[0]) + EncodeUriComponent(s[1..])
  }

  /** The encoding is made of unreserved characters and percent-escapes only. */
  lemma {:induction false} EncodedChars(s: string)
    ensures forall i :: 0 <= i < |EncodeUriComponent(s)| ==>
              Unreserved(EncodeUriComponent(s)[i]) || EncodeUriComponent(s)[i] == '%' || UpperHexDigit(EncodeUriComponent(s)[i])
  {
    if s != [] {
      EncodedChars(s[1..]);
      var head := EncodeChar(s[0]);
      var tail := EncodeUriComponent(s[1..]);
      assert EncodeUriComponent(s) == head + tail;
      forall i | 0 <= i < |head + tail|
        ensures Unreserved((head + tail)[i]) || (head + tail)[i] == '%' || UpperHexDigit((head + tail)[i])
      {
        if i >= |head| {
          assert (head + tail)[i] == tail[i - |head|];
        }
      }
    }
  }

  /** An encoded name can never leave its path segment or start a query:
      `/`, `?`, `#` and `&` are all escaped. */
  lemma EncodedHasNoDelimiters(s: string)
    ensures '/' !in EncodeUriComponent(s) && '?' !in EncodeUriComponent(s)
    ensures '#' !in EncodeUriComponent(s) && '&' !in EncodeUriComponent(s)
  {
    EncodedChars(s);
  }

  /** A name made only of unreserved characters is sent unchanged. */
  lemma {:induction false} EncodeUnreservedIsIdentity(s: string)
    requires forall i :: 0 <= i < |s| ==> Unreserved(s[i])
    ensures EncodeUriComponent(s) == s
  {
    if s != [] {
      assert Unreserved(s[0]);
      EncodeUnreservedIsIdentity(s[1..]);
    }
  }

  /** Encodings that start alike escape both characters or neither: an
      escape starts with `%`, which is not unreserved. */
  lemma EncodeCharSameKind(a: char, b: char, x: string, y: string)
    requires EncodeChar(a) + x == EncodeChar(b) + y
    ensures Unreserved(a) <==> Unreserved(b)
  {
    assert (EncodeChar(a) + x)[0] == (EncodeChar(b) + y)[0];
  }

  /** No character's encoding starts another's: from equal encodings
      followed by anything, the characters are equal. */
  lemma EncodeCharPrefixFree(a: char, b: char, x: string, y: string)
    requires EncodeChar(a) + x == EncodeChar(b) + y
    ensures a == b && x == y
  {
    var s := EncodeChar(a) + x;
    EncodeCharSameKind(a, b, x, y);
    if Unreserved(a) {
      assert s[0] == a && s[0] == b;
    } else {
      var u := Utf8(a as int);
      var v := Utf8(b as int);
      PercentHead(u);
      PercentHead(v);
      assert PercentBytes(u)[1] == s[1] == PercentBytes(v)[1];
      assert PercentBytes(u)[2] == s[2] == PercentBytes(v)[2];
      HexDigitInjective(u[0] / 16, v[0] / 16);
      HexDigitInjective(u[0] % 16, v[0] % 16);
      assert u[0] == v[0];
      Utf8LeadLength(a as int, b as int);
      assert PercentBytes(u) == s[..3 * |u|] == PercentBytes(v);
      PercentBytesInjective(u, v);
      Utf8Injective(a as int, b as int);
    }
    assert x == s[|EncodeChar(a)|..] == y;
  }

  /** Distinct names have distinct encodings, so an encoded path segment
      names exactly one event or metric. */
  lemma {:induction false} EncodeInjective(a: string, b: string)
    requires EncodeUriComponent(a) == EncodeUriComponent(b)
    ensures a == b
  {
    if a == [] || b == [] {
    } else {
      EncodeCharPrefixFree(a[0], b[0], EncodeUriComponent(a[1..]), EncodeUriComponent(b[1..]));
      EncodeInjective(a[1..], b[1..]);
      assert a == [a[0]] + a[1..] && b == [b[0]] + b[1..];
    }
  }
}
