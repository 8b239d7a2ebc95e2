/** `encodeURIComponent`, as ECMAScript defines it, over strings of Unicode
    scalar values: characters of the unreserved set are kept, every other
    character becomes the `%XX` escapes of its UTF-8 bytes. */
module UriEncoding {
  import opened Text
  import opened Seqs

  type Byte = b: int | 0 <= b < 256

  /** The characters `encodeURIComponent` leaves alone. */
  predicate Unreserved(c: char)
  {
    ('A' <= c <= 'Z') || ('a' <= c <= 'z') || ('0' <= c <= '9')
    || c == '-' || c == '_' || c == '.' || c == '!' || c == '~' || c == '*'
    || c == '\'' || c == '(' || c == ')'
  }

  /** The characters an escape `%XX` is written with. */
  predicate EscapeChar(c: char)
  {
    c == '%' || ('0' <= c <= '9') || ('A' <= c <= 'F')
  }

  /** Characters that are kept by the encoding and can never come out of an
      escape, such as the lower-case letters and '.' of a host name. */
  predicate Plain(c: char)
  {
    Unreserved(c) && !EscapeChar(c)
  }

  /** Upper-case hexadecimal digit of d. */
  function HexDigit(d: int): (c: char)
    requires 0 <= d < 16
    ensures EscapeChar(c) && c != '%'
  {
    if d < 10 then ('0' as int + d) as char else ('A' as int + d - 10) as char
  }

  /** The UTF-8 encoding of one scalar value. */
  function Utf8(c: char): (bytes: seq<Byte>)
    ensures 1 <= |bytes| <= 4
    ensures |bytes| == 1 <==> c as int < 0x80
    ensures forall i :: 1 <= i < |bytes| ==> 0x80 <= bytes[i] < 0xC0
    ensures |bytes| == 1 ==> bytes[0] == c as int
  {
    var cp := c as int;
    if cp < 0x80 then [cp]
    else if cp < 0x800 then [0xC0 + cp / 64, 0x80 + cp % 64]
    else if cp < 0x10000 then [0xE0 + cp / 4096, 0x80 + cp / 64 % 64, 0x80 + cp % 64]
    else [0xF0 + cp / 262144, 0x80 + cp / 4096 % 64, 0x80 + cp / 64 % 64, 0x80 + cp % 64]
  }

  /** `%XX` for every byte. */
  function PercentEscapes(bytes: seq<Byte>): (r: string)
    ensures |r| == 3 * |bytes|
    ensures forall i :: 0 <= i < |r| ==> EscapeChar(r[i])
    ensures bytes != [] ==> r[0] == '%'
  {
    if bytes == [] then []
    else ['%', HexDigit(bytes[0] / 16), HexDigit(bytes[0] % 16)] + PercentEscapes(bytes[1..])
  }

  /** The encoding of one character. */
  function EncodeChar(c: char): (r: string)
    ensures Unreserved(c) ==> r == [c]
    ensures !Unreserved(c) ==> |r| >= 3 && r[0] == '%' && forall i :: 0 <= i < |r| ==> EscapeChar(r[i])
  {
    if Unreserved(c) then [c] else PercentEscapes(Utf8(c))
  }

  /** `encodeURIComponent(s)`. */
  function EncodeUriComponent(s: string): (r: string)
    ensures |r| >= |s|
    ensures forall i :: 0 <= i < |r| ==> Unreserved(r[i]) || EscapeChar(r[i])
    ensures (forall i :: 0 <= i < |s| ==> Unreserved(s[i])) ==> r == s
  {
    if s == [] then [] else EncodeChar(s[0]) + EncodeUriComponent(s[1..])
  }

  /** The encoding works character by character. */
  lemma {:induction false} EncodeAppend(a: string, b: string)
    ensures EncodeUriComponent(a + b) == EncodeUriComponent(a) + EncodeUriComponent(b)
  {
    if a == [] {
      assert a + b == b;
    } else {
      assert (a + b)[0] == a[0];
      assert (a + b)[1..] == a[1..] + b;
      EncodeAppend(a[1..], b);
      AppendAssoc(EncodeChar(a[0]), EncodeUriComponent(a[1..]), EncodeUriComponent(b));
    }
  }

  /** An encoded string that starts with plain text q came from one that
      starts with q. */
  lemma {:induction false} EncodedStartsWithReflects(s: string, q: string)
    requires forall i :: 0 <= i < |q| ==> Plain(q[i])
    requires StartsWith(EncodeUriComponent(s), q)
    ensures StartsWith(s, q)
  {
    if q != [] {
      var tail := EncodeUriComponent(s[1..]);
      PlainHeadIsKept(s, q[0]);
      StartsWithCons(q[0], tail, q);
      EncodedStartsWithReflects(s[1..], q[1..]);
      StartsWithCons(s[0], s[1..], q);
      assert s == [s[0]] + s[1..];
    }
  }

  /** An encoding whose first character is plain starts with a character
      the encoding kept. */
  lemma PlainHeadIsKept(s: string, c: char)
    requires Plain(c)
    requires EncodeUriComponent(s) != [] && EncodeUriComponent(s)[0] == c
    ensures s != [] && s[0] == c
    ensures EncodeUriComponent(s) == [c] + EncodeUriComponent(s[1..])
  {
    assert EncodeUriComponent(s) == EncodeChar(s[0]) + EncodeUriComponent(s[1..]);
  }

  /** Plain text found in an encoded string was already in the string: no
      escape can produce it. */
  lemma {:induction false} EncodedContainsReflects(s: string, p: string)
    requires p != []
    requires forall i :: 0 <= i < |p| ==> Plain(p[i])
    requires Contains(EncodeUriComponent(s), p)
    ensures Contains(s, p)
  {
    if s != [] {
      var head := EncodeChar(s[0]);
      var tail := EncodeUriComponent(s[1..]);
      assert EncodeUriComponent(s) == head + tail;
      if Unreserved(s[0]) {
        assert (head + tail)[1..] == tail;
        if StartsWith(head + tail, p) {
          EncodedStartsWithReflects(s, p);
        } else {
          EncodedContainsReflects(s[1..], p);
        }
      } else {
        assert Plain(p[0]);
        ContainsSkip(head, tail, p);
        EncodedContainsReflects(s[1..], p);
      }
    }
  }

  /** Text made only of unreserved characters survives encoding. */
  lemma {:induction false} EncodedContainsPreserves(s: string, p: string)
    requires forall i :: 0 <= i < |p| ==> Unreserved(p[i])
    requires Contains(s, p)
    ensures Contains(EncodeUriComponent(s), p)
  {
    if StartsWith(s, p) {
      assert s == p + s[|p|..];
      EncodeAppend(p, s[|p|..]);
      var e := EncodeUriComponent(s);
      assert e == p + EncodeUriComponent(s[|p|..]);
      assert e[0..][..|p|] == p;
      ContainsAt(e, p, 0);
    } else {
      EncodedContainsPreserves(s[1..], p);
      assert EncodeUriComponent(s) == EncodeChar(s[0]) + EncodeUriComponent(s[1..]);
      ContainsExtend(EncodeChar(s[0]), EncodeUriComponent(s[1..]), p);
    }
  }

  /** For plain text, occurring in the encoding and occurring in the string
      are the same thing. */
  lemma EncodedContainsPlain(s: string, p: string)
    requires p != []
    requires forall i :: 0 <= i < |p| ==> Plain(p[i])
    ensures Contains(EncodeUriComponent(s), p) <==> Contains(s, p)
  {
    if Contains(EncodeUriComponent(s), p) {
      EncodedContainsReflects(s, p);
    }
    if Contains(s, p) {
      EncodedContainsPreserves(s, p);
    }
  }
}
