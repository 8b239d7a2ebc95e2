/** The few JavaScript string operations the components rely on, written as
    sequence functions over `string` (= `seq<char>`). */
module Text {
  import opened Wrappers

  /** `s.startsWith(p)`. */
  predicate StartsWith(s: string, p: string)
  {
    |p| <= |s| && s[..|p|] == p
  }

  /** `s.includes(p)`: p occurs in s at some offset. */
  predicate Contains(s: string, p: string)
    decreases |s|
  {
    StartsWith(s, p) || (|s| > 0 && Contains(s[1..], p))
  }

  /** JavaScript truthiness of an optional string: present and not `''`. */
  predicate Truthy(o: Option<string>)
  {
    o.Some? && o.value != ""
  }

  /** The `??` operator: the first operand unless it is absent (an empty
      string is NOT absent). */
  function OrElse<T>(o: Option<T>, fallback: T): (r: T)
    ensures o.Some? ==> r == o.value
    ensures o.None? ==> r == fallback
  {
    if o.Some? then o.value else fallback
  }

  /** `Contains` agrees with the textbook definition: some offset k at which
      p starts. */
  lemma {:induction false} ContainsIffOccurs(s: string, p: string)
    ensures Contains(s, p) <==> exists k :: 0 <= k <= |s| && StartsWith(s[k..], p)
  {
    if Contains(s, p) {
      if StartsWith(s, p) {
        assert s[0..] == s;
      } else {
        ContainsIffOccurs(s[1..], p);
        var k :| 0 <= k <= |s| - 1 && StartsWith(s[1..][k..], p);
        assert s[1..][k..] == s[k + 1..];
      }
    }
    if exists k :: 0 <= k <= |s| && StartsWith(s[k..], p) {
      var k :| 0 <= k <= |s| && StartsWith(s[k..], p);
      ContainsAt(s, p, k);
    }
  }

  /** An occurrence at offset k is an occurrence. */
  lemma {:induction false} ContainsAt(s: string, p: string, k: nat)
    requires k <= |s| && StartsWith(s[k..], p)
    ensures Contains(s, p)
  {
    if k == 0 {
      assert s[0..] == s;
    } else {
      assert s[1..][k - 1..] == s[k..];
      ContainsAt(s[1..], p, k - 1);
    }
  }

  /** A string starting with c starts with q when q starts with c and the
      rest of the string starts with the rest of q. */
  lemma StartsWithCons(c: char, t: string, q: string)
    requires q != []
    ensures StartsWith([c] + t, q) <==> q[0] == c && StartsWith(t, q[1..])
  {
    if StartsWith([c] + t, q) {
      assert t[..|q| - 1] == ([c] + t)[..|q|][1..];
    }
    if q[0] == c && StartsWith(t, q[1..]) {
      assert ([c] + t)[..|q|] == [c] + t[..|q| - 1];
    }
  }

  /** A string shorter than p cannot contain it. */
  lemma {:induction false} ShorterLacks(s: string, p: string)
    requires |s| < |p|
    ensures !Contains(s, p)
  {
    if |s| > 0 {
      ShorterLacks(s[1..], p);
    }
  }

  /** Prepending text keeps an occurrence. */
  lemma {:induction false} ContainsExtend(x: string, y: string, p: string)
    requires Contains(y, p)
    ensures Contains(x + y, p)
  {
    if x == [] {
      assert x + y == y;
    } else {
      assert (x + y)[1..] == x[1..] + y;
      ContainsExtend(x[1..], y, p);
    }
  }

  /** If no character of x can start p, an occurrence in x + y lies in y. */
  lemma {:induction false} ContainsSkip(x: string, y: string, p: string)
    requires p != []
    requires forall k :: 0 <= k < |x| ==> x[k] != p[0]
    ensures Contains(x + y, p) ==> Contains(y, p)
  {
    if x == [] {
      assert x + y == y;
    } else {
      assert (x + y)[0] == x[0];
      assert (x + y)[1..] == x[1..] + y;
      ContainsSkip(x[1..], y, p);
    }
  }

  /** An ASCII letter's lower-case form (the only case folding modelled). */
  function LowerChar(c: char): (r: char)
    ensures 'A' <= c <= 'Z' ==> 'a' <= r <= 'z' && r as int - c as int == 32
    ensures !('A' <= c <= 'Z') ==> r == c
  {
    if 'A' <= c <= 'Z' then (c as int + 32) as char else c
  }

  /** `s.toLowerCase()`, ASCII letters only. */
  function ToLower(s: string): (r: string)
    ensures |r| == |s|
    ensures forall i :: 0 <= i < |s| ==> r[i] == LowerChar(s[i])
  {
    seq(|s|, i requires 0 <= i < |s| => LowerChar(s[i]))
  }

  /** The white-space and line-terminator characters `trim` removes. */
  predicate IsSpace(c: char)
  {
    c == ' ' || c == '\t' || c == '\n' || c == '\r' || c == '\U{000B}' || c == '\U{000C}'
    || c == '\U{00A0}' || c == '\U{2028}' || c == '\U{2029}' || c == '\U{FEFF}'
  }

  /** Number of leading spaces of s. */
  function LeadingSpaces(s: string): (n: nat)
    ensures n <= |s|
    ensures forall i :: 0 <= i < n ==> IsSpace(s[i])
    ensures n < |s| ==> !IsSpace(s[n])
  {
    if s != [] && IsSpace(s[0]) then 1 + LeadingSpaces(s[1..]) else 0
  }

  /** Number of trailing spaces of s. */
  function TrailingSpaces(s: string): (n: nat)
    ensures n <= |s|
    ensures forall i :: |s| - n <= i < |s| ==> IsSpace(s[i])
    ensures n < |s| ==> !IsSpace(s[|s| - 1 - n])
  {
    if s != [] && IsSpace(s[|s| - 1]) then 1 + TrailingSpaces(s[..|s| - 1]) else 0
  }

  /** `s.trim()`: s without its leading and trailing white space. */
  function Trim(s: string): (r: string)
    ensures r == [] || (!IsSpace(r[0]) && !IsSpace(r[|r| - 1]))
    ensures exists i, j :: 0 <= i <= j <= |s| && r == s[i..j]
    ensures (forall i :: 0 <= i < |s| ==> IsSpace(s[i])) <==> r == []
  {
    var t := s[LeadingSpaces(s)..];
    var r := t[..|t| - TrailingSpaces(t)];
    assert r == s[LeadingSpaces(s)..LeadingSpaces(s) + |r|];
    assert |t| > 0 ==> t[0] == s[LeadingSpaces(s)] && !IsSpace(t[0]);
    assert r == [] ==> |t| == 0;
    r
  }
}
