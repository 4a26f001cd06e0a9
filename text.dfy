/** The JavaScript string operations the core relies on, restricted to ASCII:
    `\s` and `trim()`, `toLowerCase()`, `includes()` and `Number.prototype.toString()`. */
module Text {
  import opened Wrappers

  /** `value || fallback` for an optional string: a missing or empty value is
      replaced by the fallback. */
  function OrElse(value: Option<string>, fallback: string): string
  {
    if value.Some? && value.value != [] then value.value else fallback
  }

  predicate IsAscii(s: string) {
    forall i :: 0 <= i < |s| ==> s[i] < 128 as char
  }

  /** The ASCII characters matched by `\s` and removed by `trim()`:
      space, tab, line feed, vertical tab, form feed and carriage return. */
  predicate IsSpace(c: char) {
    c == ' ' || '\t' <= c <= '\r'
  }

  predicate NoSpace(s: string) {
    forall i :: 0 <= i < |s| ==> !IsSpace(s[i])
  }

  predicate AllSpace(s: string) {
    forall i :: 0 <= i < |s| ==> IsSpace(s[i])
  }

  /** `trimStart()`: drops the leading whitespace. */
  function TrimStart(s: string): (r: string)
    ensures |r| <= |s| && r == s[|s| - |r|..]
    ensures r == [] || !IsSpace(r[0])
  {
    if s != [] && IsSpace(s[0]) then TrimStart(s[1..]) else s
  }

  /** `trimEnd()`: drops the trailing whitespace. */
  function TrimEnd(s: string): (r: string)
    ensures |r| <= |s| && r == s[..|r|]
    ensures r == [] || !IsSpace(r[|r| - 1])
  {
    if s != [] && IsSpace(s[|s| - 1]) then TrimEnd(s[..|s| - 1]) else s
  }

  /** `trim()` */
  function Trim(s: string): string {
    TrimEnd(TrimStart(s))
  }

  function LowerChar(c: char): char {
    if 'A' <= c <= 'Z' then (c as int + 32) as char else c
  }

  /** `toLowerCase()` on ASCII letters; every other character is kept. */
  function Lower(s: string): string
  {
    seq(|s|, i requires 0 <= i < |s| => LowerChar(s[i]))
  }

  /** Lower-casing twice is lower-casing once. */
  lemma LowerIdempotent(s: string)
    ensures Lower(Lower(s)) == Lower(s)
  {
    var l := Lower(s);
    assert |Lower(l)| == |l|;
    forall i | 0 <= i < |l| ensures Lower(l)[i] == l[i] {
      assert l[i] == LowerChar(s[i]);
    }
  }

  predicate OccursAt(hay: string, needle: string, i: int) {
    0 <= i && i + |needle| <= |hay| && hay[i..i + |needle|] == needle
  }

  /** `hay.includes(needle)` */
  predicate Contains(hay: string, needle: string) {
    exists i | 0 <= i <= |hay| - |needle| :: OccursAt(hay, needle, i)
  }

  lemma {:induction false} TrimStartAscii(s: string)
    requires IsAscii(s)
    ensures IsAscii(TrimStart(s))
  {
    if s != [] && IsSpace(s[0]) {
      TrimStartAscii(s[1..]);
    }
  }

  lemma {:induction false} TrimStartOfSpaces(w: string, x: string)
    requires AllSpace(w)
    ensures TrimStart(w + x) == TrimStart(x)
  {
    if w != [] {
      assert (w + x)[1..] == w[1..] + x;
      TrimStartOfSpaces(w[1..], x);
    } else {
      assert w + x == x;
    }
  }

  lemma {:induction false} TrimStartAppend(x: string, y: string)
    requires !AllSpace(x)
    ensures TrimStart(x + y) == TrimStart(x) + y
  {
    if IsSpace(x[0]) {
      assert (x + y)[1..] == x[1..] + y;
      TrimStartAppend(x[1..], y);
    }
  }

  lemma {:induction false} TrimEndOfSpaces(x: string, w: string)
    requires AllSpace(w)
    ensures TrimEnd(x + w) == TrimEnd(x)
  {
    if w != [] {
      assert (x + w)[..|x + w| - 1] == x + w[..|w| - 1];
      TrimEndOfSpaces(x, w[..|w| - 1]);
    } else {
      assert x + w == x;
    }
  }

  lemma {:induction false} TrimStartAllSpace(s: string)
    requires AllSpace(s)
    ensures TrimStart(s) == []
  {
    if s != [] {
      TrimStartAllSpace(s[1..]);
    }
  }

  /** Surrounding whitespace does not change the trimmed string. */
  lemma TrimPadded(w1: string, t: string, w2: string)
    requires AllSpace(w1) && AllSpace(w2)
    ensures Trim(w1 + t + w2) == Trim(t)
  {
    var tw := t + w2;
    assert w1 + t + w2 == w1 + tw;
    TrimStartOfSpaces(w1, tw);
    assert TrimStart(w1 + t + w2) == TrimStart(tw);
    if AllSpace(t) {
      assert AllSpace(tw);
      TrimStartAllSpace(tw);
      TrimStartAllSpace(t);
    } else {
      TrimStartAppend(t, w2);
      TrimEndOfSpaces(TrimStart(t), w2);
    }
  }

  /** Trimming twice is trimming once. */
  lemma TrimIdempotent(s: string)
    ensures Trim(Trim(s)) == Trim(s)
  {
    var t := TrimStart(s);
    var u := TrimEnd(t);
    assert u == [] || u[0] == t[0];
    assert TrimStart(u) == u;
  }

  lemma {:induction false} LowerTrimStart(s: string)
    ensures Lower(TrimStart(s)) == TrimStart(Lower(s))
  {
    var l := Lower(s);
    if s != [] && IsSpace(s[0]) {
      assert IsSpace(l[0]);
      assert l[1..] == Lower(s[1..]);
      LowerTrimStart(s[1..]);
    } else {
      assert s == [] || !IsSpace(l[0]);
      assert TrimStart(l) == l;
    }
  }

  lemma {:induction false} LowerTrimEnd(s: string)
    ensures Lower(TrimEnd(s)) == TrimEnd(Lower(s))
  {
    var l := Lower(s);
    if s != [] && IsSpace(s[|s| - 1]) {
      assert IsSpace(l[|l| - 1]);
      assert l[..|s| - 1] == Lower(s[..|s| - 1]);
      LowerTrimEnd(s[..|s| - 1]);
    } else {
      assert s == [] || !IsSpace(l[|l| - 1]);
      assert TrimEnd(l) == l;
    }
  }

  /** Lower-casing and trimming commute, since case never turns a character
      into whitespace or back. */
  lemma LowerTrim(s: string)
    ensures Lower(Trim(s)) == Trim(Lower(s))
  {
    LowerTrimEnd(TrimStart(s));
    LowerTrimStart(s);
  }

  function DigitChar(d: nat): (c: char)
    requires d < 10
  {
    ('0' as int + d) as char
  }

  /** `n.toString()` for a non-negative integer: decimal digits, no leading zero. */
  function NatToString(n: nat): (r: string)
    ensures |r| > 0 && (r[0] == '0' ==> n == 0)
    ensures forall i :: 0 <= i < |r| ==> '0' <= r[i] <= '9'
  {
    if n < 10 then [DigitChar(n)] else NatToString(n / 10) + [DigitChar(n % 10)]
  }

  /** Reads a string of decimal digits back as a number. */
  function ParseNat(s: string): Option<nat>
  {
    if s == [] then None
    else if !('0' <= s[|s| - 1] <= '9') then None
    else
      var d := s[|s| - 1] as int - '0' as int;
      if |s| == 1 then Some(d)
      else match ParseNat(s[..|s| - 1])
        case None => None
        case Some(m) => Some(m * 10 + d)
  }

  /** `ParseNat` inverts `NatToString`: the count written into `totalResults`
      can be read back exactly. */
  lemma {:induction false} ParseNatToString(n: nat)
    ensures ParseNat(NatToString(n)) == Some(n)
  {
    if n >= 10 {
      ParseNatToString(n / 10);
      var s := NatToString(n);
      assert s[..|s| - 1] == NatToString(n / 10);
    }
  }
}
