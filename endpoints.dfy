/** The URL builders `endpoints.search`, `endpoints.byTitle` and `endpoints.byId`.
    Their output, followed by the API key, is the key under which the request
    manager caches a response. */
module Endpoints {
  import opened Wrappers
  import opened Text

  /** `s.replace(/\s+/g, '+')`: every maximal run of whitespace becomes one `+`. */
  function ReplaceWhitespace(s: string): (r: string)
    ensures NoSpace(r)
    decreases |s|
  {
    if s == [] then []
    else if IsSpace(s[0]) then
      "+" + ReplaceWhitespace(TrimStart(s[1..]))
    else [s[0]] + ReplaceWhitespace(s[1..])
  }

  lemma {:induction false} ReplaceWhitespaceAscii(s: string)
    requires IsAscii(s)
    ensures IsAscii(ReplaceWhitespace(s))
    decreases |s|
  {
    if s != [] {
      var r := ReplaceWhitespace(s);
      var head, rest := if IsSpace(s[0]) then '+' else s[0], if IsSpace(s[0]) then TrimStart(s[1..]) else s[1..];
      if IsSpace(s[0]) {
        TrimStartAscii(s[1..]);
      }
      ReplaceWhitespaceAscii(rest);
      var t := ReplaceWhitespace(rest);
      assert r == [head] + t;
      forall i | 0 <= i < |r| ensures r[i] < 128 as char {
        if i > 0 { assert r[i] == t[i - 1]; }
      }
    }
  }

  /** The characters `encodeURIComponent` leaves unescaped. */
  predicate Unreserved(c: char) {
    'A' <= c <= 'Z' || 'a' <= c <= 'z' || '0' <= c <= '9' || c in "-_.!~*'()"
  }

  predicate IsHexDigit(c: char) {
    '0' <= c <= '9' || 'A' <= c <= 'F' || 'a' <= c <= 'f'
  }

  /** The upper-case hexadecimal digit `encodeURIComponent` writes. */
  function HexDigit(d: nat): (c: char)
    requires d < 16
    ensures IsHexDigit(c)
  {
    if d < 10 then ('0' as int + d) as char else ('A' as int + d - 10) as char
  }

  function HexValue(c: char): (d: nat)
    requires IsHexDigit(c)
    ensures d < 16
  {
    if '0' <= c <= '9' then c as int - '0' as int
    else if 'A' <= c <= 'F' then c as int - 'A' as int + 10
    else c as int - 'a' as int + 10
  }

  lemma HexValueOfDigit(d: nat)
    requires d < 16
    ensures HexValue(HexDigit(d)) == d
  {
  }

  function EncodeChar(c: char): (r: string)
    requires c < 128 as char
  {
    if Unreserved(c) then [c]
    else ['%', HexDigit(c as int / 16), HexDigit(c as int % 16)]
  }

  /** `encodeURIComponent` on ASCII text: an unreserved character stands for
      itself, any other becomes `%` and its two upper-case hexadecimal digits
      (section 2.1 of RFC 3986). */
  function EncodeURIComponent(s: string): (r: string)
    requires IsAscii(s)
    ensures forall i :: 0 <= i < |r| ==> Unreserved(r[i]) || r[i] == '%' || IsHexDigit(r[i])
  {
    if s == [] then [] else EncodeChar(s[0]) + EncodeURIComponent(s[1..])
  }

  /** `decodeURIComponent` on the output of `EncodeURIComponent`: each `%XY`
      becomes the character with code 0xXY; a `%` not followed by two
      hexadecimal digits is malformed. */
  function DecodeURIComponent(s: string): Option<string>
  {
    if s == [] then Some([])
    else if s[0] == '%' then
      if |s| >= 3 && IsHexDigit(s[1]) && IsHexDigit(s[2]) then
        match DecodeURIComponent(s[3..])
        case None => None
        case Some(rest) => Some([(HexValue(s[1]) * 16 + HexValue(s[2])) as char] + rest)
      else None
    else
      match DecodeURIComponent(s[1..])
      case None => None
      case Some(rest) => Some([s[0]] + rest)
  }

  /** Percent-encoding loses nothing: decoding gives back the original text. */
  lemma {:induction false} DecodeEncode(s: string)
    requires IsAscii(s)
    ensures DecodeURIComponent(EncodeURIComponent(s)) == Some(s)
  {
    if s != [] {
      var c := s[0];
      var rest := EncodeURIComponent(s[1..]);
      DecodeEncode(s[1..]);
      var e := EncodeChar(c) + rest;
      if Unreserved(c) {
        assert e[1..] == rest;
      } else {
        assert e[3..] == rest;
        HexValueOfDigit(c as int / 16);
        HexValueOfDigit(c as int % 16);
        assert ((c as int / 16) * 16 + c as int % 16) as char == c;
      }
      assert s == [c] + s[1..];
    }
  }

  /** Distinct ASCII texts always encode to distinct strings. */
  lemma EncodeInjective(a: string, b: string)
    requires IsAscii(a) && IsAscii(b)
    requires EncodeURIComponent(a) == EncodeURIComponent(b)
    ensures a == b
  {
    DecodeEncode(a);
    DecodeEncode(b);
  }

  /** `endpoints.search(query)`: the prefix, then text that decodes back to the
      query with its whitespace runs replaced. */
  function Search(query: string): (r: string)
    requires IsAscii(query)
    ensures |r| >= 4 && r[..4] == "/?s="
    ensures DecodeURIComponent(r[4..]) == Some(ReplaceWhitespace(query))
  {
    ReplaceWhitespaceAscii(query);
    var e := EncodeURIComponent(ReplaceWhitespace(query));
    DecodeEncode(ReplaceWhitespace(query));
    assert ("/?s=" + e)[4..] == e;
    "/?s=" + e
  }

  /** `endpoints.byTitle(title)`, the same shape with its own prefix. */
  function ByTitle(title: string): (r: string)
    requires IsAscii(title)
    ensures |r| >= 4 && r[..4] == "/?t="
    ensures DecodeURIComponent(r[4..]) == Some(ReplaceWhitespace(title))
  {
    ReplaceWhitespaceAscii(title);
    var e := EncodeURIComponent(ReplaceWhitespace(title));
    DecodeEncode(ReplaceWhitespace(title));
    assert ("/?t=" + e)[4..] == e;
    "/?t=" + e
  }

  /** `endpoints.byId(id)`: the id is inserted as it is, without encoding. */
  function ById(id: string): string
  {
    "/?i=" + id
  }

  /** Id lookups share a url exactly when their ids are equal. */
  lemma ByIdSameUrl(a: string, b: string)
    ensures ById(a) == ById(b) <==> a == b
  {
    if ById(a) == ById(b) {
      assert a == ById(a)[4..] && b == ById(b)[4..];
    }
  }

  /** Text without whitespace passes through the replacement unchanged. */
  lemma {:induction false} ReplaceWhitespaceNoSpace(s: string)
    requires NoSpace(s)
    ensures ReplaceWhitespace(s) == s
  {
    if s != [] {
      ReplaceWhitespaceNoSpace(s[1..]);
      assert s == [s[0]] + s[1..];
    }
  }

  /** The replacement is idempotent. */
  lemma ReplaceWhitespaceIdempotent(s: string)
    ensures ReplaceWhitespace(ReplaceWhitespace(s)) == ReplaceWhitespace(s)
  {
    ReplaceWhitespaceNoSpace(ReplaceWhitespace(s));
  }

  lemma {:induction false} ReplaceWhitespaceAfterWord(a: string, x: string)
    requires NoSpace(a)
    ensures ReplaceWhitespace(a + x) == a + ReplaceWhitespace(x)
  {
    if a != [] {
      assert (a + x)[0] == a[0];
      assert (a + x)[1..] == a[1..] + x;
      ReplaceWhitespaceAfterWord(a[1..], x);
      assert a == [a[0]] + a[1..];
    } else {
      assert a + x == x;
    }
  }

  /** A leading run of whitespace becomes a single `+`. */
  lemma LeadingRun(w: string, b: string)
    requires w != [] && AllSpace(w)
    requires b == [] || !IsSpace(b[0])
    ensures ReplaceWhitespace(w + b) == ['+'] + ReplaceWhitespace(b)
  {
    var wb := w + b;
    assert wb[0] == w[0];
    assert wb[1..] == w[1..] + b;
    TrimStartOfSpaces(w[1..], b);
    assert TrimStart(b) == b;
  }

  /** A whole run of whitespace between two words collapses to a single `+`. */
  lemma CollapseRun(a: string, w: string, b: string)
    requires NoSpace(a)
    requires w != [] && AllSpace(w)
    requires b == [] || !IsSpace(b[0])
    ensures ReplaceWhitespace(a + w + b) == a + ['+'] + ReplaceWhitespace(b)
  {
    assert a + w + b == a + (w + b);
    ReplaceWhitespaceAfterWord(a, w + b);
    LeadingRun(w, b);
    assert a + (['+'] + ReplaceWhitespace(b)) == a + ['+'] + ReplaceWhitespace(b);
  }

  /** Two queries share a search url exactly when they agree once their
      whitespace runs are replaced by `+`: the encoding adds no collisions. */
  lemma SearchSameUrl(a: string, b: string)
    requires IsAscii(a) && IsAscii(b)
    ensures Search(a) == Search(b) <==> ReplaceWhitespace(a) == ReplaceWhitespace(b)
  {
    if Search(a) == Search(b) {
      ReplaceWhitespaceAscii(a);
      ReplaceWhitespaceAscii(b);
      var ea := EncodeURIComponent(ReplaceWhitespace(a));
      var eb := EncodeURIComponent(ReplaceWhitespace(b));
      assert ea == Search(a)[4..] && eb == Search(b)[4..];
      EncodeInjective(ReplaceWhitespace(a), ReplaceWhitespace(b));
    }
  }

  /** A query and its `+`-joined form are the same cache key, since `+` is kept
      by the replacement and escaped as `%2B` by the encoding. */
  lemma SpaceAndPlusSameUrl(q: string)
    requires IsAscii(q)
    ensures IsAscii(ReplaceWhitespace(q)) && Search(q) == Search(ReplaceWhitespace(q))
  {
    ReplaceWhitespaceAscii(q);
    ReplaceWhitespaceIdempotent(q);
  }

  lemma EncodePlusExample()
    ensures EncodeURIComponent("a+b") == "a%2Bb"
  {
    assert !Unreserved('+');
    assert EncodeURIComponent("b") == "b";
    assert EncodeURIComponent("+b") == "%2Bb";
  }

  lemma ReplaceRunExamples()
    ensures ReplaceWhitespace("a b") == ReplaceWhitespace("a  b") == ReplaceWhitespace("a+b") == "a+b"
  {
    assert ReplaceWhitespace("b") == "b";
    assert TrimStart("b") == "b";
    assert " b"[1..] == "b";
    assert TrimStart(" b") == "b";
    assert ReplaceWhitespace(" b") == "+b";
    assert "a b"[1..] == " b";
    assert "  b"[1..] == " b";
    assert ReplaceWhitespace("  b") == "+b";
    assert "a  b"[1..] == "  b";
    ReplaceWhitespaceNoSpace("a+b");
  }

  /** The three builders never produce the same key. */
  lemma BuildersDisjoint(a: string, b: string)
    requires IsAscii(a) && IsAscii(b)
    ensures Search(a) != ByTitle(b) && Search(a) != ById(b) && ByTitle(a) != ById(b)
  {
    assert Search(a)[2] == 's' && ByTitle(b)[2] == 't' && ById(b)[2] == 'i';
  }
}
