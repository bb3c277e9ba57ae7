/** Percent-encoding as the signing library does it: `encodeURIComponent`
    followed by five `.replace` calls, which together are the escape of
    section 3.6 of RFC 5849 (everything outside the unreserved set of
    section 2.3 of RFC 3986 becomes `%XX` over its UTF-8 bytes, upper-case
    hex). `decodeURIComponent`, used by the query-string decoder, is the
    inverse, with `None` for the URIError it throws on malformed input. */
module PercentCodec {
  import opened JsValues

  /** The upper-case hex digit for d. */
  function HexDigit(d: nat): (c: char)
    requires d < 16
    ensures ('0' <= c <= '9') || ('A' <= c <= 'F')
  {
    if d < 10 then ('0' as int + d) as char else ('A' as int + d - 10) as char
  }

  /** RFC 3986 section 2.3: ALPHA / DIGIT / "-" / "." / "_" / "~" */
  predicate Unreserved(c: char) {
    ('A' <= c <= 'Z') || ('a' <= c <= 'z') || ('0' <= c <= '9')
    || c == '-' || c == '_' || c == '.' || c == '~'
  }

  /** The marks `encodeURIComponent` also leaves alone. */
  predicate Mark(c: char) {
    c == '!' || c == '*' || c == '\'' || c == '(' || c == ')'
  }

  /** A character that can appear in an escaped string. */
  predicate EscapedChar(c: char) {
    Unreserved(c) || c == '%'
  }

  predicate AllEscapedChars(s: string) {
    forall i :: 0 <= i < |s| ==> EscapedChar(s[i])
  }

  /** `%XX` for one byte. */
  function HexByte(b: nat): (r: string)
    requires b < 256
    ensures |r| == 3 && r[0] == '%'
    ensures Unreserved(r[1]) && Unreserved(r[2]) && AllEscapedChars(r)
  {
    ['%', HexDigit(b / 16), HexDigit(b % 16)]
  }

  /** The UTF-8 encoding of a Unicode scalar value. */
  function Utf8(c: char): (r: seq<nat>)
    ensures 1 <= |r| <= 4
    ensures forall i :: 0 <= i < |r| ==> r[i] < 256
    ensures (c as int < 0x80) <==> |r| == 1
    ensures |r| == 1 ==> r[0] == c as int
  {
    var cp := c as int;
    if cp < 0x80 then [cp]
    else if cp < 0x800 then [0xC0 + cp / 64, 0x80 + cp % 64]
    else if cp < 0x10000 then [0xE0 + cp / 4096, 0x80 + (cp / 64) % 64, 0x80 + cp % 64]
    else [0xF0 + cp / 262144, 0x80 + (cp / 4096) % 64, 0x80 + (cp / 64) % 64, 0x80 + cp % 64]
  }

  function EscapeBytes(bs: seq<nat>): (r: string)
    requires forall i :: 0 <= i < |bs| ==> bs[i] < 256
    ensures |r| == 3 * |bs|
    ensures AllEscapedChars(r)
    decreases |bs|
  {
    if bs == [] then [] else HexByte(bs[0]) + EscapeBytes(bs[1..])
  }

  /** What `encodeURIComponent` does to one character. */
  function UriComponentChar(c: char): string {
    if Unreserved(c) || Mark(c) then [c] else EscapeBytes(Utf8(c))
  }

  /** `encodeURIComponent(s)`. A Dafny string holds scalar values only, so
      the URIError for a lone surrogate cannot arise. */
  function EncodeURIComponent(s: string): string
    decreases |s|
  {
    if s == [] then [] else UriComponentChar(s[0]) + EncodeURIComponent(s[1..])
  }

  /** `s.replace(/c/g, rep)` */
  function ReplaceAll(s: string, c: char, rep: string): (r: string)
    ensures c !in s ==> r == s
    decreases |s|
  {
    if s == [] then []
    else (if s[0] == c then rep else [s[0]]) + ReplaceAll(s[1..], c, rep)
  }

  /** The five `.replace` calls that follow `encodeURIComponent` in `percentEncode`. */
  function ReplaceMarks(e: string): string {
    ReplaceAll(ReplaceAll(ReplaceAll(ReplaceAll(ReplaceAll(
      e, '!', "%21"), '*', "%2A"), '\'', "%27"), '(', "%28"), ')', "%29")
  }

  /** `percentEncode` on a string. */
  function PercentEncode(s: string): string {
    ReplaceMarks(EncodeURIComponent(s))
  }

  /** The escape of one character under RFC 5849 section 3.6. */
  function EscapeChar(c: char): (r: string)
    ensures AllEscapedChars(r)
    ensures Unreserved(c) ==> r == [c]
    ensures !Unreserved(c) ==> 3 <= |r| && r[0] == '%'
  {
    if Unreserved(c) then [c] else EscapeBytes(Utf8(c))
  }

  /** RFC 5849 section 3.6 percent-encoding, character by character. */
  function Escape(s: string): (r: string)
    ensures |r| >= |s|
    decreases |s|
  {
    if s == [] then [] else EscapeChar(s[0]) + Escape(s[1..])
  }

  /** The escape only produces unreserved characters and `%`. */
  lemma {:induction false} EscapeChars(s: string)
    ensures AllEscapedChars(Escape(s))
    decreases |s|
  {
    if s != [] {
      EscapeChars(s[1..]);
      var h, t := EscapeChar(s[0]), Escape(s[1..]);
      assert Escape(s) == h + t;
      forall i | 0 <= i < |h + t| ensures EscapedChar((h + t)[i]) {
        if i >= |h| {
          assert (h + t)[i] == t[i - |h|];
        }
      }
    }
  }

  lemma {:induction false} ReplaceAllAppend(a: string, b: string, c: char, rep: string)
    ensures ReplaceAll(a + b, c, rep) == ReplaceAll(a, c, rep) + ReplaceAll(b, c, rep)
    decreases |a|
  {
    if a != [] {
      assert (a + b)[0] == a[0];
      assert (a + b)[1..] == a[1..] + b;
      ReplaceAllAppend(a[1..], b, c, rep);
      var h := if a[0] == c then rep else [a[0]];
      assert ReplaceAll(a + b, c, rep) == h + ReplaceAll(a[1..] + b, c, rep);
      assert ReplaceAll(a, c, rep) == h + ReplaceAll(a[1..], c, rep);
    } else {
      assert a + b == b;
    }
  }

  lemma ReplaceMarksAppend(a: string, b: string)
    ensures ReplaceMarks(a + b) == ReplaceMarks(a) + ReplaceMarks(b)
  {
    ReplaceAllAppend(a, b, '!', "%21");
    var a1, b1 := ReplaceAll(a, '!', "%21"), ReplaceAll(b, '!', "%21");
    ReplaceAllAppend(a1, b1, '*', "%2A");
    var a2, b2 := ReplaceAll(a1, '*', "%2A"), ReplaceAll(b1, '*', "%2A");
    ReplaceAllAppend(a2, b2, '\'', "%27");
    var a3, b3 := ReplaceAll(a2, '\'', "%27"), ReplaceAll(b2, '\'', "%27");
    ReplaceAllAppend(a3, b3, '(', "%28");
    var a4, b4 := ReplaceAll(a3, '(', "%28"), ReplaceAll(b3, '(', "%28");
    ReplaceAllAppend(a4, b4, ')', "%29");
  }

  /** Escaped text holds no mark, so the replace chain leaves it alone. */
  lemma ReplaceMarksEscaped(e: string)
    requires AllEscapedChars(e)
    ensures ReplaceMarks(e) == e
  {
    assert '!' !in e && '*' !in e && '\'' !in e && '(' !in e && ')' !in e by {
      forall i | 0 <= i < |e| ensures !Mark(e[i]) {
        assert EscapedChar(e[i]);
      }
    }
  }

  lemma ReplaceAllOne(x: char, c: char, rep: string)
    ensures ReplaceAll([x], c, rep) == if x == c then rep else [x]
  {
    assert [x][1..] == [];
  }

  /** The escape of a mark is one `%XX`. */
  lemma EscapeMark(c: char)
    requires Mark(c)
    ensures EscapeChar(c) == HexByte(c as int)
  {
    assert Utf8(c) == [c as int];
    assert EscapeBytes([c as int]) == HexByte(c as int) + EscapeBytes([]);
  }

  /** The replace chain applied to one character's `encodeURIComponent`. */
  lemma ChainOnChar(c: char)
    ensures ReplaceMarks(UriComponentChar(c)) == EscapeChar(c)
  {
    if !Mark(c) {
      ChainOnOther(c);
    } else if c == '!' { ChainOnBang(); } else if c == '*' { ChainOnStar(); } else if c == '\'' { ChainOnQuote(); } else if c == '(' { ChainOnOpen(); } else { ChainOnClose(); }
  }

  lemma ChainOnBang()
    ensures ReplaceMarks(UriComponentChar('!')) == EscapeChar('!')
  {
    assert UriComponentChar('!') == "!";
    EscapeMark('!');
    assert HexByte(33) == "%21";
    ReplacedBang();
  }

  lemma ReplacedBang()
    ensures ReplaceMarks("!") == "%21"
  {
    var s1 := ReplaceAll("!", '!', "%21");
    assert s1 == "%21" by { ReplaceAllOne('!', '!', "%21"); }
    var s2 := ReplaceAll(s1, '*', "%2A");
    assert s2 == "%21" by { assert '*' !in "%21"; }
    var s3 := ReplaceAll(s2, '\'', "%27");
    assert s3 == "%21" by { assert '\'' !in "%21"; }
    var s4 := ReplaceAll(s3, '(', "%28");
    assert s4 == "%21" by { assert '(' !in "%21"; }
    var s5 := ReplaceAll(s4, ')', "%29");
    assert s5 == "%21" by { assert ')' !in "%21"; }
  }


  lemma ChainOnStar()
    ensures ReplaceMarks(UriComponentChar('*')) == EscapeChar('*')
  {
    assert UriComponentChar('*') == "*";
    EscapeMark('*');
    assert HexByte(42) == "%2A";
    ReplacedStar();
  }

  lemma ReplacedStar()
    ensures ReplaceMarks("*") == "%2A"
  {
    var s1 := ReplaceAll("*", '!', "%21");
    assert s1 == "*" by { ReplaceAllOne('*', '!', "%21"); }
    var s2 := ReplaceAll(s1, '*', "%2A");
    assert s2 == "%2A" by { ReplaceAllOne('*', '*', "%2A"); }
    var s3 := ReplaceAll(s2, '\'', "%27");
    assert s3 == "%2A" by { assert '\'' !in "%2A"; }
    var s4 := ReplaceAll(s3, '(', "%28");
    assert s4 == "%2A" by { assert '(' !in "%2A"; }
    var s5 := ReplaceAll(s4, ')', "%29");
    assert s5 == "%2A" by { assert ')' !in "%2A"; }
  }


  lemma ChainOnQuote()
    ensures ReplaceMarks(UriComponentChar('\'')) == EscapeChar('\'')
  {
    assert UriComponentChar('\'') == "\'";
    EscapeMark('\'');
    assert HexByte(39) == "%27";
    ReplacedQuote();
  }

  lemma ReplacedQuote()
    ensures ReplaceMarks("\'") == "%27"
  {
    var s1 := ReplaceAll("\'", '!', "%21");
    assert s1 == "\'" by { ReplaceAllOne('\'', '!', "%21"); }
    var s2 := ReplaceAll(s1, '*', "%2A");
    assert s2 == "\'" by { ReplaceAllOne('\'', '*', "%2A"); }
    var s3 := ReplaceAll(s2, '\'', "%27");
    assert s3 == "%27" by { ReplaceAllOne('\'', '\'', "%27"); }
    var s4 := ReplaceAll(s3, '(', "%28");
    assert s4 == "%27" by { assert '(' !in "%27"; }
    var s5 := ReplaceAll(s4, ')', "%29");
    assert s5 == "%27" by { assert ')' !in "%27"; }
  }


  lemma ChainOnOpen()
    ensures ReplaceMarks(UriComponentChar('(')) == EscapeChar('(')
  {
    assert UriComponentChar('(') == "(";
    EscapeMark('(');
    assert HexByte(40) == "%28";
    ReplacedOpen();
  }

  lemma ReplacedOpen()
    ensures ReplaceMarks("(") == "%28"
  {
    var s1 := ReplaceAll("(", '!', "%21");
    assert s1 == "(" by { ReplaceAllOne('(', '!', "%21"); }
    var s2 := ReplaceAll(s1, '*', "%2A");
    assert s2 == "(" by { ReplaceAllOne('(', '*', "%2A"); }
    var s3 := ReplaceAll(s2, '\'', "%27");
    assert s3 == "(" by { ReplaceAllOne('(', '\'', "%27"); }
    var s4 := ReplaceAll(s3, '(', "%28");
    assert s4 == "%28" by { ReplaceAllOne('(', '(', "%28"); }
    var s5 := ReplaceAll(s4, ')', "%29");
    assert s5 == "%28" by { assert ')' !in "%28"; }
  }


  lemma ChainOnClose()
    ensures ReplaceMarks(UriComponentChar(')')) == EscapeChar(')')
  {
    assert UriComponentChar(')') == ")";
    EscapeMark(')');
    assert HexByte(41) == "%29";
    ReplacedClose();
  }

  lemma ReplacedClose()
    ensures ReplaceMarks(")") == "%29"
  {
    var s1 := ReplaceAll(")", '!', "%21");
    assert s1 == ")" by { ReplaceAllOne(')', '!', "%21"); }
    var s2 := ReplaceAll(s1, '*', "%2A");
    assert s2 == ")" by { ReplaceAllOne(')', '*', "%2A"); }
    var s3 := ReplaceAll(s2, '\'', "%27");
    assert s3 == ")" by { ReplaceAllOne(')', '\'', "%27"); }
    var s4 := ReplaceAll(s3, '(', "%28");
    assert s4 == ")" by { ReplaceAllOne(')', '(', "%28"); }
    var s5 := ReplaceAll(s4, ')', "%29");
    assert s5 == "%29" by { ReplaceAllOne(')', ')', "%29"); }
  }


  lemma ChainOnOther(c: char)
    requires !Mark(c)
    ensures ReplaceMarks(UriComponentChar(c)) == EscapeChar(c)
  {
    assert UriComponentChar(c) == EscapeChar(c);
    ReplaceMarksEscaped(EscapeChar(c));
  }

  /** The library's `percentEncode` is exactly the RFC 5849 escape. */
  lemma {:induction false} PercentEncodeIsEscape(s: string)
    ensures PercentEncode(s) == Escape(s)
    decreases |s|
  {
    if s != [] {
      PercentEncodeIsEscape(s[1..]);
      ReplaceMarksAppend(UriComponentChar(s[0]), EncodeURIComponent(s[1..]));
      ChainOnChar(s[0]);
    }
  }

  lemma {:induction false} EscapeAppend(a: string, b: string)
    ensures Escape(a + b) == Escape(a) + Escape(b)
    decreases |a|
  {
    if a != [] {
      assert (a + b)[0] == a[0];
      assert (a + b)[1..] == a[1..] + b;
      EscapeAppend(a[1..], b);
    } else {
      assert a + b == b;
    }
  }

  /** Characters the escape never produces, so they can separate escaped fields. */
  lemma EscapedHasNo(s: string, c: char)
    requires !EscapedChar(c)
    ensures c !in Escape(s)
  {
    EscapeChars(s);
  }

  lemma {:induction false} EscapeUnreservedIdentity(s: string)
    requires forall i :: 0 <= i < |s| ==> Unreserved(s[i])
    ensures Escape(s) == s
    decreases |s|
  {
    if s != [] {
      EscapeUnreservedIdentity(s[1..]);
      assert [s[0]] + s[1..] == s;
    }
  }

  // ---------------------------------------------------------------------
  // decodeURIComponent

  function HexValue(c: char): (r: Option<nat>)
    ensures r.Some? ==> r.value < 16
  {
    if '0' <= c <= '9' then Some(c as int - '0' as int)
    else if 'A' <= c <= 'F' then Some(c as int - 'A' as int + 10)
    else if 'a' <= c <= 'f' then Some(c as int - 'a' as int + 10)
    else None
  }

  /** The byte written as `%XY` at position i, if there is one. */
  function ByteAt(s: string, i: nat): (r: Option<nat>)
    ensures r.Some? ==> r.value < 256 && i + 3 <= |s| && s[i] == '%'
  {
    if i + 3 > |s| || s[i] != '%' then None
    else match (HexValue(s[i + 1]), HexValue(s[i + 2]))
      case (Some(h), Some(l)) => Some(16 * h + l)
      case _ => None
  }

  /** A UTF-8 continuation byte `%XY` at position i. */
  function ContinuationAt(s: string, i: nat): (r: Option<nat>)
    ensures r.Some? ==> r.value < 64 && i + 3 <= |s|
  {
    match ByteAt(s, i)
    case Some(b) => if 0x80 <= b < 0xC0 then Some(b - 0x80) else None
    case None => None
  }

  /** The character at the start of s (which begins with `%`) and how many
      characters of s its escape takes; None is the URIError. */
  function DecodeEscape(s: string): (r: Option<(char, nat)>)
    ensures r.Some? ==> 3 <= r.value.1 <= |s|
  {
    match ByteAt(s, 0)
    case None => None
    case Some(b0) =>
      if b0 < 0x80 then Some((b0 as char, 3))
      else if b0 < 0xC0 || b0 >= 0xF8 then None
      else if b0 < 0xE0 then
        match ContinuationAt(s, 3)
        case None => None
        case Some(c1) =>
          var cp := (b0 - 0xC0) * 64 + c1;
          if cp < 0x80 then None else Some((cp as char, 6))
      else if b0 < 0xF0 then
        match (ContinuationAt(s, 3), ContinuationAt(s, 6))
        case (Some(c1), Some(c2)) =>
          var cp := (b0 - 0xE0) * 4096 + c1 * 64 + c2;
          if cp < 0x800 || (0xD800 <= cp < 0xE000) then None else Some((cp as char, 9))
        case _ => None
      else
        match (ContinuationAt(s, 3), ContinuationAt(s, 6), ContinuationAt(s, 9))
        case (Some(c1), Some(c2), Some(c3)) =>
          var cp := (b0 - 0xF0) * 262144 + c1 * 4096 + c2 * 64 + c3;
          if cp < 0x10000 || cp > 0x10FFFF then None else Some((cp as char, 12))
        case _ => None
  }

  function Prepend(c: char, r: Option<string>): Option<string> {
    match r
    case None => None
    case Some(t) => Some([c] + t)
  }

  /** `decodeURIComponent(s)`; None stands for the URIError. */
  function Decode(s: string): (r: Option<string>)
    decreases |s|
  {
    if s == [] then Some([])
    else if s[0] != '%' then Prepend(s[0], Decode(s[1..]))
    else match DecodeEscape(s)
      case None => None
      case Some((c, n)) => Prepend(c, Decode(s[n..]))
  }

  lemma HexDigitValue(d: nat)
    requires d < 16
    ensures HexValue(HexDigit(d)) == Some(d)
  {
  }

  /** Reading `%XY` is unaffected by text in front. */
  lemma ByteAtShift(p: string, t: string, i: nat)
    ensures ByteAt(p + t, |p| + i) == ByteAt(t, i)
  {
    if i + 3 <= |t| {
      assert (p + t)[|p| + i] == t[i];
      assert (p + t)[|p| + i + 1] == t[i + 1];
      assert (p + t)[|p| + i + 2] == t[i + 2];
    }
  }

  /** Byte j of an escaped byte string is read back at position 3 j. */
  lemma {:induction false} ByteAtEscaped(bs: seq<nat>, rest: string, j: nat)
    requires forall i :: 0 <= i < |bs| ==> bs[i] < 256
    requires j < |bs|
    ensures ByteAt(EscapeBytes(bs) + rest, 3 * j) == Some(bs[j])
    decreases j
  {
    var h := HexByte(bs[0]);
    var t := EscapeBytes(bs[1..]) + rest;
    assert EscapeBytes(bs) + rest == h + t;
    if j == 0 {
      HexDigitValue(bs[0] / 16);
      HexDigitValue(bs[0] % 16);
      assert (h + t)[0] == '%' && (h + t)[1] == h[1] && (h + t)[2] == h[2];
    } else {
      ByteAtEscaped(bs[1..], rest, j - 1);
      ByteAtShift(h, t, 3 * (j - 1));
    }
  }

  lemma Utf8Decodes(c: char, rest: string)
    requires !Unreserved(c)
    ensures DecodeEscape(EscapeBytes(Utf8(c)) + rest) == Some((c, 3 * |Utf8(c)|))
  {
    var cp := c as int;
    if cp < 0x80 {
      ByteAtEscaped(Utf8(c), rest, 0);
    } else if cp < 0x800 {
      Utf8Decodes2(c, rest);
    } else if cp < 0x10000 {
      Utf8Decodes3(c, rest);
    } else {
      Utf8Decodes4(c, rest);
    }
  }

  lemma Utf8Decodes2(c: char, rest: string)
    requires 0x80 <= c as int < 0x800
    ensures DecodeEscape(EscapeBytes(Utf8(c)) + rest) == Some((c, 6))
  {
    var cp := c as int;
    var bs := Utf8(c);
    ByteAtEscaped(bs, rest, 0);
    ByteAtEscaped(bs, rest, 1);
    assert (cp / 64) * 64 + cp % 64 == cp;
  }

  lemma Utf8Decodes3(c: char, rest: string)
    requires 0x800 <= c as int < 0x10000
    ensures DecodeEscape(EscapeBytes(Utf8(c)) + rest) == Some((c, 9))
  {
    var cp := c as int;
    var bs := Utf8(c);
    ByteAtEscaped(bs, rest, 0);
    ByteAtEscaped(bs, rest, 1);
    ByteAtEscaped(bs, rest, 2);
    DivMod64(cp, 4096);
  }

  lemma Utf8Decodes4(c: char, rest: string)
    requires 0x10000 <= c as int
    ensures DecodeEscape(EscapeBytes(Utf8(c)) + rest) == Some((c, 12))
  {
    var cp := c as int;
    var bs := Utf8(c);
    ByteAtEscaped(bs, rest, 0);
    ByteAtEscaped(bs, rest, 1);
    ByteAtEscaped(bs, rest, 2);
    ByteAtEscaped(bs, rest, 3);
    DivMod64(cp, 4096);
    DivMod64(cp / 64, 4096);
    assert cp / 64 / 4096 == cp / 262144;
  }

  /** x == (x / 4096) * 4096 + ((x / 64) % 64) * 64 + x % 64 */
  lemma DivMod64(x: nat, k: nat)
    requires k == 4096
    ensures (x / k) * k + ((x / 64) % 64) * 64 + x % 64 == x
    ensures x / 64 / 64 == x / k
  {
    var q := x / 64;
    assert x == q * 64 + x % 64;
    assert q == (q / 64) * 64 + q % 64;
    assert x / 4096 == q / 64;
  }

  /** Decoding an escaped string gives the string back. */
  lemma {:induction false} DecodeOfEscape(s: string)
    ensures Decode(Escape(s)) == Some(s)
    decreases |s|
  {
    if s != [] {
      DecodeOfEscape(s[1..]);
      var c := s[0];
      var e := Escape(s);
      assert e == EscapeChar(c) + Escape(s[1..]);
      if Unreserved(c) {
        assert e[0] == c && e[1..] == Escape(s[1..]);
      } else {
        Utf8Decodes(c, Escape(s[1..]));
        var n := 3 * |Utf8(c)|;
        assert e[n..] == Escape(s[1..]);
      }
      assert [c] + s[1..] == s;
    }
  }
}
