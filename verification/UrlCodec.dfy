/**
 Text as a sequence of UTF-8 code units, each written as the character of that number, and the three URL
 codecs that meet in the release channel: the quoting of the uploader, its unquoting, and the decoder of
 the desktop client (scripts/upload-modelscope-release.py:118-124, 152-159, apps/desktop/src/ota_mirrors.rs:273-290).
 */
module Text {

  predicate Bytes(t: string) {
    forall k :: 0 <= k < |t| ==> t[k] as int < 256
  }

  predicate Ascii(t: string) {
    forall k :: 0 <= k < |t| ==> t[k] as int < 128
  }

  function Unit(n: int): char
    requires 0 <= n < 256
  {
    n as char
  }

  /** The code units of one character. */
  function EncodeChar(c: char): (t: string)
    ensures Bytes(t) && |t| >= 1
    ensures c as int < 128 <==> t == [c]
    ensures |t| == 1 <==> c as int < 128
  {
    var n := c as int;
    if n < 0x80 then [c]
    else if n < 0x800 then [Unit(0xC0 + n / 0x40), Unit(0x80 + n % 0x40)]
    else if n < 0x10000 then [Unit(0xE0 + n / 0x1000), Unit(0x80 + n / 0x40 % 0x40), Unit(0x80 + n % 0x40)]
    else [Unit(0xF0 + n / 0x40000), Unit(0x80 + n / 0x1000 % 0x40), Unit(0x80 + n / 0x40 % 0x40), Unit(0x80 + n % 0x40)]
  }

  function Utf8(s: string): string {
    if s == [] then [] else EncodeChar(s[0]) + Utf8(s[1..])
  }

  lemma {:induction false} Utf8IsBytes(s: string)
    ensures Bytes(Utf8(s)) && |Utf8(s)| >= |s|
    ensures |Utf8(s)| == |s| <==> Ascii(s)
    ensures Ascii(s) ==> Utf8(s) == s
  {
    if s != [] {
      Utf8IsBytes(s[1..]);
      assert s == [s[0]] + s[1..];
    }
  }

  // ----- cutting text -----

  function Before(t: string, c: char): string {
    if t == [] || t[0] == c then [] else [t[0]] + Before(t[1..], c)
  }

  function After(t: string, c: char): string {
    if t == [] then [] else if t[0] == c then t[1..] else After(t[1..], c)
  }

  function AfterLast(t: string, c: char): string {
    if t == [] || t[|t| - 1] == c then [] else AfterLast(t[..|t| - 1], c) + [t[|t| - 1]]
  }

  lemma {:induction false} CutAt(head: string, c: char, tail: string)
    requires c !in head
    ensures Before(head + [c] + tail, c) == head
    ensures After(head + [c] + tail, c) == tail
  {
    var t := head + [c] + tail;
    if head == [] {
      assert t == [c] + tail;
    } else {
      assert t[1..] == head[1..] + [c] + tail;
      CutAt(head[1..], c, tail);
    }
  }

  lemma {:induction false} NoCut(t: string, c: char)
    requires c !in t
    ensures Before(t, c) == t && After(t, c) == []
  {
    if t != [] {
      NoCut(t[1..], c);
    }
  }

  lemma {:induction false} LastCut(head: string, c: char, tail: string)
    requires c !in tail
    ensures AfterLast(head + [c] + tail, c) == tail
  {
    var t := head + [c] + tail;
    if tail == [] {
      assert t == head + [c];
    } else {
      var init := tail[..|tail| - 1];
      assert t[..|t| - 1] == head + [c] + init;
      LastCut(head, c, init);
      assert tail == init + [tail[|tail| - 1]];
    }
  }

  /** The last component is a suffix, so it is no longer than the text. */
  lemma {:induction false} AfterLastIsShort(t: string, c: char)
    ensures |AfterLast(t, c)| <= |t| && c !in AfterLast(t, c)
    ensures c !in t ==> AfterLast(t, c) == t
  {
    if t != [] && t[|t| - 1] != c {
      AfterLastIsShort(t[..|t| - 1], c);
      assert t == t[..|t| - 1] + [t[|t| - 1]];
    }
  }
}

module UrlCodec {
  import opened Prelude
  import opened Text

  predicate Digit(c: char) { '0' <= c <= '9' }
  predicate Letter(c: char) { 'a' <= c <= 'z' || 'A' <= c <= 'Z' }

  /** Unreserved characters of section 2.3 of RFC 3986. */
  predicate Unreserved(c: char) {
    Letter(c) || Digit(c) || c in {'-', '.', '_', '~'}
  }

  /** What the uploader leaves alone: unreserved characters and the path separator. */
  predicate Safe(c: char) {
    Unreserved(c) || c == '/'
  }

  function Hex(n: int): char
    requires 0 <= n < 16
  {
    "0123456789ABCDEF"[n]
  }

  function HexValue(c: char): Option<int> {
    if Digit(c) then Some(c as int - '0' as int)
    else if 'A' <= c <= 'F' then Some(c as int - 'A' as int + 10)
    else if 'a' <= c <= 'f' then Some(c as int - 'a' as int + 10)
    else None
  }

  lemma HexValueOfHex(n: int)
    requires 0 <= n < 16
    ensures HexValue(Hex(n)) == Some(n) && Unreserved(Hex(n))
  {
  }

  function QuoteUnit(c: char): string
    requires c as int < 256
  {
    if Safe(c) then [c] else ['%', Hex(c as int / 16), Hex(c as int % 16)]
  }

  /** Percent-encoding that keeps slashes. */
  function Quote(t: string): string
    requires Bytes(t)
  {
    if t == [] then [] else QuoteUnit(t[0]) + Quote(t[1..])
  }

  /** Quoted text has only safe characters and percent signs, and is empty only for the empty text. */
  lemma {:induction false} QuoteAlphabet(t: string)
    requires Bytes(t)
    ensures forall k :: 0 <= k < |Quote(t)| ==> Safe(Quote(t)[k]) || Quote(t)[k] == '%'
    ensures |Quote(t)| >= |t|
  {
    if t != [] {
      QuoteAlphabet(t[1..]);
      HexValueOfHex(t[0] as int / 16);
      HexValueOfHex(t[0] as int % 16);
    }
  }

  /** Quoting changes nothing exactly when there is nothing to quote. */
  lemma {:induction false} QuoteIsIdentityExactly(t: string)
    requires Bytes(t)
    ensures Quote(t) == t <==> forall k :: 0 <= k < |t| ==> Safe(t[k])
  {
    if t != [] {
      QuoteIsIdentityExactly(t[1..]);
      QuoteAlphabet(t[1..]);
      assert t == [t[0]] + t[1..];
      if !Safe(t[0]) {
        assert |Quote(t)| > |t|;
      } else {
        assert Quote(t)[1..] == Quote(t[1..]);
      }
    }
  }

  // ----- the client's decoder -----

  /** Two characters after a percent sign as the client parses them: a leading plus sign is accepted. */
  function ClientPair(a: char, b: char): Option<int> {
    if HexValue(b).None? then None
    else if a == '+' then HexValue(b)
    else if HexValue(a).None? then None
    else Some(16 * HexValue(a).value + HexValue(b).value)
  }

  function PercentDecode(t: string): string {
    if t == [] then []
    else if t[0] == '%' && |t| > 2 && ClientPair(t[1], t[2]).Some?
    then [Unit(ClientPair(t[1], t[2]).value)] + PercentDecode(t[3..])
    else [t[0]] + PercentDecode(t[1..])
  }

  /** The escape that starts at index `i`, if there is one. */
  function PairAt(t: string, i: nat): Option<int>
    requires i < |t|
  {
    if t[i] == '%' && i + 2 < |t| then ClientPair(t[i + 1], t[i + 2]) else None
  }

  lemma DecodeFrom(t: string, i: nat)
    requires i < |t|
    ensures PercentDecode(t[i..]) ==
      if PairAt(t, i).Some? then [Unit(PairAt(t, i).value)] + PercentDecode(t[i + 3..])
      else [t[i]] + PercentDecode(t[i + 1..])
  {
    assert PairAt(t, i).Some? ==> t[i..][3..] == t[i + 3..];
    assert t[i..][1..] == t[i + 1..];
  }

  lemma Regroup(head: string, c: char, tail: string)
    ensures head + ([c] + tail) == (head + [c]) + tail
  {
  }

  /** The index loop of the client. */
  method PercentDecodeLoop(input: string) returns (out: string)
    ensures out == PercentDecode(input)
  {
    out := [];
    var i := 0;
    while i < |input|
      invariant 0 <= i <= |input|
      invariant out + PercentDecode(input[i..]) == PercentDecode(input)
    {
      DecodeFrom(input, i);
      var pair := PairAt(input, i);
      if pair.Some? {
        Regroup(out, Unit(pair.value), PercentDecode(input[i + 3..]));
        out := out + [Unit(pair.value)];
        i := i + 3;
        continue;
      }
      Regroup(out, input[i], PercentDecode(input[i + 1..]));
      out := out + [input[i]];
      i := i + 1;
    }
    assert input[i..] == [];
  }

  lemma DecodePlain(c: char, rest: string)
    requires c != '%'
    ensures PercentDecode([c] + rest) == [c] + PercentDecode(rest)
  {
    assert ([c] + rest)[1..] == rest;
  }

  lemma DecodeEscape(n: int, rest: string)
    requires 0 <= n < 256
    ensures PercentDecode(['%', Hex(n / 16), Hex(n % 16)] + rest) == [Unit(n)] + PercentDecode(rest)
  {
    var q := ['%', Hex(n / 16), Hex(n % 16)] + rest;
    HexValueOfHex(n / 16);
    HexValueOfHex(n % 16);
    assert ClientPair(q[1], q[2]) == Some(n);
    assert q[3..] == rest;
  }

  lemma {:induction false} DecodeUndoesQuote(t: string)
    requires Bytes(t)
    ensures PercentDecode(Quote(t)) == t
  {
    if t != [] {
      DecodeUndoesQuote(t[1..]);
      if Safe(t[0]) {
        DecodePlain(t[0], Quote(t[1..]));
      } else {
        DecodeEscape(t[0] as int, Quote(t[1..]));
      }
    }
  }

  lemma {:induction false} DecodeNoPercent(t: string)
    requires '%' !in t
    ensures PercentDecode(t) == t
  {
    if t != [] {
      DecodeNoPercent(t[1..]);
    }
  }

  /** The client gets a Unicode text back exactly when it is ASCII: it never reassembles code units. */
  lemma DecodeRecoversExactlyAscii(s: string)
    ensures Bytes(Utf8(s))
    ensures PercentDecode(Quote(Utf8(s))) == s <==> Ascii(s)
  {
    Utf8IsBytes(s);
    DecodeUndoesQuote(Utf8(s));
  }

  // ----- the uploader's decoders -----

  function Escape(t: string): Option<int> {
    if |t| > 2 && t[0] == '%' && HexValue(t[1]).Some? && HexValue(t[2]).Some?
    then Some(16 * HexValue(t[1]).value + HexValue(t[2]).value)
    else None
  }

  function Unquote(t: string): string {
    if t == [] then []
    else if Escape(t).Some? then [Unit(Escape(t).value)] + Unquote(t[3..])
    else [t[0]] + Unquote(t[1..])
  }

  function PlusToSpace(t: string): string {
    if t == [] then [] else [if t[0] == '+' then ' ' else t[0]] + PlusToSpace(t[1..])
  }

  lemma {:induction false} NoPlus(t: string)
    requires '+' !in t
    ensures PlusToSpace(t) == t
  {
    if t != [] {
      NoPlus(t[1..]);
    }
  }

  lemma UnquotePlain(c: char, rest: string)
    requires c != '%'
    ensures Unquote([c] + rest) == [c] + Unquote(rest)
  {
    assert ([c] + rest)[1..] == rest;
  }

  lemma UnquoteEscape(n: int, rest: string)
    requires 0 <= n < 256
    ensures Unquote(['%', Hex(n / 16), Hex(n % 16)] + rest) == [Unit(n)] + Unquote(rest)
  {
    var q := ['%', Hex(n / 16), Hex(n % 16)] + rest;
    HexValueOfHex(n / 16);
    HexValueOfHex(n % 16);
    assert Escape(q) == Some(n);
    assert q[3..] == rest;
  }

  lemma {:induction false} UnquoteUndoesQuote(t: string)
    requires Bytes(t)
    ensures Unquote(Quote(t)) == t
  {
    if t != [] {
      UnquoteUndoesQuote(t[1..]);
      if Safe(t[0]) {
        UnquotePlain(t[0], Quote(t[1..]));
      } else {
        UnquoteEscape(t[0] as int, Quote(t[1..]));
      }
    }
  }

  lemma {:induction false} UnquoteLength(t: string)
    ensures |Unquote(t)| <= |t|
    ensures |Unquote(t)| == |t| ==> Unquote(t) == t
    ensures t != [] ==> Unquote(t) != []
    decreases |t|
  {
    if t != [] {
      if Escape(t).Some? {
        UnquoteLength(t[3..]);
      } else {
        UnquoteLength(t[1..]);
        assert t == [t[0]] + t[1..];
      }
    }
  }

  lemma {:induction false} UnquotePlainPrefix(head: string, t: string)
    requires '%' !in head
    ensures Unquote(head + t) == head + Unquote(t)
  {
    if head == [] {
      assert head + t == t;
    } else {
      var c, rest := head[0], head[1..];
      assert head == [c] + rest && head + t == [c] + (rest + t);
      UnquotePlainPrefix(rest, t);
      UnquotePlain(c, rest + t);
      assert [c] + (rest + Unquote(t)) == ([c] + rest) + Unquote(t);
    }
  }

  /** A name without escapes survives a second unquoting. */
  predicate Plain(name: string) {
    Unquote(name) == name
  }

  /** There is an escape at index `i`. */
  predicate EscapeAt(t: string, i: nat) {
    i + 2 < |t| && t[i] == '%' && HexValue(t[i + 1]).Some? && HexValue(t[i + 2]).Some?
  }

  /** Those are exactly the names without a percent sign before two hexadecimal digits. */
  lemma {:induction false} PlainExactly(name: string)
    ensures Plain(name) <==> forall i :: 0 <= i < |name| ==> !EscapeAt(name, i)
  {
    if name != [] {
      if EscapeAt(name, 0) {
        UnquoteLength(name[3..]);
      } else {
        var rest := name[1..];
        PlainExactly(rest);
        assert name == [name[0]] + rest && Unquote(name) == [name[0]] + Unquote(rest);
        assert Unquote(name)[1..] == Unquote(rest);
        assert forall i :: 0 <= i < |rest| ==> EscapeAt(rest, i) == EscapeAt(name, i + 1);
        assert forall i :: 1 <= i < |name| ==> EscapeAt(name, i) == EscapeAt(rest, i - 1);
      }
    }
  }
}
