/** The application/x-www-form-urlencoded serializer of the WHATWG URL
    Standard (section 5.2), which `URLSearchParams.prototype.toString` runs:
    every name and value is UTF-8 encoded, ASCII alphanumerics and `*-._`
    stay as they are, a space becomes `+`, and every other byte becomes `%`
    followed by two upper-case hexadecimal digits; pairs are written
    `name=value` and joined by `&`.

    The serializer is defined with a set of `kept` characters that are written
    literally instead of being escaped: the standard serializer keeps none,
    and the lemmas below show that replacing the escape of a character by the
    character itself, as the query compiler does for `[` and `]`, gives the
    serializer that keeps that character. */
module FormUrlencoded {
  import opened Strings
  import opened Wrappers

  type byte = b: int | 0 <= b < 256

  /** The UTF-8 encoding of one Unicode scalar value (RFC 3629, section 3). */
  function Utf8(c: char): (bs: seq<byte>)
    ensures 1 <= |bs| <= 4
    ensures |bs| == 1 <==> (c as int) < 0x80
    ensures |bs| == 1 ==> bs[0] == c as int
    ensures |bs| > 1 ==> forall i :: 0 <= i < |bs| ==> bs[i] >= 0x80
  {
    var n := c as int;
    if n < 0x80 then [n]
    else if n < 0x800 then [0xC0 + n / 64, 0x80 + n % 64]
    else if n < 0x10000 then [0xE0 + n / 4096, 0x80 + (n / 64) % 64, 0x80 + n % 64]
    else [0xF0 + n / 262144, 0x80 + (n / 4096) % 64, 0x80 + (n / 64) % 64, 0x80 + n % 64]
  }

  function HexDigit(d: nat): char
    requires d < 16
  {
    "0123456789ABCDEF"[d]
  }

  /** The percent-encoded byte `%XY`. */
  function Escape(b: byte): string {
    ['%', HexDigit(b / 16), HexDigit(b % 16)]
  }

  function PercentEncode(bs: seq<byte>): string
    decreases |bs|
  {
    if |bs| == 0 then "" else Escape(bs[0]) + PercentEncode(bs[1..])
  }

  /** The characters outside the application/x-www-form-urlencoded
      percent-encode set. */
  predicate Unreserved(c: char) {
    ('A' <= c <= 'Z') || ('a' <= c <= 'z') || ('0' <= c <= '9')
    || c == '*' || c == '-' || c == '.' || c == '_'
  }

  /** The serializer's output for one character, except that characters of
      `kept` are written as they are. */
  function EncodeChar(c: char, kept: set<char>): string {
    if Unreserved(c) || c in kept then [c]
    else if c == ' ' then "+"
    else PercentEncode(Utf8(c))
  }

  function EncodeExcept(s: string, kept: set<char>): string
    decreases |s|
  {
    if |s| == 0 then "" else EncodeChar(s[0], kept) + EncodeExcept(s[1..], kept)
  }

  /** The serializer works character by character. */
  lemma {:induction false} EncodeExceptAppend(a: string, b: string, kept: set<char>)
    ensures EncodeExcept(a + b, kept) == EncodeExcept(a, kept) + EncodeExcept(b, kept)
    decreases |a|
  {
    if |a| > 0 {
      EncodeExceptAppend(a[1..], b, kept);
      assert (a + b)[1..] == a[1..] + b;
    } else {
      assert a + b == b;
    }
  }

  /** A string of unreserved and kept characters is written as it is. */
  lemma {:induction false} EncodeExceptPlain(s: string, kept: set<char>)
    requires forall i :: 0 <= i < |s| ==> Unreserved(s[i]) || s[i] in kept
    ensures EncodeExcept(s, kept) == s
    decreases |s|
  {
    if |s| > 0 {
      EncodeExceptPlain(s[1..], kept);
      assert [s[0]] + s[1..] == s;
    }
  }

  function SerializePair(p: (string, string), kept: set<char>): string {
    EncodeExcept(p.0, kept) + ("=" + EncodeExcept(p.1, kept))
  }

  function SerializeExcept(pairs: seq<(string, string)>, kept: set<char>): string
    decreases |pairs|
  {
    if |pairs| == 0 then ""
    else if |pairs| == 1 then SerializePair(pairs[0], kept)
    else SerializePair(pairs[0], kept) + ("&" + SerializeExcept(pairs[1..], kept))
  }

  /** The WHATWG application/x-www-form-urlencoded serializer. */
  function Serialize(pairs: seq<(string, string)>): string {
    SerializeExcept(pairs, {})
  }

  // ---------------------------------------------------------------------
  // Restoring one escape after serialization

  /** `s` does not end in the first one or two characters of an escape, so no
      escape can start inside `s` and finish after it. */
  predicate NoPartialEnd(s: string) {
    |s| == 0 || (s[|s| - 1] != '%' && (|s| >= 2 ==> s[|s| - 2] != '%'))
  }

  lemma NoPartialEndSuffix(a: string, k: nat)
    requires NoPartialEnd(a) && k <= |a|
    ensures NoPartialEnd(a[k..])
  {
  }

  /** An escape pattern starts `a + b` exactly when it starts `a`, when `a`
      does not end inside an escape. */
  lemma PatternAtFront(a: string, b: string, pat: string)
    requires |pat| == 3 && pat[0] == '%'
    requires NoPartialEnd(a) && |a| > 0
    ensures (pat <= a + b) <==> (pat <= a)
    ensures pat <= a + b ==> |a| >= 3
  {
    var ab := a + b;
    if pat <= ab {
      assert ab[0] == '%';
      assert |a| >= 3;
      assert a[..3] == ab[..3];
    } else if |a| >= 3 {
      assert a[..3] == ab[..3];
    }
  }

  /** Global replacement of an escape distributes over a concatenation whose
      left part does not end inside an escape. */
  lemma {:induction false} ReplaceAllAppend(a: string, b: string, pat: string, rep: string)
    requires |pat| == 3 && pat[0] == '%'
    requires NoPartialEnd(a)
    ensures ReplaceAll(a + b, pat, rep) == ReplaceAll(a, pat, rep) + ReplaceAll(b, pat, rep)
    decreases |a|
  {
    if |a| > 0 {
      var ab := a + b;
      PatternAtFront(a, b, pat);
      var k := if pat <= a then 3 else 1;
      assert ab[k..] == a[k..] + b;
      NoPartialEndSuffix(a, k);
      ReplaceAllAppend(a[k..], b, pat, rep);
    } else {
      assert a + b == b;
    }
  }

  lemma ReplaceAllLiteral(c: char, pat: string, rep: string)
    requires |pat| == 3
    ensures ReplaceAll([c], pat, rep) == [c]
  {
    assert !(pat <= [c]);
  }

  /** A character other than `%` in front of a string passes through. */
  lemma ReplaceAllCons(c: char, s: string, pat: string, rep: string)
    requires |pat| == 3 && pat[0] == '%' && c != '%'
    ensures ReplaceAll([c] + s, pat, rep) == [c] + ReplaceAll(s, pat, rep)
  {
    assert ([c] + s)[1..] == s;
  }

  /** The escape of `b` is the escape of `t` only when `b` is `t`. */
  lemma EscapeInjective(b: byte, t: byte)
    requires Escape(b) == Escape(t)
    ensures b == t
  {
    var s := "0123456789ABCDEF";
    assert forall i, j :: 0 <= i < j < 16 ==> s[i] != s[j];
    assert b / 16 == t / 16 && b % 16 == t % 16;
  }

  /** Replacing every escape of `t` leaves one escape of another byte as it is. */
  lemma ReplaceOtherEscape(b: byte, t: byte, rep: string)
    requires b != t
    ensures ReplaceAll(Escape(b), Escape(t), rep) == Escape(b)
  {
    var e := Escape(b);
    var pat := Escape(t);
    assert !(pat <= e) by {
      if pat <= e {
        assert e[..3] == e;
        EscapeInjective(b, t);
      }
    }
    assert e[1..] == [e[1], e[2]];
    assert !(pat <= e[1..]);
    assert e[1..][1..] == [e[2]];
    ReplaceAllLiteral(e[2], pat, rep);
  }

  lemma ReplaceOwnEscape(t: byte, rep: string)
    ensures ReplaceAll(Escape(t), Escape(t), rep) == rep
  {
    assert Escape(t)[3..] == "";
  }

  lemma {:induction false} ReplaceOtherEscapes(bs: seq<byte>, t: byte, rep: string)
    requires forall i :: 0 <= i < |bs| ==> bs[i] != t
    ensures ReplaceAll(PercentEncode(bs), Escape(t), rep) == PercentEncode(bs)
    decreases |bs|
  {
    if |bs| > 0 {
      ReplaceAllAppend(Escape(bs[0]), PercentEncode(bs[1..]), Escape(t), rep);
      ReplaceOtherEscape(bs[0], t, rep);
      ReplaceOtherEscapes(bs[1..], t, rep);
    }
  }

  /** A character suitable for restoration: one byte in UTF-8, escaped by the
      standard serializer, and not `%` itself. */
  predicate Restorable(ch: char) {
    (ch as int) < 0x80 && !Unreserved(ch) && ch != ' ' && ch != '%'
  }

  lemma EncodeCharNoPartialEnd(c: char, kept: set<char>)
    requires '%' !in kept
    ensures NoPartialEnd(EncodeChar(c, kept))
  {
    if !(Unreserved(c) || c in kept) && c != ' ' {
      var bs := Utf8(c);
      var n := |bs| - 1;
      PercentEncodeLast(bs);
    }
  }

  /** The last two characters of a non-empty percent-encoding are hex digits. */
  lemma {:induction false} PercentEncodeLast(bs: seq<byte>)
    requires |bs| > 0
    ensures var s := PercentEncode(bs); |s| >= 3 && s[|s| - 1] != '%' && s[|s| - 2] != '%'
    decreases |bs|
  {
    if |bs| > 1 {
      PercentEncodeLast(bs[1..]);
    }
  }

  /** Replacing the escape of `ch` by `ch` in the output for one character. */
  lemma RestoreChar(c: char, kept: set<char>, ch: char)
    requires Restorable(ch) && '%' !in kept
    ensures ReplaceAll(EncodeChar(c, kept), Escape(ch as int), [ch]) == EncodeChar(c, kept + {ch})
  {
    var t: byte := ch as int;
    if Unreserved(c) || c in kept {
      ReplaceAllLiteral(c, Escape(t), [ch]);
    } else if c == ' ' {
      ReplaceAllLiteral('+', Escape(t), [ch]);
    } else if c == ch {
      assert Utf8(c) == [t];
      assert PercentEncode([t]) == Escape(t) + PercentEncode([]);
      ReplaceOwnEscape(t, [ch]);
    } else {
      var bs := Utf8(c);
      assert forall i :: 0 <= i < |bs| ==> bs[i] != t;
      ReplaceOtherEscapes(bs, t, [ch]);
    }
  }

  lemma {:induction false} RestoreString(s: string, kept: set<char>, ch: char)
    requires Restorable(ch) && '%' !in kept
    ensures ReplaceAll(EncodeExcept(s, kept), Escape(ch as int), [ch]) == EncodeExcept(s, kept + {ch})
    decreases |s|
  {
    if |s| > 0 {
      EncodeCharNoPartialEnd(s[0], kept);
      ReplaceAllAppend(EncodeChar(s[0], kept), EncodeExcept(s[1..], kept), Escape(ch as int), [ch]);
      RestoreChar(s[0], kept, ch);
      RestoreString(s[1..], kept, ch);
    }
  }

  lemma {:induction false} EncodeExceptNoPartialEnd(s: string, kept: set<char>)
    requires '%' !in kept
    ensures NoPartialEnd(EncodeExcept(s, kept))
    decreases |s|
  {
    if |s| > 0 {
      EncodeCharNoPartialEnd(s[0], kept);
      EncodeExceptNoPartialEnd(s[1..], kept);
      var head := EncodeChar(s[0], kept);
      var tail := EncodeExcept(s[1..], kept);
      assert |head| >= 1;
      if |tail| == 1 {
        assert (head + tail)[|head + tail| - 2] == head[|head| - 1];
      } else if |tail| >= 2 {
        assert (head + tail)[|head + tail| - 2] == tail[|tail| - 2];
      }
    }
  }

  lemma RestorePair(p: (string, string), kept: set<char>, ch: char)
    requires Restorable(ch) && '%' !in kept
    ensures ReplaceAll(SerializePair(p, kept), Escape(ch as int), [ch]) == SerializePair(p, kept + {ch})
  {
    var pat := Escape(ch as int);
    var n := EncodeExcept(p.0, kept);
    var v := EncodeExcept(p.1, kept);
    EncodeExceptNoPartialEnd(p.0, kept);
    ReplaceAllAppend(n, "=" + v, pat, [ch]);
    ReplaceAllCons('=', v, pat, [ch]);
    RestoreString(p.0, kept, ch);
    RestoreString(p.1, kept, ch);
    calc {
      ReplaceAll(SerializePair(p, kept), pat, [ch]);
      ReplaceAll(n + ("=" + v), pat, [ch]);
      ReplaceAll(n, pat, [ch]) + ReplaceAll("=" + v, pat, [ch]);
      EncodeExcept(p.0, kept + {ch}) + ("=" + EncodeExcept(p.1, kept + {ch}));
    }
  }

  lemma {:induction false} RestoreSerialized(pairs: seq<(string, string)>, kept: set<char>, ch: char)
    requires Restorable(ch) && '%' !in kept
    ensures ReplaceAll(SerializeExcept(pairs, kept), Escape(ch as int), [ch]) == SerializeExcept(pairs, kept + {ch})
    decreases |pairs|
  {
    var pat := Escape(ch as int);
    if |pairs| == 1 {
      RestorePair(pairs[0], kept, ch);
    } else if |pairs| > 1 {
      var head := SerializePair(pairs[0], kept);
      var tail := SerializeExcept(pairs[1..], kept);
      EncodeExceptNoPartialEnd(pairs[0].0, kept);
      EncodeExceptNoPartialEnd(pairs[0].1, kept);
      assert NoPartialEnd(head) by {
        var n := EncodeExcept(pairs[0].0, kept);
        var v := EncodeExcept(pairs[0].1, kept);
        assert head == n + ("=" + v);
        if |v| == 0 {
          assert head == n + "=";
          assert head[|head| - 1] == '=';
          if |n| > 0 { assert head[|head| - 2] == n[|n| - 1]; }
        } else if |v| == 1 {
          assert head[|head| - 1] == v[0];
          assert head[|head| - 2] == '=';
        } else {
          assert head[|head| - 1] == v[|v| - 1];
          assert head[|head| - 2] == v[|v| - 2];
        }
      }
      ReplaceAllAppend(head, "&" + tail, pat, [ch]);
      ReplaceAllAppend("&", tail, pat, [ch]);
      ReplaceAllLiteral('&', pat, [ch]);
      RestorePair(pairs[0], kept, ch);
      RestoreSerialized(pairs[1..], kept, ch);
    }
  }

  /** Replacing `%5B` by `[` and then `%5D` by `]` in the standard
      serialization gives the serialization that keeps just those two
      characters; every other escape is untouched. */
  lemma RestoreBrackets(pairs: seq<(string, string)>)
    ensures ReplaceAll(ReplaceAll(Serialize(pairs), "%5B", "["), "%5D", "]")
         == SerializeExcept(pairs, {'[', ']'})
  {
    assert Escape('[' as int) == "%5B";
    assert Escape(']' as int) == "%5D";
    assert Restorable('[') && Restorable(']');
    RestoreSerialized(pairs, {}, '[');
    assert {} + {'['} == {'['};
    RestoreSerialized(pairs, {'['}, ']');
    assert {'['} + {']'} == {'[', ']'};
  }

  // ---------------------------------------------------------------------
  // Reading a serialization back

  predicate IsHex(c: char) {
    ('0' <= c <= '9') || ('A' <= c <= 'F') || ('a' <= c <= 'f')
  }

  function HexValue(c: char): (d: nat)
    requires IsHex(c)
    ensures d < 16
  {
    if '0' <= c <= '9' then (c as int) - ('0' as int)
    else if 'A' <= c <= 'F' then (c as int) - ('A' as int) + 10
    else (c as int) - ('a' as int) + 10
  }

  /** The bytes a serialized name or value stands for, as the WHATWG
      application/x-www-form-urlencoded parser (section 5.1) reads them:
      `+` is a space, `%XY` with two hexadecimal digits is the byte XY, and
      any other character (including a `%` not followed by two digits)
      stands for its own UTF-8 bytes. */
  function PercentDecode(s: string): seq<byte>
    decreases |s|
  {
    if |s| == 0 then []
    else if s[0] == '%' && |s| >= 3 && IsHex(s[1]) && IsHex(s[2]) then
      [HexValue(s[1]) * 16 + HexValue(s[2])] + PercentDecode(s[3..])
    else if s[0] == '+' then [0x20] + PercentDecode(s[1..])
    else Utf8(s[0]) + PercentDecode(s[1..])
  }

  predicate IsContinuation(b: byte) {
    0x80 <= b < 0xC0
  }

  /** `[cp as char] + rest`, provided `cp` is a scalar value that needs the
      number of bytes it was read from (at least `least`). */
  function PrependScalar(cp: int, least: int, rest: Option<string>): Option<string> {
    if 0 <= least <= cp < 0x11_0000 && !(0xD800 <= cp < 0xE000) && rest.Some? then
      Some([cp as char] + rest.value)
    else None
  }

  /** Strict UTF-8 decoding (RFC 3629, section 3); `None` for a malformed,
      overlong or surrogate sequence. */
  function Utf8Decode(bs: seq<byte>): Option<string>
    decreases |bs|
  {
    if |bs| == 0 then Some("")
    else if bs[0] < 0x80 then PrependScalar(bs[0], 0, Utf8Decode(bs[1..]))
    else if 0xC0 <= bs[0] < 0xE0 && |bs| >= 2 && IsContinuation(bs[1]) then
      PrependScalar((bs[0] as int - 0xC0) * 64 + (bs[1] as int - 0x80), 0x80, Utf8Decode(bs[2..]))
    else if 0xE0 <= bs[0] < 0xF0 && |bs| >= 3 && IsContinuation(bs[1]) && IsContinuation(bs[2]) then
      PrependScalar((bs[0] as int - 0xE0) * 4096 + (bs[1] as int - 0x80) * 64 + (bs[2] as int - 0x80), 0x800, Utf8Decode(bs[3..]))
    else if 0xF0 <= bs[0] < 0xF8 && |bs| >= 4
         && IsContinuation(bs[1]) && IsContinuation(bs[2]) && IsContinuation(bs[3]) then
      PrependScalar((bs[0] as int - 0xF0) * 262144 + (bs[1] as int - 0x80) * 4096
                      + (bs[2] as int - 0x80) * 64 + (bs[3] as int - 0x80),
                    0x1_0000, Utf8Decode(bs[4..]))
    else None
  }

  /** One serialized name or value, read back. */
  function DecodeComponent(s: string): Option<string> {
    Utf8Decode(PercentDecode(s))
  }

  /** One `name=value` sequence: the name ends at the first `=`; without a
      `=` the value is empty. */
  function ParsePair(piece: string): Option<(string, string)> {
    var name := Split(piece, '=')[0];
    var value := if |name| < |piece| then piece[|name| + 1..] else "";
    var n := DecodeComponent(name);
    var v := DecodeComponent(value);
    if n.Some? && v.Some? then Some((n.value, v.value)) else None
  }

  function ParsePieces(pieces: seq<string>): Option<seq<(string, string)>>
    decreases |pieces|
  {
    if |pieces| == 0 then Some([])
    else
      var rest := ParsePieces(pieces[1..]);
      if pieces[0] == "" then rest
      else
        var p := ParsePair(pieces[0]);
        if p.Some? && rest.Some? then Some([p.value] + rest.value) else None
  }

  /** The application/x-www-form-urlencoded parser: split on `&`, skip
      empty sequences, read each `name=value`. */
  function Parse(s: string): Option<seq<(string, string)>> {
    ParsePieces(Split(s, '&'))
  }

  lemma Utf8DecodeTwo(c: char, rest: seq<byte>)
    requires 0x80 <= c as int < 0x800
    ensures Utf8Decode(Utf8(c) + rest) == PrependScalar(c as int, 0, Utf8Decode(rest))
  {
    var n := c as int;
    assert (Utf8(c) + rest)[2..] == rest;
    assert (n / 64) * 64 + n % 64 == n;
  }

  lemma Utf8DecodeThree(c: char, rest: seq<byte>)
    requires 0x800 <= c as int < 0x1_0000
    ensures Utf8Decode(Utf8(c) + rest) == PrependScalar(c as int, 0, Utf8Decode(rest))
  {
    var n := c as int;
    assert (Utf8(c) + rest)[3..] == rest;
    assert (n / 64) == (n / 4096) * 64 + (n / 64) % 64;
    assert (n / 64) * 64 + n % 64 == n;
  }

  lemma Utf8DecodeFour(c: char, rest: seq<byte>)
    requires 0x1_0000 <= c as int
    ensures Utf8Decode(Utf8(c) + rest) == PrependScalar(c as int, 0, Utf8Decode(rest))
  {
    var n := c as int;
    assert (Utf8(c) + rest)[4..] == rest;
    assert (n / 4096) == (n / 262144) * 64 + (n / 4096) % 64;
    assert (n / 64) == (n / 4096) * 64 + (n / 64) % 64;
    assert (n / 64) * 64 + n % 64 == n;
  }

  /** Decoding one character's UTF-8 bytes gives the character back. */
  lemma Utf8DecodeChar(c: char, rest: seq<byte>)
    ensures Utf8Decode(Utf8(c) + rest) == PrependScalar(c as int, 0, Utf8Decode(rest))
  {
    var n := c as int;
    if n < 0x80 {
      assert (Utf8(c) + rest)[1..] == rest;
    } else if n < 0x800 {
      Utf8DecodeTwo(c, rest);
    } else if n < 0x1_0000 {
      Utf8DecodeThree(c, rest);
    } else {
      Utf8DecodeFour(c, rest);
    }
  }

  /** The UTF-8 bytes of a whole string. */
  function Utf8String(s: string): seq<byte>
    decreases |s|
  {
    if |s| == 0 then [] else Utf8(s[0]) + Utf8String(s[1..])
  }

  lemma {:induction false} Utf8StringRoundTrip(s: string)
    ensures Utf8Decode(Utf8String(s)) == Some(s)
    decreases |s|
  {
    if |s| > 0 {
      Utf8StringRoundTrip(s[1..]);
      Utf8DecodeChar(s[0], Utf8String(s[1..]));
      assert [s[0] as int as char] + s[1..] == s;
    }
  }

  lemma PercentDecodeEscape(b: byte, rest: string)
    ensures PercentDecode(Escape(b) + rest) == [b] + PercentDecode(rest)
  {
    var s := Escape(b) + rest;
    var digits := "0123456789ABCDEF";
    assert s[1] == digits[b / 16] && s[2] == digits[b % 16];
    assert IsHex(s[1]) && IsHex(s[2]);
    assert HexValue(s[1]) == b / 16 && HexValue(s[2]) == b % 16;
    assert s[3..] == rest;
  }

  lemma {:induction false} PercentDecodeEscapes(bs: seq<byte>, rest: string)
    ensures PercentDecode(PercentEncode(bs) + rest) == bs + PercentDecode(rest)
    decreases |bs|
  {
    if |bs| > 0 {
      var tail := PercentEncode(bs[1..]) + rest;
      assert PercentEncode(bs) + rest == Escape(bs[0]) + tail;
      PercentDecodeEscape(bs[0], tail);
      PercentDecodeEscapes(bs[1..], rest);
      assert bs == [bs[0]] + bs[1..];
    } else {
      assert PercentEncode(bs) + rest == rest;
    }
  }

  lemma PercentDecodeChar(c: char, rest: string)
    ensures PercentDecode(EncodeChar(c, {}) + rest) == Utf8(c) + PercentDecode(rest)
  {
    if Unreserved(c) {
      assert ([c] + rest)[1..] == rest;
    } else if c == ' ' {
      assert ("+" + rest)[1..] == rest;
    } else {
      PercentDecodeEscapes(Utf8(c), rest);
    }
  }

  lemma {:induction false} PercentDecodeEncoded(s: string)
    ensures PercentDecode(EncodeExcept(s, {})) == Utf8String(s)
    decreases |s|
  {
    if |s| > 0 {
      PercentDecodeChar(s[0], EncodeExcept(s[1..], {}));
      PercentDecodeEncoded(s[1..]);
    }
  }

  /** Reading back one encoded name or value gives the original. */
  lemma DecodeEncoded(s: string)
    ensures DecodeComponent(EncodeExcept(s, {})) == Some(s)
  {
    PercentDecodeEncoded(s);
    Utf8StringRoundTrip(s);
  }

  /** The standard serializer writes only unreserved characters, `+` and `%`. */
  lemma {:induction false} EncodedAlphabet(s: string)
    ensures forall i :: 0 <= i < |EncodeExcept(s, {})| ==>
      var x := EncodeExcept(s, {})[i]; Unreserved(x) || x == '+' || x == '%'
    decreases |s|
  {
    if |s| > 0 {
      EncodedAlphabet(s[1..]);
      var c := s[0];
      if !Unreserved(c) && c != ' ' {
        PercentEncodeAlphabet(Utf8(c));
      }
    }
  }

  lemma {:induction false} PercentEncodeAlphabet(bs: seq<byte>)
    ensures forall i :: 0 <= i < |PercentEncode(bs)| ==>
      var x := PercentEncode(bs)[i]; Unreserved(x) || x == '%'
    decreases |bs|
  {
    if |bs| > 0 {
      PercentEncodeAlphabet(bs[1..]);
      var digits := "0123456789ABCDEF";
      assert forall d :: 0 <= d < 16 ==> Unreserved(digits[d]);
    }
  }

  lemma NoSeparatorInEncoded(s: string)
    ensures '&' !in EncodeExcept(s, {}) && '=' !in EncodeExcept(s, {})
  {
    EncodedAlphabet(s);
  }

  lemma ParsePairSerialized(p: (string, string))
    ensures ParsePair(SerializePair(p, {})) == Some(p)
  {
    var n := EncodeExcept(p.0, {});
    var v := EncodeExcept(p.1, {});
    var piece := SerializePair(p, {});
    NoSeparatorInEncoded(p.0);
    NoSeparatorInEncoded(p.1);
    assert piece == n + ['='] + v;
    SplitAppend(n, '=', v);
    assert piece[|n| + 1..] == v;
    DecodeEncoded(p.0);
    DecodeEncoded(p.1);
  }

  lemma SerializePairNoAmpersand(p: (string, string))
    ensures '&' !in SerializePair(p, {}) && SerializePair(p, {}) != ""
  {
    NoSeparatorInEncoded(p.0);
    NoSeparatorInEncoded(p.1);
    var n := EncodeExcept(p.0, {});
    var v := EncodeExcept(p.1, {});
    assert SerializePair(p, {})[|n|] == '=';
  }

  lemma ParsePiecesCons(head: string, tail: seq<string>, p: (string, string), rest: seq<(string, string)>)
    requires head != "" && ParsePair(head) == Some(p) && ParsePieces(tail) == Some(rest)
    ensures ParsePieces([head] + tail) == Some([p] + rest)
  {
    assert ([head] + tail)[1..] == tail;
  }

  lemma {:induction false} ParseSerializedNonEmpty(pairs: seq<(string, string)>)
    requires |pairs| > 0
    ensures ParsePieces(Split(SerializeExcept(pairs, {}), '&')) == Some(pairs)
    decreases |pairs|
  {
    var head := SerializePair(pairs[0], {});
    SerializePairNoAmpersand(pairs[0]);
    ParsePairSerialized(pairs[0]);
    if |pairs| == 1 {
      assert SerializeExcept(pairs, {}) == head;
      SplitWithout(head, '&');
      ParsePiecesCons(head, [], pairs[0], []);
      assert [head] + [] == [head];
      assert [pairs[0]] + [] == pairs;
    } else {
      var tail := SerializeExcept(pairs[1..], {});
      assert SerializeExcept(pairs, {}) == head + ['&'] + tail;
      SplitAppend(head, '&', tail);
      ParseSerializedNonEmpty(pairs[1..]);
      ParsePiecesCons(head, Split(tail, '&'), pairs[0], pairs[1..]);
      assert [pairs[0]] + pairs[1..] == pairs;
    }
  }

  /** The parser reads back exactly the pairs the serializer wrote. */
  lemma ParseSerialize(pairs: seq<(string, string)>)
    ensures Parse(Serialize(pairs)) == Some(pairs)
  {
    if |pairs| == 0 {
      assert Split("", '&') == [""];
    } else {
      ParseSerializedNonEmpty(pairs);
    }
  }
}
