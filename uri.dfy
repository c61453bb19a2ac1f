/** The two text encodings the pages rely on: the
    application/x-www-form-urlencoded serializer behind `URLSearchParams.toString`
    (used to build the product-list query) and ECMAScript's `decodeURIComponent`
    (used on the e-mail address of a password-reset link). Both work on the
    UTF-8 bytes of the text. */
module Uri {
  import opened Common

  type Byte = x: int | 0 <= x < 256

  // ---------------------------------------------------------------- UTF-8

  predicate IsContinuation(b: Byte) {
    0x80 <= b < 0xC0
  }

  /** The length of the UTF-8 sequence a lead byte announces (the number of its
      leading one bits, or 1 for an ASCII byte); 0 when the byte cannot start a
      sequence (a continuation byte, or five or more leading ones). */
  function SequenceLength(b: Byte): nat {
    if b < 0x80 then 1
    else if b < 0xC0 then 0
    else if b < 0xE0 then 2
    else if b < 0xF0 then 3
    else if b < 0xF8 then 4
    else 0
  }

  /** The UTF-8 encoding of one Unicode scalar value. */
  function Utf8Encode(c: char): (bs: seq<Byte>)
    ensures 1 <= |bs| <= 4 && SequenceLength(bs[0]) == |bs|
    ensures forall k :: 1 <= k < |bs| ==> IsContinuation(bs[k])
    ensures |bs| == 1 <==> (c as int) < 0x80
  {
    var n := c as int;
    if n < 0x80 then [n]
    else if n < 0x800 then [0xC0 + n / 64, 0x80 + n % 64]
    else if n < 0x10000 then [0xE0 + n / 4096, 0x80 + (n / 64) % 64, 0x80 + n % 64]
    else [0xF0 + n / 262144, 0x80 + (n / 4096) % 64, 0x80 + (n / 64) % 64, 0x80 + n % 64]
  }

  /** Decodes one complete UTF-8 sequence, rejecting overlong forms, surrogates
      and values above U+10FFFF, as RFC 3629 requires. */
  function Utf8Decode(bs: seq<Byte>): Option<char> {
    if |bs| == 1 && bs[0] < 0x80 then
      Some(bs[0] as char)
    else if |bs| == 2 && SequenceLength(bs[0]) == 2 && IsContinuation(bs[1]) then
      var n := (bs[0] as int - 0xC0) * 64 + (bs[1] as int - 0x80);
      if 0x80 <= n then Some(n as char) else None
    else if |bs| == 3 && SequenceLength(bs[0]) == 3 && IsContinuation(bs[1]) && IsContinuation(bs[2]) then
      var n := (bs[0] as int - 0xE0) * 4096 + (bs[1] as int - 0x80) * 64 + (bs[2] as int - 0x80);
      if 0x800 <= n && !(0xD800 <= n < 0xE000) then Some(n as char) else None
    else if |bs| == 4 && SequenceLength(bs[0]) == 4
            && IsContinuation(bs[1]) && IsContinuation(bs[2]) && IsContinuation(bs[3]) then
      var n := (bs[0] as int - 0xF0) * 262144 + (bs[1] as int - 0x80) * 4096 + (bs[2] as int - 0x80) * 64 + (bs[3] as int - 0x80);
      if 0x10000 <= n < 0x110000 then Some(n as char) else None
    else
      None
  }

  /** Decoding undoes encoding for every character. */
  lemma Utf8RoundTrip(c: char)
    ensures Utf8Decode(Utf8Encode(c)) == Some(c)
  {
    var n := c as int;
    var bs := Utf8Encode(c);
    if n < 0x80 {
    } else if n < 0x800 {
      assert n == (n / 64) * 64 + n % 64;
      assert (bs[0] as int - 0xC0) * 64 + (bs[1] as int - 0x80) == n;
    } else if n < 0x10000 {
      var q := n / 64;
      assert n == q * 64 + n % 64;
      assert q == (q / 64) * 64 + q % 64;
      assert n / 4096 == q / 64;
      assert (bs[0] as int - 0xE0) * 4096 + (bs[1] as int - 0x80) * 64 + (bs[2] as int - 0x80) == n;
    } else {
      var q := n / 64;
      var q2 := q / 64;
      assert n == q * 64 + n % 64;
      assert q == q2 * 64 + q % 64;
      assert q2 == (q2 / 64) * 64 + q2 % 64;
      assert n / 4096 == q2;
      assert n / 262144 == q2 / 64;
      assert (bs[0] as int - 0xF0) * 262144 + (bs[1] as int - 0x80) * 4096 + (bs[2] as int - 0x80) * 64 + (bs[3] as int - 0x80) == n;
    }
  }

  // ------------------------------------------------ percent escapes (%XX)

  /** An upper-case hexadecimal digit, as both serializers write them. */
  function HexDigit(d: int): char
    requires 0 <= d < 16
  {
    "0123456789ABCDEF"[d]
  }

  /** The value of a hexadecimal digit of either case. */
  function HexValue(c: char): Option<int> {
    if '0' <= c <= '9' then Some(c as int - '0' as int)
    else if 'A' <= c <= 'F' then Some(c as int - 'A' as int + 10)
    else if 'a' <= c <= 'f' then Some(c as int - 'a' as int + 10)
    else None
  }

  lemma HexRoundTrip(d: int)
    requires 0 <= d < 16
    ensures HexValue(HexDigit(d)) == Some(d)
  {
  }

  /** `%XX` for one byte. */
  function PercentByte(b: Byte): string {
    ['%', HexDigit(b / 16), HexDigit(b % 16)]
  }

  /** Every byte written as `%XX`. */
  function PercentBytes(bs: seq<Byte>): (r: string)
    ensures |r| == 3 * |bs|
  {
    if bs == [] then "" else PercentByte(bs[0]) + PercentBytes(bs[1..])
  }

  /** The byte of the escape `%XX` at the start of `s`, if there is one. */
  function EscapeAt(s: string): Option<Byte> {
    if |s| < 3 || s[0] != '%' then None
    else match (HexValue(s[1]), HexValue(s[2]))
      case (Some(hi), Some(lo)) =>
        assert 0 <= hi < 16 && 0 <= lo < 16;
        Some(hi * 16 + lo)
      case _ => None
  }

  /** The bytes of `n` consecutive escapes at the start of `s`. */
  function Escapes(s: string, n: nat): (r: Option<seq<Byte>>)
    ensures r.Some? ==> |r.value| == n && 3 * n <= |s|
  {
    if n == 0 then Some([])
    else match EscapeAt(s)
      case None => None
      case Some(b) =>
        match Escapes(s[3..], n - 1)
        case None => None
        case Some(rest) => Some([b] + rest)
  }

  lemma PercentByteParses(b: Byte, t: string)
    ensures EscapeAt(PercentByte(b) + t) == Some(b)
  {
    var s := PercentByte(b) + t;
    HexRoundTrip(b / 16);
    HexRoundTrip(b % 16);
    assert s[1] == HexDigit(b / 16) && s[2] == HexDigit(b % 16);
  }

  lemma {:induction false} PercentBytesParse(bs: seq<Byte>, t: string)
    ensures Escapes(PercentBytes(bs) + t, |bs|) == Some(bs)
    ensures (PercentBytes(bs) + t)[3 * |bs|..] == t
  {
    var s := PercentBytes(bs) + t;
    assert s[3 * |bs|..] == t;
    if bs != [] {
      var tail := PercentBytes(bs[1..]) + t;
      assert s == PercentByte(bs[0]) + tail;
      assert s[3..] == tail;
      PercentByteParses(bs[0], tail);
      PercentBytesParse(bs[1..], t);
      assert [bs[0]] + bs[1..] == bs;
    }
  }

  // ------------------------------------- URLSearchParams (form-urlencoded)

  /** The bytes the form-urlencoded serializer leaves as they are:
      `*`, `-`, `.`, `_`, digits and ASCII letters. */
  predicate IsFormSafe(b: Byte) {
    b == 0x2A || b == 0x2D || b == 0x2E || b == 0x5F
    || (0x30 <= b <= 0x39) || (0x41 <= b <= 0x5A) || (0x61 <= b <= 0x7A)
  }

  /** One byte as the serializer writes it: a space as `+`, a safe byte as
      itself, anything else as `%XX`. */
  function FormEncodeByte(b: Byte): string {
    if b == 0x20 then "+" else if IsFormSafe(b) then [b as char] else PercentByte(b)
  }

  function FormEncodeChar(c: char): string {
    var bs := Utf8Encode(c);
    if |bs| == 1 then FormEncodeByte(bs[0]) else PercentBytes(bs)
  }

  /** The application/x-www-form-urlencoded serialization of a string. */
  function FormEncode(s: string): string {
    if s == [] then "" else FormEncodeChar(s[0]) + FormEncode(s[1..])
  }

  /** No character that separates or ends a query value: `&`, `=`, `#`, `?`
      or a space. */
  predicate SeparatorFree(t: string) {
    forall k :: 0 <= k < |t| ==> t[k] !in {'&', '=', '#', '?', ' '}
  }

  lemma SeparatorFreeConcat(a: string, b: string)
    requires SeparatorFree(a) && SeparatorFree(b)
    ensures SeparatorFree(a + b)
  {
    forall k | 0 <= k < |a + b| ensures (a + b)[k] !in {'&', '=', '#', '?', ' '} {
      if k < |a| {
        assert (a + b)[k] == a[k];
      } else {
        assert (a + b)[k] == b[k - |a|];
      }
    }
  }

  /** An escape `%XX` is made of `%` and upper-case hexadecimal digits. */
  lemma PercentByteIsSeparatorFree(b: Byte)
    ensures SeparatorFree(PercentByte(b))
  {
    var t := PercentByte(b);
    assert '0' <= t[1] <= '9' || 'A' <= t[1] <= 'F';
    assert '0' <= t[2] <= '9' || 'A' <= t[2] <= 'F';
  }

  lemma {:induction false} PercentBytesAreSeparatorFree(bs: seq<Byte>)
    ensures SeparatorFree(PercentBytes(bs))
  {
    if bs != [] {
      PercentByteIsSeparatorFree(bs[0]);
      PercentBytesAreSeparatorFree(bs[1..]);
      SeparatorFreeConcat(PercentByte(bs[0]), PercentBytes(bs[1..]));
    }
  }

  lemma FormEncodeCharIsSeparatorFree(c: char)
    ensures SeparatorFree(FormEncodeChar(c))
  {
    var bs := Utf8Encode(c);
    if |bs| != 1 {
      PercentBytesAreSeparatorFree(bs);
    } else if bs[0] != 0x20 && !IsFormSafe(bs[0]) {
      PercentByteIsSeparatorFree(bs[0]);
    }
  }

  /** Separators never appear in an encoded value, so `key=value&key=value`
      can be split back unambiguously. */
  lemma {:induction false} FormEncodeHasNoSeparators(s: string)
    ensures SeparatorFree(FormEncode(s))
  {
    if s != [] {
      FormEncodeCharIsSeparatorFree(s[0]);
      FormEncodeHasNoSeparators(s[1..]);
      SeparatorFreeConcat(FormEncodeChar(s[0]), FormEncode(s[1..]));
    }
  }

  // ------------------------------------------------- decodeURIComponent

  /** ECMAScript `decodeURIComponent`: every `%XX` run that forms a valid
      UTF-8 sequence becomes its character, every other character is kept,
      and a malformed escape or invalid sequence is a URIError (None). */
  function DecodeURIComponent(s: string): Option<string>
    decreases |s|
  {
    if s == [] then Some("")
    else if s[0] != '%' then
      match DecodeURIComponent(s[1..])
      case None => None
      case Some(r) => Some([s[0]] + r)
    else
      match EscapeAt(s)
      case None => None
      case Some(b) =>
        var n := SequenceLength(b);
        if n == 0 then None
        else
          match Escapes(s, n)
          case None => None
          case Some(bs) =>
            match Utf8Decode(bs)
            case None => None
            case Some(c) =>
              match DecodeURIComponent(s[3 * n..])
              case None => None
              case Some(r) => Some([c] + r)
  }

  /** A character the serializer percent-encodes comes back from
      `decodeURIComponent` unchanged. */
  lemma DecodeEscapedChar(c: char, t: string)
    requires var bs := Utf8Encode(c); |bs| != 1 || (!IsFormSafe(bs[0]) && bs[0] != 0x20)
    ensures DecodeURIComponent(FormEncodeChar(c) + t) ==
      match DecodeURIComponent(t) case None => None case Some(r) => Some([c] + r)
  {
    var bs := Utf8Encode(c);
    assert FormEncodeChar(c) == PercentBytes(bs) by {
      if |bs| == 1 {
        assert PercentBytes(bs) == PercentByte(bs[0]) + PercentBytes([]);
      }
    }
    var s := PercentBytes(bs) + t;
    PercentBytesParse(bs, t);
    assert s == PercentByte(bs[0]) + (PercentBytes(bs[1..]) + t);
    PercentByteParses(bs[0], PercentBytes(bs[1..]) + t);
    assert s[0] == '%';
    assert EscapeAt(s) == Some(bs[0]) && SequenceLength(bs[0]) == |bs|;
    assert Escapes(s, |bs|) == Some(bs) && s[3 * |bs|..] == t;
    Utf8RoundTrip(c);
  }

  /** `decodeURIComponent` inverts the form serializer on every string without
      spaces (the serializer writes a space as `+`, which it leaves alone). */
  lemma {:induction false} DecodeFormEncode(s: string)
    requires ' ' !in s
    ensures DecodeURIComponent(FormEncode(s)) == Some(s)
  {
    if s != [] {
      var c := s[0];
      var t := FormEncode(s[1..]);
      assert ' ' !in s[1..] by {
        forall k | 0 <= k < |s[1..]| ensures s[1..][k] != ' ' {
          assert s[1..][k] == s[k + 1];
        }
      }
      DecodeFormEncode(s[1..]);
      var bs := Utf8Encode(c);
      if |bs| == 1 && IsFormSafe(bs[0]) {
        assert FormEncodeChar(c) == [c] && c != '%';
        var u := [c] + t;
        assert u[0] == c && u[1..] == t;
      } else {
        assert |bs| == 1 ==> bs[0] != 0x20;
        DecodeEscapedChar(c, t);
      }
      assert s == [c] + s[1..];
    }
  }

  /** The one exception: a space is serialized as `+` and decodes to `+`. */
  lemma SpaceDoesNotRoundTrip()
    ensures FormEncode(" ") == "+"
    ensures DecodeURIComponent(FormEncode(" ")) == Some("+")
  {
    assert FormEncode(" ") == FormEncodeChar(' ') + FormEncode("");
  }
}
