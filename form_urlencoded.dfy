/** The application/x-www-form-urlencoded format of section 5 of the WHATWG URL
    Standard, as `URLSearchParams.toString()` writes it (the serializer of
    section 5.2) and as the server reads a query string back: UTF-8 encoding,
    percent-encoding of every byte outside `*-._`, digits and ASCII letters,
    `+` for a space, `=` between name and value, `&` between pairs. */
module FormUrlencoded {
  import opened Common

  type Byte = b: int | 0 <= b < 256

  // ---------------------------------------------------------------- UTF-8

  predicate IsCont(b: Byte) { 0x80 <= b < 0xC0 }

  /** The UTF-8 encoding of one Unicode scalar value. */
  function Utf8Char(c: char): (bs: seq<Byte>)
    ensures 1 <= |bs| <= 4
    ensures c as int < 0x80 <==> |bs| == 1
    ensures c as int < 0x80 ==> bs == [c as int]
    ensures |bs| > 1 ==> bs[0] >= 0xC2 && forall k :: 1 <= k < |bs| ==> IsCont(bs[k])
  {
    var cp := c as int;
    var q1 := cp / 64;
    var q2 := q1 / 64;
    var q3 := q2 / 64;
    assert cp == q1 * 64 + cp % 64 && q1 == q2 * 64 + q1 % 64 && q2 == q3 * 64 + q2 % 64;
    if cp < 0x80 then [cp]
    else if cp < 0x800 then [0xC0 + q1, 0x80 + cp % 64]
    else if cp < 0x10000 then [0xE0 + q2, 0x80 + q1 % 64, 0x80 + cp % 64]
    else [0xF0 + q3, 0x80 + q2 % 64, 0x80 + q1 % 64, 0x80 + cp % 64]
  }

  function Utf8Encode(s: string): (bs: seq<Byte>)
    ensures |bs| >= |s|
  {
    if s == [] then [] else Utf8Char(s[0]) + Utf8Encode(s[1..])
  }

  predicate IsScalar(cp: int) {
    (0 <= cp < 0xD800) || (0xE000 <= cp < 0x11_0000)
  }

  /** The scalar value at the start of `bs` and the number of bytes it takes,
      or `None` when `bs` does not start with a well-formed UTF-8 sequence. */
  function DecodeChar(bs: seq<Byte>): (r: Option<(char, nat)>)
    ensures r.Some? ==> 1 <= r.value.1 <= |bs|
  {
    if bs == [] then None
    else
      var b0: int := bs[0];
      if b0 < 0x80 then Some((b0 as char, 1))
      else if 0xC2 <= b0 < 0xE0 && |bs| >= 2 && IsCont(bs[1]) then
        var cp := (b0 - 0xC0) * 64 + (bs[1] as int - 0x80);
        Some((cp as char, 2))
      else if 0xE0 <= b0 < 0xF0 && |bs| >= 3 && IsCont(bs[1]) && IsCont(bs[2]) then
        var cp := ((b0 - 0xE0) * 64 + (bs[1] as int - 0x80)) * 64 + (bs[2] as int - 0x80);
        if 0x800 <= cp && IsScalar(cp) then Some((cp as char, 3)) else None
      else if 0xF0 <= b0 < 0xF5 && |bs| >= 4 && IsCont(bs[1]) && IsCont(bs[2]) && IsCont(bs[3]) then
        var cp := (((b0 - 0xF0) * 64 + (bs[1] as int - 0x80)) * 64 + (bs[2] as int - 0x80)) * 64 + (bs[3] as int - 0x80);
        if 0x1_0000 <= cp && IsScalar(cp) then Some((cp as char, 4)) else None
      else None
  }

  /** Strict UTF-8 decoding: `None` on a malformed sequence. */
  function Utf8Decode(bs: seq<Byte>): Option<string>
    decreases |bs|
  {
    if bs == [] then Some("")
    else match DecodeChar(bs)
      case None => None
      case Some((c, n)) =>
        match Utf8Decode(bs[n..])
        case None => None
        case Some(rest) => Some([c] + rest)
  }

  lemma DecodeCharOfEncode(c: char, rest: seq<Byte>)
    ensures DecodeChar(Utf8Char(c) + rest) == Some((c, |Utf8Char(c)|))
  {
    var cp := c as int;
    var q1 := cp / 64;
    var q2 := q1 / 64;
    var q3 := q2 / 64;
    var bs := Utf8Char(c) + rest;
    if cp < 0x80 {
    } else if cp < 0x800 {
      assert q1 * 64 + cp % 64 == cp;
    } else if cp < 0x1_0000 {
      assert q2 * 64 + q1 % 64 == q1;
      assert q1 * 64 + cp % 64 == cp;
      assert bs[0] == 0xE0 + q2 && bs[1] == 0x80 + q1 % 64 && bs[2] == 0x80 + cp % 64;
    } else {
      assert q3 <= 4;
      assert q3 * 64 + q2 % 64 == q2;
      assert q2 * 64 + q1 % 64 == q1;
      assert q1 * 64 + cp % 64 == cp;
      assert bs[0] == 0xF0 + q3 && bs[1] == 0x80 + q2 % 64 && bs[2] == 0x80 + q1 % 64 && bs[3] == 0x80 + cp % 64;
    }
  }

  lemma {:induction false} Utf8RoundTrip(s: string)
    ensures Utf8Decode(Utf8Encode(s)) == Some(s)
  {
    if s != [] {
      var head := Utf8Char(s[0]);
      var tail := Utf8Encode(s[1..]);
      DecodeCharOfEncode(s[0], tail);
      assert (head + tail)[|head|..] == tail;
      Utf8RoundTrip(s[1..]);
      assert s == [s[0]] + s[1..];
    }
  }

  // ------------------------------------------------------- percent-encoding

  /** The bytes the serializer leaves as they are. */
  predicate Unreserved(b: int) {
    b == 0x2A || b == 0x2D || b == 0x2E || b == 0x5F
    || (0x30 <= b <= 0x39) || (0x41 <= b <= 0x5A) || (0x61 <= b <= 0x7A)
  }

  function HexDigit(n: int): (c: char)
    requires 0 <= n < 16
  {
    if n < 10 then (0x30 + n) as char else (0x41 + n - 10) as char
  }

  predicate IsHex(c: char) {
    ('0' <= c <= '9') || ('A' <= c <= 'F') || ('a' <= c <= 'f')
  }

  function HexValue(c: char): (n: int)
    requires IsHex(c)
    ensures 0 <= n < 16
  {
    if '0' <= c <= '9' then c as int - 0x30
    else if 'A' <= c <= 'F' then c as int - 0x41 + 10
    else c as int - 0x61 + 10
  }

  /** The characters a serialized name or value can hold. */
  predicate SerializedChar(c: char) {
    Unreserved(c as int) || c == '+' || c == '%'
  }

  function EncodeByte(b: Byte): (s: string)
    ensures forall k :: 0 <= k < |s| ==> SerializedChar(s[k])
  {
    if Unreserved(b) then [b as char]
    else if b == 0x20 then "+"
    else "%" + [HexDigit(b / 16), HexDigit(b % 16)]
  }

  function EncodeBytes(bs: seq<Byte>): (s: string)
    ensures forall k :: 0 <= k < |s| ==> SerializedChar(s[k])
  {
    if bs == [] then "" else EncodeByte(bs[0]) + EncodeBytes(bs[1..])
  }

  /** The form-urlencoded byte serializer on the UTF-8 encoding of `s`. */
  function Encode(s: string): (r: string)
    ensures forall k :: 0 <= k < |r| ==> SerializedChar(r[k])
  {
    EncodeBytes(Utf8Encode(s))
  }

  /** The bytes of a serialized name or value: `+` is a space, `%` followed by
      two hex digits is that byte, any other character stands for its own
      UTF-8 encoding (a lone `%` included). */
  function PercentDecode(s: string): seq<Byte>
  {
    if s == [] then []
    else if s[0] == '+' then [0x20] + PercentDecode(s[1..])
    else if s[0] == '%' && |s| >= 3 && IsHex(s[1]) && IsHex(s[2]) then
      [HexValue(s[1]) * 16 + HexValue(s[2])] + PercentDecode(s[3..])
    else Utf8Char(s[0]) + PercentDecode(s[1..])
  }

  lemma PercentDecodeByte(b: Byte, rest: string)
    ensures PercentDecode(EncodeByte(b) + rest) == [b] + PercentDecode(rest)
  {
    var e := EncodeByte(b);
    if Unreserved(b) {
      assert (e + rest)[0] == b as char && (e + rest)[1..] == rest;
    } else if b == 0x20 {
      assert (e + rest)[1..] == rest;
    } else {
      assert (e + rest)[3..] == rest;
      assert HexValue(HexDigit(b / 16)) == b / 16;
      assert HexValue(HexDigit(b % 16)) == b % 16;
    }
  }

  lemma {:induction false} PercentRoundTrip(bs: seq<Byte>)
    ensures PercentDecode(EncodeBytes(bs)) == bs
  {
    if bs != [] {
      PercentDecodeByte(bs[0], EncodeBytes(bs[1..]));
      PercentRoundTrip(bs[1..]);
    }
  }

  /** A serialized name or value as the server reads it back. */
  function Decode(s: string): Option<string> {
    Utf8Decode(PercentDecode(s))
  }

  lemma EncodeRoundTrip(s: string)
    ensures Decode(Encode(s)) == Some(s)
  {
    PercentRoundTrip(Utf8Encode(s));
    Utf8RoundTrip(s);
  }

  /** A string of unreserved ASCII characters is serialized as it is. */
  lemma {:induction false} EncodeUnreserved(s: string)
    requires forall k :: 0 <= k < |s| ==> Unreserved(s[k] as int)
    ensures Encode(s) == s
  {
    if s != [] {
      EncodeUnreserved(s[1..]);
      assert Utf8Encode(s) == [s[0] as int] + Utf8Encode(s[1..]);
      assert EncodeBytes(Utf8Encode(s)) == [s[0]] + EncodeBytes(Utf8Encode(s[1..]));
    }
  }

  // ----------------------------------------------------------- query strings

  type Pairs = seq<(string, string)>

  function Pair(p: (string, string)): (s: string)
    ensures '&' !in s
  {
    Encode(p.0) + "=" + Encode(p.1)
  }

  /** `URLSearchParams.toString()`: the pairs in order, joined by `&`. */
  function Serialize(ps: Pairs): (s: string)
    ensures ps == [] <==> s == ""
  {
    if ps == [] then ""
    else if |ps| == 1 then Pair(ps[0])
    else Pair(ps[0]) + "&" + Serialize(ps[1..])
  }

  /** The part of `s` before the first `c`, and what follows that `c` if there is one. */
  function SplitOnce(s: string, c: char): (r: (string, Option<string>))
    ensures r.1.None? ==> r.0 == s && c !in s
    ensures r.1.Some? ==> s == r.0 + [c] + r.1.value && c !in r.0
  {
    if s == [] then ("", None)
    else if s[0] == c then ("", Some(s[1..]))
    else
      var (w, rest) := SplitOnce(s[1..], c);
      assert s == [s[0]] + s[1..];
      ([s[0]] + w, rest)
  }

  lemma {:induction false} SplitOnceAt(w: string, c: char, rest: string)
    requires c !in w
    ensures SplitOnce(w + [c] + rest, c) == (w, Some(rest))
  {
    var s := w + [c] + rest;
    if w == [] {
      assert s == [c] + rest;
    } else {
      assert s[1..] == w[1..] + [c] + rest;
      SplitOnceAt(w[1..], c, rest);
      assert w == [w[0]] + w[1..];
    }
  }

  lemma {:induction false} SplitOnceNone(w: string, c: char)
    requires c !in w
    ensures SplitOnce(w, c) == (w, None)
  {
    if w != [] {
      SplitOnceNone(w[1..], c);
      assert w == [w[0]] + w[1..];
    }
  }

  /** One `name=value` piece read back; a piece without `=` is a name with an
      empty value. `None` when the name or the value is not well-formed UTF-8. */
  function ParsePiece(piece: string): Option<(string, string)> {
    var split := SplitOnce(piece, '=');
    var name := Decode(split.0);
    var value := Decode(if split.1.Some? then split.1.value else "");
    if name.Some? && value.Some? then Some((name.value, value.value)) else None
  }

  /** A query string read back into its pairs: split on `&`, empty pieces
      skipped, each piece read by `ParsePiece`. */
  function Parse(s: string): Option<Pairs>
    decreases |s|
  {
    if s == [] then Some([])
    else
      var split := SplitOnce(s, '&');
      var tail := if split.1.None? then Some([]) else Parse(split.1.value);
      if split.0 == [] then tail
      else
        var p := ParsePiece(split.0);
        if p.Some? && tail.Some? then Some([p.value] + tail.value) else None
  }

  lemma ParsePiecePair(p: (string, string))
    ensures Pair(p) != []
    ensures ParsePiece(Pair(p)) == Some(p)
  {
    assert Pair(p)[|Encode(p.0)|] == '=';
    assert '=' !in Encode(p.0);
    SplitOnceAt(Encode(p.0), '=', Encode(p.1));
    EncodeRoundTrip(p.0);
    EncodeRoundTrip(p.1);
  }

  /** Reading back what the serializer wrote gives the same pairs. */
  lemma {:induction false} ParseSerialize(ps: Pairs)
    ensures Parse(Serialize(ps)) == Some(ps)
  {
    if ps != [] {
      var head := Pair(ps[0]);
      ParsePiecePair(ps[0]);
      if |ps| == 1 {
        SplitOnceNone(head, '&');
        assert [ParsePiece(head).value] + [] == [ps[0]] == ps;
      } else {
        SplitOnceAt(head, '&', Serialize(ps[1..]));
        ParseSerialize(ps[1..]);
        assert ps == [ps[0]] + ps[1..];
      }
    }
  }
}
