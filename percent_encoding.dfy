/**
 * The `encode` helper of src/client/session.rs: percent-encoding of the UTF-8
 * bytes of an emoji before it is placed in a reaction URI.  Bytes in the
 * unreserved set of RFC 3986 section 2.3 are copied; every other byte becomes
 * a `%XX` triplet of section 2.1 with upper-case hexadecimal digits.
 */
module PercentEncoding {
  import opened Wrappers

  newtype byte = x: int | 0 <= x < 256

  /** The character a byte denotes in `*b as char` (ISO 8859-1). */
  function Char(b: byte): char
  {
    b as int as char
  }

  /** Unreserved characters of RFC 3986 section 2.3: ALPHA / DIGIT / "-" / "." / "_" / "~". */
  predicate UnreservedChar(c: char)
  {
    || ('A' <= c <= 'Z')
    || ('a' <= c <= 'z')
    || ('0' <= c <= '9')
    || c == '-' || c == '_' || c == '.' || c == '~'
  }

  predicate Unreserved(b: byte)
  {
    UnreservedChar(Char(b))
  }

  predicate IsUpperHex(c: char)
  {
    ('0' <= c <= '9') || ('A' <= c <= 'F')
  }

  /** A character may appear in the output of `PercentEncode`. */
  predicate UrlSafe(c: char)
  {
    c == '%' || UnreservedChar(c)
  }

  /** Value of a hexadecimal digit of either case, as a percent-decoder reads it. */
  function HexValue(c: char): (r: Option<nat>)
    ensures r.Some? ==> r.value < 16
    ensures IsUpperHex(c) ==> r.Some?
  {
    if '0' <= c <= '9' then Some(c as int - '0' as int)
    else if 'A' <= c <= 'F' then Some(c as int - 'A' as int + 10)
    else if 'a' <= c <= 'f' then Some(c as int - 'a' as int + 10)
    else None
  }

  /** One upper-case hexadecimal digit, as `{:X}` prints it. */
  function Hex(n: nat): (c: char)
    requires n < 16
    ensures IsUpperHex(c) && HexValue(c) == Some(n)
  {
    if n < 10 then ('0' as int + n) as char else ('A' as int + n - 10) as char
  }

  /** The text `encode` pushes for one byte. */
  function EncodeByte(b: byte): (r: string)
    ensures Unreserved(b) ==> r == [Char(b)]
    ensures !Unreserved(b) ==>
      && |r| == 3 && r[0] == '%' && IsUpperHex(r[1]) && IsUpperHex(r[2])
      && HexValue(r[1]).value * 16 + HexValue(r[2]).value == b as int
  {
    if Unreserved(b) then [Char(b)]
    else ['%', Hex(b as int / 16), Hex(b as int % 16)]
  }

  /** The specification of `encode`: the bytes' encodings, in order. */
  function PercentEncode(data: seq<byte>): string
  {
    if data == [] then "" else EncodeByte(data[0]) + PercentEncode(data[1..])
  }

  /** Number of characters one byte becomes. */
  function Width(b: byte): nat
  {
    if Unreserved(b) then 1 else 3
  }

  function EncodedLength(data: seq<byte>): nat
  {
    if data == [] then 0 else Width(data[0]) + EncodedLength(data[1..])
  }

  /** The bytes read as characters, one for one. */
  function Chars(data: seq<byte>): (r: string)
    ensures |r| == |data|
  {
    seq(|data|, i requires 0 <= i < |data| => Char(data[i]))
  }

  /** A percent-decoder accepting unreserved characters and `%XX` triplets of either case. */
  function PercentDecode(s: string): Option<seq<byte>>
    decreases |s|
  {
    if s == [] then Some([])
    else if s[0] == '%' then
      if |s| < 3 || HexValue(s[1]).None? || HexValue(s[2]).None? then None
      else
        match PercentDecode(s[3..])
        case None => None
        case Some(rest) => Some([(HexValue(s[1]).value * 16 + HexValue(s[2]).value) as byte] + rest)
    else if UnreservedChar(s[0]) then
      match PercentDecode(s[1..])
      case None => None
      case Some(rest) => Some([s[0] as int as byte] + rest)
    else None
  }

  /** Encoding preserves order: the encoding of a concatenation is the concatenation of encodings. */
  lemma {:induction false} PercentEncodeAppend(a: seq<byte>, b: seq<byte>)
    ensures PercentEncode(a + b) == PercentEncode(a) + PercentEncode(b)
  {
    if a != [] {
      assert (a + b)[1..] == a[1..] + b;
      PercentEncodeAppend(a[1..], b);
    } else {
      assert a + b == b;
    }
  }

  /** The output has one character per unreserved byte and three per escaped byte. */
  lemma {:induction false} EncodedLengthIsSum(data: seq<byte>)
    ensures |PercentEncode(data)| == EncodedLength(data)
  {
    if data != [] {
      EncodedLengthIsSum(data[1..]);
    }
  }

  /** The output holds only unreserved characters and `%`. */
  lemma {:induction false} EncodedIsUrlSafe(data: seq<byte>)
    ensures forall i :: 0 <= i < |PercentEncode(data)| ==> UrlSafe(PercentEncode(data)[i])
  {
    if data != [] {
      EncodedIsUrlSafe(data[1..]);
      var head, tail := EncodeByte(data[0]), PercentEncode(data[1..]);
      assert PercentEncode(data) == head + tail;
      forall i | 0 <= i < |head + tail| ensures UrlSafe((head + tail)[i]) {
        if i >= |head| {
          assert (head + tail)[i] == tail[i - |head|];
        }
      }
    }
  }

  /** An encoded emoji never contains a URI delimiter, so it stays one segment of a reaction URI. */
  lemma EncodedHasNoDelimiters(data: seq<byte>)
    ensures forall i :: 0 <= i < |PercentEncode(data)| ==>
      PercentEncode(data)[i] !in {'/', '?', '#', '&', '@', ':'}
  {
    EncodedIsUrlSafe(data);
  }

  /** Input made only of unreserved bytes is copied unchanged. */
  lemma {:induction false} EncodeUnreservedIsIdentity(data: seq<byte>)
    requires forall i :: 0 <= i < |data| ==> Unreserved(data[i])
    ensures PercentEncode(data) == Chars(data)
  {
    if data != [] {
      EncodeUnreservedIsIdentity(data[1..]);
      assert Chars(data) == [Char(data[0])] + Chars(data[1..]);
    }
  }

  /** Percent-decoding undoes encoding. */
  lemma {:induction false} DecodeEncode(data: seq<byte>)
    ensures PercentDecode(PercentEncode(data)) == Some(data)
  {
    if data != [] {
      var b, rest := data[0], data[1..];
      DecodeEncode(rest);
      var head := EncodeByte(b);
      var s := head + PercentEncode(rest);
      assert PercentEncode(data) == s;
      assert data == [b] + rest;
      if Unreserved(b) {
        assert s[0] == Char(b) && s[1..] == PercentEncode(rest);
      } else {
        assert s[0] == '%' && s[1] == head[1] && s[2] == head[2];
        assert s[3..] == PercentEncode(rest);
      }
    }
  }

  /** Distinct byte sequences have distinct encodings. */
  lemma PercentEncodeInjective(a: seq<byte>, b: seq<byte>)
    requires PercentEncode(a) == PercentEncode(b)
    ensures a == b
  {
    DecodeEncode(a);
    DecodeEncode(b);
  }

  /** `encode`: pushes each byte's encoding onto a growing buffer. */
  method Encode(data: seq<byte>) returns (escaped: string)
    ensures escaped == PercentEncode(data)
  {
    escaped := "";
    for i := 0 to |data|
      invariant escaped == PercentEncode(data[..i])
    {
      var b := data[i];
      if UnreservedChar(Char(b)) {
        escaped := escaped + [Char(b)];
      } else {
        escaped := escaped + ['%', Hex(b as int / 16), Hex(b as int % 16)];
      }
      assert data[..i + 1] == data[..i] + [b];
      PercentEncodeAppend(data[..i], [b]);
    }
    assert data[..|data|] == data;
  }
}
