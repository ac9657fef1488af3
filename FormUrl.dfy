/** The `application/x-www-form-urlencoded` format of the WHATWG URL standard,
    which `URLSearchParams.toString()` writes and `url.search` shows: every
    name and value is UTF-8 encoded, the bytes `*-._`, digits and ASCII
    letters are kept, space becomes `+`, every other byte becomes `%XX` with
    upper-case hexadecimal digits, and the pairs are written `name=value`
    separated by `&`.  The parser is the reference against which the
    serializer is proved. */
module FormUrl {
  import opened Common
  import opened Strings
  import Utf8

  type Byte = Utf8.Byte

  /** A name/value pair of a `URLSearchParams` list. */
  type Pair = (string, string)

  // ---------------------------------------------------------------------------
  // the byte serializer

  predicate IsUnescaped(b: int) {
    (0x30 <= b <= 0x39) || (0x41 <= b <= 0x5A) || (0x61 <= b <= 0x7A)
    || b == 0x2A || b == 0x2D || b == 0x2E || b == 0x5F
  }

  function HexUpper(d: int): char
    requires 0 <= d < 16
  {
    if d < 10 then ('0' as int + d) as char else ('A' as int + d - 10) as char
  }

  /** The text one byte becomes. */
  function EncodeByte(b: Byte): (r: string)
    ensures |r| == 1 || |r| == 3
    ensures Utf8.IsAscii(r) && '&' !in r && '=' !in r
  {
    if IsUnescaped(b) then [b as char]
    else if b == 0x20 then "+"
    else ['%', HexUpper(b / 16), HexUpper(b % 16)]
  }

  function EncodeBytes(bs: seq<Byte>): (r: string)
    ensures Utf8.IsAscii(r) && '&' !in r && '=' !in r
  {
    if |bs| == 0 then "" else EncodeByte(bs[0]) + EncodeBytes(bs[1..])
  }

  /** One name or value as it appears in the serialized text. */
  function Encode(s: string): (r: string)
    ensures Utf8.IsAscii(r) && '&' !in r && '=' !in r
  {
    EncodeBytes(Utf8.Encode(s))
  }

  /** `name=value` */
  function EncodePair(p: Pair): (r: string)
    ensures '&' !in r
  {
    Encode(p.0) + "=" + Encode(p.1)
  }

  function EncodePairs(ps: seq<Pair>): (r: seq<string>)
    ensures |r| == |ps| && forall k :: 0 <= k < |ps| ==> r[k] == EncodePair(ps[k])
  {
    if |ps| == 0 then [] else [EncodePair(ps[0])] + EncodePairs(ps[1..])
  }

  /** `new URLSearchParams(pairs).toString()`: the pairs in list order. */
  function Serialize(ps: seq<Pair>): string {
    Join(EncodePairs(ps), '&')
  }

  // ---------------------------------------------------------------------------
  // the reference parser

  predicate IsHexByte(b: Byte) {
    (0x30 <= b <= 0x39) || (0x41 <= b <= 0x46) || (0x61 <= b <= 0x66)
  }

  function HexByteValue(b: Byte): int
    requires IsHexByte(b)
  {
    if b <= 0x39 then b - 0x30 else if b <= 0x46 then b - 0x41 + 10 else b - 0x61 + 10
  }

  /** Byte-level decoding: `+` is a space, `%` followed by two hexadecimal
      digits is the byte they spell, and any other byte stands for itself. */
  function PercentDecode(bs: seq<Byte>): seq<Byte>
    decreases |bs|
  {
    if |bs| == 0 then []
    else if bs[0] == 0x2B then [0x20] + PercentDecode(bs[1..])
    else if bs[0] == 0x25 && |bs| >= 3 && IsHexByte(bs[1]) && IsHexByte(bs[2]) then
      [HexByteValue(bs[1]) * 16 + HexByteValue(bs[2])] + PercentDecode(bs[3..])
    else [bs[0]] + PercentDecode(bs[1..])
  }

  /** One name or value read back; `None` when its bytes are not UTF-8. */
  function Decode(t: string): Option<string> {
    Utf8.Decode(PercentDecode(Utf8.Encode(t)))
  }

  /** The position of the first `c` in `s`, or `|s|` when there is none. */
  function IndexOf(s: string, c: char): (i: nat)
    ensures i <= |s| && c !in s[..i] && (i < |s| ==> s[i] == c)
  {
    if |s| == 0 then 0 else if s[0] == c then 0 else 1 + IndexOf(s[1..], c)
  }

  /** One `&`-separated piece: the name up to the first `=`, the value after it. */
  function ParsePiece(p: string): Option<Pair> {
    var i := IndexOf(p, '=');
    var name := Decode(p[..i]);
    var value := Decode(if i < |p| then p[i + 1..] else "");
    if name.Some? && value.Some? then Some((name.value, value.value)) else None
  }

  function ParsePieces(pieces: seq<string>): Option<seq<Pair>> {
    if |pieces| == 0 then Some([])
    else
      match ParsePieces(pieces[1..])
      case None => None
      case Some(rest) =>
        if pieces[0] == "" then Some(rest)
        else
          match ParsePiece(pieces[0])
          case None => None
          case Some(p) => Some([p] + rest)
  }

  /** Parsing a query string: empty pieces between `&`s are skipped. */
  function Parse(q: string): Option<seq<Pair>> {
    ParsePieces(Split(q, '&'))
  }

  // ---------------------------------------------------------------------------
  // the round trip

  lemma HexUpperValue(d: int)
    requires 0 <= d < 16
    ensures IsHexByte(HexUpper(d) as int) && HexByteValue(HexUpper(d) as int) == d
  {
  }

  /** Decoding the bytes of one encoded byte, whatever follows, gives the byte back. */
  lemma PercentDecodeEncodeByte(b: Byte, rest: seq<Byte>)
    ensures PercentDecode(Utf8.Encode(EncodeByte(b)) + rest) == [b] + PercentDecode(rest)
  {
    var e := EncodeByte(b);
    Utf8.EncodeAscii(e);
    var bs := Utf8.Encode(e) + rest;
    if IsUnescaped(b) {
      assert bs[0] == b && bs[1..] == rest;
    } else if b == 0x20 {
      assert bs[0] == 0x2B && bs[1..] == rest;
    } else {
      HexUpperValue(b / 16);
      HexUpperValue(b % 16);
      assert bs[0] == 0x25 && bs[1] == HexUpper(b / 16) as int && bs[2] == HexUpper(b % 16) as int;
      assert bs[3..] == rest;
    }
  }

  lemma {:induction false} PercentDecodeEncodeBytes(bs: seq<Byte>)
    ensures PercentDecode(Utf8.Encode(EncodeBytes(bs))) == bs
    decreases |bs|
  {
    if |bs| > 0 {
      Utf8.EncodeAppend(EncodeByte(bs[0]), EncodeBytes(bs[1..]));
      PercentDecodeEncodeByte(bs[0], Utf8.Encode(EncodeBytes(bs[1..])));
      PercentDecodeEncodeBytes(bs[1..]);
      assert [bs[0]] + bs[1..] == bs;
    }
  }

  /** Every name and value reads back as written. */
  lemma DecodeEncode(s: string)
    ensures Decode(Encode(s)) == Some(s)
  {
    PercentDecodeEncodeBytes(Utf8.Encode(s));
    Utf8.DecodeEncode(s);
  }

  lemma {:induction false} IndexOfPrefix(a: string, c: char, b: string)
    requires c !in a
    ensures IndexOf(a + [c] + b, c) == |a|
    decreases |a|
  {
    if |a| > 0 {
      assert (a + [c] + b)[1..] == a[1..] + [c] + b;
      IndexOfPrefix(a[1..], c, b);
    }
  }

  lemma ParseEncodePair(p: Pair)
    ensures ParsePiece(EncodePair(p)) == Some(p)
  {
    var k := Encode(p.0);
    var v := Encode(p.1);
    var s := EncodePair(p);
    assert s == k + ['='] + v;
    IndexOfPrefix(k, '=', v);
    assert s[..|k|] == k;
    assert s[|k| + 1..] == v;
    DecodeEncode(p.0);
    DecodeEncode(p.1);
  }

  lemma {:induction false} ParseEncodePairs(ps: seq<Pair>)
    ensures ParsePieces(EncodePairs(ps)) == Some(ps)
    decreases |ps|
  {
    if |ps| > 0 {
      var pieces := EncodePairs(ps);
      assert pieces == [EncodePair(ps[0])] + EncodePairs(ps[1..]);
      ParseEncodePairs(ps[1..]);
      ParseEncodePair(ps[0]);
      EncodePairNonEmpty(ps[0]);
      ParsePiecesCons(EncodePair(ps[0]), EncodePairs(ps[1..]), ps[0], ps[1..]);
      assert [ps[0]] + ps[1..] == ps;
    }
  }

  lemma EncodePairNonEmpty(p: Pair)
    ensures EncodePair(p) != ""
  {
    assert EncodePair(p)[|Encode(p.0)|] == '=';
  }

  lemma ParsePiecesCons(q: string, qs: seq<string>, p: Pair, rest: seq<Pair>)
    requires q != "" && ParsePiece(q) == Some(p) && ParsePieces(qs) == Some(rest)
    ensures ParsePieces([q] + qs) == Some([p] + rest)
  {
    assert ([q] + qs)[0] == q && ([q] + qs)[1..] == qs;
  }

  /** Parsing a serialized list gives the same pairs, in the same order. */
  lemma ParseSerialize(ps: seq<Pair>)
    ensures Parse(Serialize(ps)) == Some(ps)
  {
    var pieces := EncodePairs(ps);
    if |ps| == 0 {
      assert Split("", '&') == [""];
      assert ParsePieces([""]) == Some([]);
    } else {
      JoinSplit(pieces, '&');
      ParseEncodePairs(ps);
    }
  }

  /** Serialization is injective: different lists give different text. */
  lemma SerializeInjective(ps: seq<Pair>, qs: seq<Pair>)
    requires Serialize(ps) == Serialize(qs)
    ensures ps == qs
  {
    ParseSerialize(ps);
    ParseSerialize(qs);
  }
}
