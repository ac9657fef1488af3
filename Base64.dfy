/** `btoa` and `atob`, the browser's base64 (section 4 of RFC 4648) over
    Latin-1 strings, which the services use to keep credentials in
    `sessionStorage` and to send the SAP password.  `btoa` throws for a
    character above U+00FF; `atob` is the "forgiving-base64 decode" of the
    WHATWG Infra standard (ASCII whitespace is ignored, padding is optional). */
module Base64 {
  import opened Common
  import opened Js

  type Byte = b: int | 0 <= b < 256
  type Sextet = x: int | 0 <= x < 64

  // ---------------------------------------------------------------------------
  // the alphabet

  function AlphabetChar(x: Sextet): char {
    if x < 26 then ('A' as int + x) as char
    else if x < 52 then ('a' as int + x - 26) as char
    else if x < 62 then ('0' as int + x - 52) as char
    else if x == 62 then '+'
    else '/'
  }

  predicate InAlphabet(c: char) {
    ('A' <= c <= 'Z') || ('a' <= c <= 'z') || ('0' <= c <= '9') || c == '+' || c == '/'
  }

  function AlphabetIndex(c: char): Sextet
    requires InAlphabet(c)
  {
    if 'A' <= c <= 'Z' then c as int - 'A' as int
    else if 'a' <= c <= 'z' then c as int - 'a' as int + 26
    else if '0' <= c <= '9' then c as int - '0' as int + 52
    else if c == '+' then 62
    else 63
  }

  lemma AlphabetRoundTrip(x: Sextet)
    ensures InAlphabet(AlphabetChar(x)) && AlphabetIndex(AlphabetChar(x)) == x
  {
  }

  // ---------------------------------------------------------------------------
  // bytes and sextets

  /** Three bytes become four sextets; a final one or two bytes become two or three. */
  function ToSextets(bs: seq<Byte>): (xs: seq<Sextet>)
    ensures |xs| % 4 != 1
    ensures |xs| == 4 * (|bs| / 3) + (if |bs| % 3 == 0 then 0 else |bs| % 3 + 1)
  {
    if |bs| == 0 then []
    else if |bs| == 1 then [bs[0] / 4, (bs[0] % 4) * 16]
    else if |bs| == 2 then [bs[0] / 4, (bs[0] % 4) * 16 + bs[1] / 16, (bs[1] % 16) * 4]
    else [bs[0] / 4, (bs[0] % 4) * 16 + bs[1] / 16, (bs[1] % 16) * 4 + bs[2] / 64, bs[2] % 64]
         + ToSextets(bs[3..])
  }

  /** The inverse grouping: four sextets give three bytes, a final two or
      three give one or two (the bits left over are dropped). */
  function FromSextets(xs: seq<Sextet>): seq<Byte>
    requires |xs| % 4 != 1
  {
    if |xs| == 0 then []
    else
      var x0: int, x1: int := xs[0], xs[1];
      var x2: int := if |xs| >= 3 then xs[2] else 0;
      var x3: int := if |xs| >= 4 then xs[3] else 0;
      if |xs| == 2 then [x0 * 4 + x1 / 16]
      else if |xs| == 3 then [x0 * 4 + x1 / 16, (x1 % 16) * 16 + x2 / 4]
      else [x0 * 4 + x1 / 16, (x1 % 16) * 16 + x2 / 4, (x2 % 4) * 64 + x3] + FromSextets(xs[4..])
  }

  lemma GroupRoundTrip(b0: Byte, b1: Byte, b2: Byte)
    ensures (b0 / 4) * 4 + ((b0 % 4) * 16 + b1 / 16) / 16 == b0
    ensures (((b0 % 4) * 16 + b1 / 16) % 16) * 16 + ((b1 % 16) * 4 + b2 / 64) / 4 == b1
    ensures (((b1 % 16) * 4 + b2 / 64) % 4) * 64 + b2 % 64 == b2
  {
    var x1 := (b0 % 4) * 16 + b1 / 16;
    assert x1 / 16 == b0 % 4 && x1 % 16 == b1 / 16;
    var x2 := (b1 % 16) * 4 + b2 / 64;
    assert x2 / 4 == b1 % 16 && x2 % 4 == b2 / 64;
  }

  lemma {:induction false} FromToSextets(bs: seq<Byte>)
    ensures FromSextets(ToSextets(bs)) == bs
    decreases |bs|
  {
    if |bs| == 1 {
      GroupRoundTrip(bs[0], 0, 0);
    } else if |bs| == 2 {
      GroupRoundTrip(bs[0], bs[1], 0);
    } else if |bs| >= 3 {
      FromToSextets(bs[3..]);
      FromToGroup(bs);
      var f := FromSextets(ToSextets(bs));
      assert f == [f[0], f[1], f[2]] + f[3..];
      assert bs == [bs[0], bs[1], bs[2]] + bs[3..];
    }
  }

  /** The first three bytes come back from their four sextets. */
  lemma FromToGroup(bs: seq<Byte>)
    requires |bs| >= 3
    ensures var f := FromSextets(ToSextets(bs));
      && |f| >= 3 && f[0] == bs[0] && f[1] == bs[1] && f[2] == bs[2]
      && f[3..] == FromSextets(ToSextets(bs[3..]))
  {
    var xs := ToSextets(bs);
    var r := ToSextets(bs[3..]);
    assert xs == xs[..4] + r;
    FromSextetsGroup(xs[..4], r);
    var x0: int, x1: int, x2: int, x3: int := xs[0], xs[1], xs[2], xs[3];
    GroupBits(bs[0], bs[1], bs[2], x0, x1, x2, x3);
  }

  /** The bytes the sextets of three bytes give back. */
  lemma GroupBits(b0: Byte, b1: Byte, b2: Byte, x0: int, x1: int, x2: int, x3: int)
    requires x0 == b0 / 4 && x1 == (b0 % 4) * 16 + b1 / 16
    requires x2 == (b1 % 16) * 4 + b2 / 64 && x3 == b2 % 64
    ensures x0 * 4 + x1 / 16 == b0 && (x1 % 16) * 16 + x2 / 4 == b1 && (x2 % 4) * 64 + x3 == b2
  {
    GroupRoundTrip(b0, b1, b2);
  }

  lemma FromSextetsGroup(g: seq<Sextet>, r: seq<Sextet>)
    requires |g| == 4 && |r| % 4 != 1
    ensures var f := FromSextets(g + r);
      && |f| == 3 + |FromSextets(r)| && f[3..] == FromSextets(r)
      && f[0] == (g[0] as int) * 4 + (g[1] as int) / 16 && f[1] == ((g[1] as int) % 16) * 16 + (g[2] as int) / 4
      && f[2] == ((g[2] as int) % 4) * 64 + g[3] as int
  {
    var xs := g + r;
    assert xs[0] == g[0] && xs[1] == g[1] && xs[2] == g[2] && xs[3] == g[3] && xs[4..] == r;
  }

  // ---------------------------------------------------------------------------
  // btoa

  function Chars(xs: seq<Sextet>): (s: string)
    ensures |s| == |xs| && forall k :: 0 <= k < |xs| ==> s[k] == AlphabetChar(xs[k])
  {
    if |xs| == 0 then "" else [AlphabetChar(xs[0])] + Chars(xs[1..])
  }

  function Padding(n: nat): string {
    if n % 4 == 2 then "==" else if n % 4 == 3 then "=" else ""
  }

  /** Base64 text of a byte string, padded with `=` to a multiple of four. */
  function EncodeBytes(bs: seq<Byte>): (s: string)
    ensures |s| % 4 == 0
    ensures |s| == 0 <==> |bs| == 0
  {
    var xs := ToSextets(bs);
    Chars(xs) + Padding(|xs|)
  }

  predicate IsLatin1(s: string) {
    forall k :: 0 <= k < |s| ==> (s[k] as int) < 256
  }

  function Latin1Bytes(s: string): (bs: seq<Byte>)
    requires IsLatin1(s)
    ensures |bs| == |s| && forall k :: 0 <= k < |s| ==> bs[k] == s[k] as int
  {
    if |s| == 0 then [] else [s[0] as int] + Latin1Bytes(s[1..])
  }

  function Latin1String(bs: seq<Byte>): (s: string)
    ensures IsLatin1(s) && |s| == |bs| && forall k :: 0 <= k < |bs| ==> s[k] as int == bs[k]
  {
    if |bs| == 0 then "" else [bs[0] as char] + Latin1String(bs[1..])
  }

  /** The `DOMException` `btoa` throws for a character above U+00FF.  Its
      message text is chosen by the browser; this is the one the model uses. */
  const InvalidCharacter: Thrown :=
    ErrorValue("InvalidCharacterError", "The string to be encoded contains characters outside of the Latin1 range.")

  /** `btoa(s)` */
  function Btoa(s: string): (r: Result<string, Thrown>)
    ensures r.Ok? <==> IsLatin1(s)
    ensures r.Err? ==> r.error == InvalidCharacter
    ensures r.Ok? ==> (r.value == "" <==> s == "")
  {
    if IsLatin1(s) then Ok(EncodeBytes(Latin1Bytes(s))) else Err(InvalidCharacter)
  }

  // ---------------------------------------------------------------------------
  // atob

  predicate IsAsciiWhitespace(c: char) {
    c == '\t' || c == '\n' || c == '\U{000C}' || c == '\r' || c == ' '
  }

  function RemoveWhitespace(s: string): (r: string)
    ensures |r| <= |s|
  {
    if |s| == 0 then ""
    else if IsAsciiWhitespace(s[0]) then RemoveWhitespace(s[1..])
    else [s[0]] + RemoveWhitespace(s[1..])
  }

  /** When the length is a multiple of four, one or two final `=` are removed. */
  function RemovePadding(s: string): string {
    if |s| % 4 == 0 && |s| >= 2 && s[|s| - 2] == '=' && s[|s| - 1] == '=' then s[..|s| - 2]
    else if |s| % 4 == 0 && |s| >= 1 && s[|s| - 1] == '=' then s[..|s| - 1]
    else s
  }

  function Indices(s: string): (xs: seq<Sextet>)
    requires forall k :: 0 <= k < |s| ==> InAlphabet(s[k])
    ensures |xs| == |s|
  {
    if |s| == 0 then [] else [AlphabetIndex(s[0])] + Indices(s[1..])
  }

  /** The `DOMException` `atob` throws for text that is not base64. */
  const InvalidBase64: Thrown :=
    ErrorValue("InvalidCharacterError", "The string to be decoded is not correctly encoded.")

  /** `atob(t)` */
  function Atob(t: string): (r: Result<string, Thrown>)
    ensures r.Ok? ==> IsLatin1(r.value)
    ensures r.Err? ==> r.error == InvalidBase64
  {
    var d := RemovePadding(RemoveWhitespace(t));
    if |d| % 4 == 1 || !(forall k :: 0 <= k < |d| ==> InAlphabet(d[k])) then Err(InvalidBase64)
    else Ok(Latin1String(FromSextets(Indices(d))))
  }

  // ---------------------------------------------------------------------------
  // the round trip

  lemma {:induction false} RemoveWhitespaceNone(s: string)
    requires forall k :: 0 <= k < |s| ==> !IsAsciiWhitespace(s[k])
    ensures RemoveWhitespace(s) == s
    decreases |s|
  {
    if |s| > 0 {
      RemoveWhitespaceNone(s[1..]);
      assert [s[0]] + s[1..] == s;
    }
  }

  lemma {:induction false} IndicesChars(xs: seq<Sextet>)
    ensures forall k :: 0 <= k < |xs| ==> InAlphabet(Chars(xs)[k])
    ensures Indices(Chars(xs)) == xs
    decreases |xs|
  {
    CharsInAlphabet(xs);
    if |xs| > 0 {
      var c := Chars(xs);
      assert AlphabetIndex(c[0]) == xs[0] by { AlphabetRoundTrip(xs[0]); }
      assert c[1..] == Chars(xs[1..]);
      IndicesChars(xs[1..]);
      assert Indices(c) == [xs[0]] + xs[1..];
    }
  }

  lemma CharsInAlphabet(xs: seq<Sextet>)
    ensures forall k :: 0 <= k < |xs| ==> InAlphabet(Chars(xs)[k])
  {
    forall k | 0 <= k < |xs| ensures InAlphabet(Chars(xs)[k]) {
      AlphabetRoundTrip(xs[k]);
    }
  }

  lemma MultipleOfFour(n: int, q: int)
    requires n == 4 * q
    ensures n % 4 == 0
  {
  }

  /** The padding is exactly what `atob` strips again. */
  lemma RemovePaddingChars(xs: seq<Sextet>)
    requires |xs| % 4 != 1
    ensures RemovePadding(Chars(xs) + Padding(|xs|)) == Chars(xs)
  {
    if |xs| % 4 == 2 {
      RemoveTwoPads(xs);
    } else if |xs| % 4 == 3 {
      RemoveOnePad(xs);
    } else {
      var c := Chars(xs);
      assert c + Padding(|xs|) == c;
      if |xs| > 0 {
        AlphabetRoundTrip(xs[|xs| - 1]);
        assert c[|c| - 1] != '=';
      }
    }
  }

  lemma RemoveTwoPads(xs: seq<Sextet>)
    requires |xs| % 4 == 2
    ensures RemovePadding(Chars(xs) + "==") == Chars(xs)
  {
    var c := Chars(xs);
    var s := c + "==";
    MultipleOfFour(|s|, |xs| / 4 + 1);
    assert s[|s| - 2] == '=' && s[|s| - 1] == '=';
    assert s[..|s| - 2] == c;
  }

  lemma RemoveOnePad(xs: seq<Sextet>)
    requires |xs| % 4 == 3
    ensures RemovePadding(Chars(xs) + "=") == Chars(xs)
  {
    var c := Chars(xs);
    var s := c + "=";
    MultipleOfFour(|s|, |xs| / 4 + 1);
    AlphabetRoundTrip(xs[|xs| - 1]);
    assert s[|s| - 2] == c[|c| - 1] != '=';
    assert s[..|s| - 1] == c;
  }

  lemma NoWhitespaceInEncoding(bs: seq<Byte>)
    ensures RemoveWhitespace(EncodeBytes(bs)) == EncodeBytes(bs)
  {
    var xs := ToSextets(bs);
    var s := EncodeBytes(bs);
    forall k | 0 <= k < |s| ensures !IsAsciiWhitespace(s[k]) {
      if k < |xs| {
        AlphabetRoundTrip(xs[k]);
      }
    }
    RemoveWhitespaceNone(s);
  }

  lemma DecodeEncodeBytes(bs: seq<Byte>)
    ensures Atob(EncodeBytes(bs)) == Ok(Latin1String(bs))
  {
    var xs := ToSextets(bs);
    NoWhitespaceInEncoding(bs);
    RemovePaddingChars(xs);
    IndicesChars(xs);
    FromToSextets(bs);
  }

  /** `atob(btoa(s))` is `s` for every string `btoa` accepts. */
  lemma AtobBtoa(s: string)
    requires IsLatin1(s)
    ensures Btoa(s).Ok? && Atob(Btoa(s).value) == Ok(s)
  {
    DecodeEncodeBytes(Latin1Bytes(s));
    assert Latin1String(Latin1Bytes(s)) == s;
  }

  /** `btoa` is injective on the strings it accepts. */
  lemma BtoaInjective(s: string, t: string)
    requires IsLatin1(s) && IsLatin1(t) && Btoa(s) == Btoa(t)
    ensures s == t
  {
    AtobBtoa(s);
    AtobBtoa(t);
  }
}
