/** Standard and URL-safe base64 (sections 4 and 5 of RFC 4648) as the cookie key is
    transcoded in internal/controller/access_resources.go. */
module Base64 {
  import opened Basics

  type byte = x: int | 0 <= x < 256

  type Digit = x: int | 0 <= x < 64

  /** The two alphabets differ only in their last two characters. */
  datatype Alphabet = Standard | UrlSafe

  function Letter(a: Alphabet, d: Digit): char {
    if d < 26 then 'A' + d as char
    else if d < 52 then 'a' + (d - 26) as char
    else if d < 62 then '0' + (d - 52) as char
    else if d == 62 then (if a.Standard? then '+' else '-')
    else if a.Standard? then '/' else '_'
  }

  function Value(a: Alphabet, c: char): Option<Digit> {
    if 'A' <= c <= 'Z' then Some(c as int - 'A' as int)
    else if 'a' <= c <= 'z' then Some(c as int - 'a' as int + 26)
    else if '0' <= c <= '9' then Some(c as int - '0' as int + 52)
    else if c == (if a.Standard? then '+' else '-') then Some(62)
    else if c == (if a.Standard? then '/' else '_') then Some(63)
    else None
  }

  function Encode(a: Alphabet, b: seq<byte>): (s: string)
    decreases |b|
  {
    if |b| == 0 then ""
    else if |b| == 1 then
      var x := b[0];
      [Letter(a, x / 4), Letter(a, x % 4 * 16), '=', '=']
    else if |b| == 2 then
      var x, y := b[0], b[1];
      [Letter(a, x / 4), Letter(a, x % 4 * 16 + y / 16), Letter(a, y % 16 * 4), '=']
    else Quad(a, b[0], b[1], b[2]) + Encode(a, b[3..])
  }

  function Quad(a: Alphabet, x: byte, y: byte, z: byte): (s: string)
    ensures |s| == 4
  {
    [Letter(a, x / 4), Letter(a, x % 4 * 16 + y / 16), Letter(a, y % 16 * 4 + z / 64), Letter(a, z % 64)]
  }

  /** The decoder skips line breaks, and ignores the spare bits before padding. */
  function Unwrapped(s: string): string {
    if s == "" then "" else if s[0] == '\r' || s[0] == '\n' then Unwrapped(s[1..]) else [s[0]] + Unwrapped(s[1..])
  }

  /** The bytes that two neighbouring letters share. */
  function First(v0: Digit, v1: Digit): byte { v0 * 4 + v1 / 16 }

  function Second(v1: Digit, v2: Digit): byte { v1 % 16 * 16 + v2 / 4 }

  function Third(v2: Digit, v3: Digit): byte { v2 % 4 * 64 + v3 }

  function DecodeQuads(a: Alphabet, s: string): Option<seq<byte>>
    decreases |s|
  {
    if s == "" then Some([])
    else if |s| < 4 then None
    else
      var v0, v1, v2, v3 := Value(a, s[0]), Value(a, s[1]), Value(a, s[2]), Value(a, s[3]);
      if v0.None? || v1.None? then None
      else
        var first := First(v0.value, v1.value);
        if v2.None? then (if s[2..] == "==" then Some([first]) else None)
        else
          var second := Second(v1.value, v2.value);
          if v3.None? then (if s[3..] == "=" then Some([first, second]) else None)
          else
            var rest := DecodeQuads(a, s[4..]);
            if rest.None? then None
            else Some([first, second, Third(v2.value, v3.value)] + rest.value)
  }

  function Decode(a: Alphabet, s: string): Option<seq<byte>> { DecodeQuads(a, Unwrapped(s)) }

  /** `oauthCookieSecret`. */
  function OauthCookieSecret(encoded: string): Option<string> {
    var key := Decode(Standard, encoded);
    if key.None? || |key.value| != 32 then None else Some(Encode(UrlSafe, key.value))
  }

  // ---- round trips ----

  lemma LetterValue(a: Alphabet, d: Digit)
    ensures Value(a, Letter(a, d)) == Some(d)
    ensures Letter(a, d) !in {'\r', '\n', '='}
  {
    if d < 26 {
      assert 'A' <= Letter(a, d) <= 'Z';
    } else if d < 52 {
      assert 'a' <= Letter(a, d) <= 'z';
    } else if d < 62 {
      assert '0' <= Letter(a, d) <= '9';
    }
  }

  lemma {:induction false} EncodedUnwrapped(a: Alphabet, b: seq<byte>)
    ensures forall i :: 0 <= i < |Encode(a, b)| ==> Encode(a, b)[i] !in {'\r', '\n'}
    decreases |b|
  {
    forall d: Digit { LetterValue(a, d); }
    if |b| > 2 {
      EncodedUnwrapped(a, b[3..]);
    }
  }

  lemma {:induction false} UnwrappedSame(s: string)
    requires forall i :: 0 <= i < |s| ==> s[i] !in {'\r', '\n'}
    ensures Unwrapped(s) == s
  {
    if s != "" {
      UnwrappedSame(s[1..]);
    }
  }

  lemma BitsRecombine(x: byte, y: byte, z: byte)
    ensures x / 4 * 4 + (x % 4 * 16 + y / 16) / 16 == x
    ensures (x % 4 * 16 + y / 16) % 16 * 16 + (y % 16 * 4 + z / 64) / 4 == y
    ensures (y % 16 * 4 + z / 64) % 4 * 64 + z % 64 == z
  {
    var p, q := y / 16, z / 64;
    assert (x % 4 * 16 + p) / 16 == x % 4 && (x % 4 * 16 + p) % 16 == p;
    assert (y % 16 * 4 + q) / 4 == y % 16 && (y % 16 * 4 + q) % 4 == q;
  }

  /** Four letters make three bytes. */
  lemma FourDecode(a: Alphabet, s: string, v0: Digit, v1: Digit, v2: Digit, v3: Digit)
    requires |s| >= 4 && DecodeQuads(a, s[4..]).Some?
    requires Value(a, s[0]) == Some(v0) && Value(a, s[1]) == Some(v1) && Value(a, s[2]) == Some(v2) && Value(a, s[3]) == Some(v3)
    ensures DecodeQuads(a, s)
         == Some([First(v0, v1), Second(v1, v2), Third(v2, v3)] + DecodeQuads(a, s[4..]).value)
  {
    hide Value, First, Second, Third;
  }

  lemma QuadLetters(a: Alphabet, x: byte, y: byte, z: byte, rest: string)
    ensures var s := Quad(a, x, y, z) + rest;
      && s[4..] == rest
      && Value(a, s[0]) == Some(x / 4) && Value(a, s[1]) == Some(x % 4 * 16 + y / 16)
      && Value(a, s[2]) == Some(y % 16 * 4 + z / 64) && Value(a, s[3]) == Some(z % 64)
  {
    hide Value, Letter;
    LetterValue(a, x / 4);
    LetterValue(a, x % 4 * 16 + y / 16);
    LetterValue(a, y % 16 * 4 + z / 64);
    LetterValue(a, z % 64);
  }

  lemma QuadDecodes(a: Alphabet, x: byte, y: byte, z: byte, rest: string)
    requires DecodeQuads(a, rest).Some?
    ensures DecodeQuads(a, Quad(a, x, y, z) + rest) == Some([x, y, z] + DecodeQuads(a, rest).value)
  {
    hide Value, Letter, DecodeQuads, Quad;
    QuadLetters(a, x, y, z, rest);
    BitsRecombine(x, y, z);
    FourDecode(a, Quad(a, x, y, z) + rest, x / 4, x % 4 * 16 + y / 16, y % 16 * 4 + z / 64, z % 64);
  }

  lemma PaddingIsNoLetter(a: Alphabet)
    ensures Value(a, '=').None?
  {}

  lemma TwoDecode(a: Alphabet, s: string, v0: Digit, v1: Digit)
    requires |s| == 4 && s[2] == '=' && s[3] == '=' && Value(a, s[0]) == Some(v0) && Value(a, s[1]) == Some(v1)
    ensures DecodeQuads(a, s) == Some([First(v0, v1)])
  {
    hide Value, First;
    PaddingIsNoLetter(a);
    assert s[2..] == "==";
  }

  lemma ThreeDecode(a: Alphabet, s: string, v0: Digit, v1: Digit, v2: Digit)
    requires |s| == 4 && s[3] == '=' && Value(a, s[0]) == Some(v0) && Value(a, s[1]) == Some(v1) && Value(a, s[2]) == Some(v2)
    ensures DecodeQuads(a, s) == Some([First(v0, v1), Second(v1, v2)])
  {
    hide Value, First, Second;
    PaddingIsNoLetter(a);
    assert s[3..] == "=";
  }

  /** One or two last bytes: the spare bits are zero and the padding is recognised. */
  lemma TailDecodes(a: Alphabet, x: byte, y: byte)
    ensures DecodeQuads(a, Encode(a, [x])) == Some([x])
    ensures DecodeQuads(a, Encode(a, [x, y])) == Some([x, y])
  {
    hide Value, Letter, DecodeQuads;
    LetterValue(a, x / 4);
    LetterValue(a, x % 4 * 16);
    LetterValue(a, x % 4 * 16 + y / 16);
    LetterValue(a, y % 16 * 4);
    BitsRecombine(x, 0, 0);
    BitsRecombine(x, y, 0);
    TwoDecode(a, Encode(a, [x]), x / 4, x % 4 * 16);
    ThreeDecode(a, Encode(a, [x, y]), x / 4, x % 4 * 16 + y / 16, y % 16 * 4);
  }

  lemma NothingDecodes(a: Alphabet)
    ensures DecodeQuads(a, "") == Some([])
  {}

  lemma {:induction false} QuadsRoundTrip(a: Alphabet, b: seq<byte>)
    ensures DecodeQuads(a, Encode(a, b)) == Some(b)
    decreases |b|
  {
    hide DecodeQuads, Quad;
    if |b| == 0 {
      NothingDecodes(a);
    } else if |b| == 1 {
      TailDecodes(a, b[0], 0);
      assert b == [b[0]];
    } else if |b| == 2 {
      TailDecodes(a, b[0], b[1]);
      assert b == [b[0], b[1]];
    } else {
      QuadsRoundTrip(a, b[3..]);
      QuadDecodes(a, b[0], b[1], b[2], Encode(a, b[3..]));
      assert b == [b[0], b[1], b[2]] + b[3..];
    }
  }

  lemma RoundTrip(a: Alphabet, b: seq<byte>)
    ensures Decode(a, Encode(a, b)) == Some(b)
  {
    EncodedUnwrapped(a, b);
    UnwrappedSame(Encode(a, b));
    QuadsRoundTrip(a, b);
  }

  function Swapped(c: char): char { if c == '+' then '-' else if c == '/' then '_' else c }

  /** The two encodings of one key differ only by '+' to '-' and '/' to '_'. */
  lemma {:induction false} EncodingsDifferByTwo(b: seq<byte>)
    ensures |Encode(UrlSafe, b)| == |Encode(Standard, b)|
    ensures forall i :: 0 <= i < |Encode(Standard, b)| ==> Encode(UrlSafe, b)[i] == Swapped(Encode(Standard, b)[i])
    decreases |b|
  {
    forall d: Digit ensures Letter(UrlSafe, d) == Swapped(Letter(Standard, d)) {
      LetterValue(Standard, d);
    }
    if |b| > 2 {
      EncodingsDifferByTwo(b[3..]);
    }
  }

  /** What `sessionSecret` stores, the sidecar reads back as the same key. */
  lemma CookieKeyRoundTrip(key: seq<byte>)
    requires |key| == 32
    ensures var stored := Encode(Standard, key);
      && OauthCookieSecret(stored).Some?
      && var cookie := OauthCookieSecret(stored).value;
        && Decode(UrlSafe, cookie) == Some(key)
        && |cookie| == |stored|
        && forall i :: 0 <= i < |stored| ==> cookie[i] == Swapped(stored[i])
  {
    RoundTrip(Standard, key);
    RoundTrip(UrlSafe, key);
    EncodingsDifferByTwo(key);
  }

  /** For any stored text, legacy ones included: it is accepted exactly when it decodes to
      32 bytes, and the cookie secret then decodes to those bytes. */
  lemma CookieKeyPreserved(encoded: string)
    ensures OauthCookieSecret(encoded).Some? <==> Decode(Standard, encoded).Some? && |Decode(Standard, encoded).value| == 32
    ensures OauthCookieSecret(encoded).Some? ==>
      Decode(UrlSafe, OauthCookieSecret(encoded).value) == Decode(Standard, encoded)
  {
    if OauthCookieSecret(encoded).Some? {
      RoundTrip(UrlSafe, Decode(Standard, encoded).value);
    }
  }
}
