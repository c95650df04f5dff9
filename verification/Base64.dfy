/** The base64 encoding of section 4 of RFC 4648, over the bytes of a string of ASCII characters. */
module Base64 {
  predicate Ascii(s: string) {
    forall i :: 0 <= i < |s| ==> s[i] < 128 as char
  }

  function Symbol(v: nat): (ch: char)
    requires v < 64
    ensures ch != '_' && ch != '=' && ch < 128 as char
  {
    if v < 26 then 'A' + v as char
    else if v < 52 then 'a' + (v - 26) as char
    else if v < 62 then '0' + (v - 52) as char
    else if v == 62 then '+' else '/'
  }

  function Value(ch: char): (v: nat)
    ensures v < 64
  {
    if 'A' <= ch <= 'Z' then (ch - 'A') as nat
    else if 'a' <= ch <= 'z' then (ch - 'a') as nat + 26
    else if '0' <= ch <= '9' then (ch - '0') as nat + 52
    else if ch == '+' then 62 else 63
  }

  lemma ValueOfSymbol(v: nat)
    requires v < 64
    ensures Value(Symbol(v)) == v
  {
  }

  // ---- Three bytes in four sextets --------------------------------------------------------

  function Sextet0(x: nat): (v: nat)
    requires x < 128
    ensures v < 64
  {
    x / 4
  }

  function Sextet1(x: nat, y: nat): (v: nat)
    requires y < 128
    ensures v < 64
  {
    x % 4 * 16 + y / 16
  }

  function Sextet2(y: nat, z: nat): (v: nat)
    requires z < 128
    ensures v < 64
  {
    y % 16 * 4 + z / 64
  }

  function Sextet3(z: nat): (v: nat)
    ensures v < 64
  {
    z % 64
  }

  function Byte0(p: nat, q: nat): (x: nat)
    requires p < 64 && q < 64
    ensures x < 256
  {
    p * 4 + q / 16
  }

  function Byte1(q: nat, r: nat): (y: nat)
    requires r < 64
    ensures y < 256
  {
    q % 16 * 16 + r / 4
  }

  function Byte2(r: nat, t: nat): (z: nat)
    requires t < 64
    ensures z < 256
  {
    r % 4 * 64 + t
  }

  lemma Reassemble0(x: nat, y: nat)
    requires x < 128 && y < 128
    ensures Byte0(Sextet0(x), Sextet1(x, y)) == x
  {
    assert Sextet1(x, y) / 16 == x % 4;
  }

  lemma Reassemble1(x: nat, y: nat, z: nat)
    requires y < 128 && z < 128
    ensures Byte1(Sextet1(x, y), Sextet2(y, z)) == y
  {
    assert Sextet1(x, y) % 16 == y / 16;
    assert Sextet2(y, z) / 4 == y % 16;
  }

  lemma Reassemble2(y: nat, z: nat)
    requires z < 128
    ensures Byte2(Sextet2(y, z), Sextet3(z)) == z
  {
    assert Sextet2(y, z) % 4 == z / 64;
  }

  // ---- Encoding and decoding ----------------------------------------------------------------

  /** A last group of one byte; the missing bits are zero. */
  function One(x: nat): string
    requires x < 128
  {
    [Symbol(Sextet0(x)), Symbol(Sextet1(x, 0)), '=', '=']
  }

  function Two(x: nat, y: nat): string
    requires x < 128 && y < 128
  {
    [Symbol(Sextet0(x)), Symbol(Sextet1(x, y)), Symbol(Sextet2(y, 0)), '=']
  }

  function Three(x: nat, y: nat, z: nat): string
    requires x < 128 && y < 128 && z < 128
  {
    [Symbol(Sextet0(x)), Symbol(Sextet1(x, y)), Symbol(Sextet2(y, z)), Symbol(Sextet3(z))]
  }

  function Encode(s: string): string
    requires Ascii(s)
  {
    if s == "" then ""
    else if |s| == 1 then One(s[0] as nat)
    else if |s| == 2 then Two(s[0] as nat, s[1] as nat)
    else Three(s[0] as nat, s[1] as nat, s[2] as nat) + Encode(s[3..])
  }

  /** The bytes of one group of four symbols. */
  function DecodeGroup(g: string): string
    requires |g| == 4
  {
    var p, q, r, t := Value(g[0]), Value(g[1]), Value(g[2]), Value(g[3]);
    if g[2] == '=' then [Byte0(p, q) as char]
    else if g[3] == '=' then [Byte0(p, q) as char, Byte1(q, r) as char]
    else [Byte0(p, q) as char, Byte1(q, r) as char, Byte2(r, t) as char]
  }

  function Decode(r: string): string {
    if |r| < 4 then "" else DecodeGroup(r[..4]) + Decode(r[4..])
  }

  lemma OneRoundTrip(x: nat)
    requires x < 128
    ensures DecodeGroup(One(x)) == [x as char]
  {
    ValueOfSymbol(Sextet0(x));
    ValueOfSymbol(Sextet1(x, 0));
    Reassemble0(x, 0);
  }

  lemma TwoRoundTrip(x: nat, y: nat)
    requires x < 128 && y < 128
    ensures DecodeGroup(Two(x, y)) == [x as char, y as char]
  {
    ValueOfSymbol(Sextet0(x));
    ValueOfSymbol(Sextet1(x, y));
    ValueOfSymbol(Sextet2(y, 0));
    Reassemble0(x, y);
    Reassemble1(x, y, 0);
  }

  lemma ThreeRoundTrip(x: nat, y: nat, z: nat)
    requires x < 128 && y < 128 && z < 128
    ensures DecodeGroup(Three(x, y, z)) == [x as char, y as char, z as char]
  {
    ValueOfSymbol(Sextet0(x));
    ValueOfSymbol(Sextet1(x, y));
    ValueOfSymbol(Sextet2(y, z));
    ValueOfSymbol(Sextet3(z));
    Reassemble0(x, y);
    Reassemble1(x, y, z);
    Reassemble2(y, z);
  }

  /** Encoding loses nothing. */
  lemma {:induction false} DecodeEncode(s: string)
    requires Ascii(s)
    ensures Decode(Encode(s)) == s
  {
    if |s| == 1 {
      OneRoundTrip(s[0] as nat);
      GroupFirst(One(s[0] as nat), "");
    } else if |s| == 2 {
      TwoRoundTrip(s[0] as nat, s[1] as nat);
      GroupFirst(Two(s[0] as nat, s[1] as nat), "");
    } else if |s| >= 3 {
      ThreeRoundTrip(s[0] as nat, s[1] as nat, s[2] as nat);
      GroupFirst(Three(s[0] as nat, s[1] as nat, s[2] as nat), Encode(s[3..]));
      DecodeEncode(s[3..]);
    }
  }

  lemma {:induction false} GroupFirst(g: string, rest: string)
    requires |g| == 4
    ensures Decode(g + rest) == DecodeGroup(g) + Decode(rest)
  {
    assert (g + rest)[..4] == g && (g + rest)[4..] == rest;
  }

  lemma EncodeInjective(s: string, t: string)
    requires Ascii(s) && Ascii(t) && Encode(s) == Encode(t)
    ensures s == t
  {
    DecodeEncode(s);
    DecodeEncode(t);
  }

  /** No encoding contains an underscore, and every one is ASCII again. */
  lemma {:induction false} EncodedAlphabet(s: string)
    requires Ascii(s)
    ensures Ascii(Encode(s)) && '_' !in Encode(s)
  {
    if |s| >= 3 {
      EncodedAlphabet(s[3..]);
    }
  }

  /** The example encodings of section 10 of RFC 4648. */
  lemma ExamplesOfTheStandard()
    ensures Encode("") == "" && Encode("f") == "Zg==" && Encode("fo") == "Zm8=" && Encode("foo") == "Zm9v"
    ensures Encode("foobar") == "Zm9vYmFy"
  {
    var foobar := "foobar";
    assert foobar[3..] == "bar";
    assert Encode("bar") == "YmFy";
  }
}
