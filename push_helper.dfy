/** `urlBase64ToUint8Array`: turns the VAPID application-server key, written in the base64url
    alphabet without padding (section 5 of RFC 4648), into raw bytes. It pads the text to a
    multiple of four characters, maps the two URL-safe characters back to the standard ones,
    decodes standard base64 (section 4 of RFC 4648, the browser's `atob`) and copies the
    character codes of the decoded binary string into a `Uint8Array`. */
module PushHelper {
  import opened Wrappers

  type Byte = b: int | 0 <= b < 256
  type Sextet = v: int | 0 <= v < 64

  // ---------------------------------------------------------------------------------------
  // The two alphabets of RFC 4648 (Table 1 of section 4 and Table 2 of section 5)

  /** A character of the standard base64 alphabet. */
  predicate IsStdChar(c: char) {
    ('A' <= c <= 'Z') || ('a' <= c <= 'z') || ('0' <= c <= '9') || c == '+' || c == '/'
  }

  /** A character of the URL- and filename-safe alphabet. */
  predicate IsUrlChar(c: char) {
    ('A' <= c <= 'Z') || ('a' <= c <= 'z') || ('0' <= c <= '9') || c == '-' || c == '_'
  }

  /** Every character of `s` belongs to the standard alphabet. */
  predicate AllStd(s: string) {
    s == [] || (IsStdChar(s[0]) && AllStd(s[1..]))
  }

  /** `AllStd` character by character. */
  lemma {:induction false} AllStdIff(s: string)
    ensures AllStd(s) <==> forall i :: 0 <= i < |s| ==> IsStdChar(s[i])
  {
    if s != [] {
      AllStdIff(s[1..]);
      assert forall i :: 1 <= i < |s| ==> s[i] == s[1..][i - 1];
    }
  }

  /** The value a standard-alphabet character encodes. */
  function SextetOf(c: char): Sextet
    requires IsStdChar(c)
  {
    if 'A' <= c <= 'Z' then c as int - 'A' as int
    else if 'a' <= c <= 'z' then c as int - 'a' as int + 26
    else if '0' <= c <= '9' then c as int - '0' as int + 52
    else if c == '+' then 62
    else 63
  }

  /** The standard-alphabet character for a value; `SextetOf` undoes it. */
  function StdChar(v: Sextet): (c: char)
    ensures IsStdChar(c) && SextetOf(c) == v
  {
    if v < 26 then ('A' as int + v) as char
    else if v < 52 then ('a' as int + v - 26) as char
    else if v < 62 then ('0' as int + v - 52) as char
    else if v == 62 then '+'
    else '/'
  }

  /** The URL-safe character for a value: `-` and `_` stand for 62 and 63. */
  function UrlChar(v: Sextet): (c: char)
    ensures IsUrlChar(c)
    ensures c == '-' <==> v == 62
    ensures c == '_' <==> v == 63
    ensures v != 62 && v != 63 ==> c == StdChar(v)
  {
    if v == 62 then '-' else if v == 63 then '_' else StdChar(v)
  }

  // ---------------------------------------------------------------------------------------
  // Bytes and sextets: groups of three bytes are four sextets; a final group of one or two
  // bytes gives two or three sextets (the rest of the quantum is padding).

  /** The four sextets of a full group of three bytes. */
  function EncodeGroup(b0: Byte, b1: Byte, b2: Byte): seq<Sextet>
  {
    [b0 / 4, (b0 % 4) * 16 + b1 / 16, (b1 % 16) * 4 + b2 / 64, b2 % 64]
  }

  /** The first byte of a group: six bits of `v0`, two of `v1`. */
  function FirstByte(v0: Sextet, v1: Sextet): Byte
  {
    v0 as int * 4 + v1 / 16
  }

  /** The second byte of a group: four bits of `v1`, four of `v2`. */
  function SecondByte(v1: Sextet, v2: Sextet): Byte
  {
    (v1 as int % 16) * 16 + v2 / 4
  }

  /** The third byte of a group: two bits of `v2`, six of `v3`. */
  function ThirdByte(v2: Sextet, v3: Sextet): Byte
  {
    (v2 as int % 4) * 64 + v3
  }

  /** The three bytes of a full group of four sextets. */
  function DecodeGroup(v0: Sextet, v1: Sextet, v2: Sextet, v3: Sextet): seq<Byte>
  {
    [FirstByte(v0, v1), SecondByte(v1, v2), ThirdByte(v2, v3)]
  }

  /** The sextets that encode `b`, most significant bits first. */
  function Sextets(b: seq<Byte>): (vs: seq<Sextet>)
    ensures |vs| % 4 != 1
    ensures |vs| == (4 * |b| + 2) / 3
  {
    if |b| == 0 then []
    else if |b| == 1 then [b[0] / 4, (b[0] % 4) * 16]
    else if |b| == 2 then [b[0] / 4, (b[0] % 4) * 16 + b[1] / 16, (b[1] % 16) * 4]
    else EncodeGroup(b[0], b[1], b[2]) + Sextets(b[3..])
  }

  /** The bytes a run of sextets decodes to; bits of a final partial group that do not fill
      a byte are discarded, as `atob` does. */
  function DecodeSextets(vs: seq<Sextet>): (b: seq<Byte>)
    requires |vs| % 4 != 1
    ensures |b| == |vs| * 3 / 4
  {
    if |vs| == 0 then []
    else if |vs| == 2 then [FirstByte(vs[0], vs[1])]
    else if |vs| == 3 then [FirstByte(vs[0], vs[1]), SecondByte(vs[1], vs[2])]
    else DecodeGroup(vs[0], vs[1], vs[2], vs[3]) + DecodeSextets(vs[4..])
  }

  lemma OneByteGroup(b0: Byte)
    ensures (b0 / 4) * 4 + ((b0 % 4) * 16) / 16 == b0
  {
  }

  lemma TwoByteGroup(b0: Byte, b1: Byte)
    ensures (b0 / 4) * 4 + ((b0 % 4) * 16 + b1 / 16) / 16 == b0
    ensures (((b0 % 4) * 16 + b1 / 16) % 16) * 16 + ((b1 % 16) * 4) / 4 == b1
  {
    var m := (b0 % 4) * 16 + b1 / 16;
    assert m / 16 == b0 % 4 && m % 16 == b1 / 16;
  }

  /** A full group decodes back to its three bytes. */
  lemma GroupRoundTrip(b0: Byte, b1: Byte, b2: Byte)
    ensures var g := EncodeGroup(b0, b1, b2); DecodeGroup(g[0], g[1], g[2], g[3]) == [b0, b1, b2]
  {
    var m := (b1 % 16) * 4 + b2 / 64;
    assert m % 4 == b2 / 64 && m / 4 == b1 % 16;
    TwoByteGroup(b0, b1);
  }

  /** Decoding the sextets of any byte string gives the bytes back. */
  lemma {:induction false} DecodeSextetsOfSextets(b: seq<Byte>)
    ensures DecodeSextets(Sextets(b)) == b
  {
    if |b| == 1 {
      OneByteGroup(b[0]);
    } else if |b| == 2 {
      TwoByteGroup(b[0], b[1]);
    } else if |b| >= 3 {
      var g := EncodeGroup(b[0], b[1], b[2]);
      var vs := Sextets(b);
      assert vs == g + Sextets(b[3..]);
      assert vs[..4] == g && vs[4..] == Sextets(b[3..]);
      DecodeSextetsOfSextets(b[3..]);
      GroupRoundTrip(b[0], b[1], b[2]);
      assert b == [b[0], b[1], b[2]] + b[3..];
    }
  }

  // ---------------------------------------------------------------------------------------
  // Encoders (the inverse direction, used to state the round trip)

  /** The base64url text of `b` without padding (section 5 of RFC 4648, with the padding
      omitted as section 3.2 permits), the form in which the key is written. */
  function EncodeUrlUnpadded(b: seq<Byte>): (s: string)
    ensures forall i :: 0 <= i < |s| ==> IsUrlChar(s[i])
  {
    var vs := Sextets(b);
    seq(|vs|, i requires 0 <= i < |vs| => UrlChar(vs[i]))
  }

  // ---------------------------------------------------------------------------------------
  // The steps of urlBase64ToUint8Array

  /** `(4 - n % 4) % 4`: the number of `=` (0 to 3, hence the fewest) that bring a length
      `n` to a multiple of four. */
  function PaddingCount(n: nat): (k: nat)
    ensures k <= 3 && (n + k) % 4 == 0
  {
    (4 - n % 4) % 4
  }

  /** `s + '='.repeat(PaddingCount(s.length))`. */
  function Pad(s: string): (r: string)
    ensures |r| % 4 == 0 && |r| == |s| + PaddingCount(|s|)
    ensures r[..|s|] == s
    ensures forall i :: |s| <= i < |r| ==> r[i] == '='
  {
    s + seq(PaddingCount(|s|), _ => '=')
  }

  /** `s.replace(/x/g, y)` for a one-character pattern: every `x` becomes `y`. */
  function ReplaceAll(s: string, x: char, y: char): (r: string)
    ensures |r| == |s|
    ensures forall i :: 0 <= i < |s| ==> r[i] == (if s[i] == x then y else s[i])
  {
    if s == [] then [] else [if s[0] == x then y else s[0]] + ReplaceAll(s[1..], x, y)
  }

  /** `.replace(/\-/g, '+').replace(/_/g, '/')`: only `-` and `_` change, and not the length. */
  function UrlToStd(s: string): (r: string)
    ensures |r| == |s|
    ensures forall i :: 0 <= i < |s| ==>
      r[i] == (if s[i] == '-' then '+' else if s[i] == '_' then '/' else s[i])
  {
    ReplaceAll(ReplaceAll(s, '-', '+'), '_', '/')
  }

  /** The trailing `=` that count as padding: at most two (section 4 of RFC 4648). */
  function PadLength(s: string): (p: nat)
    ensures p <= 2 && p <= |s|
    ensures forall i :: |s| - p <= i < |s| ==> s[i] == '='
    ensures p < 2 && p < |s| ==> s[|s| - 1 - p] != '='
  {
    if |s| >= 1 && s[|s| - 1] == '=' then
      (if |s| >= 2 && s[|s| - 2] == '=' then 2 else 1)
    else 0
  }

  /** `atob(s)` on text whose length is a multiple of four: the decoded bytes as a binary
      string (one character per byte), or `None` where `atob` throws: a length that is not
      a multiple of four, or a character outside the alphabet once at most two trailing
      `=` are set aside. White space, which `atob` strips first, is not modelled. */
  function Atob(s: string): (r: Option<string>)
    ensures r.Some? ==> |s| % 4 == 0 && |r.value| == |s| / 4 * 3 - PadLength(s)
    ensures r.Some? ==> forall i :: 0 <= i < |r.value| ==> r.value[i] as int < 256
  {
    if |s| % 4 != 0 then None
    else
      var body := s[..|s| - PadLength(s)];
      if AllStd(body) then
        DecodedLength(|s|, PadLength(s));
        Some(BinaryString(DecodeSextets(SextetsOfStd(body))))
      else None
  }

  /** The values of a run of standard-alphabet characters. */
  function SextetsOfStd(s: string): (vs: seq<Sextet>)
    requires AllStd(s)
    ensures |vs| == |s|
  {
    AllStdIff(s);
    seq(|s|, i requires 0 <= i < |s| => SextetOf(s[i]))
  }

  /** A string of four-character quanta with `p` padding characters decodes to
      three bytes per quantum less `p`. */
  lemma DecodedLength(n: nat, p: nat)
    requires n % 4 == 0 && p <= 2 && p <= n
    ensures (n - p) % 4 != 1 && (n - p) * 3 / 4 == n / 4 * 3 - p
  {
  }

  /** The binary string `atob` returns: one character per byte. */
  function BinaryString(bytes: seq<Byte>): (r: string)
    ensures |r| == |bytes|
    ensures forall i :: 0 <= i < |r| ==> r[i] as int == bytes[i]
  {
    seq(|bytes|, i requires 0 <= i < |bytes| => bytes[i] as char)
  }

  /** `atob` accepts exactly the text of a length divisible by four whose characters, apart
      from at most two trailing `=`, all belong to the standard alphabet. */
  lemma AtobAccepts(s: string)
    ensures Atob(s).Some? <==> |s| % 4 == 0 && forall i :: 0 <= i < |s| - PadLength(s) ==> IsStdChar(s[i])
  {
    var body := s[..|s| - PadLength(s)];
    AllStdIff(body);
    assert forall i :: 0 <= i < |body| ==> body[i] == s[i];
  }

  /** The character codes of a binary string, each stored modulo 256 as `Uint8Array` does. */
  function CharCodes(raw: string): (b: seq<Byte>)
    ensures |b| == |raw|
    ensures forall i :: 0 <= i < |raw| && raw[i] as int < 256 ==> b[i] == raw[i] as int
  {
    seq(|raw|, i requires 0 <= i < |raw| => raw[i] as int % 256)
  }

  /** What `urlBase64ToUint8Array` returns, or `None` where it throws: it throws exactly
      where `atob` does, and otherwise holds one byte per decoded character, that
      character's code. */
  function DecodeUrlBase64(s: string): (r: Option<seq<Byte>>)
    ensures var raw := Atob(UrlToStd(Pad(s)));
      && (r.Some? <==> raw.Some?)
      && (r.Some? ==> |r.value| == |raw.value|
                      && forall i :: 0 <= i < |r.value| ==> r.value[i] == raw.value[i] as int)
  {
    var raw := Atob(UrlToStd(Pad(s)));
    if raw.None? then None else Some(CharCodes(raw.value))
  }

  /** `urlBase64ToUint8Array(base64String)`: the padding and replacement steps, the `atob`
      call (which may throw), then the array of character codes. */
  method UrlBase64ToUint8Array(base64String: string) returns (r: Option<seq<Byte>>)
    ensures r == DecodeUrlBase64(base64String)
  {
    var base64 := UrlToStd(Pad(base64String));
    var rawData := Atob(base64);
    if rawData.None? {
      return None;
    }
    var outputArray := FillCharCodes(rawData.value);
    r := Some(outputArray[..]);
  }

  /** The loop of `urlBase64ToUint8Array`: a freshly allocated `Uint8Array` of the decoded
      string's length, filled with its character codes. */
  method FillCharCodes(rawData: string) returns (outputArray: array<Byte>)
    ensures fresh(outputArray)
    ensures outputArray[..] == CharCodes(rawData)
  {
    outputArray := new Byte[|rawData|];
    for i := 0 to |rawData|
      invariant forall k :: 0 <= k < i ==> outputArray[k] == rawData[k] as int % 256
    {
      outputArray[i] := rawData[i] as int % 256;
    }
  }

  // ---------------------------------------------------------------------------------------
  // Properties

  /** The standard-alphabet text of a run of sextets. */
  function StdChars(vs: seq<Sextet>): (s: string)
    ensures |s| == |vs|
    ensures forall i :: 0 <= i < |s| ==> IsStdChar(s[i]) && s[i] == StdChar(vs[i])
  {
    seq(|vs|, i requires 0 <= i < |vs| => StdChar(vs[i]))
  }

  /** Padding and replacing the URL-safe characters of an encoding gives the padded
      standard-alphabet encoding. */
  lemma NormalizedEncoding(b: seq<Byte>)
    ensures UrlToStd(Pad(EncodeUrlUnpadded(b))) == Pad(StdChars(Sextets(b)))
  {
    var vs := Sextets(b);
    var e := EncodeUrlUnpadded(b);
    var std := StdChars(vs);
    var l, r := UrlToStd(Pad(e)), Pad(std);
    assert |l| == |r|;
    forall i | 0 <= i < |l| ensures l[i] == r[i] {
      if i < |e| {
        assert Pad(e)[i] == e[i] == UrlChar(vs[i]);
        UrlCharToStd(vs[i]);
        assert r[i] == std[i] == StdChar(vs[i]);
      } else {
        assert Pad(e)[i] == '=' && r[i] == '=';
      }
    }
  }

  /** The replacements of `urlBase64ToUint8Array` turn each url-safe character into the
      standard character for the same value. */
  lemma UrlCharToStd(v: Sextet)
    ensures var c := UrlChar(v);
      (if c == '-' then '+' else if c == '_' then '/' else c) == StdChar(v)
  {
  }

  /** `atob` sets aside exactly the padding that was added to a standard encoding. */
  lemma PadLengthOfPaddedStd(vs: seq<Sextet>)
    requires |vs| % 4 != 1
    ensures PadLength(Pad(StdChars(vs))) == PaddingCount(|vs|)
  {
    var std := StdChars(vs);
    var padded := Pad(std);
    var k := PaddingCount(|vs|);
    assert k != 3;
    if 0 < |std| {
      assert padded[|std| - 1] == std[|std| - 1];
      assert padded[|std| - 1] != '=';
    }
    if k == 0 {
      assert |padded| == 0 || padded[|padded| - 1] != '=';
    } else if k == 1 {
      assert padded[|padded| - 1] == '=' && padded[|padded| - 2] != '=';
    } else {
      assert padded[|padded| - 1] == '=' && padded[|padded| - 2] == '=';
    }
  }

  /** `atob` of a padded standard encoding is the binary string of the decoded sextets. */
  lemma AtobOfPaddedStd(vs: seq<Sextet>)
    requires |vs| % 4 != 1
    ensures var bytes := DecodeSextets(vs);
      Atob(Pad(StdChars(vs))) == Some(BinaryString(bytes))
  {
    var std := StdChars(vs);
    var padded := Pad(std);
    PadLengthOfPaddedStd(vs);
    assert padded[..|padded| - PadLength(padded)] == std;
    SextetsOfStdChars(vs);
  }

  /** Reading back the characters of a run of sextets gives the run. */
  lemma SextetsOfStdChars(vs: seq<Sextet>)
    ensures AllStd(StdChars(vs)) && SextetsOfStd(StdChars(vs)) == vs
  {
    var std := StdChars(vs);
    AllStdIff(std);
    var sextets := SextetsOfStd(std);
    forall i | 0 <= i < |vs| ensures sextets[i] == vs[i] {
      assert std[i] == StdChar(vs[i]);
    }
  }

  /** Round trip: decoding the unpadded base64url encoding of any byte string returns it. */
  lemma DecodeOfEncodeUrl(b: seq<Byte>)
    ensures DecodeUrlBase64(EncodeUrlUnpadded(b)) == Some(b)
  {
    var vs := Sextets(b);
    NormalizedEncoding(b);
    AtobOfPaddedStd(vs);
    DecodeSextetsOfSextets(b);
    var raw := BinaryString(b);
    assert Atob(UrlToStd(Pad(EncodeUrlUnpadded(b)))) == Some(raw);
    assert CharCodes(raw) == b;
  }

  /** A key whose length is 1 modulo 4 is rejected: three `=` are added, and the one that
      is not set aside as padding is outside the alphabet. */
  lemma RejectsLengthOneModFour(s: string)
    requires |s| % 4 == 1
    ensures DecodeUrlBase64(s) == None
  {
    var p := Pad(s);
    assert PaddingCount(|s|) == 3;
    var padded := UrlToStd(p);
    assert padded[|s|] == '=' && padded[|s| + 1] == '=' && padded[|s| + 2] == '=' by {
      assert p[|s|] == '=' && p[|s| + 1] == '=' && p[|s| + 2] == '=';
    }
    assert PadLength(padded) == 2;
    var body := padded[..|padded| - 2];
    assert body[|s|] == '=';
    AllStdIff(body);
  }

  /** ASCII white space, which a browser's `atob` strips before decoding. */
  predicate IsAsciiWhiteSpace(c: char) {
    c == ' ' || c == '\t' || c == '\n' || c == '\U{000C}' || c == '\r'
  }

  /** A character that is neither base64url, nor `+`, `/` or `=` (which the decoder also
      accepts), nor ASCII white space (which `atob` strips), is rejected wherever it
      stands. */
  lemma RejectsForeignCharacter(s: string, j: nat)
    requires j < |s|
    requires !IsUrlChar(s[j]) && s[j] != '+' && s[j] != '/' && s[j] != '='
    requires !IsAsciiWhiteSpace(s[j])
    ensures DecodeUrlBase64(s) == None
  {
    var padded := UrlToStd(Pad(s));
    AtobAccepts(padded);
    assert padded[j] == s[j] by {
      assert Pad(s)[j] == s[j];
    }
    assert j < |padded| - PadLength(padded);
    assert !IsStdChar(padded[j]);
  }
}
