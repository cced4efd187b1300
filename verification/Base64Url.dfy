/** The two base64url encoders and a decoder for section 5 of RFC 4648 without padding. */
module Base64Url {
  import opened Basics

  type Byte = k: nat | k < 256

  const CHARS: string := "ABCDEFGHIJKLM" + "NOPQRSTUVWXYZ" + "abcdefghijklm" + "nopqrstuvwxyz" + "0123456789+/"

  /** The URL-safe alphabet by value (table 2 of RFC 4648). */
  function Digit(k: nat): char
    requires k < 64
  {
    if k < 26 then (65 + k) as char
    else if k < 52 then (71 + k) as char
    else if k < 62 then (k - 4) as char
    else if k == 62 then '-' else '_'
  }

  function Value(c: char): Option<nat> {
    if 'A' <= c <= 'Z' then Some(c as nat - 65)
    else if 'a' <= c <= 'z' then Some(c as nat - 71)
    else if '0' <= c <= '9' then Some(c as nat + 4)
    else if c == '-' then Some(62)
    else if c == '_' then Some(63)
    else None
  }

  lemma ValueOfDigit(k: nat)
    requires k < 64
    ensures Value(Digit(k)) == Some(k)
  {
  }

  lemma DigitOfValue(c: char)
    ensures Value(c).Some? ==> Value(c).value < 64 && Digit(Value(c).value) == c
  {
  }

  /** The shifts and masks of the encoders are these quotients and remainders. */
  lemma BitsAreDigits(b0: bv8, b1: bv8, b2: bv8)
    ensures b0 >> 2 == b0 / 4 && b2 & 0x3F == b2 % 64
    ensures ((b0 & 3) << 4) | (b1 >> 4) == (b0 % 4) * 16 + b1 / 16
    ensures ((b1 & 0xF) << 2) | (b2 >> 6) == (b1 % 16) * 4 + b2 / 64
  {
  }

  // --- Encoding --------------------------------------------------------------------------

  /** Three bytes to four digits; a last group of one or two bytes to two or three. */
  function Encode(bytes: seq<Byte>): string {
    if bytes == [] then []
    else if |bytes| == 1 then [Digit(bytes[0] / 4), Digit(bytes[0] % 4 * 16)]
    else
      var a, b := Digit(bytes[0] / 4), Digit(bytes[0] % 4 * 16 + bytes[1] / 16);
      if |bytes| == 2 then [a, b, Digit(bytes[1] % 16 * 4)]
      else [a, b, Digit(bytes[1] % 16 * 4 + bytes[2] / 64), Digit(bytes[2] % 64)] + Encode(bytes[3..])
  }

  /** Strict: a lone digit, a foreign character or a set bit after the last byte is refused. */
  function Decode(text: string): Option<seq<Byte>> {
    if text == [] then Some([])
    else if |text| == 1 || Value(text[0]).None? || Value(text[1]).None? then None
    else
      var a, b := Value(text[0]).value, Value(text[1]).value;
      DigitOfValue(text[0]);
      DigitOfValue(text[1]);
      if |text| == 2 then if b % 16 != 0 then None else Some([a * 4 + b / 16])
      else if Value(text[2]).None? then None
      else
        var c := Value(text[2]).value;
        DigitOfValue(text[2]);
        if |text| == 3 then if c % 4 != 0 then None else Some([a * 4 + b / 16, b % 16 * 16 + c / 4])
        else if Value(text[3]).None? then None
        else
          DigitOfValue(text[3]);
          match Decode(text[4..])
          case None => None
          case Some(rest) => Some([a * 4 + b / 16, b % 16 * 16 + c / 4, c % 4 * 64 + Value(text[3]).value] + rest)
  }

  function Group(bytes: seq<Byte>): string
    requires |bytes| >= 3
  {
    [Digit(bytes[0] / 4), Digit(bytes[0] % 4 * 16 + bytes[1] / 16),
     Digit(bytes[1] % 16 * 4 + bytes[2] / 64), Digit(bytes[2] % 64)]
  }

  lemma FirstGroup(bytes: seq<Byte>)
    requires |bytes| >= 3
    ensures Encode(bytes) == Group(bytes) + Encode(bytes[3..])
  {
    hide Digit;
  }

  /** Decoding undoes encoding, on every byte sequence. */
  lemma {:induction false} DecodeEncode(bytes: seq<Byte>)
    ensures Decode(Encode(bytes)) == Some(bytes)
  {
    hide Encode, Decode;
    if |bytes| <= 2 {
      LastDecodes(bytes);
    } else {
      DecodeEncode(bytes[3..]);
      FirstDecodes(bytes);
    }
  }

  lemma LastDecodes(bytes: seq<Byte>)
    requires |bytes| <= 2
    ensures Decode(Encode(bytes)) == Some(bytes)
  {
    hide Encode, Decode;
    if |bytes| == 0 {
      EncodeNone();
      NothingDecodes();
    } else if |bytes| == 1 {
      OneDecodes(bytes);
    } else {
      TwoDecodes(bytes);
    }
  }

  lemma OneDecodes(bytes: seq<Byte>)
    requires |bytes| == 1
    ensures Decode(Encode(bytes)) == Some(bytes)
  {
    hide Encode, Decode, Digit;
    var a, b := bytes[0] / 4, bytes[0] % 4 * 16;
    OneDigits(bytes);
    OneByte(bytes[0]);
    TwoDecode(a, b);
    assert [Digit(a)] + [Digit(b)] == [Digit(a), Digit(b)];
    assert bytes == [bytes[0]];
  }

  lemma TwoDecodes(bytes: seq<Byte>)
    requires |bytes| == 2
    ensures Decode(Encode(bytes)) == Some(bytes)
  {
    hide Encode, Decode, Digit;
    var a, b, c := bytes[0] / 4, bytes[0] % 4 * 16 + bytes[1] / 16, bytes[1] % 16 * 4;
    TwoDigits(bytes);
    TwoBytes(bytes[0], bytes[1]);
    ThreeDecode(a, b, c);
    assert [Digit(a)] + [Digit(b)] + [Digit(c)] == [Digit(a), Digit(b), Digit(c)];
    assert bytes == [bytes[0], bytes[1]];
  }

  lemma TwoBytes(b0: Byte, b1: Byte)
    ensures var a, b, c := b0 / 4, b0 % 4 * 16 + b1 / 16, b1 % 16 * 4;
            b < 64 && c < 64 && c % 4 == 0 && a * 4 + b / 16 == b0 && b % 16 * 16 + c / 4 == b1
  {
  }

  lemma NothingDecodes()
    ensures Decode([]) == Some([])
  {
  }

  lemma OneByte(b: Byte)
    ensures b % 4 * 16 < 64 && b % 4 * 16 % 16 == 0 && b / 4 * 4 + b % 4 * 16 / 16 == b
  {
  }

  lemma TwoDecode(a: nat, b: nat)
    requires a < 64 && b < 64 && b % 16 == 0
    ensures Decode([Digit(a), Digit(b)]) == Some([a * 4 + b / 16])
  {
    hide Digit, Value;
    ValueOfDigit(a);
    ValueOfDigit(b);
  }

  lemma ThreeDecode(a: nat, b: nat, c: nat)
    requires a < 64 && b < 64 && c < 64 && c % 4 == 0
    ensures Decode([Digit(a), Digit(b), Digit(c)]) == Some([a * 4 + b / 16, b % 16 * 16 + c / 4])
  {
    hide Digit, Value;
    ValueOfDigit(a);
    ValueOfDigit(b);
    ValueOfDigit(c);
  }

  lemma FourDecode(a: nat, b: nat, c: nat, d: nat, rest: string)
    requires a < 64 && b < 64 && c < 64 && d < 64 && Decode(rest).Some?
    ensures Decode([Digit(a), Digit(b), Digit(c), Digit(d)] + rest)
            == Some([a * 4 + b / 16, b % 16 * 16 + c / 4, c % 4 * 64 + d] + Decode(rest).value)
  {
    hide Digit, Value;
    ValueOfDigit(a);
    ValueOfDigit(b);
    ValueOfDigit(c);
    ValueOfDigit(d);
    assert ([Digit(a), Digit(b), Digit(c), Digit(d)] + rest)[4..] == rest;
  }

  lemma FirstDecodes(bytes: seq<Byte>)
    requires |bytes| >= 3 && Decode(Encode(bytes[3..])) == Some(bytes[3..])
    ensures Decode(Encode(bytes)) == Some(bytes)
  {
    hide Digit, Decode, Encode;
    FirstGroup(bytes);
    FourDecode(bytes[0] / 4, bytes[0] % 4 * 16 + bytes[1] / 16, bytes[1] % 16 * 4 + bytes[2] / 64, bytes[2] % 64, Encode(bytes[3..]));
    GroupDecodes(bytes[0], bytes[1], bytes[2]);
    assert bytes == [bytes[0], bytes[1], bytes[2]] + bytes[3..];
  }

  lemma GroupDecodes(b0: Byte, b1: Byte, b2: Byte)
    ensures var a, b, c, d := b0 / 4, b0 % 4 * 16 + b1 / 16, b1 % 16 * 4 + b2 / 64, b2 % 64;
            a * 4 + b / 16 == b0 && b % 16 * 16 + c / 4 == b1 && c % 4 * 64 + d == b2
  {
  }

  /** Encoding undoes decoding: the decoder accepts exactly the encoder's outputs. */
  lemma {:induction false} EncodeDecode(text: string)
    ensures Decode(text).Some? ==> Encode(Decode(text).value) == text
  {
    hide Digit, Value;
    if |text| >= 2 && Value(text[0]).Some? && Value(text[1]).Some? {
      DigitOfValue(text[0]);
      DigitOfValue(text[1]);
      if |text| >= 3 && Value(text[2]).Some? {
        DigitOfValue(text[2]);
        if |text| >= 4 && Value(text[3]).Some? {
          EncodeDecode(text[4..]);
          if Decode(text).Some? { GroupRoundTrip(text); }
        }
      }
    }
  }

  lemma GroupRoundTrip(text: string)
    requires |text| >= 4 && Decode(text).Some? && Encode(Decode(text[4..]).value) == text[4..]
    ensures Encode(Decode(text).value) == text
  {
    hide Digit, Value;
    DigitOfValue(text[0]);
    DigitOfValue(text[1]);
    DigitOfValue(text[2]);
    DigitOfValue(text[3]);
    GroupEncodes(Value(text[0]).value, Value(text[1]).value, Value(text[2]).value, Value(text[3]).value);
    var bytes := Decode(text).value;
    assert bytes[3..] == Decode(text[4..]).value;
    assert text == [text[0], text[1], text[2], text[3]] + text[4..];
  }

  lemma GroupEncodes(a: nat, b: nat, c: nat, d: nat)
    requires a < 64 && b < 64 && c < 64 && d < 64
    ensures var b0, b1, b2 := a * 4 + b / 16, b % 16 * 16 + c / 4, c % 4 * 64 + d;
            b0 / 4 == a && b0 % 4 * 16 + b1 / 16 == b && b1 % 16 * 4 + b2 / 64 == c && b2 % 64 == d
  {
  }

  lemma Injective(x: seq<Byte>, y: seq<Byte>)
    requires Encode(x) == Encode(y)
    ensures x == y
  {
    DecodeEncode(x);
    DecodeEncode(y);
  }

  /** ceil(4n/3) characters, all of the URL-safe alphabet. */
  lemma {:induction false} EncodedShape(bytes: seq<Byte>)
    ensures |Encode(bytes)| == (4 * |bytes| + 2) / 3
    ensures forall c :: c in Encode(bytes) ==> 'A' <= c <= 'Z' || 'a' <= c <= 'z' || '0' <= c <= '9' || c == '-' || c == '_'
  {
    if |bytes| >= 3 { EncodedShape(bytes[3..]); }
  }

  // --- The encoders ------------------------------------------------------------------------

  /** `str::replace` of one character. */
  function Replace(s: string, c: char, repl: string): string {
    if s == [] then [] else (if s[0] == c then repl else [s[0]]) + Replace(s[1..], c, repl)
  }

  lemma {:induction false} ReplaceConcat(s: string, t: string, c: char, repl: string)
    ensures Replace(s + t, c, repl) == Replace(s, c, repl) + Replace(t, c, repl)
  {
    if s == [] {
      assert s + t == t;
    } else {
      assert (s + t)[1..] == s[1..] + t;
      ReplaceConcat(s[1..], t, c, repl);
    }
  }

  lemma CharsByValue(k: nat)
    requires k < 64
    ensures |CHARS| == 64
    ensures CHARS[k] == if k == 62 then '+' else if k == 63 then '/' else Digit(k)
  {
  }

  /** From the standard alphabet to the URL-safe one, dropping the padding. */
  function ToUrl(s: string): string { Replace(Replace(Replace(s, '+', "-"), '/', "_"), '=', "") }

  /** The same replacements without the last, for text without padding. */
  function ToUrlUnpadded(s: string): string { Replace(Replace(s, '+', "-"), '/', "_") }

  lemma ToUrlConcat(s: string, t: string)
    ensures ToUrl(s + t) == ToUrl(s) + ToUrl(t) && ToUrlUnpadded(s + t) == ToUrlUnpadded(s) + ToUrlUnpadded(t)
  {
    ReplaceConcat(s, t, '+', "-");
    ReplaceConcat(Replace(s, '+', "-"), Replace(t, '+', "-"), '/', "_");
    ReplaceConcat(ToUrlUnpadded(s), ToUrlUnpadded(t), '=', "");
  }

  lemma ReplaceOne(x: char, c: char, repl: string)
    ensures Replace([x], c, repl) == if x == c then repl else [x]
  {
    assert [x][1..] == [];
  }

  lemma ToUrlDigit(k: nat)
    requires k < 64
    ensures |CHARS| == 64 && CHARS[k] != '=' && ToUrl([CHARS[k]]) == [Digit(k)] && ToUrlUnpadded([CHARS[k]]) == [Digit(k)]
  {
    hide Replace, Digit;
    CharsByValue(k);
    hide CHARS;
    DigitIsPlain(k);
    ReplaceOne(CHARS[k], '+', "-");
    ReplaceOne(if CHARS[k] == '+' then '-' else CHARS[k], '/', "_");
    ReplaceOne(Digit(k), '=', "");
  }

  lemma DigitIsPlain(k: nat)
    requires k < 64
    ensures Digit(k) != '+' && Digit(k) != '/' && Digit(k) != '='
    ensures k == 62 ==> Digit(k) == '-'
    ensures k == 63 ==> Digit(k) == '_'
  {
  }

  lemma ToUrlPadding()
    ensures ToUrl("=") == ""
  {
    ReplaceOne('=', '+', "-");
    ReplaceOne('=', '/', "_");
    ReplaceOne('=', '=', "");
  }

  /** Appending one character of the alphabet appends its URL-safe digit. */
  lemma PushDigit(out: string, k: nat)
    requires k < 64
    ensures |CHARS| == 64 && CHARS[k] != '='
    ensures ToUrl(out + [CHARS[k]]) == ToUrl(out) + [Digit(k)]
    ensures ToUrlUnpadded(out + [CHARS[k]]) == ToUrlUnpadded(out) + [Digit(k)]
  {
    hide ToUrl, ToUrlUnpadded, Digit;
    ToUrlDigit(k);
    ToUrlConcat(out, [CHARS[k]]);
  }

  lemma PushPadding(out: string)
    ensures ToUrl(out + "=") == ToUrl(out)
  {
    hide ToUrl, ToUrlUnpadded;
    ToUrlConcat(out, "=");
    ToUrlPadding();
  }

  /** Encoding group by group: whole groups of three first. */
  lemma {:induction false} EncodePrefix(bytes: seq<Byte>, i: nat)
    requires i % 3 == 0 && i <= |bytes|
    ensures Encode(bytes) == Encode(bytes[..i]) + Encode(bytes[i..])
  {
    hide Encode, Digit;
    if i == 0 {
      EncodeNone();
      assert bytes[..0] == [] && bytes[0..] == bytes;
    } else {
      EncodePrefix(bytes[3..], i - 3);
      assert bytes[3..][..i - 3] == bytes[..i][3..];
      assert bytes[3..][i - 3..] == bytes[i..];
      FirstGroup(bytes);
      FirstGroup(bytes[..i]);
      assert Group(bytes[..i]) == Group(bytes);
    }
  }

  lemma ChunkEncodes(bytes: seq<Byte>, i: nat, j: nat)
    requires i % 3 == 0 && i < |bytes| && j == (if i + 3 <= |bytes| then i + 3 else |bytes|)
    ensures Encode(bytes[..j]) == Encode(bytes[..i]) + Encode(bytes[i..j])
  {
    hide Encode;
    EncodePrefix(bytes[..j], i);
    assert bytes[..j][..i] == bytes[..i] && bytes[..j][i..] == bytes[i..j];
  }

  /** Padding stands exactly behind the n significant characters. */
  ghost predicate PaddedFrom(out: string, n: nat) { forall k :: 0 <= k < |out| ==> (out[k] == '=' <==> k >= n) }

  /** The encoder of the login handlers: standard alphabet, filled up with padding to whole groups of four. */
  method Base64Standard(bytes: seq<Byte>) returns (out: string)
    ensures ToUrl(out) == Encode(bytes)
    ensures |out| == (|bytes| + 2) / 3 * 4 && PaddedFrom(out, (4 * |bytes| + 2) / 3)
  {
    hide ToUrl, Digit, CHARS, Encode;
    out := "";
    EncodeNone();
    assert ToUrl("") == "" by { ToUrlEmpty(); }
    var i := 0;
    while i < |bytes|
      invariant i <= |bytes| && (i % 3 == 0 || i == |bytes|)
      invariant ToUrl(out) == Encode(bytes[..i])
      invariant |out| == (i + 2) / 3 * 4 && PaddedFrom(out, (4 * i + 2) / 3)
    {
      var j := if i + 3 <= |bytes| then i + 3 else |bytes|;
      var chunk := bytes[i..j];
      ChunkEncodes(bytes, i, j);
      var b0 := chunk[0];
      var b1 := if |chunk| > 1 then chunk[1] else 0;
      var b2 := if |chunk| > 2 then chunk[2] else 0;
      out := PadChunk(out, chunk, b0, b1, b2);
      GroupLengths(i, j);
      i := j;
    }
    assert bytes[..i] == bytes;
  }

  lemma EncodeNone()
    ensures Encode([]) == []
  {
  }

  lemma ToUrlEmpty()
    ensures ToUrl("") == "" && ToUrlUnpadded("") == ""
  {
  }

  lemma GroupLengths(i: nat, j: nat)
    requires i % 3 == 0 && i < j <= i + 3
    ensures (4 * i + 2) / 3 == (i + 2) / 3 * 4 == i / 3 * 4
    ensures (4 * j + 2) / 3 == i / 3 * 4 + (j - i) + 1 && (j + 2) / 3 * 4 == i / 3 * 4 + 4
  {
    var m := i / 3;
    assert i == 3 * m;
  }

  /** The body of the loop: two characters, then each further one or its padding. */
  method PadChunk(before: string, chunk: seq<Byte>, b0: Byte, b1: Byte, b2: Byte) returns (out: string)
    requires 1 <= |chunk| <= 3 && b0 == chunk[0]
    requires b1 == (if |chunk| > 1 then chunk[1] else 0) && b2 == (if |chunk| > 2 then chunk[2] else 0)
    ensures ToUrl(out) == ToUrl(before) + Encode(chunk)
    ensures |out| == |before| + 4
    ensures PaddedFrom(before, |before|) ==> PaddedFrom(out, |before| + |chunk| + 1)
  {
    hide ToUrl, Digit, CHARS, Encode;
    var k0, k1, k2, k3 := b0 / 4, b0 % 4 * 16 + b1 / 16, b1 % 16 * 4 + b2 / 64, b2 % 64;
    PushDigit(before, k0);
    out := before + [CHARS[k0]];
    PushDigit(out, k1);
    out := out + [CHARS[k1]];
    if |chunk| > 1 {
      PushDigit(out, k2);
      out := out + [CHARS[k2]];
    } else {
      PushPadding(out);
      out := out + "=";
    }
    if |chunk| > 2 {
      PushDigit(out, k3);
      out := out + [CHARS[k3]];
    } else {
      PushPadding(out);
      out := out + "=";
    }
    ChunkDigits(chunk, b1, b2, k0, k1, k2, k3);
  }

  /** The digits of a chunk whose missing bytes count as zero. */
  lemma ChunkDigits(chunk: seq<Byte>, b1: Byte, b2: Byte, k0: nat, k1: nat, k2: nat, k3: nat)
    requires 1 <= |chunk| <= 3
    requires b1 == (if |chunk| > 1 then chunk[1] else 0) && b2 == (if |chunk| > 2 then chunk[2] else 0)
    requires k0 == chunk[0] / 4 && k1 == chunk[0] % 4 * 16 + b1 / 16 && k2 == b1 % 16 * 4 + b2 / 64 && k3 == b2 % 64
    ensures k0 < 64 && k1 < 64 && k2 < 64 && k3 < 64
    ensures |chunk| == 1 ==> Encode(chunk) == [Digit(k0)] + [Digit(k1)]
    ensures |chunk| == 2 ==> Encode(chunk) == [Digit(k0)] + [Digit(k1)] + [Digit(k2)]
    ensures |chunk| == 3 ==> Encode(chunk) == [Digit(k0)] + [Digit(k1)] + [Digit(k2)] + [Digit(k3)]
  {
    hide Digit, Encode;
    if |chunk| == 1 {
      OneDigits(chunk);
    } else if |chunk| == 2 {
      TwoDigits(chunk);
    } else {
      ThreeDigits(chunk);
    }
  }

  lemma OneDigits(chunk: seq<Byte>)
    requires |chunk| == 1
    ensures Encode(chunk) == [Digit(chunk[0] / 4)] + [Digit(chunk[0] % 4 * 16)]
  {
    hide Digit;
  }

  lemma TwoDigits(chunk: seq<Byte>)
    requires |chunk| == 2
    ensures Encode(chunk) == [Digit(chunk[0] / 4)] + [Digit(chunk[0] % 4 * 16 + chunk[1] / 16)] + [Digit(chunk[1] % 16 * 4)]
  {
    hide Digit;
  }

  lemma ThreeDigits(chunk: seq<Byte>)
    requires |chunk| == 3
    ensures Encode(chunk) == [Digit(chunk[0] / 4)] + [Digit(chunk[0] % 4 * 16 + chunk[1] / 16)]
                             + [Digit(chunk[1] % 16 * 4 + chunk[2] / 64)] + [Digit(chunk[2] % 64)]
  {
    hide Digit;
    assert chunk[3..] == [];
    assert Encode(chunk[3..]) == [];
  }

  method Base64UrlEncode(bytes: seq<Byte>) returns (out: string)
    ensures out == Encode(bytes)
  {
    var b64 := Base64Standard(bytes);
    out := ToUrl(b64);
  }

  /** The encoder of the OAuth handlers: no padding is ever written. */
  method OAuthBase64UrlEncode(bytes: seq<Byte>) returns (out: string)
    ensures out == Encode(bytes)
  {
    hide ToUrlUnpadded, Digit, CHARS, Encode;
    var raw := "";
    EncodeNone();
    assert ToUrlUnpadded("") == "" by { ToUrlEmpty(); }
    var i := 0;
    while i < |bytes|
      invariant i <= |bytes| && (i % 3 == 0 || i == |bytes|)
      invariant ToUrlUnpadded(raw) == Encode(bytes[..i])
    {
      var j := if i + 3 <= |bytes| then i + 3 else |bytes|;
      var chunk := bytes[i..j];
      ChunkEncodes(bytes, i, j);
      var b0 := chunk[0];
      var b1 := if |chunk| > 1 then chunk[1] else 0;
      var b2 := if |chunk| > 2 then chunk[2] else 0;
      raw := BareChunk(raw, chunk, b0, b1, b2);
      i := j;
    }
    assert bytes[..i] == bytes;
    out := ToUrlUnpadded(raw);
  }

  method BareChunk(before: string, chunk: seq<Byte>, b0: Byte, b1: Byte, b2: Byte) returns (out: string)
    requires 1 <= |chunk| <= 3 && b0 == chunk[0]
    requires b1 == (if |chunk| > 1 then chunk[1] else 0) && b2 == (if |chunk| > 2 then chunk[2] else 0)
    ensures ToUrlUnpadded(out) == ToUrlUnpadded(before) + Encode(chunk)
  {
    hide ToUrl, ToUrlUnpadded, Digit, CHARS, Encode;
    var k0, k1, k2, k3 := b0 / 4, b0 % 4 * 16 + b1 / 16, b1 % 16 * 4 + b2 / 64, b2 % 64;
    PushDigit(before, k0);
    out := before + [CHARS[k0]];
    PushDigit(out, k1);
    out := out + [CHARS[k1]];
    if |chunk| > 1 {
      PushDigit(out, k2);
      out := out + [CHARS[k2]];
    }
    if |chunk| > 2 {
      PushDigit(out, k3);
      out := out + [CHARS[k3]];
    }
    ChunkDigits(chunk, b1, b2, k0, k1, k2, k3);
  }
}
