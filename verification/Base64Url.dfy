// Go's base64.RawURLEncoding: the URL-safe alphabet, no padding, CR and LF
// skipped, unused low bits of the last digit ignored (section 5 of RFC 4648).
module Base64Url {
  import opened Wrappers

  type Byte = b: nat | b < 256

  type Sextet = s: nat | s < 64

  // ---- Three bytes, four digits ------------------------------------------

  // The four digits of three bytes: the top six bits, and so on down.
  function Digit0(a: nat): (s: nat)
    requires a < 256
    ensures s < 64
  {
    a / 4
  }

  function Digit1(a: nat, b: nat): (s: nat)
    requires a < 256 && b < 256
    ensures s < 64
  {
    a % 4 * 16 + b / 16
  }

  function Digit2(b: nat, c: nat): (s: nat)
    requires b < 256 && c < 256
    ensures s < 64
  {
    b % 16 * 4 + c / 64
  }

  function Digit3(c: nat): (s: nat)
    requires c < 256
    ensures s < 64
  {
    c % 64
  }

  // The three bytes of four digits.
  function Byte0(s: nat, t: nat): (a: nat)
    requires s < 64 && t < 64
    ensures a < 256
  {
    s * 4 + t / 16
  }

  function Byte1(t: nat, u: nat): (b: nat)
    requires t < 64 && u < 64
    ensures b < 256
  {
    t % 16 * 16 + u / 4
  }

  function Byte2(u: nat, v: nat): (c: nat)
    requires u < 64 && v < 64
    ensures c < 256
  {
    u % 4 * 64 + v
  }

  function Pack(bs: seq<Byte>): seq<Sextet> {
    if |bs| >= 3 then
      [Digit0(bs[0]), Digit1(bs[0], bs[1]), Digit2(bs[1], bs[2]), Digit3(bs[2])] + Pack(bs[3..])
    else if |bs| == 2 then [Digit0(bs[0]), Digit1(bs[0], bs[1]), Digit2(bs[1], 0)]
    else if |bs| == 1 then [Digit0(bs[0]), Digit1(bs[0], 0)]
    else []
  }

  function Unpack(ss: seq<Sextet>): Option<seq<Byte>> {
    if |ss| >= 4 then
      var rest := Unpack(ss[4..]);
      if rest.None? then None
      else Some([Byte0(ss[0], ss[1]), Byte1(ss[1], ss[2]), Byte2(ss[2], ss[3])] + rest.value)
    else if |ss| == 3 then Some([Byte0(ss[0], ss[1]), Byte1(ss[1], ss[2])])
    else if |ss| == 2 then Some([Byte0(ss[0], ss[1])])
    else if |ss| == 1 then None
    else Some([])
  }

  lemma BytesOfDigits(a: nat, b: nat, c: nat)
    requires a < 256 && b < 256 && c < 256
    ensures Byte0(Digit0(a), Digit1(a, b)) == a
    ensures Byte1(Digit1(a, b), Digit2(b, c)) == b
    ensures Byte2(Digit2(b, c), Digit3(c)) == c
  {
  }

  lemma DigitsOfBytes(s: nat, t: nat, u: nat, v: nat)
    requires s < 64 && t < 64 && u < 64 && v < 64
    ensures
      var a, b, c := Byte0(s, t), Byte1(t, u), Byte2(u, v);
      && Digit0(a) == s && Digit1(a, b) == t && Digit2(b, c) == u && Digit3(c) == v
      && (Digit1(a, 0) == t <==> t % 16 == 0) && (Digit2(b, 0) == u <==> u % 4 == 0)
  {
  }

  lemma UnpackGroup(four: seq<Sextet>, three: seq<Byte>, ss: seq<Sextet>)
    requires |four| == 4 && |three| == 3
    requires three == [Byte0(four[0], four[1]), Byte1(four[1], four[2]), Byte2(four[2], four[3])]
    requires Unpack(ss).Some?
    ensures Unpack(four + ss) == Some(three + Unpack(ss).value)
  {
    assert (four + ss)[4..] == ss;
  }

  lemma UnpackPackOne(a: Byte)
    ensures Unpack(Pack([a])) == Some([a])
  {
    var s, t := Digit0(a), Digit1(a, 0);
    assert Pack([a]) == [s, t];
    assert Unpack([s, t]) == Some([Byte0(s, t)]);
    BytesOfDigits(a, 0, 0);
  }

  lemma UnpackPackTwo(a: Byte, b: Byte)
    ensures Unpack(Pack([a, b])) == Some([a, b])
  {
    var s, t, u := Digit0(a), Digit1(a, b), Digit2(b, 0);
    assert Pack([a, b]) == [s, t, u];
    assert Unpack([s, t, u]) == Some([Byte0(s, t), Byte1(t, u)]);
    BytesOfDigits(a, b, 0);
  }

  lemma {:induction false} UnpackPack(bs: seq<Byte>)
    ensures Unpack(Pack(bs)) == Some(bs)
    decreases |bs|
  {
    if |bs| >= 3 {
      var a, b, c, rest := bs[0], bs[1], bs[2], bs[3..];
      UnpackPack(rest);
      BytesOfDigits(a, b, c);
      UnpackGroup([Digit0(a), Digit1(a, b), Digit2(b, c), Digit3(c)], [a, b, c], Pack(rest));
      assert bs == [a, b, c] + rest;
    } else if |bs| == 2 {
      UnpackPackTwo(bs[0], bs[1]);
      assert bs == [bs[0], bs[1]];
    } else if |bs| == 1 {
      UnpackPackOne(bs[0]);
      assert bs == [bs[0]];
    }
  }

  lemma {:induction false} UnpackFails(ss: seq<Sextet>)
    ensures Unpack(ss).None? <==> |ss| % 4 == 1
    decreases |ss|
  {
    if |ss| >= 4 { UnpackFails(ss[4..]); }
  }

  // The unused low bits of the last digit are zero.
  predicate Canonical(ss: seq<Sextet>) {
    if |ss| >= 4 then Canonical(ss[4..])
    else (|ss| == 3 ==> Spare(ss[2], 4)) && (|ss| == 2 ==> Spare(ss[1], 16))
  }

  predicate Spare(s: nat, n: nat)
    requires n > 0
  {
    s % n == 0
  }

  lemma {:induction false} PackUnpack(ss: seq<Sextet>)
    requires Unpack(ss).Some?
    ensures Pack(Unpack(ss).value) == ss <==> Canonical(ss)
    decreases |ss|
  {
    var bs := Unpack(ss).value;
    if |ss| >= 4 {
      DigitsOfBytes(ss[0], ss[1], ss[2], ss[3]);
      PackUnpack(ss[4..]);
      PackGroup(ss[..4], bs[..3], ss[4..], bs[3..]);
      assert ss == ss[..4] + ss[4..] && bs == bs[..3] + bs[3..];
    } else if |ss| == 3 {
      DigitsOfBytes(ss[0], ss[1], ss[2], 0);
      assert Pack(bs) == [ss[0], ss[1], Digit2(bs[1], 0)];
      assert ss == [ss[0], ss[1], ss[2]];
    } else if |ss| == 2 {
      DigitsOfBytes(ss[0], ss[1], 0, 0);
      assert Pack(bs) == [ss[0], Digit1(bs[0], 0)];
      assert ss == [ss[0], ss[1]];
    }
  }

  lemma PackGroup(four: seq<Sextet>, three: seq<Byte>, ss: seq<Sextet>, bs: seq<Byte>)
    requires |four| == 4 && |three| == 3
    requires four == [Digit0(three[0]), Digit1(three[0], three[1]), Digit2(three[1], three[2]), Digit3(three[2])]
    ensures Pack(three + bs) == four + Pack(bs)
    ensures Pack(three + bs) == four + ss <==> Pack(bs) == ss
  {
    assert (three + bs)[3..] == bs;
    assert Pack(three + bs) == four + Pack(bs);
    assert (four + Pack(bs))[4..] == Pack(bs) && (four + ss)[4..] == ss;
  }

  // ---- Digits and letters ------------------------------------------------

  function Letter(s: Sextet): char
  {
    if s < 26 then 'A' + s as char
    else if s < 52 then 'a' + (s - 26) as char
    else if s < 62 then '0' + (s - 52) as char
    else if s == 62 then '-' else '_'
  }

  function Digit(c: char): Option<Sextet> {
    if 'A' <= c <= 'Z' then Some((c - 'A') as int)
    else if 'a' <= c <= 'z' then Some((c - 'a') as int + 26)
    else if '0' <= c <= '9' then Some((c - '0') as int + 52)
    else if c == '-' then Some(62)
    else if c == '_' then Some(63)
    else None
  }

  lemma LetterDigit(s: Sextet, c: char)
    ensures Digit(Letter(s)) == Some(s)
    ensures Digit(c).Some? ==> Letter(Digit(c).value) == c
  {
  }

  function Letters(ss: seq<Sextet>): string {
    seq(|ss|, i requires 0 <= i < |ss| => Letter(ss[i]))
  }

  // The digits of a text, line breaks skipped, unless a character is foreign to the alphabet.
  function Digits(text: string): Option<seq<Sextet>> {
    if text == [] then Some([])
    else
      var rest := Digits(text[1..]);
      if text[0] == '\n' || text[0] == '\r' then rest
      else if Digit(text[0]).None? || rest.None? then None
      else Some([Digit(text[0]).value] + rest.value)
  }

  predicate Readable(text: string) {
    forall i :: 0 <= i < |text| ==> Digit(text[i]).Some? || text[i] == '\n' || text[i] == '\r'
  }

  predicate Unbroken(text: string) {
    '\n' !in text && '\r' !in text
  }

  lemma {:induction false} DigitsOfLetters(ss: seq<Sextet>)
    ensures Digits(Letters(ss)) == Some(ss)
    decreases |ss|
  {
    if ss != [] {
      assert Letters(ss)[1..] == Letters(ss[1..]);
      assert ss == [ss[0]] + ss[1..];
      LetterDigit(ss[0], Letter(ss[0]));
      DigitsOfLetters(ss[1..]);
    }
  }

  lemma {:induction false} DigitsWhenReadable(text: string)
    ensures Digits(text).Some? <==> Readable(text)
    ensures Digits(text).Some? ==> |Digits(text).value| <= |text|
    ensures Digits(text).Some? ==> (|Digits(text).value| == |text| <==> Unbroken(text))
    ensures Digits(text).Some? && Unbroken(text) ==> Letters(Digits(text).value) == text
    decreases |text|
  {
    if text != [] {
      DigitsWhenReadable(text[1..]);
      assert text == [text[0]] + text[1..];
      if Readable(text) {
        forall i | 0 <= i < |text| - 1 ensures Digit(text[1..][i]).Some? || text[1..][i] == '\n' || text[1..][i] == '\r' {
          assert text[1..][i] == text[i + 1];
        }
      }
      if Readable(text[1..]) {
        forall i | 1 <= i < |text| ensures Digit(text[i]).Some? || text[i] == '\n' || text[i] == '\r' {
          assert text[1..][i - 1] == text[i];
        }
      }
      if Digits(text).Some? && Unbroken(text) {
        LetterDigit(0, text[0]);
        var ss := Digits(text).value;
        assert ss[1..] == Digits(text[1..]).value;
        assert Letters(ss) == [Letter(ss[0])] + Letters(ss[1..]);
      }
    }
  }

  // The URL-safe alphabet of section 5 of RFC 4648, in its order.
  const URL_SAFE: string := CAPITALS + SMALLS + DIGITS

  const CAPITALS: string := "ABCDEFGHIJKLMNOPQRSTUVWXYZ"
  const SMALLS: string := "abcdefghijklmnopqrstuvwxyz"
  const DIGITS: string := "0123456789-_"

  lemma Capitals(s: Sextet)
    requires s < 26
    ensures Letter(s) == "ABCDEFGHIJKLMNOPQRSTUVWXYZ"[s]
  {
    assert "ABCDEFGHIJKLMNOPQRSTUVWXYZ"[s] as int == 65 + s;
  }

  lemma Smalls(s: Sextet)
    requires 26 <= s < 52
    ensures Letter(s) == "abcdefghijklmnopqrstuvwxyz"[s - 26]
  {
    assert "abcdefghijklmnopqrstuvwxyz"[s - 26] as int == 71 + s;
  }

  lemma Others(s: Sextet)
    requires 52 <= s
    ensures Letter(s) == "0123456789-_"[s - 52]
  {
    assert s < 62 ==> "0123456789-_"[s - 52] as int == s - 4;
  }

  lemma Alphabet(s: Sextet)
    ensures |URL_SAFE| == 64 && URL_SAFE[s] == Letter(s)
  {
    if s < 26 { Capitals(s); } else if s < 52 { Smalls(s); } else { Others(s); }
  }

  lemma KnownLetter(c: char)
    ensures Digit(c).Some? <==> c in URL_SAFE
  {
    if Digit(c).Some? {
      Alphabet(Digit(c).value);
      LetterDigit(0, c);
    }
    Alphabet(0);
    forall s: Sextet ensures Digit(URL_SAFE[s]).Some? {
      Alphabet(s);
      LetterDigit(s, c);
    }
  }

  // ---- Encoding and decoding ---------------------------------------------

  function Encode(bs: seq<Byte>): string {
    Letters(Pack(bs))
  }

  function Decode(text: string): Option<seq<Byte>> {
    var digits := Digits(text);
    if digits.None? then None else Unpack(digits.value)
  }

  // Three bytes and their four digits are one 24-bit number, in base 256 and in base 64.
  lemma GroupValue(a: Byte, b: Byte, c: Byte, rest: seq<Byte>)
    ensures Pack([a, b, c] + rest) == Pack([a, b, c]) + Pack(rest) && |Pack([a, b, c])| == 4
    ensures 65536 * a + 256 * b + c == Weighted(Pack([a, b, c]))
  {
    var bs := [a, b, c] + rest;
    assert bs[..3] == [a, b, c] && bs[3..] == rest;
  }

  // What up to four digits stand for, the first one counting most.
  function Weighted(ss: seq<Sextet>): int {
    (if |ss| > 0 then 262144 * ss[0] as int else 0) + (if |ss| > 1 then 4096 * ss[1] as int else 0)
    + (if |ss| > 2 then 64 * ss[2] as int else 0) + (if |ss| > 3 then ss[3] as int else 0)
  }

  // A last group of two bytes or one is such a number with zeros below.
  lemma TailValue(a: Byte, b: Byte)
    ensures |Pack([a, b])| == 3 && Weighted(Pack([a, b])) == 65536 * a + 256 * b
    ensures |Pack([a])| == 2 && Weighted(Pack([a])) == 65536 * a
  {
  }

  // A line break anywhere in a text changes nothing.
  lemma {:induction false} BreaksAreSkipped(head: string, c: char, tail: string)
    requires c == '\n' || c == '\r'
    ensures Digits(head + [c] + tail) == Digits(head + tail) && Decode(head + [c] + tail) == Decode(head + tail)
    decreases |head|
  {
    if head == [] {
      assert ([c] + tail)[1..] == tail && head + [c] + tail == [c] + tail && head + tail == tail;
    } else {
      BreaksAreSkipped(head[1..], c, tail);
      assert (head + [c] + tail)[1..] == head[1..] + [c] + tail && (head + tail)[1..] == head[1..] + tail;
    }
  }

  // Decoding inverts encoding, for every byte string.
  lemma DecodeInvertsEncode(bs: seq<Byte>)
    ensures Decode(Encode(bs)) == Some(bs)
  {
    DigitsOfLetters(Pack(bs));
    UnpackPack(bs);
  }

  // Decoding fails exactly on a foreign character or a lone last digit.
  lemma DecodeFails(text: string)
    ensures Digits(text).Some? <==>
              forall i :: 0 <= i < |text| ==>
                text[i] in URL_SAFE || text[i] == '\n' || text[i] == '\r'
    ensures Decode(text).None? <==> Digits(text).None? || |Digits(text).value| % 4 == 1
  {
    DigitsWhenReadable(text);
    forall i | 0 <= i < |text|
      ensures Digit(text[i]).Some? <==> text[i] in URL_SAFE
    {
      KnownLetter(text[i]);
    }
    if Readable(text) { UnpackFails(Digits(text).value); }
  }

  // The decoder accepts several texts for one byte string; the canonical one has no line
  // breaks and no stray bits.
  lemma EncodeInvertsDecode(text: string)
    requires Decode(text).Some?
    ensures Encode(Decode(text).value) == text <==> Unbroken(text) && Canonical(Digits(text).value)
  {
    DigitsWhenReadable(text);
    var ss := Digits(text).value;
    UnpackFails(ss);
    PackUnpack(ss);
    if Encode(Decode(text).value) == text {
      DigitsOfLetters(Pack(Decode(text).value));
    }
  }
}
