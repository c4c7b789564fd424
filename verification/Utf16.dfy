/** The key code of a typed character: the packing loop of MainActivity.dispatchKeyEvent
    over UTF-16LE bytes, and the cast of the native interface. Java's int is modelled by
    the unsigned value of its 32 bits, which is what the cast to uint32_t delivers. */
module Utf16 {
  import opened Messages

  const MODULUS: nat := 0x1_0000_0000

  /** 2 to the power of the shift that Java applies for `b * 8`: only the low five bits
      of a shift distance count. */
  function Scale(b: nat): (s: nat)
    ensures 1 <= s <= 0x100_0000
  {
    match (b * 8) % 32
    case 0 => 1
    case 8 => 0x100
    case 16 => 0x1_0000
    case _ => 0x100_0000
  }

  method Pack(bytes: seq<UInt8>) returns (utf16: UInt32)
    ensures utf16 == SumOfWords(bytes) % MODULUS
  {
    utf16 := 0;
    for b := 0 to |bytes|
      invariant utf16 == SumOfBytes(bytes[..b]) % MODULUS
    {
      assert bytes[..b + 1][..b] == bytes[..b];
      AddModulo(SumOfBytes(bytes[..b]), bytes[b] * Scale(b));
      utf16 := (utf16 + bytes[b] * Scale(b)) % MODULUS;
    }
    assert bytes[..|bytes|] == bytes;
    BytesMakeWords(bytes);
  }

  lemma AddModulo(x: nat, y: nat)
    ensures (x % MODULUS + y) % MODULUS == (x + y) % MODULUS
  {}

  /** What the loop adds up, byte by byte. */
  function SumOfBytes(bytes: seq<UInt8>): nat {
    if bytes == [] then 0
    else SumOfBytes(bytes[..|bytes| - 1]) + bytes[|bytes| - 1] * Scale(|bytes| - 1)
  }

  /** The value of up to four bytes, least significant first. */
  function Word(bytes: seq<UInt8>): nat {
    if bytes == [] then 0 else bytes[0] + 0x100 * Word(bytes[1..])
  }

  /** The sum of the little-endian 32-bit words of a byte string. */
  function SumOfWords(bytes: seq<UInt8>): nat {
    if |bytes| <= 4 then Word(bytes) else Word(bytes[..4]) + SumOfWords(bytes[4..])
  }

  function At(bytes: seq<UInt8>, i: nat): nat {
    if i < |bytes| then bytes[i] else 0
  }

  lemma WordOfFew(bytes: seq<UInt8>)
    requires |bytes| <= 4
    ensures Word(bytes) ==
      At(bytes, 0) + 0x100 * At(bytes, 1) + 0x1_0000 * At(bytes, 2) + 0x100_0000 * At(bytes, 3)
  {}

  /** The weight of the k-th byte of a word. */
  function Weight(k: nat): nat {
    if k == 0 then 1 else 0x100 * Weight(k - 1)
  }

  lemma {:induction false} WordSnoc(bytes: seq<UInt8>, last: UInt8)
    ensures Word(bytes + [last]) == Word(bytes) + last * Weight(|bytes|)
  {
    if bytes == [] {
      assert Word([last]) == last + 0x100 * Word([last][1..]);
    } else {
      WordSnoc(bytes[1..], last);
      assert (bytes + [last])[1..] == bytes[1..] + [last];
      Regroup(last, Weight(|bytes| - 1));
    }
  }

  lemma Regroup(x: nat, w: nat)
    ensures 0x100 * (x * w) == x * (0x100 * w)
  {}

  lemma WeightIsScale(k: nat)
    requires k < 4
    ensures Weight(k) == Scale(k)
  {}

  lemma ScaleRepeats(b: nat)
    ensures Scale(b + 4) == Scale(b)
  {}

  lemma FifthByte(bytes: seq<UInt8>, last: UInt8)
    requires |bytes| == 4
    ensures SumOfWords(bytes + [last]) == Word(bytes) + last
  {
    assert Word([last]) == last + 0x100 * Word([last][1..]);
  }

  /** One more byte adds its value at its place in the word. */
  lemma {:induction false} WordsGrow(bytes: seq<UInt8>, last: UInt8)
    ensures SumOfWords(bytes + [last]) == SumOfWords(bytes) + last * Scale(|bytes|)
  {
    if |bytes| < 4 {
      WordSnoc(bytes, last);
      WeightIsScale(|bytes|);
    } else if |bytes| == 4 {
      FifthByte(bytes, last);
    } else {
      WordsGrow(bytes[4..], last);
      ScaleRepeats(|bytes| - 4);
      assert (bytes + [last])[..4] == bytes[..4] && (bytes + [last])[4..] == bytes[4..] + [last];
    }
  }

  lemma {:induction false} BytesMakeWords(bytes: seq<UInt8>)
    ensures SumOfBytes(bytes) == SumOfWords(bytes)
  {
    if bytes != [] {
      var init, last := bytes[..|bytes| - 1], bytes[|bytes| - 1];
      BytesMakeWords(init);
      WordsGrow(init, last);
      assert bytes == init + [last];
    }
  }

  // ---- characters

  /** A Unicode scalar value: a code point that is not a surrogate. */
  predicate IsScalar(c: nat) {
    c < 0x11_0000 && !(0xD800 <= c < 0xE000)
  }

  /** The two bytes of a 16-bit unit in UTF-16LE. */
  function UnitBytes(unit: nat): seq<UInt8>
    requires unit < 0x1_0000
  {
    [unit % 0x100, unit / 0x100]
  }

  /** Section 2.1 of RFC 2781, in little-endian order. */
  function Encode(c: nat): seq<UInt8>
    requires IsScalar(c)
  {
    if c < 0x1_0000 then UnitBytes(c)
    else
      var rest := c - 0x1_0000;
      UnitBytes(0xD800 + rest / 0x400) + UnitBytes(0xDC00 + rest % 0x400)
  }

  /** The key code sent for a character. */
  function KeyCode(c: nat): nat
    requires IsScalar(c)
  {
    SumOfWords(Encode(c)) % MODULUS
  }

  /** Section 2.2 of RFC 2781, on a packed key code. */
  function Decode(code: nat): int {
    if code < 0x1_0000 then code
    else 0x1_0000 + (code % 0x1_0000 - 0xD800) * 0x400 + (code / 0x1_0000 - 0xDC00)
  }

  lemma KeyCodeValue(c: nat)
    requires IsScalar(c)
    ensures KeyCode(c) ==
      if c < 0x1_0000 then c
      else 0xD800 + (c - 0x1_0000) / 0x400 + 0x1_0000 * (0xDC00 + (c - 0x1_0000) % 0x400)
  {
    if c < 0x1_0000 {
      WordOfFew(UnitBytes(c));
    } else {
      SurrogatesValue(0xD800 + (c - 0x1_0000) / 0x400, 0xDC00 + (c - 0x1_0000) % 0x400);
    }
  }

  lemma SurrogatesValue(hi: nat, lo: nat)
    requires hi < 0x1_0000 && lo < 0x1_0000
    ensures SumOfWords(UnitBytes(hi) + UnitBytes(lo)) == hi + 0x1_0000 * lo < MODULUS
  {
    WordOfFew(UnitBytes(hi) + UnitBytes(lo));
  }

  /** The key code determines the character. */
  lemma KeyCodeDecodes(c: nat)
    requires IsScalar(c)
    ensures Decode(KeyCode(c)) == c
  {
    KeyCodeValue(c);
    if 0x1_0000 <= c {
      var hi, lo := 0xD800 + (c - 0x1_0000) / 0x400, 0xDC00 + (c - 0x1_0000) % 0x400;
      assert (hi + 0x1_0000 * lo) / 0x1_0000 == lo && (hi + 0x1_0000 * lo) % 0x1_0000 == hi;
    }
  }

  lemma KeyCodeInjective(c: nat, d: nat)
    requires IsScalar(c) && IsScalar(d) && KeyCode(c) == KeyCode(d)
    ensures c == d
  {
    KeyCodeDecodes(c);
    KeyCodeDecodes(d);
  }

  /** Characters outside the basic plane keep both of their surrogates: the low half of
      the key code is the high surrogate, and the high half the low one. */
  lemma SurrogatesSurvive(c: nat)
    requires IsScalar(c)
    ensures 0x1_0000 <= KeyCode(c) <==> 0x1_0000 <= c
    ensures 0x1_0000 <= c ==>
      0xD800 <= KeyCode(c) % 0x1_0000 < 0xDC00 && 0xDC00 <= KeyCode(c) / 0x1_0000 < 0xE000
  {
    KeyCodeDecodes(c);
    KeyCodeValue(c);
  }
}
