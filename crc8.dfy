/**
 * The frame checksum `calculate_crc8`. The library fixes the generator
 * polynomial (0x07) and the initial register value (0x00) but its body is not
 * part of this model; the definition below takes the plain MSB-first CRC-8
 * with those two parameters, no input or output reflection and no final XOR
 * (the catalogue variant CRC-8/SMBUS). Reflection and final XOR are
 * assumptions of this model.
 */
module Crc8 {
  import opened Picolib

  /** One clock of the shift register: shift left, folding the polynomial in when the top bit drops out. */
  function ShiftBit(c: byte): byte
  {
    if c & 0x80 != 0 then (c << 1) ^ CRC8_POLYNOM else c << 1
  }

  /** n clocks of the shift register. */
  function ShiftBits(c: byte, n: nat): byte
    decreases n
  {
    if n == 0 then c else ShiftBits(ShiftBit(c), n - 1)
  }

  /** Feeding one data byte, most significant bit first: xor it in, then clock eight times. */
  function Step(c: byte, b: byte): byte
  {
    ShiftBits(c ^ b, 8)
  }

  /** The register after feeding `data`, in order, starting from `c`. */
  function Update(c: byte, data: seq<byte>): byte
    decreases |data|
  {
    if |data| == 0 then c else Step(Update(c, data[..|data| - 1]), data[|data| - 1])
  }

  /**
   * calculate_crc8(data, |data|): the empty string has the initial value, and
   * the checksum tells the last byte apart from every other byte that could
   * follow the same prefix.
   */
  function Checksum(data: seq<byte>): (c: byte)
    ensures |data| == 0 ==> c == CRC8_INIT
    ensures |data| > 0 ==>
              forall b: byte :: b != data[|data| - 1] ==> Update(CRC8_INIT, data[..|data| - 1] + [b]) != c
  {
    LastByteDetected(CRC8_INIT, data);
    Update(CRC8_INIT, data)
  }

  /** The register is the only state: feeding s then t is feeding s + t. */
  lemma {:induction false} UpdateAppend(c: byte, s: seq<byte>, t: seq<byte>)
    ensures Update(c, s + t) == Update(Update(c, s), t)
    decreases |t|
  {
    if |t| == 0 {
      assert s + t == s;
    } else {
      var n := |t|;
      assert (s + t)[..|s + t| - 1] == s + t[..n - 1];
      UpdateAppend(c, s, t[..n - 1]);
    }
  }

  lemma ShiftBitInjective(x: byte, y: byte)
    requires x != y
    ensures ShiftBit(x) != ShiftBit(y)
  {
  }

  /** Clocking the register loses no information: distinct registers stay distinct. */
  lemma {:induction false} ShiftBitsInjective(x: byte, y: byte, n: nat)
    requires x != y
    ensures ShiftBits(x, n) != ShiftBits(y, n)
    decreases n
  {
    if n != 0 {
      ShiftBitInjective(x, y);
      ShiftBitsInjective(ShiftBit(x), ShiftBit(y), n - 1);
    }
  }

  /** One step keeps distinct registers fed the same byte apart. */
  lemma StepInjectiveRegister(c: byte, d: byte, b: byte)
    requires c != d
    ensures Step(c, b) != Step(d, b)
  {
    ShiftBitsInjective(c ^ b, d ^ b, 8);
  }

  /** One step keeps one register fed distinct bytes apart. */
  lemma StepInjectiveByte(c: byte, a: byte, b: byte)
    requires a != b
    ensures Step(c, a) != Step(c, b)
  {
    ShiftBitsInjective(c ^ a, c ^ b, 8);
  }

  /** After a common prefix, different last bytes give different registers. */
  lemma LastByteDetected(c: byte, data: seq<byte>)
    ensures |data| > 0 ==>
              forall b: byte :: b != data[|data| - 1] ==> Update(c, data[..|data| - 1] + [b]) != Update(c, data)
  {
    if |data| > 0 {
      var n := |data|;
      var p := data[..n - 1];
      forall b: byte | b != data[n - 1]
        ensures Update(c, p + [b]) != Update(c, data)
      {
        assert (p + [b])[..n - 1] == p;
        StepInjectiveByte(Update(c, p), b, data[n - 1]);
      }
    }
  }

  /** Distinct registers stay distinct whatever common data follows. */
  lemma {:induction false} UpdateInjective(c: byte, d: byte, q: seq<byte>)
    requires c != d
    ensures Update(c, q) != Update(d, q)
    decreases |q|
  {
    if |q| != 0 {
      var n := |q|;
      UpdateInjective(c, d, q[..n - 1]);
      StepInjectiveRegister(Update(c, q[..n - 1]), Update(d, q[..n - 1]), q[n - 1]);
    }
  }

  /**
   * Two byte strings of equal length that differ in exactly one position have
   * different checksums: every error confined to a single byte is detected.
   */
  lemma DetectsSingleByteError(s: seq<byte>, t: seq<byte>, i: nat)
    requires |s| == |t| && i < |s|
    requires s[i] != t[i]
    requires forall j :: 0 <= j < |s| && j != i ==> s[j] == t[j]
    ensures Checksum(s) != Checksum(t)
  {
    var p, q := s[..i], s[i + 1..];
    assert t[..i] == p && t[i + 1..] == q;
    assert s == (p + [s[i]]) + q && t == (p + [t[i]]) + q;
    UpdateAppend(CRC8_INIT, p + [s[i]], q);
    UpdateAppend(CRC8_INIT, p + [t[i]], q);
    UpdateAppend(CRC8_INIT, p, [s[i]]);
    UpdateAppend(CRC8_INIT, p, [t[i]]);
    var u := Update(CRC8_INIT, p);
    assert Update(u, [s[i]]) == Step(u, s[i]) && Update(u, [t[i]]) == Step(u, t[i]);
    StepInjectiveByte(u, s[i], t[i]);
    UpdateInjective(Step(u, s[i]), Step(u, t[i]), q);
  }
}
