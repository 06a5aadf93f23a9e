/**
 * The byte form in which the Neo virtual machine stores an integer: little-endian
 * two's complement in the fewest bytes that keep the sign, with zero stored as the
 * empty byte string. `storage.put(key, n)` writes `Encode(n)`; reading the value
 * back as an integer (`to_int()`) is `Decode`.
 */
module NeoInteger {
  import opened Common

  /** The stored form of an integer. */
  function Encode(n: int): (bs: seq<byte>)
    ensures bs == [] <==> n == 0
  {
    if n == 0 then [] else TwosComplement(n)
  }

  /** Little-endian two's complement; stops once the remaining high part is only sign. */
  function TwosComplement(n: int): (bs: seq<byte>)
    ensures |bs| > 0
    decreases if n >= 0 then n else -n
  {
    var low := n % 256;
    var high := n / 256;
    if (high == 0 && low < 128) || (high == -1 && low >= 128) then [low]
    else
      assert n < -1 ==> high > n;
      [low] + TwosComplement(high)
  }

  /** A stored byte string read back as an integer. */
  function Decode(bs: seq<byte>): int
  {
    if bs == [] then 0
    else if |bs| == 1 then (if bs[0] >= 128 then bs[0] - 256 else bs[0])
    else bs[0] + 256 * Decode(bs[1..])
  }

  lemma {:induction false} DecodeTwosComplement(n: int)
    ensures Decode(TwosComplement(n)) == n
    decreases if n >= 0 then n else -n
  {
    var low := n % 256;
    var high := n / 256;
    if !((high == 0 && low < 128) || (high == -1 && low >= 128)) {
      assert n < -1 ==> high > n;
      var rest := TwosComplement(high);
      DecodeTwosComplement(high);
      assert TwosComplement(n) == [low] + rest;
      assert ([low] + rest)[1..] == rest;
    }
  }

  /** Every integer reads back as itself. */
  lemma EncodeDecode(n: int)
    ensures Decode(Encode(n)) == n
  {
    if n != 0 {
      DecodeTwosComplement(n);
    }
  }

  /** An integer is stored in one byte exactly when it lies in -128..127 and is not zero. */
  lemma EncodeLength(n: int)
    ensures |Encode(n)| == 1 <==> -128 <= n < 128 && n != 0
    ensures |Encode(n)| == 1 ==> Encode(n)[0] == (if n >= 0 then n else n + 256)
  {
    if n != 0 {
      var low := n % 256;
      var high := n / 256;
      if !((high == 0 && low < 128) || (high == -1 && low >= 128)) {
        assert n < -1 ==> high > n;
        assert |TwosComplement(n)| == 1 + |TwosComplement(high)|;
      }
    }
  }

  /**
   * The reading the importer-terms contract applies to a stored yield: the value of
   * the single byte when there is exactly one, and 0 otherwise.
   */
  function SingleByteValue(raw: seq<byte>): byte
  {
    if |raw| == 0 then 0
    else if |raw| == 1 then raw[0]
    else 0
  }

  /** What the single-byte reading returns for each stored integer. */
  lemma SingleByteValueOfEncode(n: int)
    ensures SingleByteValue(Encode(n)) ==
      (if 0 <= n < 128 then n else if -128 <= n < 0 then n + 256 else 0)
  {
    EncodeLength(n);
  }

  /** The single-byte reading gives back the stored integer exactly for 0..127. */
  lemma SingleByteValueRoundTrip(n: int)
    ensures SingleByteValue(Encode(n)) == n <==> 0 <= n < 128
  {
    SingleByteValueOfEncode(n);
  }

  /** The yield of the contract's own documentation example, 850 basis points, reads back as 0. */
  lemma SingleByteValueLoses850()
    ensures Encode(850) == [82, 3]
    ensures SingleByteValue(Encode(850)) == 0
    ensures Decode(Encode(850)) == 850
  {
    assert TwosComplement(3) == [3];
    assert TwosComplement(850) == [82] + TwosComplement(3);
  }
}
