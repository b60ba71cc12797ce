/** Byte strings, fixed-width big-endian integers and 32-byte words.

    A `Word` is a 32-byte value as the contracts see it.  keccak256 is a free constructor over what was
    hashed, so it is injective by construction; `Num` is a word that holds an ordinary unsigned integer.
 */
module Words {
  type Byte = b: int | 0 <= b < 256
  type Bytes = seq<Byte>

  function Pow256(n: nat): (p: nat)
    ensures p > 0
  {
    if n == 0 then 1 else 256 * Pow256(n - 1)
  }

  type Address = a: nat | a < ADDRESS_LIMIT

  type Uint256 = n: nat | n < Pow256(WORD_BYTES)

  const ADDRESS_BYTES: nat := 20
  const WORD_BYTES: nat := 32

  const ADDRESS_LIMIT: nat := Pow256(ADDRESS_BYTES)

  const UINT256_LIMIT: nat := Pow256(WORD_BYTES)

  datatype Word =
    | Num(n: nat)
    | Keccak(preimage: seq<Word>)   // keccak256 of an abi.encode of one-word fields
    | KeccakBytes(data: Bytes)      // keccak256 of a byte string

  /** The number a byte string spells, most significant byte first. */
  function FromBytes(b: Bytes): (n: nat)
    ensures n < Pow256(|b|)
  {
    if b == [] then 0 else
      var high := FromBytes(b[..|b| - 1]);
      high * 256 + b[|b| - 1]
  }

  /** The big-endian spelling of `n` in exactly `width` bytes. */
  function ToBytes(n: nat, width: nat): (b: Bytes)
    requires n < Pow256(width)
    ensures |b| == width
  {
    if width == 0 then [] else ToBytes(n / 256, width - 1) + [n % 256]
  }

  lemma {:induction false} FromToBytes(n: nat, width: nat)
    requires n < Pow256(width)
    ensures FromBytes(ToBytes(n, width)) == n
  {
    if width > 0 {
      FromToBytes(n / 256, width - 1);
      assert ToBytes(n, width)[..width - 1] == ToBytes(n / 256, width - 1);
    }
  }

  lemma {:induction false} ToFromBytes(b: Bytes)
    ensures ToBytes(FromBytes(b), |b|) == b
  {
    if b != [] {
      ToFromBytes(b[..|b| - 1]);
      assert b == b[..|b| - 1] + [b[|b| - 1]];
    }
  }

  /** Fixed-width fields laid end to end: how abi.encode spells a tuple of one-word fields. */
  function AbiEncode(fields: seq<Uint256>): (b: Bytes)
    ensures |b| == 32 * |fields|
  {
    if fields == [] then [] else ToBytes(fields[0], WORD_BYTES) + AbiEncode(fields[1..])
  }

  /** Two tuples with the same encoding are the same tuple. */
  lemma {:induction false} AbiEncodeInjective(a: seq<Uint256>, b: seq<Uint256>)
    requires AbiEncode(a) == AbiEncode(b)
    ensures a == b
  {
    if a != [] && b != [] {
      assert AbiEncode(a)[..32] == ToBytes(a[0], WORD_BYTES) && AbiEncode(a)[32..] == AbiEncode(a[1..]);
      assert AbiEncode(b)[..32] == ToBytes(b[0], WORD_BYTES) && AbiEncode(b)[32..] == AbiEncode(b[1..]);
      FromToBytes(a[0], WORD_BYTES);
      FromToBytes(b[0], WORD_BYTES);
      AbiEncodeInjective(a[1..], b[1..]);
    }
  }

  /** The 256-bit values of some words, under an assignment of values to them. */
  function Values(value: Word -> Uint256, words: seq<Word>): (v: seq<Uint256>)
    ensures |v| == |words|
  {
    seq(|words|, i requires 0 <= i < |words| => value(words[i]))
  }

  /** Hashing words stands for hashing their encoding: as long as different words among the fields have different values,
      two lists of fields hash alike as bytes exactly if they do as words. */
  lemma HashOfWordsIsHashOfEncoding(value: Word -> Uint256, a: seq<Word>, b: seq<Word>)
    requires forall x, y | x in a && y in b :: value(x) == value(y) ==> x == y
    ensures KeccakBytes(AbiEncode(Values(value, a))) == KeccakBytes(AbiEncode(Values(value, b))) <==> Keccak(a) == Keccak(b)
  {
    if AbiEncode(Values(value, a)) == AbiEncode(Values(value, b)) {
      AbiEncodeInjective(Values(value, a), Values(value, b));
      assert |a| == |Values(value, a)| == |b|;
      forall i | 0 <= i < |a| ensures a[i] == b[i] {
        assert Values(value, a)[i] == value(a[i]) && Values(value, b)[i] == value(b[i]) && a[i] in a && b[i] in b;
      }
      assert a == b;
    }
  }
}
