/** Byte-level encoding of a single execution and of an ERC-20 transfer call. */
module ExecutionDecoder {
  import opened Basics
  import opened Words
  import opened SessionTypes

  /** abi.encodePacked(target, value, callData). */
  function EncodeSingle(target: Address, value: nat, callData: Bytes): Bytes
    requires value < UINT256_LIMIT
  {
    ToBytes(target, ADDRESS_BYTES) + ToBytes(value, WORD_BYTES) + callData
  }

  function DecodeSingle(data: Bytes): Result<Execution> {
    if |data| < 52 then Revert(UnknownExecutionMode)
    else Ok(Execution(FromBytes(data[..20]), FromBytes(data[20..52]), data[52..]))
  }

  lemma DecodeSingleInvertsEncode(target: Address, value: nat, callData: Bytes)
    requires value < UINT256_LIMIT
    ensures DecodeSingle(EncodeSingle(target, value, callData)) == Ok(Execution(target, value, callData))
  {
    var data := EncodeSingle(target, value, callData);
    assert data[..20] == ToBytes(target, ADDRESS_BYTES);
    assert data[20..52] == ToBytes(value, WORD_BYTES);
    assert data[52..] == callData;
    FromToBytes(target, ADDRESS_BYTES);
    FromToBytes(value, WORD_BYTES);
  }

  /** Decoding loses nothing: it succeeds exactly on inputs of at least 52 bytes, and re-encoding gives them back. */
  lemma EncodeSingleInvertsDecode(data: Bytes)
    ensures DecodeSingle(data).Ok? <==> |data| >= 52
    ensures DecodeSingle(data).Ok? ==>
              var e := DecodeSingle(data).value;
              e.value < UINT256_LIMIT && EncodeSingle(e.target, e.value, e.callData) == data
  {
    if |data| >= 52 {
      ToFromBytes(data[..20]);
      ToFromBytes(data[20..52]);
      assert data == data[..20] + data[20..52] + data[52..];
    }
  }

  /** The calldata of transfer(recipient, amount). */
  function EncodeTransfer(recipient: Address, amount: nat): (data: Bytes)
    requires amount < UINT256_LIMIT
    ensures |data| == 68
  {
    Pow256Grows(ADDRESS_BYTES, WORD_BYTES);
    TRANSFER_SELECTOR + ToBytes(recipient, WORD_BYTES) + ToBytes(amount, WORD_BYTES)
  }

  lemma {:induction false} Pow256Grows(a: nat, b: nat)
    requires a <= b
    ensures Pow256(a) <= Pow256(b)
  {
    if a < b {
      Pow256Grows(a, b - 1);
    }
  }

  /** abi.decode(data, (address, uint256)): two words, the first with its twelve high bytes zero; the rest is ignored. */
  function DecodeAddressUint(data: Bytes): (r: Result<(Address, nat)>)
    ensures r.Ok? ==> r.value.1 < UINT256_LIMIT
  {
    if |data| < 64 then Revert(AbiDecodeFailed) else
    var recipient := FromBytes(data[..32]);
    if recipient >= ADDRESS_LIMIT then Revert(AbiDecodeFailed)
    else Ok((recipient, FromBytes(data[32..64])))
  }

  /** What an ERC-20 token reads from the calldata of a call: the arguments of transfer, or nothing. */
  function ParseTransfer(callData: Bytes): Option<(Address, nat)> {
    if |callData| < 4 || callData[..4] != TRANSFER_SELECTOR then None
    else
      match DecodeAddressUint(callData[4..])
      case Ok(args) => Some(args)
      case Revert(_) => None
  }

  lemma ParseEncodedTransfer(callData: Bytes, recipient: Address, amount: nat)
    requires amount < UINT256_LIMIT && |callData| >= 68 && callData[..68] == EncodeTransfer(recipient, amount)
    ensures ParseTransfer(callData) == Some((recipient, amount))
  {
    var word1, word2 := TransferWords(recipient, amount);
    CallDataParts(callData, TRANSFER_SELECTOR, word1, word2);
  }

  lemma TransferWords(recipient: Address, amount: nat) returns (word1: Bytes, word2: Bytes)
    requires amount < UINT256_LIMIT
    ensures |word1| == |word2| == 32
    ensures FromBytes(word1) == recipient && FromBytes(word2) == amount
    ensures EncodeTransfer(recipient, amount) == TRANSFER_SELECTOR + word1 + word2
  {
    Pow256Grows(ADDRESS_BYTES, WORD_BYTES);
    word1, word2 := ToBytes(recipient, WORD_BYTES), ToBytes(amount, WORD_BYTES);
    FromToBytes(recipient, WORD_BYTES);
    FromToBytes(amount, WORD_BYTES);
  }

  lemma CallDataParts(callData: Bytes, selector: Bytes, word1: Bytes, word2: Bytes)
    requires |selector| == 4 && |word1| == |word2| == 32
    requires |callData| >= 68 && callData[..68] == selector + word1 + word2
    ensures callData[..4] == selector && callData[4..][..32] == word1 && callData[4..][32..64] == word2
  {
    var head := callData[..68];
    assert callData[..4] == head[..4];
    assert callData[4..][..32] == head[4..36];
    assert callData[4..][32..64] == head[36..68];
  }

  lemma EncodeParsedTransfer(callData: Bytes)
    requires ParseTransfer(callData).Some?
    ensures var (recipient, amount) := ParseTransfer(callData).value;
            amount < UINT256_LIMIT && |callData| >= 68 && callData[..68] == EncodeTransfer(recipient, amount)
  {
    hide Pow256;
    var args := callData[4..];
    ToFromBytes(args[..32]);
    ToFromBytes(args[32..64]);
    assert callData[..68] == callData[..4] + args[..32] + args[32..64];
  }

  /** A calldata parses as transfer(recipient, amount) exactly when its first 68 bytes are that call's encoding. */
  lemma ParseTransferIff(callData: Bytes, recipient: Address, amount: nat)
    ensures ParseTransfer(callData) == Some((recipient, amount))
       <==> amount < UINT256_LIMIT && |callData| >= 68 && callData[..68] == EncodeTransfer(recipient, amount)
  {
    if ParseTransfer(callData) == Some((recipient, amount)) {
      EncodeParsedTransfer(callData);
    } else if amount < UINT256_LIMIT && |callData| >= 68 && callData[..68] == EncodeTransfer(recipient, amount) {
      ParseEncodedTransfer(callData, recipient, amount);
      assert false;
    }
  }

  /** The hook's `_slice`: copies the bytes from `start` on into a fresh buffer. */
  method Slice(data: Bytes, start: nat) returns (result: array<Byte>)
    requires start <= |data|
    ensures fresh(result) && result[..] == data[start..]
  {
    result := new Byte[|data| - start];
    for i := 0 to result.Length
      invariant result[..i] == data[start..][..i]
    {
      result[i] := data[start + i];
      assert result[..i + 1] == result[..i] + [data[start + i]];
    }
    assert result[..] == result[..result.Length];
  }
}
