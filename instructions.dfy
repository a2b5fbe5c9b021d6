/** The program's instruction set and its wire format (`src/instruction.rs`):
    the `BridgeProgramInstruction` enum in Borsh (a tag byte in declaration
    order, then the variant's fields in order), and the client-side builders
    that pair the encoded data with the account list each handler expects. */
module Instructions {
  import opened Bytes
  import opened Errors
  import opened Utf8
  import opened Borsh
  import opened Sdk

  /** Text fields are Rust `String`s: their bytes. */
  datatype BridgeProgramInstruction =
    | InitializeBridge
    | AddBlockchain(blockchainId: seq<byte>, contractAddress: Address)
    | AddValidator(blockchainId: seq<byte>, pubKey: Address)
    | AddSignature(signature: SigBytes, tokenSource: seq<byte>, tokenSourceAddress: Address,
                   source: seq<byte>, lockId: u64, destination: seq<byte>, recipient: Address, amount: u64)

  function Tag(ix: BridgeProgramInstruction): byte {
    match ix
    case InitializeBridge => 0
    case AddBlockchain(_, _) => 1
    case AddValidator(_, _) => 2
    case AddSignature(_, _, _, _, _, _, _, _) => 3
  }

  /** The field layout of the variant with the given tag. */
  function Layout(tag: byte): seq<Kind>
    requires tag <= 3
  {
    if tag == 0 then []
    else if tag == 1 || tag == 2 then [StringKind, ArrayKind(32)]
    else [ArrayKind(65), StringKind, ArrayKind(32), StringKind, U64Kind, StringKind, ArrayKind(32), U64Kind]
  }

  function Fields(ix: BridgeProgramInstruction): seq<Value> {
    match ix
    case InitializeBridge => []
    case AddBlockchain(id, address) => [StringVal(id), ArrayVal(address)]
    case AddValidator(id, key) => [StringVal(id), ArrayVal(key)]
    case AddSignature(sig, tokenSource, tokenSourceAddress, source, lockId, destination, recipient, amount) =>
      [ArrayVal(sig), StringVal(tokenSource), ArrayVal(tokenSourceAddress), StringVal(source),
       U64Val(lockId), StringVal(destination), ArrayVal(recipient), U64Val(amount)]
  }

  /** What the Rust type guarantees of every text field: it is UTF-8. */
  predicate Utf8Strings(ix: BridgeProgramInstruction) {
    match ix
    case InitializeBridge => true
    case AddBlockchain(id, _) => ValidUtf8(id)
    case AddValidator(id, _) => ValidUtf8(id)
    case AddSignature(_, tokenSource, _, source, _, destination, _, _) =>
      ValidUtf8(tokenSource) && ValidUtf8(source) && ValidUtf8(destination)
  }

  /** Borsh can only write a `String` whose length fits its `u32` prefix. */
  predicate Serializable(ix: BridgeProgramInstruction) {
    match ix
    case InitializeBridge => true
    case AddBlockchain(id, _) => |id| < U32_LIMIT
    case AddValidator(id, _) => |id| < U32_LIMIT
    case AddSignature(_, tokenSource, _, source, _, destination, _, _) =>
      |tokenSource| < U32_LIMIT && |source| < U32_LIMIT && |destination| < U32_LIMIT
  }

  lemma FieldsHaveLayout(ix: BridgeProgramInstruction)
    requires Utf8Strings(ix) && Serializable(ix)
    ensures HasKinds(Fields(ix), Layout(Tag(ix)))
  {
  }

  function FromFields(tag: byte, vs: seq<Value>): (ix: BridgeProgramInstruction)
    requires tag <= 3 && HasKinds(vs, Layout(tag))
    ensures Tag(ix) == tag && Fields(ix) == vs
  {
    if tag == 0 then InitializeBridge
    else if tag == 1 || tag == 2 then
      assert HasKind(vs[0], StringKind) && HasKind(vs[1], ArrayKind(32));
      var ix := if tag == 1 then AddBlockchain(vs[0].text, vs[1].bytes) else AddValidator(vs[0].text, vs[1].bytes);
      assert Fields(ix) == vs;
      ix
    else
      FromSignatureFields(vs)
  }

  function FromSignatureFields(vs: seq<Value>): (ix: BridgeProgramInstruction)
    requires HasKinds(vs, Layout(3))
    ensures Tag(ix) == 3 && Fields(ix) == vs
  {
    var kinds := Layout(3);
    assert HasKind(vs[0], kinds[0]) && HasKind(vs[1], kinds[1]) && HasKind(vs[2], kinds[2]) && HasKind(vs[3], kinds[3]);
    assert HasKind(vs[4], kinds[4]) && HasKind(vs[5], kinds[5]) && HasKind(vs[6], kinds[6]) && HasKind(vs[7], kinds[7]);
    var ix := AddSignature(vs[0].bytes, vs[1].text, vs[2].bytes, vs[3].text, vs[4].n, vs[5].text, vs[6].bytes, vs[7].n);
    assert Fields(ix) == vs;
    ix
  }

  /** `try_to_vec` of the enum: the tag byte, then the fields. */
  function EncodeInstruction(ix: BridgeProgramInstruction): (r: Result<seq<byte>>)
    ensures r.Ok? <==> Serializable(ix)
    ensures r.Err? ==> r.error == BorshIoError
    ensures r.Ok? ==> |r.value| > 0 && r.value[0] == Tag(ix)
  {
    if !Serializable(ix) then Err(BorshIoError)
    else
      assert forall i | 0 <= i < |Fields(ix)| :: Encodable(Fields(ix)[i]);
      Ok([Tag(ix)] + EncodeValues(Fields(ix)))
  }

  /** `try_from_slice` of the enum. Any accepted input is the encoding of
      what it decodes to (the wire format is canonical). */
  function DecodeInstruction(data: seq<byte>): (r: Result<BridgeProgramInstruction>)
    ensures r.Err? ==> r.error == BorshIoError
    ensures r.Ok? ==> Utf8Strings(r.value) && Serializable(r.value)
    ensures r.Ok? ==> EncodeInstruction(r.value) == Ok(data)
  {
    if |data| == 0 || data[0] > 3 then Err(BorshIoError)
    else
      var tag := data[0];
      var vs :- TryFromSlice(Layout(tag), data[1..]);
      TryFromSliceCanonical(Layout(tag), data[1..]);
      var ix := FromFields(tag, vs);
      StringsOfLayout(ix);
      assert data == [data[0]] + data[1..];
      Ok(ix)
  }

  lemma StringsOfLayout(ix: BridgeProgramInstruction)
    requires Tag(ix) <= 3 && HasKinds(Fields(ix), Layout(Tag(ix)))
    ensures Utf8Strings(ix) && Serializable(ix)
  {
    var vs := Fields(ix);
    var kinds := Layout(Tag(ix));
    if ix.AddBlockchain? || ix.AddValidator? {
      assert HasKind(vs[0], kinds[0]);
    } else if ix.AddSignature? {
      assert HasKind(vs[1], kinds[1]) && HasKind(vs[3], kinds[3]) && HasKind(vs[5], kinds[5]);
    }
  }

  /** Decoding undoes encoding for every variant. */
  lemma DecodeEncodeInstruction(ix: BridgeProgramInstruction)
    requires Utf8Strings(ix) && Serializable(ix)
    ensures DecodeInstruction(EncodeInstruction(ix).value) == Ok(ix)
  {
    FieldsHaveLayout(ix);
    TryFromSliceEncode(Fields(ix), Layout(Tag(ix)));
    var data := EncodeInstruction(ix).value;
    assert data[1..] == EncodeValues(Fields(ix));
    var vs := TryFromSlice(Layout(Tag(ix)), data[1..]).value;
    assert FromFields(Tag(ix), vs) == ix;
  }

  lemma InitializeBridgeEncoding()
    ensures EncodeInstruction(InitializeBridge) == Ok([0])
  {
    assert EncodeValues(Fields(InitializeBridge)) == [];
    assert [0] + [] == [0];
  }

  /** Only the tags 0 to 3 name an instruction. */
  lemma UnknownTagRejected(data: seq<byte>)
    requires |data| == 0 || data[0] > 3
    ensures DecodeInstruction(data).Err?
  {
  }

  // ---- builders ----

  /** The data of a builder: the encoding, with a failure reported as `InvalidArgument`. */
  function BuilderData(ix: BridgeProgramInstruction): (r: Result<seq<byte>>)
    requires Utf8Strings(ix)
    ensures r.Ok? <==> Serializable(ix)
    ensures r.Err? ==> r.error == InvalidArgument
    ensures r.Ok? ==> DecodeInstruction(r.value) == Ok(ix)
  {
    if EncodeInstruction(ix).Err? then Err(InvalidArgument)
    else
      DecodeEncodeInstruction(ix);
      Ok(EncodeInstruction(ix).value)
  }

  function InitBridgeInstruction(programId: Pubkey, bridgeAccount: Pubkey, ownerAccount: Pubkey): (r: Result<Instruction>)
    ensures r.Ok? && r.value.programId == programId
    ensures DecodeInstruction(r.value.data) == Ok(InitializeBridge)
    ensures r.value.accounts == [Writable(bridgeAccount, false), Readonly(ownerAccount, true), Readonly(RENT_SYSVAR_ID, false)]
  {
    var data := BuilderData(InitializeBridge).value;
    Ok(Instruction(programId, [Writable(bridgeAccount, false), Readonly(ownerAccount, true), Readonly(RENT_SYSVAR_ID, false)], data))
  }

  function AddBlockchainInstruction(programId: Pubkey, bridgeAccount: Pubkey, blockchainAccount: Pubkey,
                                    payerAccount: Pubkey, bridgeAuthority: Pubkey,
                                    blockchainId: seq<byte>, contractAddress: Address): (r: Result<Instruction>)
    requires ValidUtf8(blockchainId)
    ensures r.Ok? <==> |blockchainId| < U32_LIMIT
    ensures r.Err? ==> r.error == InvalidArgument
    ensures r.Ok? ==> r.value.programId == programId
    ensures r.Ok? ==> DecodeInstruction(r.value.data) == Ok(AddBlockchain(blockchainId, contractAddress))
    ensures r.Ok? ==> r.value.accounts == [Writable(bridgeAccount, false), Writable(blockchainAccount, false),
                                           Readonly(payerAccount, true), Readonly(bridgeAuthority, false),
                                           Readonly(RENT_SYSVAR_ID, false), Readonly(SYSTEM_PROGRAM_ID, false)]
  {
    var data :- BuilderData(AddBlockchain(blockchainId, contractAddress));
    var accounts := [Writable(bridgeAccount, false), Writable(blockchainAccount, false),
                     Readonly(payerAccount, true), Readonly(bridgeAuthority, false),
                     Readonly(RENT_SYSVAR_ID, false), Readonly(SYSTEM_PROGRAM_ID, false)];
    Ok(Instruction(programId, accounts, data))
  }

  function AddValidatorInstruction(programId: Pubkey, bridgeAccount: Pubkey, blockchainAccount: Pubkey,
                                   validatorAccount: Pubkey, payerAccount: Pubkey, bridgeAuthority: Pubkey,
                                   blockchainId: seq<byte>, pubKey: Address): (r: Result<Instruction>)
    requires ValidUtf8(blockchainId)
    ensures r.Ok? <==> |blockchainId| < U32_LIMIT
    ensures r.Err? ==> r.error == InvalidArgument
    ensures r.Ok? ==> r.value.programId == programId
    ensures r.Ok? ==> DecodeInstruction(r.value.data) == Ok(AddValidator(blockchainId, pubKey))
    ensures r.Ok? ==> r.value.accounts == [Writable(bridgeAccount, false), Writable(blockchainAccount, false),
                                           Writable(validatorAccount, false), Readonly(payerAccount, true),
                                           Readonly(bridgeAuthority, false), Readonly(RENT_SYSVAR_ID, false),
                                           Readonly(SYSTEM_PROGRAM_ID, false)]
  {
    var data :- BuilderData(AddValidator(blockchainId, pubKey));
    var accounts := [Writable(bridgeAccount, false), Writable(blockchainAccount, false),
                     Writable(validatorAccount, false), Readonly(payerAccount, true),
                     Readonly(bridgeAuthority, false), Readonly(RENT_SYSVAR_ID, false),
                     Readonly(SYSTEM_PROGRAM_ID, false)];
    Ok(Instruction(programId, accounts, data))
  }

  function AddSignatureInstruction(programId: Pubkey, bridgeAccount: Pubkey, blockchainAccount: Pubkey,
                                   validatorAccount: Pubkey, lockAccount: Pubkey, signatureAccount: Pubkey,
                                   bridgeAuthority: Pubkey, payerAccount: Pubkey,
                                   signature: SigBytes, tokenSource: seq<byte>, tokenSourceAddress: Address,
                                   source: seq<byte>, lockId: u64, destination: seq<byte>,
                                   recipient: Address, amount: u64): (r: Result<Instruction>)
    requires ValidUtf8(tokenSource) && ValidUtf8(source) && ValidUtf8(destination)
    ensures r.Ok? <==> |tokenSource| < U32_LIMIT && |source| < U32_LIMIT && |destination| < U32_LIMIT
    ensures r.Err? ==> r.error == InvalidArgument
    ensures r.Ok? ==> r.value.programId == programId
    ensures r.Ok? ==> DecodeInstruction(r.value.data)
                      == Ok(AddSignature(signature, tokenSource, tokenSourceAddress, source, lockId, destination, recipient, amount))
    ensures r.Ok? ==> r.value.accounts == [Writable(bridgeAccount, false), Writable(blockchainAccount, false),
                                           Writable(validatorAccount, false), Writable(lockAccount, false),
                                           Writable(signatureAccount, false), Readonly(bridgeAuthority, false),
                                           Readonly(payerAccount, true), Readonly(RENT_SYSVAR_ID, false),
                                           Readonly(SYSTEM_PROGRAM_ID, false)]
  {
    var data :- BuilderData(AddSignature(signature, tokenSource, tokenSourceAddress, source, lockId, destination, recipient, amount));
    var accounts := [Writable(bridgeAccount, false), Writable(blockchainAccount, false),
                     Writable(validatorAccount, false), Writable(lockAccount, false),
                     Writable(signatureAccount, false), Readonly(bridgeAuthority, false),
                     Readonly(payerAccount, true), Readonly(RENT_SYSVAR_ID, false),
                     Readonly(SYSTEM_PROGRAM_ID, false)];
    Ok(Instruction(programId, accounts, data))
  }
}
