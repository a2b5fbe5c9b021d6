/** The seven account records of the bridge (`src/state.rs`), each with its
    constructor, its `check_initialized` and its fixed Borsh layout of `LEN` bytes. */
module State {
  import opened Bytes
  import opened Errors
  import opened Borsh
  import opened Lib

  /** `check_initialized(expect_initialized)`, shared by every record type:
      it succeeds exactly when the record is initialized (stamped with the
      current program version) if and only if initialization is expected. */
  function CheckInitialized(version: byte, expectInitialized: bool): (r: ProgramResult)
    ensures r.Ok? <==> (expectInitialized <==> version == PROGRAM_VERSION)
    ensures r.Err? && expectInitialized ==> r.error == UninitializedAccount
    ensures r.Err? && !expectInitialized ==> r.error == AccountAlreadyInitialized
  {
    if expectInitialized && version != PROGRAM_VERSION then Err(UninitializedAccount)
    else if !expectInitialized && version == PROGRAM_VERSION then Err(AccountAlreadyInitialized)
    else Ok(())
  }

  /** What each constructor promises alike: the record passes
      `check_initialized(true)` and fails `check_initialized(false)`. */
  predicate Fresh(version: byte) {
    CheckInitialized(version, true).Ok?
    && CheckInitialized(version, false) == Err(AccountAlreadyInitialized)
  }

  function NewBridge(owner: Pubkey): (r: Bridge)
    ensures Fresh(r.version) && r.owner == owner
  {
    Bridge(PROGRAM_VERSION, owner)
  }

  function NewBlockchain(bridge: Pubkey, blockchainId: ChainId, contractAddress: Address): (r: Blockchain)
    ensures Fresh(r.version)
    ensures r.validators == 0 && r.locks == 0
    ensures r.bridge == bridge && r.blockchainId == blockchainId && r.contractAddress == contractAddress
  {
    Blockchain(PROGRAM_VERSION, bridge, blockchainId, 0, 0, contractAddress)
  }

  function NewValidator(blockchainId: ChainId, index: u64, pubKey: Address, owner: Pubkey): (r: Validator)
    ensures Fresh(r.version)
    ensures r.blockchainId == blockchainId && r.index == index && r.pubKey == pubKey && r.owner == owner
  {
    Validator(PROGRAM_VERSION, blockchainId, index, pubKey, owner)
  }

  /** `Lock::new`, parameters in the constructor's order; the stored field
      order differs (token source address precedes token source). */
  function NewLock(index: u64, lockId: u64, txId: TxId, bridge: Pubkey, tokenSourceAddress: Address,
                   tokenSource: ChainId, source: ChainId, sender: Address, recipient: Address,
                   destination: ChainId, amount: u64): (r: Lock)
    ensures Fresh(r.version)
    ensures r.signatures == 0
    ensures r.index == index && r.lockId == lockId && r.txId == txId && r.bridge == bridge
    ensures r.tokenSourceAddress == tokenSourceAddress && r.tokenSource == tokenSource
    ensures r.source == source && r.sender == sender && r.recipient == recipient
    ensures r.destination == destination && r.amount == amount
  {
    Lock(PROGRAM_VERSION, index, lockId, txId, bridge, tokenSourceAddress, tokenSource, source,
         sender, recipient, destination, amount, 0)
  }

  function NewSignature(source: ChainId, lockId: u64, bridge: Pubkey, signature: SigBytes,
                        validator: Pubkey, validatorIndex: u64): (r: Signature)
    ensures Fresh(r.version)
    ensures r.source == source && r.lockId == lockId && r.bridge == bridge
    ensures r.signature == signature && r.validator == validator && r.validatorIndex == validatorIndex
  {
    Signature(PROGRAM_VERSION, source, lockId, bridge, signature, validator, validatorIndex)
  }

  function NewUser(blockchainId: ChainId, address: Address): (r: User)
    ensures Fresh(r.version)
    ensures r.sent == 0 && r.received == 0
    ensures r.blockchainId == blockchainId && r.address == address
  {
    User(PROGRAM_VERSION, blockchainId, address, 0, 0)
  }

  function NewLockTx(txId: TxId, source: ChainId, lockId: u64, lockAccount: Pubkey, reverted: bool): (r: LockTx)
    ensures Fresh(r.version)
    ensures r.txId == txId && r.source == source && r.lockId == lockId
    ensures r.lockAccount == lockAccount && r.reverted == reverted
  {
    LockTx(PROGRAM_VERSION, txId, source, lockId, lockAccount, reverted)
  }

  // ---- Bridge ----

  datatype Bridge = Bridge(version: byte, owner: Pubkey)

  const BRIDGE_LEN: nat := 33
  const BRIDGE_LAYOUT: seq<Kind> := [U8Kind, ArrayKind(32)]

  lemma BridgeLayoutSize()
    ensures Fixed(BRIDGE_LAYOUT) && Size(BRIDGE_LAYOUT) == BRIDGE_LEN
  {
  }

  function BridgeValues(r: Bridge): (vs: seq<Value>)
    ensures HasKinds(vs, BRIDGE_LAYOUT)
  {
    [U8Val(r.version), ArrayVal(r.owner)]
  }

  function BridgeOf(vs: seq<Value>): Bridge
    requires HasKinds(vs, BRIDGE_LAYOUT)
  {
    assert HasKind(vs[0], BRIDGE_LAYOUT[0]);
    assert HasKind(vs[1], BRIDGE_LAYOUT[1]);
    Bridge(vs[0].b, vs[1].bytes)
  }

  lemma BridgeValuesOf(vs: seq<Value>)
    requires HasKinds(vs, BRIDGE_LAYOUT)
    ensures BridgeValues(BridgeOf(vs)) == vs
  {
    var w := BridgeValues(BridgeOf(vs));
    assert w[0] == vs[0];
    assert w[1] == vs[1];
  }

  /** Borsh serialisation of `Bridge`; always exactly `Bridge::LEN` bytes. */
  function EncodeBridge(r: Bridge): (data: seq<byte>)
    ensures |data| == BRIDGE_LEN
  {
    var vs := BridgeValues(r);
    HasKindsEncodable(vs, BRIDGE_LAYOUT);
    EncodedSize(vs, BRIDGE_LAYOUT);
    BridgeLayoutSize();
    EncodeValues(vs)
  }

  /** `Bridge::try_from_slice`: accepts exactly the encodings of records. */
  function DecodeBridge(data: seq<byte>): (r: Result<Bridge>)
    ensures r.Ok? ==> EncodeBridge(r.value) == data
    ensures r.Ok? ==> |data| == BRIDGE_LEN
    ensures r.Err? ==> r.error == BorshIoError
  {
    var vs :- TryFromSlice(BRIDGE_LAYOUT, data);
    TryFromSliceCanonical(BRIDGE_LAYOUT, data);
    var r := BridgeOf(vs);
    BridgeValuesOf(vs);
    Ok(r)
  }

  lemma DecodeBridgeEncode(r: Bridge)
    ensures DecodeBridge(EncodeBridge(r)) == Ok(r)
  {
    TryFromSliceEncode(BridgeValues(r), BRIDGE_LAYOUT);
  }

  /** A fresh, all-zero account decodes to a record of version 0, which is not initialized. */
  lemma DecodeBridgeZeros(data: seq<byte>)
    requires |data| == BRIDGE_LEN && forall i | 0 <= i < |data| :: data[i] == 0
    ensures DecodeBridge(data).Ok? && DecodeBridge(data).value.version == 0
    ensures CheckInitialized(DecodeBridge(data).value.version, true) == Err(UninitializedAccount)
  {
    BridgeLayoutSize();
    DecodeZeros(BRIDGE_LAYOUT, data);
    assert ZeroValues(BRIDGE_LAYOUT)[0] == U8Val(0);
  }

  // ---- Blockchain ----

  datatype Blockchain = Blockchain(version: byte, bridge: Pubkey, blockchainId: ChainId, validators: u64, locks: u64, contractAddress: Address)

  const BLOCKCHAIN_LEN: nat := 85
  const BLOCKCHAIN_LAYOUT: seq<Kind> := [U8Kind, ArrayKind(32), ArrayKind(4), U64Kind, U64Kind, ArrayKind(32)]

  lemma BlockchainLayoutSize()
    ensures Fixed(BLOCKCHAIN_LAYOUT) && Size(BLOCKCHAIN_LAYOUT) == BLOCKCHAIN_LEN
  {
  }

  function BlockchainValues(r: Blockchain): (vs: seq<Value>)
    ensures HasKinds(vs, BLOCKCHAIN_LAYOUT)
  {
    [U8Val(r.version), ArrayVal(r.bridge), ArrayVal(r.blockchainId), U64Val(r.validators), U64Val(r.locks), ArrayVal(r.contractAddress)]
  }

  function BlockchainOf(vs: seq<Value>): Blockchain
    requires HasKinds(vs, BLOCKCHAIN_LAYOUT)
  {
    assert HasKind(vs[0], BLOCKCHAIN_LAYOUT[0]);
    assert HasKind(vs[1], BLOCKCHAIN_LAYOUT[1]);
    assert HasKind(vs[2], BLOCKCHAIN_LAYOUT[2]);
    assert HasKind(vs[3], BLOCKCHAIN_LAYOUT[3]);
    assert HasKind(vs[4], BLOCKCHAIN_LAYOUT[4]);
    assert HasKind(vs[5], BLOCKCHAIN_LAYOUT[5]);
    Blockchain(vs[0].b, vs[1].bytes, vs[2].bytes, vs[3].n, vs[4].n, vs[5].bytes)
  }

  lemma BlockchainValuesOf(vs: seq<Value>)
    requires HasKinds(vs, BLOCKCHAIN_LAYOUT)
    ensures BlockchainValues(BlockchainOf(vs)) == vs
  {
    var w := BlockchainValues(BlockchainOf(vs));
    assert w[0] == vs[0];
    assert w[1] == vs[1];
    assert w[2] == vs[2];
    assert w[3] == vs[3];
    assert w[4] == vs[4];
    assert w[5] == vs[5];
  }

  /** Borsh serialisation of `Blockchain`; always exactly `Blockchain::LEN` bytes. */
  function EncodeBlockchain(r: Blockchain): (data: seq<byte>)
    ensures |data| == BLOCKCHAIN_LEN
  {
    var vs := BlockchainValues(r);
    HasKindsEncodable(vs, BLOCKCHAIN_LAYOUT);
    EncodedSize(vs, BLOCKCHAIN_LAYOUT);
    BlockchainLayoutSize();
    EncodeValues(vs)
  }

  /** `Blockchain::try_from_slice`: accepts exactly the encodings of records. */
  function DecodeBlockchain(data: seq<byte>): (r: Result<Blockchain>)
    ensures r.Ok? ==> EncodeBlockchain(r.value) == data
    ensures r.Ok? ==> |data| == BLOCKCHAIN_LEN
    ensures r.Err? ==> r.error == BorshIoError
  {
    var vs :- TryFromSlice(BLOCKCHAIN_LAYOUT, data);
    TryFromSliceCanonical(BLOCKCHAIN_LAYOUT, data);
    var r := BlockchainOf(vs);
    BlockchainValuesOf(vs);
    Ok(r)
  }

  lemma DecodeBlockchainEncode(r: Blockchain)
    ensures DecodeBlockchain(EncodeBlockchain(r)) == Ok(r)
  {
    TryFromSliceEncode(BlockchainValues(r), BLOCKCHAIN_LAYOUT);
  }

  /** A fresh, all-zero account decodes to a record of version 0, which is not initialized. */
  lemma DecodeBlockchainZeros(data: seq<byte>)
    requires |data| == BLOCKCHAIN_LEN && forall i | 0 <= i < |data| :: data[i] == 0
    ensures DecodeBlockchain(data).Ok? && DecodeBlockchain(data).value.version == 0
    ensures CheckInitialized(DecodeBlockchain(data).value.version, true) == Err(UninitializedAccount)
  {
    BlockchainLayoutSize();
    DecodeZeros(BLOCKCHAIN_LAYOUT, data);
    assert ZeroValues(BLOCKCHAIN_LAYOUT)[0] == U8Val(0);
  }

  // ---- Validator ----

  datatype Validator = Validator(version: byte, blockchainId: ChainId, index: u64, pubKey: Address, owner: Pubkey)

  const VALIDATOR_LEN: nat := 77
  const VALIDATOR_LAYOUT: seq<Kind> := [U8Kind, ArrayKind(4), U64Kind, ArrayKind(32), ArrayKind(32)]

  lemma ValidatorLayoutSize()
    ensures Fixed(VALIDATOR_LAYOUT) && Size(VALIDATOR_LAYOUT) == VALIDATOR_LEN
  {
  }

  function ValidatorValues(r: Validator): (vs: seq<Value>)
    ensures HasKinds(vs, VALIDATOR_LAYOUT)
  {
    [U8Val(r.version), ArrayVal(r.blockchainId), U64Val(r.index), ArrayVal(r.pubKey), ArrayVal(r.owner)]
  }

  function ValidatorOf(vs: seq<Value>): Validator
    requires HasKinds(vs, VALIDATOR_LAYOUT)
  {
    assert HasKind(vs[0], VALIDATOR_LAYOUT[0]);
    assert HasKind(vs[1], VALIDATOR_LAYOUT[1]);
    assert HasKind(vs[2], VALIDATOR_LAYOUT[2]);
    assert HasKind(vs[3], VALIDATOR_LAYOUT[3]);
    assert HasKind(vs[4], VALIDATOR_LAYOUT[4]);
    Validator(vs[0].b, vs[1].bytes, vs[2].n, vs[3].bytes, vs[4].bytes)
  }

  lemma ValidatorValuesOf(vs: seq<Value>)
    requires HasKinds(vs, VALIDATOR_LAYOUT)
    ensures ValidatorValues(ValidatorOf(vs)) == vs
  {
    var w := ValidatorValues(ValidatorOf(vs));
    assert w[0] == vs[0];
    assert w[1] == vs[1];
    assert w[2] == vs[2];
    assert w[3] == vs[3];
    assert w[4] == vs[4];
  }

  /** Borsh serialisation of `Validator`; always exactly `Validator::LEN` bytes. */
  function EncodeValidator(r: Validator): (data: seq<byte>)
    ensures |data| == VALIDATOR_LEN
  {
    var vs := ValidatorValues(r);
    HasKindsEncodable(vs, VALIDATOR_LAYOUT);
    EncodedSize(vs, VALIDATOR_LAYOUT);
    ValidatorLayoutSize();
    EncodeValues(vs)
  }

  /** `Validator::try_from_slice`: accepts exactly the encodings of records. */
  function DecodeValidator(data: seq<byte>): (r: Result<Validator>)
    ensures r.Ok? ==> EncodeValidator(r.value) == data
    ensures r.Ok? ==> |data| == VALIDATOR_LEN
    ensures r.Err? ==> r.error == BorshIoError
  {
    var vs :- TryFromSlice(VALIDATOR_LAYOUT, data);
    TryFromSliceCanonical(VALIDATOR_LAYOUT, data);
    var r := ValidatorOf(vs);
    ValidatorValuesOf(vs);
    Ok(r)
  }

  lemma DecodeValidatorEncode(r: Validator)
    ensures DecodeValidator(EncodeValidator(r)) == Ok(r)
  {
    TryFromSliceEncode(ValidatorValues(r), VALIDATOR_LAYOUT);
  }

  /** A fresh, all-zero account decodes to a record of version 0, which is not initialized. */
  lemma DecodeValidatorZeros(data: seq<byte>)
    requires |data| == VALIDATOR_LEN && forall i | 0 <= i < |data| :: data[i] == 0
    ensures DecodeValidator(data).Ok? && DecodeValidator(data).value.version == 0
    ensures CheckInitialized(DecodeValidator(data).value.version, true) == Err(UninitializedAccount)
  {
    ValidatorLayoutSize();
    DecodeZeros(VALIDATOR_LAYOUT, data);
    assert ZeroValues(VALIDATOR_LAYOUT)[0] == U8Val(0);
  }

  // ---- Lock ----

  datatype Lock = Lock(version: byte, index: u64, lockId: u64, txId: TxId, bridge: Pubkey, tokenSourceAddress: Address, tokenSource: ChainId, source: ChainId, sender: Address, recipient: Address, destination: ChainId, amount: u64, signatures: u64)

  const LOCK_LEN: nat := 237
  const LOCK_LAYOUT: seq<Kind> := [U8Kind, U64Kind, U64Kind, ArrayKind(64), ArrayKind(32), ArrayKind(32), ArrayKind(4), ArrayKind(4), ArrayKind(32), ArrayKind(32), ArrayKind(4), U64Kind, U64Kind]

  const LOCK_FRONT: seq<Kind> := [U8Kind, U64Kind, U64Kind, ArrayKind(64), ArrayKind(32), ArrayKind(32)]
  const LOCK_BACK: seq<Kind> := [ArrayKind(4), ArrayKind(4), ArrayKind(32), ArrayKind(32), ArrayKind(4), U64Kind, U64Kind]

  lemma LockHalvesSize()
    ensures Fixed(LOCK_FRONT) && Size(LOCK_FRONT) == 145
    ensures Fixed(LOCK_BACK) && Size(LOCK_BACK) == 92
  {
  }

  lemma LockLayoutSize()
    ensures Fixed(LOCK_LAYOUT) && Size(LOCK_LAYOUT) == LOCK_LEN
  {
    assert LOCK_LAYOUT == LOCK_FRONT + LOCK_BACK;
    LockHalvesSize();
    LayoutAppend(LOCK_FRONT, LOCK_BACK);
  }

  function LockValues(r: Lock): (vs: seq<Value>)
    ensures HasKinds(vs, LOCK_LAYOUT)
  {
    [U8Val(r.version), U64Val(r.index), U64Val(r.lockId), ArrayVal(r.txId), ArrayVal(r.bridge), ArrayVal(r.tokenSourceAddress), ArrayVal(r.tokenSource), ArrayVal(r.source), ArrayVal(r.sender), ArrayVal(r.recipient), ArrayVal(r.destination), U64Val(r.amount), U64Val(r.signatures)]
  }

  function LockOf(vs: seq<Value>): Lock
    requires HasKinds(vs, LOCK_LAYOUT)
  {
    assert HasKind(vs[0], LOCK_LAYOUT[0]);
    assert HasKind(vs[1], LOCK_LAYOUT[1]);
    assert HasKind(vs[2], LOCK_LAYOUT[2]);
    assert HasKind(vs[3], LOCK_LAYOUT[3]);
    assert HasKind(vs[4], LOCK_LAYOUT[4]);
    assert HasKind(vs[5], LOCK_LAYOUT[5]);
    assert HasKind(vs[6], LOCK_LAYOUT[6]);
    assert HasKind(vs[7], LOCK_LAYOUT[7]);
    assert HasKind(vs[8], LOCK_LAYOUT[8]);
    assert HasKind(vs[9], LOCK_LAYOUT[9]);
    assert HasKind(vs[10], LOCK_LAYOUT[10]);
    assert HasKind(vs[11], LOCK_LAYOUT[11]);
    assert HasKind(vs[12], LOCK_LAYOUT[12]);
    Lock(vs[0].b, vs[1].n, vs[2].n, vs[3].bytes, vs[4].bytes, vs[5].bytes, vs[6].bytes, vs[7].bytes, vs[8].bytes, vs[9].bytes, vs[10].bytes, vs[11].n, vs[12].n)
  }

  lemma LockValuesOf(vs: seq<Value>)
    requires HasKinds(vs, LOCK_LAYOUT)
    ensures LockValues(LockOf(vs)) == vs
  {
    var w := LockValues(LockOf(vs));
    assert w[0] == vs[0];
    assert w[1] == vs[1];
    assert w[2] == vs[2];
    assert w[3] == vs[3];
    assert w[4] == vs[4];
    assert w[5] == vs[5];
    assert w[6] == vs[6];
    assert w[7] == vs[7];
    assert w[8] == vs[8];
    assert w[9] == vs[9];
    assert w[10] == vs[10];
    assert w[11] == vs[11];
    assert w[12] == vs[12];
  }

  /** Borsh serialisation of `Lock`; always exactly `Lock::LEN` bytes. */
  function EncodeLock(r: Lock): (data: seq<byte>)
    ensures |data| == LOCK_LEN
  {
    var vs := LockValues(r);
    HasKindsEncodable(vs, LOCK_LAYOUT);
    EncodedSize(vs, LOCK_LAYOUT);
    LockLayoutSize();
    EncodeValues(vs)
  }

  /** `Lock::try_from_slice`: accepts exactly the encodings of records. */
  function DecodeLock(data: seq<byte>): (r: Result<Lock>)
    ensures r.Ok? ==> EncodeLock(r.value) == data
    ensures r.Ok? ==> |data| == LOCK_LEN
    ensures r.Err? ==> r.error == BorshIoError
  {
    var vs :- TryFromSlice(LOCK_LAYOUT, data);
    TryFromSliceCanonical(LOCK_LAYOUT, data);
    var r := LockOf(vs);
    LockValuesOf(vs);
    Ok(r)
  }

  lemma DecodeLockEncode(r: Lock)
    ensures DecodeLock(EncodeLock(r)) == Ok(r)
  {
    TryFromSliceEncode(LockValues(r), LOCK_LAYOUT);
  }

  /** A fresh, all-zero account decodes to a record of version 0, which is not initialized. */
  lemma DecodeLockZeros(data: seq<byte>)
    requires |data| == LOCK_LEN && forall i | 0 <= i < |data| :: data[i] == 0
    ensures DecodeLock(data).Ok? && DecodeLock(data).value.version == 0
    ensures CheckInitialized(DecodeLock(data).value.version, true) == Err(UninitializedAccount)
  {
    LockLayoutSize();
    DecodeZeros(LOCK_LAYOUT, data);
    assert ZeroValues(LOCK_LAYOUT)[0] == U8Val(0);
  }

  // ---- Signature ----

  datatype Signature = Signature(version: byte, source: ChainId, lockId: u64, bridge: Pubkey, signature: SigBytes, validator: Pubkey, validatorIndex: u64)

  const SIGNATURE_LEN: nat := 150
  const SIGNATURE_LAYOUT: seq<Kind> := [U8Kind, ArrayKind(4), U64Kind, ArrayKind(32), ArrayKind(65), ArrayKind(32), U64Kind]

  lemma SignatureLayoutSize()
    ensures Fixed(SIGNATURE_LAYOUT) && Size(SIGNATURE_LAYOUT) == SIGNATURE_LEN
  {
  }

  function SignatureValues(r: Signature): (vs: seq<Value>)
    ensures HasKinds(vs, SIGNATURE_LAYOUT)
  {
    [U8Val(r.version), ArrayVal(r.source), U64Val(r.lockId), ArrayVal(r.bridge), ArrayVal(r.signature), ArrayVal(r.validator), U64Val(r.validatorIndex)]
  }

  function SignatureOf(vs: seq<Value>): Signature
    requires HasKinds(vs, SIGNATURE_LAYOUT)
  {
    assert HasKind(vs[0], SIGNATURE_LAYOUT[0]);
    assert HasKind(vs[1], SIGNATURE_LAYOUT[1]);
    assert HasKind(vs[2], SIGNATURE_LAYOUT[2]);
    assert HasKind(vs[3], SIGNATURE_LAYOUT[3]);
    assert HasKind(vs[4], SIGNATURE_LAYOUT[4]);
    assert HasKind(vs[5], SIGNATURE_LAYOUT[5]);
    assert HasKind(vs[6], SIGNATURE_LAYOUT[6]);
    Signature(vs[0].b, vs[1].bytes, vs[2].n, vs[3].bytes, vs[4].bytes, vs[5].bytes, vs[6].n)
  }

  lemma SignatureValuesOf(vs: seq<Value>)
    requires HasKinds(vs, SIGNATURE_LAYOUT)
    ensures SignatureValues(SignatureOf(vs)) == vs
  {
    var w := SignatureValues(SignatureOf(vs));
    assert w[0] == vs[0];
    assert w[1] == vs[1];
    assert w[2] == vs[2];
    assert w[3] == vs[3];
    assert w[4] == vs[4];
    assert w[5] == vs[5];
    assert w[6] == vs[6];
  }

  /** Borsh serialisation of `Signature`; always exactly `Signature::LEN` bytes. */
  function EncodeSignature(r: Signature): (data: seq<byte>)
    ensures |data| == SIGNATURE_LEN
  {
    var vs := SignatureValues(r);
    HasKindsEncodable(vs, SIGNATURE_LAYOUT);
    EncodedSize(vs, SIGNATURE_LAYOUT);
    SignatureLayoutSize();
    EncodeValues(vs)
  }

  /** `Signature::try_from_slice`: accepts exactly the encodings of records. */
  function DecodeSignature(data: seq<byte>): (r: Result<Signature>)
    ensures r.Ok? ==> EncodeSignature(r.value) == data
    ensures r.Ok? ==> |data| == SIGNATURE_LEN
    ensures r.Err? ==> r.error == BorshIoError
  {
    var vs :- TryFromSlice(SIGNATURE_LAYOUT, data);
    TryFromSliceCanonical(SIGNATURE_LAYOUT, data);
    var r := SignatureOf(vs);
    SignatureValuesOf(vs);
    Ok(r)
  }

  lemma DecodeSignatureEncode(r: Signature)
    ensures DecodeSignature(EncodeSignature(r)) == Ok(r)
  {
    TryFromSliceEncode(SignatureValues(r), SIGNATURE_LAYOUT);
  }

  /** A fresh, all-zero account decodes to a record of version 0, which is not initialized. */
  lemma DecodeSignatureZeros(data: seq<byte>)
    requires |data| == SIGNATURE_LEN && forall i | 0 <= i < |data| :: data[i] == 0
    ensures DecodeSignature(data).Ok? && DecodeSignature(data).value.version == 0
    ensures CheckInitialized(DecodeSignature(data).value.version, true) == Err(UninitializedAccount)
  {
    SignatureLayoutSize();
    DecodeZeros(SIGNATURE_LAYOUT, data);
    assert ZeroValues(SIGNATURE_LAYOUT)[0] == U8Val(0);
  }

  // ---- User ----

  datatype User = User(version: byte, blockchainId: ChainId, address: Address, sent: u64, received: u64)

  const USER_LEN: nat := 53
  const USER_LAYOUT: seq<Kind> := [U8Kind, ArrayKind(4), ArrayKind(32), U64Kind, U64Kind]

  lemma UserLayoutSize()
    ensures Fixed(USER_LAYOUT) && Size(USER_LAYOUT) == USER_LEN
  {
  }

  function UserValues(r: User): (vs: seq<Value>)
    ensures HasKinds(vs, USER_LAYOUT)
  {
    [U8Val(r.version), ArrayVal(r.blockchainId), ArrayVal(r.address), U64Val(r.sent), U64Val(r.received)]
  }

  function UserOf(vs: seq<Value>): User
    requires HasKinds(vs, USER_LAYOUT)
  {
    assert HasKind(vs[0], USER_LAYOUT[0]);
    assert HasKind(vs[1], USER_LAYOUT[1]);
    assert HasKind(vs[2], USER_LAYOUT[2]);
    assert HasKind(vs[3], USER_LAYOUT[3]);
    assert HasKind(vs[4], USER_LAYOUT[4]);
    User(vs[0].b, vs[1].bytes, vs[2].bytes, vs[3].n, vs[4].n)
  }

  lemma UserValuesOf(vs: seq<Value>)
    requires HasKinds(vs, USER_LAYOUT)
    ensures UserValues(UserOf(vs)) == vs
  {
    var w := UserValues(UserOf(vs));
    assert w[0] == vs[0];
    assert w[1] == vs[1];
    assert w[2] == vs[2];
    assert w[3] == vs[3];
    assert w[4] == vs[4];
  }

  /** Borsh serialisation of `User`; always exactly `User::LEN` bytes. */
  function EncodeUser(r: User): (data: seq<byte>)
    ensures |data| == USER_LEN
  {
    var vs := UserValues(r);
    HasKindsEncodable(vs, USER_LAYOUT);
    EncodedSize(vs, USER_LAYOUT);
    UserLayoutSize();
    EncodeValues(vs)
  }

  /** `User::try_from_slice`: accepts exactly the encodings of records. */
  function DecodeUser(data: seq<byte>): (r: Result<User>)
    ensures r.Ok? ==> EncodeUser(r.value) == data
    ensures r.Ok? ==> |data| == USER_LEN
    ensures r.Err? ==> r.error == BorshIoError
  {
    var vs :- TryFromSlice(USER_LAYOUT, data);
    TryFromSliceCanonical(USER_LAYOUT, data);
    var r := UserOf(vs);
    UserValuesOf(vs);
    Ok(r)
  }

  lemma DecodeUserEncode(r: User)
    ensures DecodeUser(EncodeUser(r)) == Ok(r)
  {
    TryFromSliceEncode(UserValues(r), USER_LAYOUT);
  }

  /** A fresh, all-zero account decodes to a record of version 0, which is not initialized. */
  lemma DecodeUserZeros(data: seq<byte>)
    requires |data| == USER_LEN && forall i | 0 <= i < |data| :: data[i] == 0
    ensures DecodeUser(data).Ok? && DecodeUser(data).value.version == 0
    ensures CheckInitialized(DecodeUser(data).value.version, true) == Err(UninitializedAccount)
  {
    UserLayoutSize();
    DecodeZeros(USER_LAYOUT, data);
    assert ZeroValues(USER_LAYOUT)[0] == U8Val(0);
  }

  // ---- LockTx ----

  datatype LockTx = LockTx(version: byte, txId: TxId, source: ChainId, lockId: u64, lockAccount: Pubkey, reverted: bool)

  const LOCK_TX_LEN: nat := 110
  const LOCK_TX_LAYOUT: seq<Kind> := [U8Kind, ArrayKind(64), ArrayKind(4), U64Kind, ArrayKind(32), BoolKind]

  lemma LockTxLayoutSize()
    ensures Fixed(LOCK_TX_LAYOUT) && Size(LOCK_TX_LAYOUT) == LOCK_TX_LEN
  {
  }

  function LockTxValues(r: LockTx): (vs: seq<Value>)
    ensures HasKinds(vs, LOCK_TX_LAYOUT)
  {
    [U8Val(r.version), ArrayVal(r.txId), ArrayVal(r.source), U64Val(r.lockId), ArrayVal(r.lockAccount), BoolVal(r.reverted)]
  }

  function LockTxOf(vs: seq<Value>): LockTx
    requires HasKinds(vs, LOCK_TX_LAYOUT)
  {
    assert HasKind(vs[0], LOCK_TX_LAYOUT[0]);
    assert HasKind(vs[1], LOCK_TX_LAYOUT[1]);
    assert HasKind(vs[2], LOCK_TX_LAYOUT[2]);
    assert HasKind(vs[3], LOCK_TX_LAYOUT[3]);
    assert HasKind(vs[4], LOCK_TX_LAYOUT[4]);
    assert HasKind(vs[5], LOCK_TX_LAYOUT[5]);
    LockTx(vs[0].b, vs[1].bytes, vs[2].bytes, vs[3].n, vs[4].bytes, vs[5].flag)
  }

  lemma LockTxValuesOf(vs: seq<Value>)
    requires HasKinds(vs, LOCK_TX_LAYOUT)
    ensures LockTxValues(LockTxOf(vs)) == vs
  {
    var w := LockTxValues(LockTxOf(vs));
    assert w[0] == vs[0];
    assert w[1] == vs[1];
    assert w[2] == vs[2];
    assert w[3] == vs[3];
    assert w[4] == vs[4];
    assert w[5] == vs[5];
  }

  /** Borsh serialisation of `LockTx`; always exactly `LockTx::LEN` bytes. */
  function EncodeLockTx(r: LockTx): (data: seq<byte>)
    ensures |data| == LOCK_TX_LEN
  {
    var vs := LockTxValues(r);
    HasKindsEncodable(vs, LOCK_TX_LAYOUT);
    EncodedSize(vs, LOCK_TX_LAYOUT);
    LockTxLayoutSize();
    EncodeValues(vs)
  }

  /** `LockTx::try_from_slice`: accepts exactly the encodings of records. */
  function DecodeLockTx(data: seq<byte>): (r: Result<LockTx>)
    ensures r.Ok? ==> EncodeLockTx(r.value) == data
    ensures r.Ok? ==> |data| == LOCK_TX_LEN
    ensures r.Err? ==> r.error == BorshIoError
  {
    var vs :- TryFromSlice(LOCK_TX_LAYOUT, data);
    TryFromSliceCanonical(LOCK_TX_LAYOUT, data);
    var r := LockTxOf(vs);
    LockTxValuesOf(vs);
    Ok(r)
  }

  lemma DecodeLockTxEncode(r: LockTx)
    ensures DecodeLockTx(EncodeLockTx(r)) == Ok(r)
  {
    TryFromSliceEncode(LockTxValues(r), LOCK_TX_LAYOUT);
  }

  /** A fresh, all-zero account decodes to a record of version 0, which is not initialized. */
  lemma DecodeLockTxZeros(data: seq<byte>)
    requires |data| == LOCK_TX_LEN && forall i | 0 <= i < |data| :: data[i] == 0
    ensures DecodeLockTx(data).Ok? && DecodeLockTx(data).value.version == 0
    ensures CheckInitialized(DecodeLockTx(data).value.version, true) == Err(UninitializedAccount)
  {
    LockTxLayoutSize();
    DecodeZeros(LOCK_TX_LAYOUT, data);
    assert ZeroValues(LOCK_TX_LAYOUT)[0] == U8Val(0);
  }

}
