/** The instruction handlers of the bridge (`src/processor.rs`) over an
    account store.

    Each handler is first a pure step function from the store before the
    instruction to either an error or the store after it; the `Ledger` class
    then performs the same handler imperatively on its `accounts` field and
    is proved to agree with the step function. The runtime rolls back every
    change of a failing instruction, so a failing handler leaves `accounts`
    as it was: the methods work on a local copy and commit it on success. */
module Processor {
  import opened Bytes
  import opened Lib
  import opened Errors
  import opened Sdk
  import opened State
  import opened Utils
  import opened Instructions

  /** The part of an account the program sees: its data buffer and its balance. */
  datatype Account = Account(data: seq<byte>, lamports: nat)

  type Store = map<Pubkey, Account>

  /** An address nobody has funded holds no data and no lamports. */
  function Get(s: Store, key: Pubkey): Account {
    if key in s then s[key] else Account([], 0)
  }

  /** The system program refuses to create an account where one already lives. */
  predicate Occupied(a: Account) {
    a.lamports > 0 || a.data != []
  }

  /** What the program takes from its host: the address derivations and
      `Rent::minimum_balance`. */
  datatype Host = Host(derive: Derivation, minimumBalance: nat -> nat)

  /** `Rent::from_account_info`: only the rent sysvar account will do. */
  function RentFromAccountInfo(info: AccountMeta): (r: ProgramResult)
    ensures r.Ok? <==> info.key == RENT_SYSVAR_ID
    ensures r.Err? ==> r.error == InvalidArgument
  {
    Require(info.key == RENT_SYSVAR_ID, InvalidArgument)
  }

  /** `Rent::is_exempt(lamports, data_len)`. */
  predicate IsRentExempt(h: Host, a: Account) {
    a.lamports >= h.minimumBalance(|a.data|)
  }

  /** `create_account_with_seed` through the system program: a new account of
      `size` zero bytes, funded by the payer with the rent-exempt minimum.
      It fails on an occupied address, an unsigned payer, a payer that
      carries data (the system transfer's `from` must be a plain wallet), or a
      payer that cannot cover the minimum, in that order. */
  function Allocate(h: Host, s: Store, payer: AccountMeta, target: Pubkey, size: nat): (r: Result<Store>)
    ensures r.Ok? <==> && !Occupied(Get(s, target)) && payer.isSigner && Get(s, payer.key).data == []
                       && Get(s, payer.key).lamports >= h.minimumBalance(size)
    ensures r.Err? && Occupied(Get(s, target)) ==> r.error == AccountAlreadyInUse
    ensures r.Err? && !Occupied(Get(s, target)) && !payer.isSigner ==> r.error == MissingRequiredSignature
    ensures r.Err? && !Occupied(Get(s, target)) && payer.isSigner && Get(s, payer.key).data != [] ==> r.error == InvalidArgument
    ensures r.Err? && !Occupied(Get(s, target)) && payer.isSigner && Get(s, payer.key).data == [] ==>
              r.error == ResultWithNegativeLamports
    ensures r.Ok? ==> Get(r.value, target) == Account(Zeros(size), h.minimumBalance(size))
    ensures r.Ok? ==> forall k | k != target && k != payer.key :: Get(r.value, k) == Get(s, k)
    ensures r.Ok? ==> forall k | k != target :: Get(r.value, k).data == Get(s, k).data
    ensures r.Ok? && payer.key != target ==>
              Get(r.value, payer.key) == Get(s, payer.key).(lamports := Get(s, payer.key).lamports - h.minimumBalance(size))
  {
    var fee := h.minimumBalance(size);
    if Occupied(Get(s, target)) then Err(AccountAlreadyInUse)
    else if !payer.isSigner then Err(MissingRequiredSignature)
    else if Get(s, payer.key).data != [] then Err(InvalidArgument)
    else if Get(s, payer.key).lamports < fee then Err(ResultWithNegativeLamports)
    else
      var payerAccount := Get(s, payer.key);
      var debited := s[payer.key := payerAccount.(lamports := payerAccount.lamports - fee)];
      Ok(debited[target := Account(Zeros(size), fee)])
  }

  /** `serialize(&mut *data.borrow_mut())`: the bytes overwrite the front of the
      buffer; a buffer too short for them is a Borsh write error. */
  function WriteRecord(s: Store, key: Pubkey, bytes: seq<byte>): (r: Result<Store>)
    ensures r.Ok? <==> |bytes| <= |Get(s, key).data|
    ensures r.Err? ==> r.error == BorshIoError
    ensures r.Ok? ==> Get(r.value, key).lamports == Get(s, key).lamports
    ensures r.Ok? ==> |Get(r.value, key).data| == |Get(s, key).data|
    ensures r.Ok? ==> Get(r.value, key).data[..|bytes|] == bytes
    ensures r.Ok? ==> Get(r.value, key).data[|bytes|..] == Get(s, key).data[|bytes|..]
    ensures r.Ok? ==> forall k | k != key :: Get(r.value, k) == Get(s, k)
  {
    var a := Get(s, key);
    if |bytes| > |a.data| then Err(BorshIoError)
    else Ok(s[key := a.(data := bytes + a.data[|bytes|..])])
  }

  /** The store after an instruction: the new one on success, the old one on failure. */
  function Commit(s: Store, r: Result<Store>): Store {
    if r.Ok? then r.value else s
  }

  function Status(r: Result<Store>): ProgramResult {
    if r.Ok? then Ok(()) else Err(r.error)
  }

  /** `next_account_info`: the `i`-th entry, or `NotEnoughAccountKeys`. */
  function AccountAt(metas: seq<AccountMeta>, i: nat): (r: Result<AccountMeta>)
    ensures r.Ok? <==> i < |metas|
    ensures r.Ok? ==> r.value == metas[i]
    ensures r.Err? ==> r.error == NotEnoughAccountKeys
  {
    if i < |metas| then Ok(metas[i]) else Err(NotEnoughAccountKeys)
  }

  // ---- process_init_bridge ----

  datatype InitBridgeAccounts = InitBridgeAccounts(bridge: AccountMeta, owner: AccountMeta, rent: AccountMeta)

  function InitBridgeAccountsOf(metas: seq<AccountMeta>): Result<InitBridgeAccounts> {
    var bridge :- AccountAt(metas, 0);
    var owner :- AccountAt(metas, 1);
    var rent :- AccountAt(metas, 2);
    Ok(InitBridgeAccounts(bridge, owner, rent))
  }

  function InitBridgeOn(h: Host, s: Store, a: InitBridgeAccounts): Result<Store> {
    var _ :- RentFromAccountInfo(a.rent);
    var _ :- Require(a.owner.isSigner, MissingRequiredSignature);
    var bridge :- DecodeBridge(Get(s, a.bridge.key).data);
    var _ :- CheckInitialized(bridge.version, false);
    var _ :- Require(IsRentExempt(h, Get(s, a.bridge.key)), AccountNotRentExempt);
    WriteRecord(s, a.bridge.key, EncodeBridge(NewBridge(a.owner.key)))
  }

  function InitBridgeStep(h: Host, s: Store, metas: seq<AccountMeta>): Result<Store> {
    var a :- InitBridgeAccountsOf(metas);
    InitBridgeOn(h, s, a)
  }

  // ---- process_add_blockchain ----

  datatype AddBlockchainAccounts = AddBlockchainAccounts(
    bridge: AccountMeta, blockchain: AccountMeta, payer: AccountMeta, authority: AccountMeta, rent: AccountMeta)

  function AddBlockchainAccountsOf(metas: seq<AccountMeta>): Result<AddBlockchainAccounts> {
    var bridge :- AccountAt(metas, 0);
    var blockchain :- AccountAt(metas, 1);
    var payer :- AccountAt(metas, 2);
    var authority :- AccountAt(metas, 3);
    var rent :- AccountAt(metas, 4);
    Ok(AddBlockchainAccounts(bridge, blockchain, payer, authority, rent))
  }

  function AddBlockchainOn(h: Host, programId: Pubkey, s: Store, a: AddBlockchainAccounts,
                           blockchainId: seq<byte>, contractAddress: Address): Result<Store> {
    var _ :- RentFromAccountInfo(a.rent);
    var _ :- ValidateBridgeAuthorityAndGetBumpSeed(h.derive, programId, a.bridge.key, a.authority.key);
    var chainId :- ChainIdOf(blockchainId);
    var _ :- CheckAndGetBlockchainAccountSeed(h.derive, programId, chainId, a.authority.key, a.blockchain.key);
    var funded :- Allocate(h, s, a.payer, a.blockchain.key, BLOCKCHAIN_LEN);
    WriteRecord(funded, a.blockchain.key, EncodeBlockchain(NewBlockchain(a.bridge.key, chainId, contractAddress)))
  }

  function AddBlockchainStep(h: Host, programId: Pubkey, s: Store, metas: seq<AccountMeta>,
                             blockchainId: seq<byte>, contractAddress: Address): Result<Store> {
    var a :- AddBlockchainAccountsOf(metas);
    AddBlockchainOn(h, programId, s, a, blockchainId, contractAddress)
  }

  // ---- process_add_validator ----

  datatype AddValidatorAccounts = AddValidatorAccounts(
    bridge: AccountMeta, blockchain: AccountMeta, validator: AccountMeta, payer: AccountMeta,
    authority: AccountMeta, rent: AccountMeta)

  function AddValidatorAccountsOf(metas: seq<AccountMeta>): Result<AddValidatorAccounts> {
    var bridge :- AccountAt(metas, 0);
    var blockchain :- AccountAt(metas, 1);
    var validator :- AccountAt(metas, 2);
    var payer :- AccountAt(metas, 3);
    var authority :- AccountAt(metas, 4);
    var rent :- AccountAt(metas, 5);
    Ok(AddValidatorAccounts(bridge, blockchain, validator, payer, authority, rent))
  }

  /** What the checks of `process_add_validator` establish: the chain record and its id. */
  datatype Registration = Registration(chain: Blockchain, chainId: ChainId)

  /** The checks of `process_add_validator`: the chain is initialized and the
      validator account sits at the seed of the chain's next index. */
  function ValidatorChecks(h: Host, programId: Pubkey, s: Store, a: AddValidatorAccounts,
                           blockchainId: seq<byte>): Result<Registration> {
    var _ :- RentFromAccountInfo(a.rent);
    var chain :- InitializedBlockchain(Get(s, a.blockchain.key).data);
    var index := chain.validators;
    var _ :- ValidateBridgeAuthorityAndGetBumpSeed(h.derive, programId, a.bridge.key, a.authority.key);
    var chainId :- ChainIdOf(blockchainId);
    var _ :- CheckAndGetValidatorAccountSeed(h.derive, programId, chainId, index, a.authority.key, a.validator.key);
    Ok(Registration(chain, chainId))
  }

  function AddValidatorOn(h: Host, programId: Pubkey, s: Store, a: AddValidatorAccounts,
                          blockchainId: seq<byte>, pubKey: Address): Result<Store> {
    var reg :- ValidatorChecks(h, programId, s, a, blockchainId);
    RegisterValidator(h, s, a, reg.chain, reg.chainId, pubKey)
  }

  /** The validator slot is created for the chain's next index, and the chain counts one more validator. */
  function RegisterValidator(h: Host, s: Store, a: AddValidatorAccounts, chain: Blockchain, chainId: ChainId,
                             pubKey: Address): Result<Store> {
    var funded :- Allocate(h, s, a.payer, a.validator.key, VALIDATOR_LEN);
    var counted :- WriteRecord(funded, a.blockchain.key, EncodeBlockchain(chain.(validators := WrappingInc(chain.validators))));
    WriteRecord(counted, a.validator.key, EncodeValidator(NewValidator(chainId, chain.validators, pubKey, a.payer.key)))
  }

  function AddValidatorStep(h: Host, programId: Pubkey, s: Store, metas: seq<AccountMeta>,
                            blockchainId: seq<byte>, pubKey: Address): Result<Store> {
    var a :- AddValidatorAccountsOf(metas);
    AddValidatorOn(h, programId, s, a, blockchainId, pubKey)
  }

  // ---- process_add_signature ----

  datatype AddSignatureAccounts = AddSignatureAccounts(
    bridge: AccountMeta, blockchain: AccountMeta, validator: AccountMeta, lock: AccountMeta,
    signature: AccountMeta, authority: AccountMeta, payer: AccountMeta, rent: AccountMeta)

  function AddSignatureAccountsOf(metas: seq<AccountMeta>): Result<AddSignatureAccounts> {
    var bridge :- AccountAt(metas, 0);
    var blockchain :- AccountAt(metas, 1);
    var validator :- AccountAt(metas, 2);
    var lock :- AccountAt(metas, 3);
    var signature :- AccountAt(metas, 4);
    var authority :- AccountAt(metas, 5);
    var payer :- AccountAt(metas, 6);
    var rent :- AccountAt(metas, 7);
    Ok(AddSignatureAccounts(bridge, blockchain, validator, lock, signature, authority, payer, rent))
  }

  /** The signed transfer an oracle reports (the fields of the `AddSignature` instruction). */
  datatype Transfer = Transfer(
    signature: SigBytes, tokenSource: seq<byte>, tokenSourceAddress: Address, source: seq<byte>,
    lockId: u64, destination: seq<byte>, recipient: Address, amount: u64)

  /** What the checks of `process_add_signature` establish before anything is written. */
  datatype Checked = Checked(bridge: Bridge, blockchain: Blockchain, validator: Validator, sourceId: ChainId)

  /** The validator must belong to the chain the transfer comes from. */
  function ValidatorChainCheck(validator: Validator, sourceId: ChainId): (r: ProgramResult)
    ensures r.Ok? <==> validator.blockchainId == sourceId
    ensures r.Err? ==> r.error == InvalidArgument
  {
    Require(validator.blockchainId == sourceId, InvalidArgument)
  }

  /** `try_from_slice` followed by the `is_initialized` check. */
  function InitializedBridge(data: seq<byte>): (r: Result<Bridge>)
    ensures r.Ok? <==> DecodeBridge(data).Ok? && DecodeBridge(data).value.version == PROGRAM_VERSION
    ensures r.Ok? ==> DecodeBridge(data) == Ok(r.value)
    ensures DecodeBridge(data).Err? ==> r == Err(BorshIoError)
    ensures DecodeBridge(data).Ok? && r.Err? ==> r.error == UninitializedAccount
  {
    var bridge :- DecodeBridge(data);
    var _ :- CheckInitialized(bridge.version, true);
    Ok(bridge)
  }

  function InitializedBlockchain(data: seq<byte>): (r: Result<Blockchain>)
    ensures r.Ok? <==> DecodeBlockchain(data).Ok? && DecodeBlockchain(data).value.version == PROGRAM_VERSION
    ensures r.Ok? ==> DecodeBlockchain(data) == Ok(r.value)
    ensures DecodeBlockchain(data).Err? ==> r == Err(BorshIoError)
    ensures DecodeBlockchain(data).Ok? && r.Err? ==> r.error == UninitializedAccount
  {
    var blockchain :- DecodeBlockchain(data);
    var _ :- CheckInitialized(blockchain.version, true);
    Ok(blockchain)
  }

  function InitializedValidator(data: seq<byte>): (r: Result<Validator>)
    ensures r.Ok? <==> DecodeValidator(data).Ok? && DecodeValidator(data).value.version == PROGRAM_VERSION
    ensures r.Ok? ==> DecodeValidator(data) == Ok(r.value)
    ensures DecodeValidator(data).Err? ==> r == Err(BorshIoError)
    ensures DecodeValidator(data).Ok? && r.Err? ==> r.error == UninitializedAccount
  {
    var validator :- DecodeValidator(data);
    var _ :- CheckInitialized(validator.version, true);
    Ok(validator)
  }

  /** The three records `process_add_signature` reads. */
  datatype Loaded = Loaded(bridge: Bridge, blockchain: Blockchain, validator: Validator)

  /** The rent and signer checks, then the three records, each initialized,
      and the validator registered by the payer. */
  function LoadRecords(s: Store, a: AddSignatureAccounts): Result<Loaded> {
    LoadFrom(a, Get(s, a.bridge.key).data, Get(s, a.blockchain.key).data, Get(s, a.validator.key).data)
  }

  /** The same checks on the three accounts' data. */
  function LoadFrom(a: AddSignatureAccounts, bridgeData: seq<byte>, blockchainData: seq<byte>,
                    validatorData: seq<byte>): Result<Loaded> {
    var _ :- RentFromAccountInfo(a.rent);
    var _ :- Require(a.payer.isSigner, MissingRequiredSignature);
    var bridge :- InitializedBridge(bridgeData);
    var blockchain :- InitializedBlockchain(blockchainData);
    var validator :- InitializedValidator(validatorData);
    var _ :- Require(validator.owner == a.payer.key, InvalidArgument);
    Ok(Loaded(bridge, blockchain, validator))
  }

  /** The checks of `process_add_signature` on the records it reads, up to the chain check. */
  function SignatureRecords(s: Store, a: AddSignatureAccounts, t: Transfer): Result<Checked> {
    RecordsChecked(LoadRecords(s, a), t)
  }

  /** The chain check on the loaded records: the validator belongs to the transfer's source chain. */
  function RecordsChecked(loaded: Result<Loaded>, t: Transfer): Result<Checked> {
    var r :- loaded;
    var sourceId :- ChainIdOf(t.source);
    var _ :- ValidatorChainCheck(r.validator, sourceId);
    Ok(Checked(r.bridge, r.blockchain, r.validator, sourceId))
  }

  /** All checks of `process_add_signature` made before the lock account is touched:
      the records, then the authority and the lock account's seed. */
  function SignatureChecks(h: Host, programId: Pubkey, s: Store, a: AddSignatureAccounts, t: Transfer): Result<Checked> {
    SeedsChecked(h, programId, a, t, SignatureRecords(s, a, t))
  }

  /** The authority and the lock account's seed, after the record checks. */
  function SeedsChecked(h: Host, programId: Pubkey, a: AddSignatureAccounts, t: Transfer, records: Result<Checked>)
    : Result<Checked>
  {
    var c :- records;
    var _ :- ValidateBridgeAuthorityAndGetBumpSeed(h.derive, programId, a.bridge.key, a.authority.key);
    var _ :- CheckAndGetLockAccountSeed(h.derive, programId, c.sourceId, t.lockId, false, a.authority.key, a.lock.key);
    Ok(c)
  }

  /** The lock record a first submission creates. */
  function FirstLock(a: AddSignatureAccounts, c: Checked, t: Transfer, tokenSourceId: ChainId, destinationId: ChainId): Lock {
    NewLock(c.blockchain.locks, t.lockId, Zeros(64), a.bridge.key, t.tokenSourceAddress, tokenSourceId,
            c.sourceId, Zeros(32), t.recipient, destinationId, t.amount)
  }

  /** Get or create: an empty lock account is funded and written, any other is left as it is. */
  function LockFor(h: Host, s: Store, a: AddSignatureAccounts, c: Checked, t: Transfer): Result<Store> {
    if Get(s, a.lock.key).data == [] then
      var funded :- Allocate(h, s, a.payer, a.lock.key, LOCK_LEN);
      var tokenSourceId :- ChainIdOf(t.tokenSource);
      var destinationId :- ChainIdOf(t.destination);
      WriteRecord(funded, a.lock.key, EncodeLock(FirstLock(a, c, t, tokenSourceId, destinationId)))
    else
      Ok(s)
  }

  /** The slot of the signature is keyed by the lock and the validator's index;
      the lock counts one more signature. */
  function RecordSignature(h: Host, programId: Pubkey, s: Store, a: AddSignatureAccounts, c: Checked, t: Transfer): Result<Store> {
    var lock :- DecodeLock(Get(s, a.lock.key).data);
    var _ :- CheckInitialized(lock.version, true);
    var _ :- CheckAndGetSignatureAccountSeed(h.derive, programId, c.sourceId, lock.lockId, c.validator.index, false,
                                              a.authority.key, a.signature.key);
    var funded :- Allocate(h, s, a.payer, a.signature.key, SIGNATURE_LEN);
    var signed :- WriteRecord(funded, a.signature.key,
                              EncodeSignature(NewSignature(c.sourceId, lock.lockId, a.bridge.key, t.signature,
                                                           a.validator.key, c.validator.index)));
    WriteRecord(signed, a.lock.key, EncodeLock(lock.(signatures := WrappingInc(lock.signatures))))
  }

  function AddSignatureOn(h: Host, programId: Pubkey, s: Store, a: AddSignatureAccounts, t: Transfer): Result<Store> {
    var c :- SignatureChecks(h, programId, s, a, t);
    var withLock :- LockFor(h, s, a, c, t);
    RecordSignature(h, programId, withLock, a, c, t)
  }

  function AddSignatureStep(h: Host, programId: Pubkey, s: Store, metas: seq<AccountMeta>, t: Transfer): Result<Store> {
    var a :- AddSignatureAccountsOf(metas);
    AddSignatureOn(h, programId, s, a, t)
  }

  // ---- process_instruction ----

  function TransferOf(ix: BridgeProgramInstruction): Transfer
    requires ix.AddSignature?
  {
    Transfer(ix.signature, ix.tokenSource, ix.tokenSourceAddress, ix.source, ix.lockId, ix.destination,
             ix.recipient, ix.amount)
  }

  function ProcessInstructionStep(h: Host, programId: Pubkey, s: Store, metas: seq<AccountMeta>,
                                  input: seq<byte>): Result<Store> {
    var decoded := DecodeInstruction(input);
    if decoded.Err? then Err(InvalidInstructionData)
    else
      match decoded.value
      case InitializeBridge => InitBridgeStep(h, s, metas)
      case AddBlockchain(blockchainId, contractAddress) =>
        AddBlockchainStep(h, programId, s, metas, blockchainId, contractAddress)
      case AddValidator(blockchainId, pubKey) =>
        AddValidatorStep(h, programId, s, metas, blockchainId, pubKey)
      case AddSignature(_, _, _, _, _, _, _, _) =>
        AddSignatureStep(h, programId, s, metas, TransferOf(decoded.value))
  }

  /** The accounts of the cluster as one program invocation sees them. */
  class Ledger {
    var accounts: Store
    const programId: Pubkey
    const host: Host

    constructor (programId: Pubkey, host: Host, accounts: Store)
      ensures this.programId == programId && this.host == host && this.accounts == accounts
    {
      this.programId := programId;
      this.host := host;
      this.accounts := accounts;
    }

    method InitBridge(metas: seq<AccountMeta>) returns (r: ProgramResult)
      modifies this
      ensures r == Status(InitBridgeStep(host, old(accounts), metas))
      ensures accounts == Commit(old(accounts), InitBridgeStep(host, old(accounts), metas))
    {
      var a :- InitBridgeAccountsOf(metas);
      var _ :- RentFromAccountInfo(a.rent);
      if !a.owner.isSigner {
        return Err(MissingRequiredSignature);
      }
      var store := accounts;
      var bridge :- DecodeBridge(Get(store, a.bridge.key).data);
      var _ :- CheckInitialized(bridge.version, false);
      if !IsRentExempt(host, Get(store, a.bridge.key)) {
        return Err(AccountNotRentExempt);
      }
      store :- WriteRecord(store, a.bridge.key, EncodeBridge(NewBridge(a.owner.key)));
      accounts := store;
      return Ok(());
    }

    method AddBlockchain(metas: seq<AccountMeta>, blockchainId: seq<byte>, contractAddress: Address)
      returns (r: ProgramResult)
      modifies this
      ensures r == Status(AddBlockchainStep(host, programId, old(accounts), metas, blockchainId, contractAddress))
      ensures accounts == Commit(old(accounts), AddBlockchainStep(host, programId, old(accounts), metas, blockchainId, contractAddress))
    {
      var a :- AddBlockchainAccountsOf(metas);
      var _ :- RentFromAccountInfo(a.rent);
      var _ :- ValidateBridgeAuthorityAndGetBumpSeed(host.derive, programId, a.bridge.key, a.authority.key);
      var chainId :- ChainIdOf(blockchainId);
      var _ :- CheckAndGetBlockchainAccountSeed(host.derive, programId, chainId, a.authority.key, a.blockchain.key);
      var store := accounts;
      store :- Allocate(host, store, a.payer, a.blockchain.key, BLOCKCHAIN_LEN);
      store :- WriteRecord(store, a.blockchain.key, EncodeBlockchain(NewBlockchain(a.bridge.key, chainId, contractAddress)));
      accounts := store;
      return Ok(());
    }

    method AddValidator(metas: seq<AccountMeta>, blockchainId: seq<byte>, pubKey: Address)
      returns (r: ProgramResult)
      modifies this
      ensures r == Status(AddValidatorStep(host, programId, old(accounts), metas, blockchainId, pubKey))
      ensures accounts == Commit(old(accounts), AddValidatorStep(host, programId, old(accounts), metas, blockchainId, pubKey))
    {
      var a :- AddValidatorAccountsOf(metas);
      var reg :- ValidatorChecks(host, programId, accounts, a, blockchainId);
      var store :- Register(accounts, a, reg.chain, reg.chainId, pubKey);
      accounts := store;
      return Ok(());
    }

    /** The writes of `process_add_validator`, once its checks have passed. */
    method Register(store: Store, a: AddValidatorAccounts, chain: Blockchain, chainId: ChainId, pubKey: Address)
      returns (r: Result<Store>)
      ensures r == RegisterValidator(host, store, a, chain, chainId, pubKey)
    {
      var s :- Allocate(host, store, a.payer, a.validator.key, VALIDATOR_LEN);
      var counted := chain.(validators := WrappingInc(chain.validators));
      s :- WriteRecord(s, a.blockchain.key, EncodeBlockchain(counted));
      s :- WriteRecord(s, a.validator.key, EncodeValidator(NewValidator(chainId, chain.validators, pubKey, a.payer.key)));
      return Ok(s);
    }

    method AddSignature(metas: seq<AccountMeta>, t: Transfer) returns (r: ProgramResult)
      modifies this
      ensures r == Status(AddSignatureStep(host, programId, old(accounts), metas, t))
      ensures accounts == Commit(old(accounts), AddSignatureStep(host, programId, old(accounts), metas, t))
    {
      var a :- AddSignatureAccountsOf(metas);
      var c :- SignatureChecks(host, programId, accounts, a, t);
      var store :- ObtainLock(accounts, a, c, t);
      store :- Sign(store, a, c, t);
      accounts := store;
      return Ok(());
    }

    /** Get or create the lock account of the transfer. */
    method ObtainLock(store: Store, a: AddSignatureAccounts, c: Checked, t: Transfer) returns (r: Result<Store>)
      ensures r == LockFor(host, store, a, c, t)
    {
      var s := store;
      if Get(s, a.lock.key).data == [] {
        s :- Allocate(host, s, a.payer, a.lock.key, LOCK_LEN);
        var tokenSourceId :- ChainIdOf(t.tokenSource);
        var destinationId :- ChainIdOf(t.destination);
        s :- WriteRecord(s, a.lock.key, EncodeLock(FirstLock(a, c, t, tokenSourceId, destinationId)));
      }
      return Ok(s);
    }

    /** The signer's half of `process_add_signature` on a store that holds the lock. */
    method Sign(store: Store, a: AddSignatureAccounts, c: Checked, t: Transfer) returns (r: Result<Store>)
      ensures r == RecordSignature(host, programId, store, a, c, t)
    {
      var lock :- DecodeLock(Get(store, a.lock.key).data);
      var _ :- CheckInitialized(lock.version, true);
      var _ :- CheckAndGetSignatureAccountSeed(host.derive, programId, c.sourceId, lock.lockId, c.validator.index, false,
                                                a.authority.key, a.signature.key);
      var s :- Allocate(host, store, a.payer, a.signature.key, SIGNATURE_LEN);
      s :- WriteRecord(s, a.signature.key,
                       EncodeSignature(NewSignature(c.sourceId, lock.lockId, a.bridge.key, t.signature,
                                                    a.validator.key, c.validator.index)));
      lock := lock.(signatures := WrappingInc(lock.signatures));
      s :- WriteRecord(s, a.lock.key, EncodeLock(lock));
      return Ok(s);
    }

    /** `process_instruction`: undecodable data is `InvalidInstructionData`;
        otherwise the handler of the decoded variant runs. */
    method ProcessInstruction(metas: seq<AccountMeta>, input: seq<byte>) returns (r: ProgramResult)
      modifies this
      ensures r == Status(ProcessInstructionStep(host, programId, old(accounts), metas, input))
      ensures accounts == Commit(old(accounts), ProcessInstructionStep(host, programId, old(accounts), metas, input))
    {
      var decoded := DecodeInstruction(input);
      if decoded.Err? {
        return Err(InvalidInstructionData);
      }
      var ix := decoded.value;
      match ix {
        case InitializeBridge =>
          r := InitBridge(metas);
        case AddBlockchain(blockchainId, contractAddress) =>
          r := AddBlockchain(metas, blockchainId, contractAddress);
        case AddValidator(blockchainId, pubKey) =>
          r := AddValidator(metas, blockchainId, pubKey);
        case AddSignature(_, _, _, _, _, _, _, _) =>
          r := AddSignature(metas, TransferOf(ix));
      }
    }
  }
}
