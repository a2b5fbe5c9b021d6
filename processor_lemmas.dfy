/** What the instruction handlers of `src/processor.rs` guarantee, stated
    over the step functions that the `Ledger` methods are proved to follow. */
module ProcessorLemmas {
  import opened Bytes
  import opened Errors
  import opened Utf8
  import opened Text
  import opened Lib
  import opened Sdk
  import opened State
  import opened Utils
  import opened Instructions
  import opened Processor

  /** A record as long as the buffer replaces the buffer's data outright. */
  lemma WriteRecordWhole(s: Store, key: Pubkey, bytes: seq<byte>)
    requires |bytes| == |Get(s, key).data|
    ensures WriteRecord(s, key, bytes).Ok?
    ensures Get(WriteRecord(s, key, bytes).value, key) == Get(s, key).(data := bytes)
  {
    var d := Get(WriteRecord(s, key, bytes).value, key).data;
    assert d == d[..|bytes|];
  }

  // ---- process_init_bridge ----

  /** The checks of `process_init_bridge`, in the order it makes them. */
  lemma InitBridgeGuards(h: Host, s: Store, a: InitBridgeAccounts)
    ensures var r := InitBridgeOn(h, s, a);
            var data := Get(s, a.bridge.key).data;
            && (r.Ok? <==> a.rent.key == RENT_SYSVAR_ID && a.owner.isSigner && DecodeBridge(data).Ok?
                           && DecodeBridge(data).value.version != PROGRAM_VERSION && IsRentExempt(h, Get(s, a.bridge.key)))
            && (a.rent.key != RENT_SYSVAR_ID ==> r == Err(InvalidArgument))
            && (a.rent.key == RENT_SYSVAR_ID && !a.owner.isSigner ==> r == Err(MissingRequiredSignature))
            && (a.rent.key == RENT_SYSVAR_ID && a.owner.isSigner && DecodeBridge(data).Err? ==> r == Err(BorshIoError))
            && ((a.rent.key == RENT_SYSVAR_ID && a.owner.isSigner && DecodeBridge(data).Ok?
                 && DecodeBridge(data).value.version == PROGRAM_VERSION) ==> r == Err(AccountAlreadyInitialized))
            && ((a.rent.key == RENT_SYSVAR_ID && a.owner.isSigner && DecodeBridge(data).Ok?
                 && DecodeBridge(data).value.version != PROGRAM_VERSION && !IsRentExempt(h, Get(s, a.bridge.key)))
                ==> r == Err(AccountNotRentExempt))
  {
    var data := Get(s, a.bridge.key).data;
    if DecodeBridge(data).Ok? {
      WriteRecordWhole(s, a.bridge.key, EncodeBridge(NewBridge(a.owner.key)));
    }
  }

  /** On success the bridge account holds `Bridge::new(owner)` and nothing else changes. */
  lemma InitBridgeEffect(h: Host, s: Store, a: InitBridgeAccounts)
    requires InitBridgeOn(h, s, a).Ok?
    ensures var r := InitBridgeOn(h, s, a).value;
            && DecodeBridge(Get(r, a.bridge.key).data) == Ok(NewBridge(a.owner.key))
            && Get(r, a.bridge.key).lamports == Get(s, a.bridge.key).lamports
            && forall k | k != a.bridge.key :: Get(r, k) == Get(s, k)
  {
    WriteRecordWhole(s, a.bridge.key, EncodeBridge(NewBridge(a.owner.key)));
    DecodeBridgeEncode(NewBridge(a.owner.key));
  }

  /** A zero-filled, rent-exempt bridge account is accepted by a signed request. */
  lemma InitBridgeOnZeros(h: Host, s: Store, a: InitBridgeAccounts)
    requires a.rent.key == RENT_SYSVAR_ID && a.owner.isSigner && IsRentExempt(h, Get(s, a.bridge.key))
    requires |Get(s, a.bridge.key).data| == BRIDGE_LEN
    requires forall i | 0 <= i < BRIDGE_LEN :: Get(s, a.bridge.key).data[i] == 0
    ensures InitBridgeOn(h, s, a).Ok?
  {
    DecodeBridgeZeros(Get(s, a.bridge.key).data);
    WriteRecordWhole(s, a.bridge.key, EncodeBridge(NewBridge(a.owner.key)));
  }

  /** A bridge can be initialised only once, whoever asks the second time. */
  lemma InitBridgeOnce(h: Host, s: Store, a: InitBridgeAccounts, again: InitBridgeAccounts)
    requires InitBridgeOn(h, s, a).Ok?
    requires again.bridge.key == a.bridge.key && again.rent.key == RENT_SYSVAR_ID && again.owner.isSigner
    ensures InitBridgeOn(h, InitBridgeOn(h, s, a).value, again) == Err(AccountAlreadyInitialized)
  {
    InitBridgeEffect(h, s, a);
  }

  // ---- process_add_blockchain ----

  /** What a successful `process_add_blockchain` has checked. */
  lemma AddBlockchainChecks(h: Host, programId: Pubkey, s: Store, a: AddBlockchainAccounts,
                            blockchainId: seq<byte>, contractAddress: Address)
    requires AddBlockchainOn(h, programId, s, a, blockchainId, contractAddress).Ok?
    ensures a.rent.key == RENT_SYSVAR_ID
    ensures h.derive.findProgramAddress([a.bridge.key], programId).0 == a.authority.key
    ensures |blockchainId| <= 4 && ValidUtf8(StrToChainId(blockchainId))
    ensures Derives(h.derive, programId, a.authority.key, BlockchainSeed(TrimNul(StrToChainId(blockchainId))), a.blockchain.key)
    ensures a.payer.isSigner && !Occupied(Get(s, a.blockchain.key))
    ensures Get(s, a.payer.key).data == [] && Get(s, a.payer.key).lamports >= h.minimumBalance(BLOCKCHAIN_LEN)
  {
  }

  /** A wrong authority or a blockchain address that is not derived from the
      id is `InvalidSeeds`, before anything is allocated. */
  lemma AddBlockchainInvalidSeeds(h: Host, programId: Pubkey, s: Store, a: AddBlockchainAccounts,
                                  blockchainId: seq<byte>, contractAddress: Address)
    requires a.rent.key == RENT_SYSVAR_ID
    ensures h.derive.findProgramAddress([a.bridge.key], programId).0 != a.authority.key ==>
              AddBlockchainOn(h, programId, s, a, blockchainId, contractAddress) == Err(InvalidSeeds)
    ensures (h.derive.findProgramAddress([a.bridge.key], programId).0 == a.authority.key
             && |blockchainId| <= 4 && ValidUtf8(StrToChainId(blockchainId))
             && h.derive.createWithSeed(a.authority.key, BlockchainSeed(TrimNul(StrToChainId(blockchainId))), programId).Ok?
             && !Derives(h.derive, programId, a.authority.key, BlockchainSeed(TrimNul(StrToChainId(blockchainId))), a.blockchain.key))
            ==> AddBlockchainOn(h, programId, s, a, blockchainId, contractAddress) == Err(InvalidSeeds)
  {
  }

  /** On success a `Blockchain::LEN` account funded with the rent minimum
      holds the new record; only the payer's balance changes besides. */
  lemma AddBlockchainEffect(h: Host, programId: Pubkey, s: Store, a: AddBlockchainAccounts,
                            blockchainId: seq<byte>, contractAddress: Address)
    requires AddBlockchainOn(h, programId, s, a, blockchainId, contractAddress).Ok?
    ensures |blockchainId| <= 4
    ensures var r := AddBlockchainOn(h, programId, s, a, blockchainId, contractAddress).value;
            var chain := NewBlockchain(a.bridge.key, StrToChainId(blockchainId), contractAddress);
            && Get(r, a.blockchain.key) == Account(EncodeBlockchain(chain), h.minimumBalance(BLOCKCHAIN_LEN))
            && DecodeBlockchain(Get(r, a.blockchain.key).data) == Ok(chain)
            && chain.validators == 0 && chain.locks == 0
            && (forall k | k != a.blockchain.key && k != a.payer.key :: Get(r, k) == Get(s, k))
            && (a.payer.key != a.blockchain.key ==>
                  Get(r, a.payer.key).lamports == Get(s, a.payer.key).lamports - h.minimumBalance(BLOCKCHAIN_LEN))
  {
    var chainId := StrToChainId(blockchainId);
    var funded := Allocate(h, s, a.payer, a.blockchain.key, BLOCKCHAIN_LEN).value;
    WriteRecordWhole(funded, a.blockchain.key, EncodeBlockchain(NewBlockchain(a.bridge.key, chainId, contractAddress)));
    DecodeBlockchainEncode(NewBlockchain(a.bridge.key, chainId, contractAddress));
  }

  /** A blockchain can be added once: the same request again fails at allocation. */
  lemma AddBlockchainOnce(h: Host, programId: Pubkey, s: Store, a: AddBlockchainAccounts,
                          blockchainId: seq<byte>, contractAddress: Address, other: Address)
    requires AddBlockchainOn(h, programId, s, a, blockchainId, contractAddress).Ok?
    ensures AddBlockchainOn(h, programId, AddBlockchainOn(h, programId, s, a, blockchainId, contractAddress).value,
                            a, blockchainId, other) == Err(AccountAlreadyInUse)
  {
    AddBlockchainEffect(h, programId, s, a, blockchainId, contractAddress);
  }

  // ---- process_add_validator ----

  /** A blockchain record that is not initialised stops `process_add_validator`. */
  lemma AddValidatorUninitialized(h: Host, programId: Pubkey, s: Store, a: AddValidatorAccounts,
                                  blockchainId: seq<byte>, pubKey: Address)
    requires a.rent.key == RENT_SYSVAR_ID
    requires DecodeBlockchain(Get(s, a.blockchain.key).data).Ok?
    requires DecodeBlockchain(Get(s, a.blockchain.key).data).value.version != PROGRAM_VERSION
    ensures AddValidatorOn(h, programId, s, a, blockchainId, pubKey) == Err(UninitializedAccount)
  {
  }

  /** On success the validator lives at the slot derived from the chain's
      counter, holds that counter as its index, and the counter is one more. */
  lemma AddValidatorEffect(h: Host, programId: Pubkey, s: Store, a: AddValidatorAccounts,
                           blockchainId: seq<byte>, pubKey: Address)
    requires AddValidatorOn(h, programId, s, a, blockchainId, pubKey).Ok?
    ensures DecodeBlockchain(Get(s, a.blockchain.key).data).Ok? && |blockchainId| <= 4
    ensures var chain := DecodeBlockchain(Get(s, a.blockchain.key).data).value;
            var r := AddValidatorOn(h, programId, s, a, blockchainId, pubKey).value;
            && chain.version == PROGRAM_VERSION
            && h.derive.findProgramAddress([a.bridge.key], programId).0 == a.authority.key
            && Derives(h.derive, programId, a.authority.key,
                       ValidatorSeed(TrimNul(StrToChainId(blockchainId)), chain.validators), a.validator.key)
            && DecodeBlockchain(Get(r, a.blockchain.key).data) == Ok(chain.(validators := WrappingInc(chain.validators)))
            && DecodeValidator(Get(r, a.validator.key).data)
               == Ok(NewValidator(StrToChainId(blockchainId), chain.validators, pubKey, a.payer.key))
            && Get(r, a.validator.key).lamports == h.minimumBalance(VALIDATOR_LEN)
            && (forall k | k != a.validator.key && k != a.blockchain.key :: Get(r, k).data == Get(s, k).data)
            && (forall k | k != a.validator.key && k != a.blockchain.key && k != a.payer.key :: Get(r, k) == Get(s, k))
  {
    var chain := DecodeBlockchain(Get(s, a.blockchain.key).data).value;
    var chainId := StrToChainId(blockchainId);
    var counted := chain.(validators := WrappingInc(chain.validators));
    var validator := NewValidator(chainId, chain.validators, pubKey, a.payer.key);
    var funded := Allocate(h, s, a.payer, a.validator.key, VALIDATOR_LEN).value;
    assert a.validator.key != a.blockchain.key;
    WriteRecordWhole(funded, a.blockchain.key, EncodeBlockchain(counted));
    var written := WriteRecord(funded, a.blockchain.key, EncodeBlockchain(counted)).value;
    WriteRecordWhole(written, a.validator.key, EncodeValidator(validator));
    DecodeBlockchainEncode(counted);
    DecodeValidatorEncode(validator);
  }

  /** The part of `AddValidatorEffect` that numbering depends on. */
  lemma AddValidatorCounts(h: Host, programId: Pubkey, s: Store, a: AddValidatorAccounts,
                           blockchainId: seq<byte>, pubKey: Address)
    requires AddValidatorOn(h, programId, s, a, blockchainId, pubKey).Ok?
    ensures DecodeBlockchain(Get(s, a.blockchain.key).data).Ok?
    ensures var counter := DecodeBlockchain(Get(s, a.blockchain.key).data).value.validators;
            var r := AddValidatorOn(h, programId, s, a, blockchainId, pubKey).value;
            && DecodeBlockchain(Get(r, a.blockchain.key).data).Ok?
            && DecodeBlockchain(Get(r, a.blockchain.key).data).value.validators == WrappingInc(counter)
            && DecodeValidator(Get(r, a.validator.key).data).Ok?
            && DecodeValidator(Get(r, a.validator.key).data).value.index == counter
            && !Occupied(Get(s, a.validator.key))
            && (forall k | k != a.validator.key && k != a.blockchain.key :: Get(r, k).data == Get(s, k).data)
  {
    AddValidatorEffect(h, programId, s, a, blockchainId, pubKey);
  }

  /** One `AddValidator` request. */
  datatype ValidatorCall = ValidatorCall(accounts: AddValidatorAccounts, blockchainId: seq<byte>, pubKey: Address)

  /** A run of `AddValidator` requests, applied in order, stopping at the first failure. */
  function AddValidators(h: Host, programId: Pubkey, s: Store, calls: seq<ValidatorCall>): Result<Store>
  {
    if calls == [] then Ok(s)
    else
      var before :- AddValidators(h, programId, s, calls[..|calls| - 1]);
      var last := calls[|calls| - 1];
      AddValidatorOn(h, programId, before, last.accounts, last.blockchainId, last.pubKey)
  }

  /** The validator accounts a run of requests registers, in order. */
  function ValidatorKeys(calls: seq<ValidatorCall>): (keys: seq<Pubkey>)
    ensures |keys| == |calls|
    ensures forall i | 0 <= i < |calls| :: keys[i] == calls[i].accounts.validator.key
  {
    seq(|calls|, i requires 0 <= i < |calls| => calls[i].accounts.validator.key)
  }

  /** The invariant of a run of validator registrations on one chain that
      started at counter `start`: the counter has moved past every registered
      validator, and each validator's index is its position in the run. */
  predicate Numbered(start: nat, r: Store, chainKey: Pubkey, keys: seq<Pubkey>) {
    && start + |keys| < U64_LIMIT
    && DecodeBlockchain(Get(r, chainKey).data).Ok?
    && DecodeBlockchain(Get(r, chainKey).data).value.validators == start + |keys|
    && forall i | 0 <= i < |keys| ::
         && DecodeValidator(Get(r, keys[i]).data).Ok?
         && DecodeValidator(Get(r, keys[i]).data).value.index == start + i
  }

  /** A registration leaves the records of earlier validators where they were. */
  lemma EarlierValidatorKept(before: Store, r: Store, chainKey: Pubkey, key: Pubkey, newKey: Pubkey)
    requires DecodeValidator(Get(before, key).data).Ok?
    requires DecodeBlockchain(Get(before, chainKey).data).Ok?
    requires !Occupied(Get(before, newKey))
    requires forall k | k != newKey && k != chainKey :: Get(r, k).data == Get(before, k).data
    ensures Get(r, key).data == Get(before, key).data
  {
    assert |Get(before, key).data| == VALIDATOR_LEN;
    assert |Get(before, chainKey).data| == BLOCKCHAIN_LEN;
  }

  /** One more registration keeps `Numbered`. */
  lemma NumberedStep(start: nat, before: Store, r: Store, chainKey: Pubkey, keys: seq<Pubkey>, newKey: Pubkey)
    requires start + |keys| + 1 < U64_LIMIT
    requires Numbered(start, before, chainKey, keys)
    requires DecodeBlockchain(Get(r, chainKey).data).Ok?
    requires DecodeBlockchain(Get(r, chainKey).data).value.validators == WrappingInc(start + |keys|)
    requires DecodeValidator(Get(r, newKey).data).Ok? && DecodeValidator(Get(r, newKey).data).value.index == start + |keys|
    requires forall i | 0 <= i < |keys| :: Get(r, keys[i]).data == Get(before, keys[i]).data
    ensures Numbered(start, r, chainKey, keys + [newKey])
  {
    var all := keys + [newKey];
    forall i | 0 <= i < |all|
      ensures DecodeValidator(Get(r, all[i]).data).Ok?
      ensures DecodeValidator(Get(r, all[i]).data).value.index == start + i
    {
      if i < |keys| {
        assert all[i] == keys[i];
      } else {
        assert all[i] == newKey;
      }
    }
  }

  /** A run that succeeds is its shorter run followed by its last request. */
  lemma AddValidatorsLast(h: Host, programId: Pubkey, s: Store, calls: seq<ValidatorCall>)
    requires calls != [] && AddValidators(h, programId, s, calls).Ok?
    ensures AddValidators(h, programId, s, calls[..|calls| - 1]).Ok?
    ensures var last := calls[|calls| - 1];
            AddValidators(h, programId, s, calls)
            == AddValidatorOn(h, programId, AddValidators(h, programId, s, calls[..|calls| - 1]).value,
                              last.accounts, last.blockchainId, last.pubKey)
  {
  }

  lemma ValidatorKeysLast(calls: seq<ValidatorCall>)
    requires calls != []
    ensures ValidatorKeys(calls) == ValidatorKeys(calls[..|calls| - 1]) + [calls[|calls| - 1].accounts.validator.key]
  {
    var keys := ValidatorKeys(calls[..|calls| - 1]) + [calls[|calls| - 1].accounts.validator.key];
    assert forall i | 0 <= i < |calls| :: ValidatorKeys(calls)[i] == keys[i];
  }

  /** One accepted registration on the chain extends `Numbered` by its validator. */
  lemma NumberedAppend(h: Host, programId: Pubkey, start: nat, before: Store, call: ValidatorCall,
                       chainKey: Pubkey, keys: seq<Pubkey>)
    requires call.accounts.blockchain.key == chainKey
    requires start + |keys| + 1 < U64_LIMIT
    requires Numbered(start, before, chainKey, keys)
    requires AddValidatorOn(h, programId, before, call.accounts, call.blockchainId, call.pubKey).Ok?
    ensures Numbered(start, AddValidatorOn(h, programId, before, call.accounts, call.blockchainId, call.pubKey).value,
                     chainKey, keys + [call.accounts.validator.key])
  {
    var after := AddValidatorOn(h, programId, before, call.accounts, call.blockchainId, call.pubKey).value;
    AddValidatorCounts(h, programId, before, call.accounts, call.blockchainId, call.pubKey);
    forall i | 0 <= i < |keys|
      ensures Get(after, keys[i]).data == Get(before, keys[i]).data
    {
      EarlierValidatorKept(before, after, chainKey, keys[i], call.accounts.validator.key);
    }
    NumberedStep(start, before, after, chainKey, keys, call.accounts.validator.key);
  }

  /** After `n` accepted validators of one chain its counter has grown by `n`
      and the `i`-th of them carries index `start + i`. */
  lemma {:induction false} ValidatorsNumbered(h: Host, programId: Pubkey, s: Store, calls: seq<ValidatorCall>, chainKey: Pubkey)
    requires forall i | 0 <= i < |calls| :: calls[i].accounts.blockchain.key == chainKey
    requires DecodeBlockchain(Get(s, chainKey).data).Ok?
    requires DecodeBlockchain(Get(s, chainKey).data).value.validators + |calls| < U64_LIMIT
    requires AddValidators(h, programId, s, calls).Ok?
    ensures Numbered(DecodeBlockchain(Get(s, chainKey).data).value.validators, AddValidators(h, programId, s, calls).value,
                     chainKey, ValidatorKeys(calls))
  {
    var start := DecodeBlockchain(Get(s, chainKey).data).value.validators;
    if calls == [] {
      assert ValidatorKeys(calls) == [];
    } else {
      var init := calls[..|calls| - 1];
      AddValidatorsLast(h, programId, s, calls);
      assert forall i | 0 <= i < |init| :: init[i] == calls[i];
      ValidatorsNumbered(h, programId, s, init, chainKey);
      NumberedAppend(h, programId, start, AddValidators(h, programId, s, init).value, calls[|calls| - 1],
                     chainKey, ValidatorKeys(init));
      ValidatorKeysLast(calls);
    }
  }

  // ---- process_add_signature ----

  /** The checks of `process_add_signature` on its records, in the order it makes them. */
  lemma LoadRecordsGuards(s: Store, a: AddSignatureAccounts)
    ensures var r := LoadRecords(s, a);
            var bridge := DecodeBridge(Get(s, a.bridge.key).data);
            var chain := DecodeBlockchain(Get(s, a.blockchain.key).data);
            var validator := DecodeValidator(Get(s, a.validator.key).data);
            && (a.rent.key != RENT_SYSVAR_ID ==> r == Err(InvalidArgument))
            && ((a.rent.key == RENT_SYSVAR_ID && !a.payer.isSigner) ==> r == Err(MissingRequiredSignature))
            && ((a.rent.key == RENT_SYSVAR_ID && a.payer.isSigner && bridge.Ok?
                 && bridge.value.version != PROGRAM_VERSION) ==> r == Err(UninitializedAccount))
            && ((a.rent.key == RENT_SYSVAR_ID && a.payer.isSigner && bridge.Ok?
                 && bridge.value.version == PROGRAM_VERSION && chain.Ok? && chain.value.version != PROGRAM_VERSION)
                ==> r == Err(UninitializedAccount))
            && ((a.rent.key == RENT_SYSVAR_ID && a.payer.isSigner && bridge.Ok?
                 && bridge.value.version == PROGRAM_VERSION && chain.Ok? && chain.value.version == PROGRAM_VERSION
                 && validator.Ok? && validator.value.version != PROGRAM_VERSION) ==> r == Err(UninitializedAccount))
            && ((a.rent.key == RENT_SYSVAR_ID && a.payer.isSigner && bridge.Ok?
                 && bridge.value.version == PROGRAM_VERSION && chain.Ok? && chain.value.version == PROGRAM_VERSION
                 && validator.Ok? && validator.value.version == PROGRAM_VERSION
                 && validator.value.owner != a.payer.key) ==> r == Err(InvalidArgument))
  {
  }

  /** A successful load: the rent sysvar and a signing payer were given, the
      three accounts hold initialized records, and the validator is the payer's. */
  lemma LoadRecordsOk(s: Store, a: AddSignatureAccounts)
    requires LoadRecords(s, a).Ok?
    ensures var r := LoadRecords(s, a).value;
            && a.rent.key == RENT_SYSVAR_ID && a.payer.isSigner
            && DecodeBridge(Get(s, a.bridge.key).data) == Ok(r.bridge) && r.bridge.version == PROGRAM_VERSION
            && DecodeBlockchain(Get(s, a.blockchain.key).data) == Ok(r.blockchain) && r.blockchain.version == PROGRAM_VERSION
            && DecodeValidator(Get(s, a.validator.key).data) == Ok(r.validator) && r.validator.version == PROGRAM_VERSION
            && r.validator.owner == a.payer.key
  {
  }

  /** After the records, the transfer's source chain: its id must fit four
      bytes and be the validator's chain. */
  lemma SignatureRecordsChain(s: Store, a: AddSignatureAccounts, t: Transfer)
    ensures LoadRecords(s, a).Err? ==> SignatureRecords(s, a, t) == Err(LoadRecords(s, a).error)
    ensures (LoadRecords(s, a).Ok? && |t.source| > 4) ==> SignatureRecords(s, a, t) == Err(Panicked)
    ensures (LoadRecords(s, a).Ok? && |t.source| <= 4
             && LoadRecords(s, a).value.validator.blockchainId != StrToChainId(t.source))
            ==> SignatureRecords(s, a, t) == Err(InvalidArgument)
    ensures SignatureRecords(s, a, t).Ok? <==>
              (LoadRecords(s, a).Ok? && |t.source| <= 4
               && LoadRecords(s, a).value.validator.blockchainId == StrToChainId(t.source))
    ensures SignatureRecords(s, a, t).Ok? ==>
              var l := LoadRecords(s, a).value;
              SignatureRecords(s, a, t).value == Checked(l.bridge, l.blockchain, l.validator, StrToChainId(t.source))
  {
  }

  /** A submission the record checks reject is rejected with their error, before anything is written. */
  lemma SignatureRecordsFirst(h: Host, programId: Pubkey, s: Store, a: AddSignatureAccounts, t: Transfer)
    requires SignatureRecords(s, a, t).Err?
    ensures AddSignatureOn(h, programId, s, a, t) == Err(SignatureRecords(s, a, t).error)
  {
  }

  /** The authority and the lock account a submission that passes the checks names are the derived ones. */
  lemma SignatureChecksSeeds(h: Host, programId: Pubkey, s: Store, a: AddSignatureAccounts, t: Transfer)
    requires SignatureChecks(h, programId, s, a, t).Ok?
    ensures var c := SignatureChecks(h, programId, s, a, t).value;
            && c == SignatureRecords(s, a, t).value
            && h.derive.findProgramAddress([a.bridge.key], programId).0 == a.authority.key
            && ValidUtf8(c.sourceId)
            && Derives(h.derive, programId, a.authority.key, LockSeed(false, TrimNul(c.sourceId), t.lockId), a.lock.key)
  {
  }

  /** Get or create: an empty lock account becomes the transfer's lock, any other is left alone. */
  lemma LockForEffect(h: Host, s: Store, a: AddSignatureAccounts, c: Checked, t: Transfer)
    requires LockFor(h, s, a, c, t).Ok?
    ensures var w := LockFor(h, s, a, c, t).value;
            && (Get(s, a.lock.key).data != [] ==> w == s)
            && (Get(s, a.lock.key).data == [] ==>
                  && |t.tokenSource| <= 4 && |t.destination| <= 4
                  && DecodeLock(Get(w, a.lock.key).data)
                     == Ok(FirstLock(a, c, t, StrToChainId(t.tokenSource), StrToChainId(t.destination)))
                  && Get(w, a.lock.key).lamports == h.minimumBalance(LOCK_LEN))
            && (forall k | k != a.lock.key :: Get(w, k).data == Get(s, k).data)
            && (forall k | k != a.lock.key && k != a.payer.key :: Get(w, k) == Get(s, k))
  {
    if Get(s, a.lock.key).data == [] {
      var lock := FirstLock(a, c, t, StrToChainId(t.tokenSource), StrToChainId(t.destination));
      var funded := Allocate(h, s, a.payer, a.lock.key, LOCK_LEN).value;
      WriteRecordWhole(funded, a.lock.key, EncodeLock(lock));
      DecodeLockEncode(lock);
    }
  }

  /** The signer's half: the signature lands in its own fresh slot, keyed by
      the lock and the validator's index, and the lock counts it. */
  lemma RecordSignatureEffect(h: Host, programId: Pubkey, w: Store, a: AddSignatureAccounts, c: Checked, t: Transfer)
    requires RecordSignature(h, programId, w, a, c, t).Ok?
    ensures DecodeLock(Get(w, a.lock.key).data).Ok?
    ensures var lock := DecodeLock(Get(w, a.lock.key).data).value;
            var r := RecordSignature(h, programId, w, a, c, t).value;
            && lock.version == PROGRAM_VERSION
            && !Occupied(Get(w, a.signature.key))
            && Derives(h.derive, programId, a.authority.key,
                       SignatureSeed(false, TrimNul(c.sourceId), lock.lockId, c.validator.index), a.signature.key)
            && DecodeLock(Get(r, a.lock.key).data) == Ok(lock.(signatures := WrappingInc(lock.signatures)))
            && DecodeSignature(Get(r, a.signature.key).data)
               == Ok(NewSignature(c.sourceId, lock.lockId, a.bridge.key, t.signature, a.validator.key, c.validator.index))
            && Get(r, a.signature.key).lamports == h.minimumBalance(SIGNATURE_LEN)
            && (forall k | k != a.lock.key && k != a.signature.key :: Get(r, k).data == Get(w, k).data)
            && (forall k | k != a.lock.key && k != a.signature.key && k != a.payer.key :: Get(r, k) == Get(w, k))
  {
    var lock := DecodeLock(Get(w, a.lock.key).data).value;
    var sig := NewSignature(c.sourceId, lock.lockId, a.bridge.key, t.signature, a.validator.key, c.validator.index);
    var counted := lock.(signatures := WrappingInc(lock.signatures));
    var funded := Allocate(h, w, a.payer, a.signature.key, SIGNATURE_LEN).value;
    assert a.signature.key != a.lock.key;
    WriteRecordWhole(funded, a.signature.key, EncodeSignature(sig));
    var signed := WriteRecord(funded, a.signature.key, EncodeSignature(sig)).value;
    WriteRecordWhole(signed, a.lock.key, EncodeLock(counted));
    DecodeSignatureEncode(sig);
    DecodeLockEncode(counted);
  }

  /** The first signature of a transfer creates its lock, carrying the
      transfer's fields and a count of one, and stores the signature. */
  lemma AddSignatureFirst(h: Host, programId: Pubkey, s: Store, a: AddSignatureAccounts, t: Transfer)
    requires AddSignatureOn(h, programId, s, a, t).Ok?
    requires Get(s, a.lock.key).data == []
    ensures var c := SignatureChecks(h, programId, s, a, t).value;
            var r := AddSignatureOn(h, programId, s, a, t).value;
            var lock := FirstLock(a, c, t, StrToChainId(t.tokenSource), StrToChainId(t.destination));
            && DecodeLock(Get(r, a.lock.key).data) == Ok(lock.(signatures := 1))
            && DecodeSignature(Get(r, a.signature.key).data)
               == Ok(NewSignature(c.sourceId, t.lockId, a.bridge.key, t.signature, a.validator.key, c.validator.index))
  {
    var c := SignatureChecks(h, programId, s, a, t).value;
    LockForEffect(h, s, a, c, t);
    RecordSignatureEffect(h, programId, LockFor(h, s, a, c, t).value, a, c, t);
  }

  /** Every later signature finds the lock there and only bumps its count. */
  lemma AddSignatureReuse(h: Host, programId: Pubkey, s: Store, a: AddSignatureAccounts, t: Transfer)
    requires AddSignatureOn(h, programId, s, a, t).Ok?
    requires Get(s, a.lock.key).data != []
    ensures DecodeLock(Get(s, a.lock.key).data).Ok?
    ensures var c := SignatureChecks(h, programId, s, a, t).value;
            var r := AddSignatureOn(h, programId, s, a, t).value;
            var lock := DecodeLock(Get(s, a.lock.key).data).value;
            && DecodeLock(Get(r, a.lock.key).data) == Ok(lock.(signatures := WrappingInc(lock.signatures)))
            && DecodeSignature(Get(r, a.signature.key).data)
               == Ok(NewSignature(c.sourceId, lock.lockId, a.bridge.key, t.signature, a.validator.key, c.validator.index))
  {
    var c := SignatureChecks(h, programId, s, a, t).value;
    LockForEffect(h, s, a, c, t);
    RecordSignatureEffect(h, programId, s, a, c, t);
  }

  /** The record checks read only the data of the bridge, blockchain and validator accounts. */
  lemma SignatureChecksOnData(h: Host, programId: Pubkey, s: Store, s': Store, a: AddSignatureAccounts, t: Transfer)
    requires Get(s', a.bridge.key).data == Get(s, a.bridge.key).data
    requires Get(s', a.blockchain.key).data == Get(s, a.blockchain.key).data
    requires Get(s', a.validator.key).data == Get(s, a.validator.key).data
    ensures SignatureChecks(h, programId, s', a, t) == SignatureChecks(h, programId, s, a, t)
  {
    LoadRecordsOnData(s, s', a);
  }

  lemma LoadRecordsOnData(s: Store, s': Store, a: AddSignatureAccounts)
    requires Get(s', a.bridge.key).data == Get(s, a.bridge.key).data
    requires Get(s', a.blockchain.key).data == Get(s, a.blockchain.key).data
    requires Get(s', a.validator.key).data == Get(s, a.validator.key).data
    ensures LoadRecords(s', a) == LoadRecords(s, a)
  {
  }

  /** A validator cannot sign the same transfer twice: submitting the same
      signature again fails, because its slot is taken. */
  lemma AddSignatureOnce(h: Host, programId: Pubkey, s: Store, a: AddSignatureAccounts, t: Transfer)
    requires AddSignatureOn(h, programId, s, a, t).Ok?
    ensures AddSignatureOn(h, programId, AddSignatureOn(h, programId, s, a, t).value, a, t) == Err(AccountAlreadyInUse)
  {
    var c := SignatureChecks(h, programId, s, a, t).value;
    var w := LockFor(h, s, a, c, t).value;
    var r := AddSignatureOn(h, programId, s, a, t).value;
    LoadRecordsOk(s, a);
    SignatureRecordsChain(s, a, t);
    SignatureChecksSeeds(h, programId, s, a, t);
    LockForEffect(h, s, a, c, t);
    RecordSignatureEffect(h, programId, w, a, c, t);
    // the record accounts are neither the lock (their lengths differ) nor the fresh signature slot
    assert |Get(w, a.lock.key).data| == LOCK_LEN;
    assert a.bridge.key != a.lock.key && a.blockchain.key != a.lock.key && a.validator.key != a.lock.key;
    assert Occupied(Get(w, a.bridge.key)) && Occupied(Get(w, a.blockchain.key)) && Occupied(Get(w, a.validator.key));
    SignatureChecksOnData(h, programId, s, r, a, t);
    assert LockFor(h, r, a, c, t) == Ok(r);
    assert Occupied(Get(r, a.signature.key));
  }

  // ---- process_instruction ----

  /** Input that does not decode is refused before any handler runs. */
  lemma UndecodableRejected(h: Host, programId: Pubkey, s: Store, metas: seq<AccountMeta>, input: seq<byte>)
    requires DecodeInstruction(input).Err?
    ensures ProcessInstructionStep(h, programId, s, metas, input) == Err(InvalidInstructionData)
  {
  }

  /** An empty input or a tag past the last variant is refused. */
  lemma UnknownTagDispatch(h: Host, programId: Pubkey, s: Store, metas: seq<AccountMeta>, input: seq<byte>)
    requires input == [] || input[0] > 3
    ensures ProcessInstructionStep(h, programId, s, metas, input) == Err(InvalidInstructionData)
  {
    UnknownTagRejected(input);
  }

  /** What `initialize_bridge` builds is dispatched to `process_init_bridge`
      with the bridge, the owner and the rent sysvar in their places. */
  lemma InitBridgeDispatch(h: Host, programId: Pubkey, s: Store, bridge: Pubkey, owner: Pubkey)
    ensures var ix := InitBridgeInstruction(programId, bridge, owner).value;
            ProcessInstructionStep(h, programId, s, ix.accounts, ix.data)
            == InitBridgeOn(h, s, InitBridgeAccounts(Writable(bridge, false), Readonly(owner, true),
                                                     Readonly(RENT_SYSVAR_ID, false)))
  {
  }

  /** Input that decodes to `AddBlockchain` runs `process_add_blockchain`. */
  lemma AddBlockchainDecoded(h: Host, programId: Pubkey, s: Store, metas: seq<AccountMeta>, input: seq<byte>,
                             blockchainId: seq<byte>, contractAddress: Address)
    requires DecodeInstruction(input) == Ok(AddBlockchain(blockchainId, contractAddress))
    ensures ProcessInstructionStep(h, programId, s, metas, input)
            == AddBlockchainStep(h, programId, s, metas, blockchainId, contractAddress)
  {
  }

  /** `add_blockchain` reads its accounts by position. */
  lemma AddBlockchainAccountsAt(h: Host, programId: Pubkey, s: Store, metas: seq<AccountMeta>,
                                blockchainId: seq<byte>, contractAddress: Address)
    requires |metas| >= 5
    ensures AddBlockchainStep(h, programId, s, metas, blockchainId, contractAddress)
            == AddBlockchainOn(h, programId, s, AddBlockchainAccounts(metas[0], metas[1], metas[2], metas[3], metas[4]),
                               blockchainId, contractAddress)
  {
    assert AddBlockchainAccountsOf(metas) == Ok(AddBlockchainAccounts(metas[0], metas[1], metas[2], metas[3], metas[4]));
  }

  /** Input that decodes to `AddValidator` runs `process_add_validator`. */
  lemma AddValidatorDecoded(h: Host, programId: Pubkey, s: Store, metas: seq<AccountMeta>, input: seq<byte>,
                            blockchainId: seq<byte>, pubKey: Address)
    requires DecodeInstruction(input) == Ok(AddValidator(blockchainId, pubKey))
    ensures ProcessInstructionStep(h, programId, s, metas, input)
            == AddValidatorStep(h, programId, s, metas, blockchainId, pubKey)
  {
  }

  /** `add_validator` reads its accounts by position. */
  lemma AddValidatorAccountsAt(h: Host, programId: Pubkey, s: Store, metas: seq<AccountMeta>,
                               blockchainId: seq<byte>, pubKey: Address)
    requires |metas| >= 6
    ensures AddValidatorStep(h, programId, s, metas, blockchainId, pubKey)
            == AddValidatorOn(h, programId, s,
                              AddValidatorAccounts(metas[0], metas[1], metas[2], metas[3], metas[4], metas[5]),
                              blockchainId, pubKey)
  {
    assert AddValidatorAccountsOf(metas)
        == Ok(AddValidatorAccounts(metas[0], metas[1], metas[2], metas[3], metas[4], metas[5]));
  }

  /** What `add_blockchain` builds is dispatched to `process_add_blockchain`. */
  lemma AddBlockchainDispatch(h: Host, programId: Pubkey, s: Store, bridge: Pubkey, blockchain: Pubkey,
                              payer: Pubkey, authority: Pubkey, blockchainId: seq<byte>, contractAddress: Address,
                              ix: Instruction)
    requires ValidUtf8(blockchainId)
    requires AddBlockchainInstruction(programId, bridge, blockchain, payer, authority, blockchainId, contractAddress)
             == Ok(ix)
    ensures ProcessInstructionStep(h, programId, s, ix.accounts, ix.data)
            == AddBlockchainOn(h, programId, s,
                               AddBlockchainAccounts(Writable(bridge, false), Writable(blockchain, false),
                                                     Readonly(payer, true), Readonly(authority, false),
                                                     Readonly(RENT_SYSVAR_ID, false)),
                               blockchainId, contractAddress)
  {
    AddBlockchainDecoded(h, programId, s, ix.accounts, ix.data, blockchainId, contractAddress);
    AddBlockchainAccountsAt(h, programId, s, ix.accounts, blockchainId, contractAddress);
  }

  /** What `add_validator` builds is dispatched to `process_add_validator`. */
  lemma AddValidatorDispatch(h: Host, programId: Pubkey, s: Store, bridge: Pubkey, blockchain: Pubkey,
                             validator: Pubkey, payer: Pubkey, authority: Pubkey,
                             blockchainId: seq<byte>, pubKey: Address, ix: Instruction)
    requires ValidUtf8(blockchainId)
    requires AddValidatorInstruction(programId, bridge, blockchain, validator, payer, authority, blockchainId, pubKey)
             == Ok(ix)
    ensures ProcessInstructionStep(h, programId, s, ix.accounts, ix.data)
            == AddValidatorOn(h, programId, s,
                              AddValidatorAccounts(Writable(bridge, false), Writable(blockchain, false),
                                                   Writable(validator, false), Readonly(payer, true),
                                                   Readonly(authority, false), Readonly(RENT_SYSVAR_ID, false)),
                              blockchainId, pubKey)
  {
    AddValidatorDecoded(h, programId, s, ix.accounts, ix.data, blockchainId, pubKey);
    AddValidatorAccountsAt(h, programId, s, ix.accounts, blockchainId, pubKey);
  }

  /** Input that decodes to `AddSignature` runs `process_add_signature` on the reported transfer. */
  lemma AddSignatureDecoded(h: Host, programId: Pubkey, s: Store, metas: seq<AccountMeta>, input: seq<byte>, t: Transfer)
    requires DecodeInstruction(input) == Ok(AddSignature(t.signature, t.tokenSource, t.tokenSourceAddress, t.source,
                                                         t.lockId, t.destination, t.recipient, t.amount))
    ensures ProcessInstructionStep(h, programId, s, metas, input) == AddSignatureStep(h, programId, s, metas, t)
  {
  }

  /** `add_signature` reads its accounts by position. */
  lemma AddSignatureAccountsAt(h: Host, programId: Pubkey, s: Store, metas: seq<AccountMeta>, t: Transfer)
    requires |metas| >= 8
    ensures AddSignatureStep(h, programId, s, metas, t)
            == AddSignatureOn(h, programId, s,
                              AddSignatureAccounts(metas[0], metas[1], metas[2], metas[3], metas[4], metas[5],
                                                   metas[6], metas[7]), t)
  {
    assert AddSignatureAccountsOf(metas)
        == Ok(AddSignatureAccounts(metas[0], metas[1], metas[2], metas[3], metas[4], metas[5], metas[6], metas[7]));
  }

  /** What `add_signature` builds is dispatched to `process_add_signature` with the reported transfer. */
  lemma AddSignatureDispatch(h: Host, programId: Pubkey, s: Store, bridge: Pubkey, blockchain: Pubkey,
                             validator: Pubkey, lock: Pubkey, signature: Pubkey, authority: Pubkey, payer: Pubkey,
                             t: Transfer, ix: Instruction)
    requires ValidUtf8(t.tokenSource) && ValidUtf8(t.source) && ValidUtf8(t.destination)
    requires AddSignatureInstruction(programId, bridge, blockchain, validator, lock, signature, authority, payer,
                                     t.signature, t.tokenSource, t.tokenSourceAddress, t.source, t.lockId,
                                     t.destination, t.recipient, t.amount) == Ok(ix)
    ensures ProcessInstructionStep(h, programId, s, ix.accounts, ix.data)
            == AddSignatureOn(h, programId, s,
                              AddSignatureAccounts(Writable(bridge, false), Writable(blockchain, false),
                                                   Writable(validator, false), Writable(lock, false),
                                                   Writable(signature, false), Readonly(authority, false),
                                                   Readonly(payer, true), Readonly(RENT_SYSVAR_ID, false)),
                              t)
  {
    AddSignatureDecoded(h, programId, s, ix.accounts, ix.data, t);
    AddSignatureAccountsAt(h, programId, s, ix.accounts, t);
  }
}
