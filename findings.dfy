/** Five places where `process_add_signature` does not do what the rest of
    the program and its tests expect. Each is written here as the code has
    it, next to a lemma that exhibits the discrepancy; the rest of the model
    uses the corrected behaviour (`Processor.SignatureRecords`,
    `Processor.SignatureChecks`, `Processor.RecordSignature`). */
module Findings {
  import opened Bytes
  import opened Errors
  import opened Text
  import opened Decimal
  import opened Utf8
  import opened Lib
  import opened Sdk
  import opened State
  import opened Utils
  import opened Processor
  import opened ProcessorLemmas

  // ---- 1. the validator's chain is compared with the destination ----

  /** The chain check as written: against the transfer's destination chain. */
  function DestinationCheckAsWritten(validator: Validator, t: Transfer): (r: ProgramResult)
    ensures r.Ok? <==> |t.destination| <= 4 && validator.blockchainId == StrToChainId(t.destination)
  {
    var destinationId :- ChainIdOf(t.destination);
    Require(validator.blockchainId == destinationId, InvalidArgument)
  }

  /** A validator of the source chain, signing a transfer to another chain,
      is refused as written and accepted by the corrected check. */
  lemma DestinationCheckRefusesCrossChain(validator: Validator, t: Transfer)
    requires |t.source| <= 4 && |t.destination| <= 4
    requires validator.blockchainId == StrToChainId(t.source)
    requires StrToChainId(t.source) != StrToChainId(t.destination)
    ensures DestinationCheckAsWritten(validator, t) == Err(InvalidArgument)
    ensures ValidatorChainCheck(validator, StrToChainId(t.source)) == Ok(())
  {
  }

  /** The chains of the tests' transfer are told apart by their first byte. */
  lemma EthIsNotBsc()
    ensures StrToChainId(Ascii("ETH")) != StrToChainId(Ascii("BSC"))
  {
    assert Ascii("ETH")[0] == 0x45 && Ascii("BSC")[0] == 0x42;
    assert StrToChainId(Ascii("ETH"))[0] != StrToChainId(Ascii("BSC"))[0];
  }

  /** The transfer of the tests: a validator registered on "ETH" signs a
      transfer from "ETH" to "BSC". As written the submission stops at the
      chain check; with the correction the record checks pass. */
  lemma TestTransferChainCheck(s: Store, a: AddSignatureAccounts, t: Transfer)
    requires t.source == Ascii("ETH") && t.destination == Ascii("BSC")
    requires LoadRecords(s, a).Ok?
    requires LoadRecords(s, a).value.validator.blockchainId == StrToChainId(Ascii("ETH"))
    ensures DestinationCheckAsWritten(LoadRecords(s, a).value.validator, t) == Err(InvalidArgument)
    ensures SignatureRecords(s, a, t).Ok?
  {
    EthIsNotBsc();
    DestinationCheckRefusesCrossChain(LoadRecords(s, a).value.validator, t);
    SignatureRecordsChain(s, a, t);
  }

  // ---- 2. the lock seed is checked against the validator account ----

  /** The lock seed of the private helper in processor.rs: the lock's index
      alone. The call site reads the index from `Bridge`, which has no such
      field; the blockchain's counter stands in for it, as in the corrected model. */
  function PrivateLockSeed(index: u64): seq<byte> {
    Ascii("lock_") + Dec(index)
  }

  /** The lock-seed check as written: the derived address is compared with the validator account. */
  function LockSeedCheckAsWritten(d: Derivation, programId: Pubkey, a: AddSignatureAccounts, c: Checked)
    : (r: Result<seq<byte>>)
    ensures r.Ok? <==> Derives(d, programId, a.authority.key, PrivateLockSeed(c.blockchain.locks), a.validator.key)
    ensures r.Ok? ==> r.value == PrivateLockSeed(c.blockchain.locks)
  {
    CheckAndGetAccountSeed(d, programId, PrivateLockSeed(c.blockchain.locks), a.authority.key, a.validator.key)
  }

  /** The lock account at its derived address is refused as written whenever
      it is not the validator account itself; the same check made against the
      lock account accepts it. */
  lemma LockSeedCheckRefusesDerivedLock(d: Derivation, programId: Pubkey, a: AddSignatureAccounts, c: Checked)
    requires Derives(d, programId, a.authority.key, PrivateLockSeed(c.blockchain.locks), a.lock.key)
    requires a.lock.key != a.validator.key
    ensures LockSeedCheckAsWritten(d, programId, a, c) == Err(InvalidSeeds)
    ensures CheckAndGetAccountSeed(d, programId, PrivateLockSeed(c.blockchain.locks), a.authority.key, a.lock.key)
            == Ok(PrivateLockSeed(c.blockchain.locks))
  {
  }

  /** Distinct seeds give distinct addresses under one authority. */
  ghost predicate SeedsSeparate(d: Derivation, programId: Pubkey, authority: Pubkey) {
    forall s1, s2 | s1 != s2 && d.createWithSeed(authority, s1, programId).Ok? ::
      d.createWithSeed(authority, s1, programId) != d.createWithSeed(authority, s2, programId)
  }

  /** With addresses that separate seeds, the check as written refuses every
      validator that `process_add_validator` registered: its account sits at
      a validator seed, never at a lock seed. */
  lemma LockSeedCheckRefusesEveryValidator(d: Derivation, programId: Pubkey, a: AddSignatureAccounts, c: Checked,
                                           chain: seq<byte>, index: u64)
    requires SeedsSeparate(d, programId, a.authority.key)
    requires Derives(d, programId, a.authority.key, ValidatorSeed(chain, index), a.validator.key)
    ensures LockSeedCheckAsWritten(d, programId, a, c).Err?
  {
    assert PrivateLockSeed(c.blockchain.locks)[0] == 108;
    assert ValidatorSeed(chain, index)[0] == 118;
  }

  // ---- 3. the signature seed is derived under the validator's key ----

  /** The signature seed of the private helper in processor.rs: the lock's id
      and a second number, the lock's signature count at the call site. */
  function PrivateSignatureSeed(lockId: u64, index: u64): seq<byte> {
    Ascii("signature_") + Separated(Dec(lockId), Dec(index))
  }

  /** The signature-seed check as written: the address is derived with the
      validator account's key as its base, and compared with the signature account. */
  function SignatureSeedCheckAsWritten(d: Derivation, programId: Pubkey, a: AddSignatureAccounts, lock: Lock)
    : (r: Result<seq<byte>>)
    ensures r.Ok? <==>
              Derives(d, programId, a.validator.key, PrivateSignatureSeed(lock.lockId, lock.signatures), a.signature.key)
    ensures r.Ok? ==> r.value == PrivateSignatureSeed(lock.lockId, lock.signatures)
  {
    CheckAndGetAccountSeed(d, programId, PrivateSignatureSeed(lock.lockId, lock.signatures),
                           a.validator.key, a.signature.key)
  }

  /** One seed gives distinct addresses under distinct bases. */
  ghost predicate BasesSeparate(d: Derivation, programId: Pubkey, seed: seq<byte>) {
    forall b1, b2 | b1 != b2 && d.createWithSeed(b1, seed, programId).Ok? ::
      d.createWithSeed(b1, seed, programId) != d.createWithSeed(b2, seed, programId)
  }

  /** The system program creates the signature account at the address derived
      under the bridge authority. With addresses that separate bases, that
      account fails the check as written, which derives under the validator's
      key; the check under the authority, as corrected, accepts it. */
  lemma SignatureSeedCheckRefusesAuthoritySlot(d: Derivation, programId: Pubkey, a: AddSignatureAccounts, lock: Lock)
    requires BasesSeparate(d, programId, PrivateSignatureSeed(lock.lockId, lock.signatures))
    requires a.validator.key != a.authority.key
    requires Derives(d, programId, a.authority.key, PrivateSignatureSeed(lock.lockId, lock.signatures), a.signature.key)
    ensures SignatureSeedCheckAsWritten(d, programId, a, lock).Err?
    ensures CheckAndGetAccountSeed(d, programId, PrivateSignatureSeed(lock.lockId, lock.signatures),
                                   a.authority.key, a.signature.key)
            == Ok(PrivateSignatureSeed(lock.lockId, lock.signatures))
  {
  }

  // ---- 4. the lock's signature count is never raised ----

  /** The signer's half as written in what it stores: the signature record is
      written and the lock is not. The seed check is the corrected one, so that
      this half can succeed at all. */
  function RecordSignatureAsWritten(h: Host, programId: Pubkey, s: Store, a: AddSignatureAccounts, c: Checked,
                                    t: Transfer): Result<Store> {
    var lock :- DecodeLock(Get(s, a.lock.key).data);
    var _ :- CheckInitialized(lock.version, true);
    var _ :- CheckAndGetSignatureAccountSeed(h.derive, programId, c.sourceId, lock.lockId, c.validator.index, false,
                                              a.authority.key, a.signature.key);
    var funded :- Allocate(h, s, a.payer, a.signature.key, SIGNATURE_LEN);
    WriteRecord(funded, a.signature.key,
                EncodeSignature(NewSignature(c.sourceId, lock.lockId, a.bridge.key, t.signature,
                                             a.validator.key, c.validator.index)))
  }

  /** As written, an accepted signature leaves the lock's count where it was:
      the first submission leaves it at 0 where the tests expect 1. */
  lemma SignatureNotCounted(h: Host, programId: Pubkey, s: Store, a: AddSignatureAccounts, c: Checked, t: Transfer)
    requires LockFor(h, s, a, c, t).Ok?
    requires RecordSignatureAsWritten(h, programId, LockFor(h, s, a, c, t).value, a, c, t).Ok?
    ensures var w := LockFor(h, s, a, c, t).value;
            var r := RecordSignatureAsWritten(h, programId, w, a, c, t).value;
            && DecodeLock(Get(r, a.lock.key).data) == DecodeLock(Get(w, a.lock.key).data)
            && (Get(s, a.lock.key).data == [] ==> DecodeLock(Get(r, a.lock.key).data).value.signatures == 0)
  {
    var w := LockFor(h, s, a, c, t).value;
    LockForEffect(h, s, a, c, t);
    var lock := DecodeLock(Get(w, a.lock.key).data).value;
    var funded := Allocate(h, w, a.payer, a.signature.key, SIGNATURE_LEN).value;
    assert a.signature.key != a.lock.key;
    WriteRecordWhole(funded, a.signature.key,
                     EncodeSignature(NewSignature(c.sourceId, lock.lockId, a.bridge.key, t.signature,
                                                  a.validator.key, c.validator.index)));
  }

  // ---- 5. the private signature seed does not name the validator ----

  /** With the count that never moves, every validator signing one lock is
      sent to the same slot by the private seed, so once the first signature
      is stored, the next validator's allocation fails. */
  lemma PrivateSeedSharedSlot(h: Host, programId: Pubkey, authority: Pubkey, s: Store, payer: AccountMeta,
                              lock: Lock, first: Pubkey, next: Pubkey)
    requires Derives(h.derive, programId, authority, PrivateSignatureSeed(lock.lockId, lock.signatures), first)
    requires Derives(h.derive, programId, authority, PrivateSignatureSeed(lock.lockId, lock.signatures), next)
    requires Occupied(Get(s, first))
    ensures next == first
    ensures Allocate(h, s, payer, next, SIGNATURE_LEN) == Err(AccountAlreadyInUse)
  {
  }

  /** The seed of the model names the validator's index: with addresses that
      separate seeds, two validators signing one lock get two slots. */
  lemma ValidatorSlotsDistinct(d: Derivation, programId: Pubkey, authority: Pubkey, chain: seq<byte>, lockId: u64,
                               v1: u64, v2: u64, k1: Pubkey, k2: Pubkey)
    requires SeedsSeparate(d, programId, authority)
    requires v1 != v2
    requires Derives(d, programId, authority, SignatureSeed(false, chain, lockId, v1), k1)
    requires Derives(d, programId, authority, SignatureSeed(false, chain, lockId, v2), k2)
    ensures k1 != k2
  {
    if SignatureSeed(false, chain, lockId, v1) == SignatureSeed(false, chain, lockId, v2) {
      SignatureSeedInjective(chain, false, lockId, v1, false, lockId, v2);
    }
  }
}
