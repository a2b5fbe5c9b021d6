# Allbridge master contract: a Dafny model

This project models the on-chain core of the Allbridge master contract, a Solana
program that keeps a registry of bridged blockchains and their validators and
collects validator signatures over cross-chain transfers ("locks").

The model covers four source files:

- **Record layer** (`src/state.rs`): the seven account records, which are
  `Bridge`, `Blockchain`, `Validator`, `Lock`, `Signature`, `User` and `LockTx`.
  - Each record has its Borsh byte layout, its `LEN` constant, its `new`
    constructor and its `check_initialized` guard.
  - Byte encodings are proved to round-trip. A decode that succeeds is proved
    canonical: it succeeds only on exactly `LEN` bytes that re-encode to the
    same bytes.
- **Seed and authority helpers** (`src/utils.rs`).
  - The 4-byte chain-id codec (`str_to_chain_id`, `chain_id_to_str`), including
    UTF-8 validation and NUL trimming.
  - Every `check_and_get_*_account_seed` function.
  - `validate_authority_and_get_bump_seed` and its two wrappers.
  - Seeds are built byte by byte, exactly as `format!` renders them. The
    model proves that the four seed families derived from the bridge
    authority (blockchain, validator, lock, signature) cannot collide, nor
    can the three derived from a user's authority (user, sent, received).
    It also proves that the validator, lock, signature and lock-transaction
    seeds are injective in their numbers.
- **Instruction codec and builders** (`src/instruction.rs`): the
  `BridgeProgramInstruction` enum with its Borsh tag and fields, and the four
  client-side builders with their exact account lists.
- **Processor** (`src/processor.rs`): `process_init_bridge`,
  `process_add_blockchain`, `process_add_validator`, `process_add_signature` and
  `process_instruction`.
  - Each handler is a pure function over an account store (`Processor.Store`,
    a map from keys to data and lamports). Its guards come in the source's
    order, with the source's error codes, except for the chain-id conversion
    listed under "Left out".
  - Each handler is also an imperative method of the class `Processor.Ledger`.
    The method works on a copy of the accounts and commits only on success,
    as the Solana runtime does when an instruction fails. Each method is
    proved equal to its function.

Two host services are modelled as parameters (`Processor.Host`), because the
program cannot see their implementation:

- address derivation: `Pubkey::create_with_seed` and
  `Pubkey::find_program_address` (`Utils.Derivation`);
- the rent schedule: `Rent::minimum_balance`.

The system program's `create_account_with_seed` is modelled by
`Processor.Allocate`. It refuses an address that already holds data or
lamports, requires the payer's signature, refuses a payer that holds data
(the system transfer's `InvalidArgument`), requires the payer's balance, and funds the new
account, which starts with zeroed data.

The source's files disagree with each other, and parts of them do not compile
together. The model follows these rules:

- record shapes come from `src/state.rs`;
- seeds and checks come from `src/utils.rs`;
- the order of guards and the flow of each handler come from `src/processor.rs`.

Calls with the wrong number of arguments, the unused `SigType` import and the
missing `is_initialized` method are read through to their evident meaning. An
account counts as initialized when `version == PROGRAM_VERSION`, where
`PROGRAM_VERSION` is 1 (`src/lib.rs:12`). Five defects of
`process_add_signature` are logged under "## Findings". For each one, the
as-written behaviour is in module `Findings` and the corrected behaviour is in
the processor.

Modules, one per concern:

- `Bytes`: byte and integer types, little-endian integers, wrap-around.
- `Errors`: `ProgramError` and `Result`.
- `Text`, `Utf8`, `Decimal`: ASCII literals, UTF-8 validity, decimal
  rendering of `u64`, NUL trimming.
- `Lib` and `Sdk`: the program version, sysvar ids, account metas.
- `Borsh`: a schema-driven Borsh codec.
- `State`: the records.
- `Utils`: seeds and authorities.
- `Instructions`: the instruction enum and its builders.
- `Processor`: the store, the handlers and the `Ledger` class.
- `ProcessorLemmas`: properties of the handlers.
- `Findings`: the source's defects, as written.

## Model

| member | source | states |
|---|---|---|
| Bytes.Zeros | src/utils.rs:160-191 | the data of a freshly created account: exactly `n` bytes, all zero |
| Bytes.WrappingInc | src/processor.rs:276 | `+= 1` on a `u64` counter: one more below 2^64, 0 when the counter was 2^64-1 |
| Bytes.Pow256 | src/state.rs:53-72 | the range bound of a `width`-byte integer field is positive |
| Bytes.LeBytes | src/state.rs:53-72 | a Borsh integer field has exactly `width` bytes |
| Bytes.FromLe | src/state.rs:53-72 | the value read from `k` little-endian bytes is below 256^k |
| Bytes.FromLeLeBytes | src/state.rs:53-72 | writing a `u64`/`u32` in little-endian and reading it back gives the same number |
| Bytes.LeBytesFromLe | src/state.rs:53-72 | reading little-endian bytes and writing the number back gives the same bytes |
| Bytes.LeBytesOfZero | src/state.rs:53-72 | the number 0 is written as all-zero bytes |
| Bytes.FromLeOfZeros | src/state.rs:53-72 | all-zero bytes read as 0 |
| Bytes.PowWidths | src/state.rs:53-72 | 4-byte and 8-byte fields span exactly the `u32` and `u64` ranges |
| Errors.Require | src/utils.rs:139-141 | a guard succeeds exactly when its condition holds, and otherwise fails with its error |
| Utf8.CharWidth | src/utils.rs:125-129 | the width of the UTF-8 character at the front is at most 4; it is 1 exactly for an ASCII lead byte |
| Utf8.CharWidthExtends | src/utils.rs:125-129 | a complete character at the front is read the same when more bytes follow |
| Utf8.ConcatValid | src/utils.rs:26-34 | two valid UTF-8 texts concatenate to valid UTF-8 (what `format!` relies on) |
| Utf8.AsciiValid | src/utils.rs:26-34 | ASCII bytes are valid UTF-8 |
| Utf8.ContinuationFirstInvalid | src/utils.rs:125-129 | `from_utf8` rejects text that starts with a lone continuation byte |
| Decimal.Dec | src/utils.rs:36-45 | decimal rendering of a number: one or more digits; a single digit exactly below 10; no leading zero |
| Decimal.DecRoundTrip | src/utils.rs:36-45 | reading the decimal digits of `n` gives back `n` |
| Decimal.DecInjective | src/utils.rs:36-45 | distinct numbers render to distinct digit strings |
| Decimal.DecZero | src/utils.rs:36-45 | 0 renders as the single digit `0` |
| Text.TrimStartBound | src/utils.rs:128 | the number of leading NULs: every byte before it is NUL, the byte at it is not |
| Text.TrimEndBound | src/utils.rs:128 | the start of the trailing NUL run: every byte from it is NUL, the byte before it is not |
| Text.TrimNul | src/utils.rs:128 | `trim_matches('\0')`: a slice of the input with only NULs removed at each end and no NUL left at either end |
| Text.TrimNulPadded | src/utils.rs:118-129 | NUL padding is undone by trimming when the text has no NUL at either end |
| Borsh.DecodeValue | src/processor.rs:157 | a decoded field has the requested kind and consumes exactly its width; every failure is `BorshIoError` |
| Borsh.DecodeString | src/processor.rs:431 | a Borsh string is a 4-byte length followed by valid UTF-8; it consumes input; a failure is `BorshIoError` |
| Borsh.DecodeValues | src/processor.rs:157 | decoded fields match the layout; a fixed layout consumes exactly its size; a failure is `BorshIoError` |
| Borsh.TryFromSlice | src/processor.rs:157 | `try_from_slice` decodes the whole input to values of the layout; fixed layouts need exactly `Size` bytes |
| Borsh.ZeroValue | src/state.rs:19 | a zero-valued field of every fixed kind exists |
| Borsh.ZeroValues | src/state.rs:19 | a fixed layout has an all-zero value list |
| Borsh.LayoutAppend | src/state.rs:152-191 | two layouts one after the other are fixed iff both are, and their sizes add up |
| Borsh.HasKindsEncodable | src/state.rs:19 | values that match a layout are all encodable |
| Borsh.HasKindsTail | src/state.rs:19 | matching a layout splits into its first field and the rest |
| Borsh.DecodeEncodeValue | src/processor.rs:157 | decoding an encoded field gives it back and leaves the remaining bytes alone |
| Borsh.DecodeEncodeString | src/processor.rs:431 | decoding an encoded string gives it back and leaves the remaining bytes alone |
| Borsh.DecodeStringAt | src/processor.rs:431 | a length prefix followed by that many bytes of valid UTF-8 decodes to that string |
| Borsh.LengthPrefix | src/processor.rs:431 | a 4-byte length prefix reads back as the length and is followed by the payload |
| Borsh.DecodeValuesCons | src/processor.rs:157 | fields decode one after the other |
| Borsh.DecodeEncodeValues | src/processor.rs:157 | decoding encoded fields gives them back, with trailing bytes left over |
| Borsh.TryFromSliceEncode | src/processor.rs:157 | `try_from_slice` of `serialize` gives the values back |
| Borsh.DecodeValueCanonical | src/processor.rs:157 | a field that decodes is the encoding of what it decodes to |
| Borsh.DecodeValuesCanonical | src/processor.rs:157 | input that decodes is the encoding of its values followed by what is left over |
| Borsh.TryFromSliceCanonical | src/processor.rs:157 | input that `try_from_slice` accepts is exactly the encoding of its result |
| Borsh.EncodedSize | src/state.rs:29 | the encoding of a fixed layout has exactly its size |
| Borsh.ZeroValuesEncodeToZeros | src/state.rs:19 | the all-zero value list encodes to all-zero bytes |
| Borsh.DecodeZeros | src/processor.rs:157 | all-zero data of the right size decodes to the all-zero values |
| State.CheckInitialized | src/state.rs:38-47 | `check_initialized`: succeeds iff `version == PROGRAM_VERSION` matches the expectation; otherwise `UninitializedAccount` or `AccountAlreadyInitialized` |
| State.NewBridge | src/state.rs:31-36 | a new bridge has the current version and the given owner |
| State.NewBlockchain | src/state.rs:78-87 | a new blockchain has the current version, zero validators and locks, and the given fields |
| State.NewValidator | src/state.rs:126-134 | a new validator has the current version and the given fields |
| State.NewLock | src/state.rs:197-213 | a new lock has the current version, zero signatures, and the given fields |
| State.NewSignature | src/state.rs:251-266 | a new signature has the current version and the given fields |
| State.NewUser | src/state.rs:301-310 | a new user has the current version, zero sent and received counts, and the given fields |
| State.NewLockTx | src/state.rs:347-356 | a new lock transaction has the current version and the given fields |
| State.BridgeLayoutSize | src/state.rs:29 | the Borsh layout of `Bridge` is fixed-width and 33 bytes, the `LEN` constant |
| State.BridgeValues | src/state.rs:20-25 | the fields of a `Bridge`, in declaration order, match its layout |
| State.BridgeValuesOf | src/state.rs:20-25 | any value list of the layout is the field list of the record built from it |
| State.EncodeBridge | src/state.rs:29 | a serialized `Bridge` has exactly `LEN` bytes |
| State.DecodeBridge | src/state.rs:20-29 | a successful decode consumes exactly `LEN` bytes that re-encode to the input; a failure is `BorshIoError` |
| State.DecodeBridgeEncode | src/state.rs:20-29 | decoding a serialized `Bridge` gives it back |
| State.DecodeBridgeZeros | src/state.rs:38-47 | a zeroed account of `LEN` bytes decodes as version 0 and is refused as uninitialized |
| State.BlockchainLayoutSize | src/state.rs:76 | the layout of `Blockchain` is fixed-width and 85 bytes, the `LEN` constant |
| State.BlockchainValues | src/state.rs:53-72 | the fields of a `Blockchain` match its layout |
| State.BlockchainValuesOf | src/state.rs:53-72 | any value list of the layout is the field list of the record built from it |
| State.EncodeBlockchain | src/state.rs:76 | a serialized `Blockchain` has exactly `LEN` bytes |
| State.DecodeBlockchain | src/state.rs:53-76 | a successful decode is canonical and exactly `LEN` bytes; a failure is `BorshIoError` |
| State.DecodeBlockchainEncode | src/state.rs:53-76 | decoding a serialized `Blockchain` gives it back |
| State.DecodeBlockchainZeros | src/state.rs:89-98 | a zeroed account decodes as version 0 and is refused as uninitialized |
| State.ValidatorLayoutSize | src/state.rs:124 | the layout of `Validator` is fixed-width and 77 bytes, the `LEN` constant |
| State.ValidatorValues | src/state.rs:104-120 | the fields of a `Validator` match its layout |
| State.ValidatorValuesOf | src/state.rs:104-120 | any value list of the layout is the field list of the record built from it |
| State.EncodeValidator | src/state.rs:124 | a serialized `Validator` has exactly `LEN` bytes |
| State.DecodeValidator | src/state.rs:104-124 | a successful decode is canonical and exactly `LEN` bytes; a failure is `BorshIoError` |
| State.DecodeValidatorEncode | src/state.rs:104-124 | decoding a serialized `Validator` gives it back |
| State.DecodeValidatorZeros | src/state.rs:136-145 | a zeroed account decodes as version 0 and is refused as uninitialized |
| State.LockHalvesSize | src/state.rs:152-191 | the first six fields of `Lock` take 145 bytes and the last seven take 92 |
| State.LockLayoutSize | src/state.rs:195 | the layout of `Lock` is fixed-width and 237 bytes, the `LEN` constant |
| State.LockValues | src/state.rs:152-191 | the fields of a `Lock` match its layout |
| State.LockValuesOf | src/state.rs:152-191 | any value list of the layout is the field list of the record built from it |
| State.EncodeLock | src/state.rs:195 | a serialized `Lock` has exactly `LEN` bytes |
| State.DecodeLock | src/state.rs:152-195 | a successful decode is canonical and exactly `LEN` bytes; a failure is `BorshIoError` |
| State.DecodeLockEncode | src/state.rs:152-195 | decoding a serialized `Lock` gives it back |
| State.DecodeLockZeros | src/state.rs:215-224 | a zeroed account decodes as version 0 and is refused as uninitialized |
| State.SignatureLayoutSize | src/state.rs:249 | the layout of `Signature` is fixed-width and 150 bytes, the `LEN` constant |
| State.SignatureValues | src/state.rs:230-245 | the fields of a `Signature` match its layout |
| State.SignatureValuesOf | src/state.rs:230-245 | any value list of the layout is the field list of the record built from it |
| State.EncodeSignature | src/state.rs:249 | a serialized `Signature` has exactly `LEN` bytes |
| State.DecodeSignature | src/state.rs:230-249 | a successful decode is canonical and exactly `LEN` bytes; a failure is `BorshIoError` |
| State.DecodeSignatureEncode | src/state.rs:230-249 | decoding a serialized `Signature` gives it back |
| State.DecodeSignatureZeros | src/state.rs:268-277 | a zeroed account decodes as version 0 and is refused as uninitialized |
| State.UserLayoutSize | src/state.rs:299 | the layout of `User` is fixed-width and 53 bytes, the `LEN` constant |
| State.UserValues | src/state.rs:284-295 | the fields of a `User` match its layout |
| State.UserValuesOf | src/state.rs:284-295 | any value list of the layout is the field list of the record built from it |
| State.EncodeUser | src/state.rs:299 | a serialized `User` has exactly `LEN` bytes |
| State.DecodeUser | src/state.rs:284-299 | a successful decode is canonical and exactly `LEN` bytes; a failure is `BorshIoError` |
| State.DecodeUserEncode | src/state.rs:284-299 | decoding a serialized `User` gives it back |
| State.DecodeUserZeros | src/state.rs:313-322 | a zeroed account decodes as version 0 and is refused as uninitialized |
| State.LockTxLayoutSize | src/state.rs:345 | the layout of `LockTx` is fixed-width and 110 bytes, the `LEN` constant |
| State.LockTxValues | src/state.rs:328-341 | the fields of a `LockTx` match its layout |
| State.LockTxValuesOf | src/state.rs:328-341 | any value list of the layout is the field list of the record built from it |
| State.EncodeLockTx | src/state.rs:345 | a serialized `LockTx` has exactly `LEN` bytes |
| State.DecodeLockTx | src/state.rs:328-345 | a successful decode is canonical and exactly `LEN` bytes; a failure is `BorshIoError` |
| State.DecodeLockTxEncode | src/state.rs:328-345 | decoding a serialized `LockTx` gives it back |
| State.DecodeLockTxZeros | src/state.rs:359-368 | a zeroed account decodes as version 0 and is refused as uninitialized |
| Utils.StrToChainId | src/utils.rs:118-123 | the text's bytes come first in the 4-byte id, and NULs fill the rest |
| Utils.ChainIdOf | src/utils.rs:118-123 | at most 4 bytes give the padded id; longer text is a panic (`copy_from_slice` out of range) |
| Utils.ChainIdToStr | src/utils.rs:125-129 | fails with `InvalidArgument` exactly when the id is not UTF-8; otherwise it gives the NUL-trimmed text, which is valid UTF-8 |
| Utils.DropLeadingNulValid | src/utils.rs:128 | removing a leading NUL keeps text valid |
| Utils.DropTrailingNulValid | src/utils.rs:128 | removing a trailing NUL keeps text valid |
| Utils.TrimStartValid | src/utils.rs:128 | trimming leading NULs keeps text valid |
| Utils.TrimEndValid | src/utils.rs:128 | trimming trailing NULs keeps text valid |
| Utils.TrimNulValid | src/utils.rs:125-129 | the trimmed chain name of a valid id is valid UTF-8 |
| Utils.ChainIdRoundTrip | src/utils.rs:118-129 | `chain_id_to_str(str_to_chain_id(s)) == Ok(s)` for text of at most 4 bytes with no NUL at either end |
| Utils.EthChainId | tests/tests.rs:278-282 | "ETH" becomes `[0x45, 0x54, 0x48, 0]` and reads back as "ETH" |
| Utils.BlockchainSeed | src/utils.rs:32 | the bytes of `blockchain_<chain>` |
| Utils.ValidatorSeed | src/utils.rs:43 | the bytes of `validator_<chain>_<index>`, the index in decimal |
| Utils.LockSeed | src/utils.rs:55 | the bytes of `lock_<chain>_<id>` or `revert_<chain>_<id>` |
| Utils.SignatureSeed | src/utils.rs:68 | the bytes of `signature_<lock or revert>_<chain>_<id>_<validator>` |
| Utils.Derives | src/utils.rs:151-155 | the account is the address `create_with_seed` gives for the authority, the seed and the program id |
| Utils.CheckAndGetAccountSeed | src/utils.rs:146-158 | succeeds iff the seed derives the account, and returns the seed; a derivation error is passed on; otherwise `InvalidSeeds` |
| Utils.CheckAndGetBlockchainAccountSeed | src/utils.rs:26-34 | `InvalidArgument` for a non-UTF-8 id; otherwise succeeds iff `blockchain_<chain>` derives the account, and returns that seed |
| Utils.CheckAndGetValidatorAccountSeed | src/utils.rs:36-45 | as above, for the seed `validator_<chain>_<index>` |
| Utils.CheckAndGetLockAccountSeed | src/utils.rs:47-57 | as above, for the seed `lock_<chain>_<id>` or `revert_<chain>_<id>` |
| Utils.CheckAndGetSignatureAccountSeed | src/utils.rs:59-71 | as above, for the seed `signature_<lock or revert>_<chain>_<id>_<validator>` |
| Utils.CheckAndGetUserAccountSeed | src/utils.rs:73-82 | as above, for the seed `user_<chain>`, under the user's authority |
| Utils.CheckAndGetSentLockAccountSeed | src/utils.rs:84-93 | as above, for the seed `sent_<chain>_<index>` |
| Utils.CheckAndGetReceivedLockAccountSeed | src/utils.rs:95-104 | as above, for the seed `received_<chain>_<index>` |
| Utils.CheckAndGetLockTxAccountSeed | src/utils.rs:106-116 | as above, for the seed `<tx_type>_<chain>_<index>` |
| Utils.ValidateAuthorityAndGetBumpSeed | src/utils.rs:132-144 | succeeds iff the program address found for the seed is the authority, and returns its bump; otherwise `InvalidSeeds` |
| Utils.ValidateBridgeAuthorityAndGetBumpSeed | src/utils.rs:10-16 | the same check, with the bridge account's key as the seed |
| Utils.ValidateUserAddressAuthorityAndGetBumpSeed | src/utils.rs:18-24 | the same check, with the user's address as the seed |
| Utils.DecNoUnderscore | src/utils.rs:43 | a rendered number contains no `_` |
| Utils.SplitAtUnderscore | src/utils.rs:43 | `a_b` splits uniquely when `a` has no `_` |
| Utils.CommonPrefix | src/utils.rs:32 | equal seeds with a common prefix have equal tails |
| Utils.ValidatorSeedInjective | src/utils.rs:43 | two validator indices of one chain give different seeds |
| Utils.DirectionInjective | src/utils.rs:55 | `lock_…` and `revert_…` seeds never coincide, and each determines its tail |
| Utils.LockSeedInjective | src/utils.rs:55 | a lock seed determines its direction and lock id |
| Utils.SignatureSeedInjective | src/utils.rs:68 | a signature seed determines its direction, lock id and validator index |
| Utils.BridgeSeedFamiliesDisjoint | src/utils.rs:26-71 | blockchain, validator, lock and signature seeds of a chain are pairwise distinct |
| Utils.LockTxSeedInjective | src/utils.rs:114 | for one transaction type and chain, two indices give different lock-transaction seeds |
| Utils.UserSeedFamiliesDisjoint | src/utils.rs:79-102 | user, sent and received seeds are pairwise distinct, whatever their chains and indices |
| Utils.SentAndReceivedAreLockTx | src/utils.rs:84-116 | the sent and received seed checks are the lock-tx check with `tx_type` "sent" and "received" |
| Instructions.FieldsHaveLayout | src/instruction.rs:13-64 | the fields of a serializable instruction match its variant's Borsh layout |
| Instructions.FromFields | src/instruction.rs:13-64 | a value list of a variant's layout builds the instruction with that tag and those fields |
| Instructions.FromSignatureFields | src/instruction.rs:45-63 | the same for `AddSignature` |
| Instructions.EncodeInstruction | src/instruction.rs:13-64 | serialization succeeds iff every string fits a `u32` length, and then the first byte is the variant tag |
| Instructions.DecodeInstruction | src/processor.rs:431-432 | a decode that succeeds is canonical: it re-encodes to the input; every failure is `BorshIoError` |
| Instructions.StringsOfLayout | src/instruction.rs:13-64 | fields of a variant's layout have UTF-8 strings that fit a `u32` length |
| Instructions.DecodeEncodeInstruction | src/instruction.rs:13-64 | decoding a serialized instruction gives it back |
| Instructions.InitializeBridgeEncoding | src/instruction.rs:67-86 | `InitializeBridge` serializes to the single byte 0 |
| Instructions.UnknownTagRejected | src/processor.rs:431-432 | empty input or a tag above 3 is not an instruction |
| Instructions.BuilderData | src/instruction.rs:73-75 | a builder's data is produced iff the instruction is serializable, and decodes back to it |
| Instructions.InitBridgeInstruction | src/instruction.rs:67-86 | `init_bridge` produces an instruction with the given program id, data decoding to `InitializeBridge`, and exactly the bridge, signing owner and rent metas |
| Instructions.AddBlockchainInstruction | src/instruction.rs:89-115 | `add_blockchain`: data decodes to the variant; the six metas are exactly those at lines 102-109 |
| Instructions.AddValidatorInstruction | src/instruction.rs:118-146 | `add_validator`: data decodes to the variant; the seven metas are exactly those at lines 132-140 |
| Instructions.AddSignatureInstruction | src/instruction.rs:149-187 | `add_signature`: data decodes to the variant; the nine metas are exactly those at lines 171-181 |
| Processor.RentFromAccountInfo | src/processor.rs:151 | the rent account is accepted iff it is the rent sysvar; otherwise `InvalidArgument` |
| Processor.Allocate | src/processor.rs:108-139 | the target must be empty, the payer must sign, carry no data and hold the minimum balance, with errors in that order (`AccountAlreadyInUse`, `MissingRequiredSignature`, `InvalidArgument`, `ResultWithNegativeLamports`); the target gets zeroed data and the minimum balance; the payer pays; nothing else changes |
| Processor.WriteRecord | src/processor.rs:171 | `serialize` into account data: fails if the data is too short; otherwise only that account's leading bytes change |
| Processor.AccountAt | src/processor.rs:147-150 | `next_account_info`: the i-th account, or `NotEnoughAccountKeys` |
| Processor.ValidatorChainCheck | src/processor.rs:343-347 | the corrected validator check: accepted iff the validator's chain is the transfer's source |
| Processor.InitializedBridge | src/processor.rs:320-324 | decode and `check_initialized(true)` of a bridge: success iff it decodes and has the current version, otherwise `BorshIoError` or `UninitializedAccount` |
| Processor.InitializedBlockchain | src/processor.rs:242-246 | the same for a blockchain |
| Processor.InitializedValidator | src/processor.rs:332-336 | the same for a validator |
| Processor.IsRentExempt | src/processor.rs:163-168 | rent exemption as the init handler tests it: the lamports cover the minimum balance for the data length |
| Processor.Commit | src/processor.rs:426-451 | the runtime's rollback of a failed instruction: the new store on success, the old store on any error |
| Processor.InitBridgeOn | src/processor.rs:151-171 | rent, owner signature, decode, `check_initialized(false)`, rent exemption, then the write of `Bridge::new(owner)`; its guards and effect are `ProcessorLemmas.InitBridgeGuards` and `ProcessorLemmas.InitBridgeEffect` |
| Processor.InitBridgeStep | src/processor.rs:142-173 | takes the bridge, owner and rent accounts from the metas (`NotEnoughAccountKeys` when one is missing), then runs `InitBridgeOn` |
| Processor.AddBlockchainOn | src/processor.rs:184-220 | rent, bridge authority, chain id, blockchain seed, creation of `Blockchain::LEN` bytes, write of `Blockchain::new`; stated by `ProcessorLemmas.AddBlockchainChecks`, `ProcessorLemmas.AddBlockchainInvalidSeeds` and `ProcessorLemmas.AddBlockchainEffect` |
| Processor.AddBlockchainStep | src/processor.rs:176-222 | takes the five accounts from the metas, then runs `AddBlockchainOn` |
| Processor.ValidatorChecks | src/processor.rs:234-262 | rent, an initialized blockchain record, its validator counter as the index, the bridge authority and the validator seed for that index; gives the record and the chain id |
| Processor.RegisterValidator | src/processor.rs:264-286 | creates the validator account, raises the blockchain's counter by one (wrapping) and writes `Validator::new` with the old counter as index |
| Processor.AddValidatorOn | src/processor.rs:234-286 | `ValidatorChecks`, then `RegisterValidator`; stated by `ProcessorLemmas.AddValidatorEffect` and `ProcessorLemmas.AddValidatorCounts` |
| Processor.AddValidatorStep | src/processor.rs:226-289 | takes the six accounts from the metas, then runs `AddValidatorOn` |
| Processor.LoadRecords | src/processor.rs:315-341 | reads the bridge, blockchain and validator data from the store and runs `LoadFrom` |
| Processor.LoadFrom | src/processor.rs:315-341 | rent, payer signature, initialized bridge, blockchain and validator, and a validator owned by the payer, in that order; stated by `ProcessorLemmas.LoadRecordsGuards` and `ProcessorLemmas.LoadRecordsOk` |
| Processor.RecordsChecked | src/processor.rs:343-347 | after the loads: the source's chain id and the corrected validator chain check |
| Processor.SignatureRecords | src/processor.rs:315-347 | `LoadRecords`, then `RecordsChecked`; stated by `ProcessorLemmas.SignatureRecordsChain` |
| Processor.SeedsChecked | src/processor.rs:349-360 | after the record checks: the bridge authority, then the lock seed of source and lock id (src/utils.rs:55) against the lock account |
| Processor.SignatureChecks | src/processor.rs:306-360 | every check of add signature made before the lock account is touched; stated by `ProcessorLemmas.SignatureChecksSeeds` |
| Processor.FirstLock | src/processor.rs:375-384 | `Lock::new` for the transfer: the chain's lock counter as index, the transfer's lock id, chains, token, recipient and amount, a zero tx id and sender, no signatures |
| Processor.LockFor | src/processor.rs:362-386 | an empty lock account gets `Lock::LEN` bytes and `FirstLock`; any other is left as it is; stated by `ProcessorLemmas.LockForEffect` |
| Processor.RecordSignature | src/processor.rs:388-420 | decodes the lock, requires it initialized, checks the signature seed (src/utils.rs:68), creates the signature account, writes `Signature::new`, and writes the lock back with one more signature; stated by `ProcessorLemmas.RecordSignatureEffect` |
| Processor.AddSignatureOn | src/processor.rs:315-420 | `SignatureChecks`, `LockFor`, then `RecordSignature`; stated by `ProcessorLemmas.AddSignatureFirst`, `ProcessorLemmas.AddSignatureReuse` and `ProcessorLemmas.AddSignatureOnce` |
| Processor.AddSignatureStep | src/processor.rs:292-423 | takes the eight accounts from the metas, then runs `AddSignatureOn` |
| Processor.ProcessInstructionStep | src/processor.rs:426-451 | undecodable input is `InvalidInstructionData`; each variant runs its handler; stated by the dispatch lemmas of `ProcessorLemmas` |
| Processor.Ledger.constructor | src/processor.rs:426-430 | a ledger over the given accounts, program id and host |
| Processor.Ledger.InitBridge | src/processor.rs:142-173 | the imperative handler returns the status of `InitBridgeStep` and commits its store only on success |
| Processor.Ledger.AddBlockchain | src/processor.rs:176-222 | the same for `AddBlockchainStep` |
| Processor.Ledger.AddValidator | src/processor.rs:226-289 | the same for `AddValidatorStep` |
| Processor.Ledger.Register | src/processor.rs:264-286 | the allocate, increment and write phase of `process_add_validator` computes `RegisterValidator` |
| Processor.Ledger.AddSignature | src/processor.rs:292-423 | the imperative handler returns the status of `AddSignatureStep` and commits its store only on success |
| Processor.Ledger.ObtainLock | src/processor.rs:362-386 | the get-or-create lock phase computes `LockFor` |
| Processor.Ledger.Sign | src/processor.rs:388-420 | the signature phase computes `RecordSignature` |
| Processor.Ledger.ProcessInstruction | src/processor.rs:426-451 | the entrypoint's status and new accounts are those of `ProcessInstructionStep` |
| ProcessorLemmas.WriteRecordWhole | src/processor.rs:171 | a record of the account's full length replaces its data entirely |
| ProcessorLemmas.InitBridgeGuards | src/processor.rs:142-168 | init bridge succeeds iff rent is the sysvar, the owner signs, the data decodes, it is uninitialized and rent-exempt; each failure has the source's error, in the source's order |
| ProcessorLemmas.InitBridgeEffect | src/processor.rs:170-171 | on success the bridge account decodes to `Bridge::new(owner)`, keeps its lamports, and nothing else changes |
| ProcessorLemmas.InitBridgeOnZeros | tests/tests.rs:261-266 | a signed init over a zeroed, rent-exempt bridge account of `LEN` bytes succeeds |
| ProcessorLemmas.InitBridgeOnce | src/processor.rs:157-161 | a second init of the same bridge fails with `AccountAlreadyInitialized` |
| ProcessorLemmas.AddBlockchainChecks | src/processor.rs:184-214 | a successful add blockchain had rent, the bridge authority, a ≤4-byte UTF-8 id, a derived blockchain account, a signing payer with no data and enough lamports, and an empty target |
| ProcessorLemmas.AddBlockchainInvalidSeeds | src/processor.rs:191-202 | a wrong bridge authority, or a blockchain account not at its derived address, fails with `InvalidSeeds` |
| ProcessorLemmas.AddBlockchainEffect | src/processor.rs:204-220 | on success the blockchain account holds `Blockchain::new` (zero validators and locks) with the minimum balance; the payer pays; nothing else changes |
| ProcessorLemmas.AddBlockchainOnce | src/processor.rs:204-214 | adding the same blockchain again fails with `AccountAlreadyInUse` |
| ProcessorLemmas.AddValidatorUninitialized | src/processor.rs:242-246 | a blockchain record that is not initialized is refused with `UninitializedAccount` |
| ProcessorLemmas.AddValidatorEffect | src/processor.rs:242-286 | on success the validator gets the blockchain's counter as its index; the counter is incremented (wrapping); the seed, the authority and the new validator are as the source makes them; nothing else changes |
| ProcessorLemmas.AddValidatorCounts | src/processor.rs:248-286 | the new validator's index is the old counter and the new counter is one more; the target was empty; other account data is untouched |
| ProcessorLemmas.ValidatorKeys | src/processor.rs:226-289 | the validator account keys of a run of calls, one per call, in order |
| ProcessorLemmas.EarlierValidatorKept | src/processor.rs:264-286 | a registered validator's record survives a later registration |
| ProcessorLemmas.NumberedStep | src/processor.rs:276-286 | one more registration keeps the validators numbered consecutively |
| ProcessorLemmas.AddValidatorsLast | src/processor.rs:226-289 | a run of registrations is the shorter run followed by its last call |
| ProcessorLemmas.ValidatorKeysLast | src/processor.rs:226-289 | the key list of a run ends with the last call's key |
| ProcessorLemmas.NumberedAppend | src/processor.rs:248-286 | a successful registration extends the consecutive numbering by its validator |
| ProcessorLemmas.ValidatorsNumbered | tests/tests.rs:297-298 | after any run of successful registrations on one chain, the validators carry consecutive indices from the old counter, and the counter has moved by the run's length |
| ProcessorLemmas.LoadRecordsGuards | src/processor.rs:306-341 | add signature's first checks fail in the source's order: rent, payer signature, then bridge, blockchain and validator initialized, then validator owner |
| ProcessorLemmas.LoadRecordsOk | src/processor.rs:306-341 | loaded records decode from their accounts, are initialized, and the validator is owned by the payer |
| ProcessorLemmas.SignatureRecordsChain | src/processor.rs:343-347 | with the correction, the record checks pass iff the records load, the source fits 4 bytes and the validator's chain is the source; each failure has its error |
| ProcessorLemmas.SignatureRecordsFirst | src/processor.rs:306-347 | a failed record check is the failure of the whole handler |
| ProcessorLemmas.SignatureChecksSeeds | src/processor.rs:349-360 | passing the checks means a valid bridge authority and a lock account at the lock seed of source and lock id |
| ProcessorLemmas.LockForEffect | src/processor.rs:362-386 | an empty lock account is funded and gets the new lock with zero signatures; a non-empty one is untouched; other data never changes |
| ProcessorLemmas.RecordSignatureEffect | src/processor.rs:388-420 | the signature lands at its derived, previously empty slot with the source's fields, and the lock counts one more signature |
| ProcessorLemmas.AddSignatureFirst | tests/tests.rs:320-343 | the first signature over a lock creates it with every field of the transfer and a count of 1, and stores the signature record |
| ProcessorLemmas.AddSignatureReuse | src/processor.rs:388-420 | a later signature raises the existing lock's count by one and stores its own record |
| ProcessorLemmas.SignatureChecksOnData | src/processor.rs:306-360 | the checks read only the data of the bridge, blockchain and validator accounts |
| ProcessorLemmas.LoadRecordsOnData | src/processor.rs:306-341 | the record loads read only the data of those three accounts |
| ProcessorLemmas.AddSignatureOnce | src/processor.rs:402-412 | the same validator cannot sign the same lock twice: the repeat fails with `AccountAlreadyInUse` |
| ProcessorLemmas.UndecodableRejected | src/processor.rs:431-432 | input that is not an instruction fails with `InvalidInstructionData` |
| ProcessorLemmas.UnknownTagDispatch | src/processor.rs:431-432 | empty input or an unknown tag fails with `InvalidInstructionData` |
| ProcessorLemmas.InitBridgeDispatch | src/processor.rs:433-436 | the instruction built by `init_bridge` runs the init bridge handler on its three accounts |
| ProcessorLemmas.AddBlockchainDecoded | src/processor.rs:437-440 | decoded `AddBlockchain` data runs the add blockchain handler |
| ProcessorLemmas.AddBlockchainAccountsAt | src/processor.rs:184-189 | the handler takes its accounts from the first five metas, in order |
| ProcessorLemmas.AddValidatorDecoded | src/processor.rs:441-444 | decoded `AddValidator` data runs the add validator handler |
| ProcessorLemmas.AddValidatorAccountsAt | src/processor.rs:234-240 | the handler takes its accounts from the first six metas, in order |
| ProcessorLemmas.AddBlockchainDispatch | src/instruction.rs:89-115 | the instruction built by `add_blockchain` runs the handler on the accounts it lists |
| ProcessorLemmas.AddValidatorDispatch | src/instruction.rs:118-146 | the instruction built by `add_validator` runs the handler on the accounts it lists |
| ProcessorLemmas.AddSignatureDecoded | src/processor.rs:445-448 | decoded `AddSignature` data runs the add signature handler with its transfer |
| ProcessorLemmas.AddSignatureAccountsAt | src/processor.rs:306-314 | the handler takes its accounts from the first eight metas, in order |
| ProcessorLemmas.AddSignatureDispatch | src/instruction.rs:149-187 | the instruction built by `add_signature` runs the handler on the accounts it lists |
| Findings.DestinationCheckAsWritten | src/processor.rs:343-347 | as written, the validator's chain is compared with the transfer's destination |
| Findings.DestinationCheckRefusesCrossChain | src/processor.rs:343-347 | a validator of the source chain, signing a transfer to another chain, is refused as written and accepted by the correction |
| Findings.EthIsNotBsc | tests/tests.rs:306-316 | the chain ids "ETH" and "BSC" of the tests differ |
| Findings.TestTransferChainCheck | tests/tests.rs:306-316 | the tests' ETH to BSC transfer by an ETH validator stops at the check as written and passes the record checks as corrected |
| Findings.PrivateLockSeed | src/processor.rs:76 | the processor's private lock seed `lock_<index>` |
| Findings.LockSeedCheckAsWritten | src/processor.rs:355-360 | as written, the private `lock_<index>` seed must derive the validator account, and then it is returned |
| Findings.LockSeedCheckRefusesDerivedLock | src/processor.rs:355-360 | a lock account at its derived address, other than the validator account, is refused as written; the same check against the lock account accepts it |
| Findings.LockSeedCheckRefusesEveryValidator | src/processor.rs:355-360 | when addresses separate seeds, every registered validator account fails the check as written |
| Findings.PrivateSignatureSeed | src/processor.rs:91 | the processor's private signature seed `signature_<lock id>_<count>` |
| Findings.SignatureSeedCheckAsWritten | src/processor.rs:394-400 | as written, the private signature seed, with the validator's key as base, must derive the signature account |
| Findings.SignatureSeedCheckRefusesAuthoritySlot | src/processor.rs:394-412 | the account the system program creates under the bridge authority fails the check as written when bases give distinct addresses; the check under the authority accepts it |
| Findings.RecordSignatureAsWritten | src/processor.rs:388-420 | the signature phase as written, in what it stores: the signature record is written and the lock is not; stated by `Findings.SignatureNotCounted` |
| Findings.SignatureNotCounted | src/processor.rs:388-420 | as written, an accepted signature leaves the lock's count unchanged, at 0 after the first |
| Findings.PrivateSeedSharedSlot | src/processor.rs:394-412 | with the processor's private seed under one base (the bridge authority, once finding 3 is corrected), every validator signing one lock maps to one slot, and the second allocation fails |
| Findings.ValidatorSlotsDistinct | src/utils.rs:59-71 | with the seed of `src/utils.rs`, two validators signing one lock get two slots |

## Left out

- Logging (`msg!`) and the program's own error enum (`src/error.rs`): no handler returns that enum.
- The entrypoint macro and account borrowing (`RefCell`): the model passes the accounts as a list of metas over a store.
- The writable flag and the owner of each account are not checked. The runtime enforces them for writes; the handlers never test them.
- Address derivation (`create_with_seed`, `find_program_address`) and the rent schedule are parameters, because their hashing and pricing are outside the program. Rent exemption is taken as `lamports >= minimum_balance(data_len)`.
- The system program's `create_account_with_seed` call is modelled by its effect (`Processor.Allocate`). Cross-program invocation, signer seeds and transfer fees are not modelled.
- Counter overflow: a `+= 1` on a `u64` wraps (`Bytes.WrappingInc`), as in a release build. The debug-build overflow panic is not modelled.
- `User`, `LockTx` and their seed helpers (`sent_`, `received_`, the lock-tx seed) are modelled as records and checks only. No handler in `src/processor.rs` uses them.
- Instruction lacks tx_id, sender and revert: `AddSignature` carries no transaction id, sender or direction. The lock is created with a zero `tx_id` and sender, and the seeds use `revert = false`.
- Lock index: the new lock's `index` is the blockchain's `locks` counter, because `Bridge` has no locks field. That counter is 0 for chains this program created, and nothing increments it.
- The processor's private seed helpers (`src/processor.rs:25-106`) are superseded by those of `src/utils.rs`. The private signature seed is kept only for the finding it shows.
- Instructions.AddBlockchainInstruction, Instructions.AddValidatorInstruction, Instructions.AddSignatureInstruction: these builders require UTF-8 text arguments. Rust's `&str`/`String` types guarantee that, so it is a precondition rather than an error path.
- AddBlockchainOn, ValidatorChecks: the chain id is converted to its 4 bytes (`Utils.ChainIdOf`) before the seed check and the account creation. The source converts it only in `Blockchain::new` and `Validator::new` (src/processor.rs:216-219, 281-285), after creating the account. The seed check of src/utils.rs takes the 4-byte id, so the conversion has to come first. As a result, an id longer than 4 bytes fails with `Panicked` where the source would first report `InvalidSeeds` or `AccountAlreadyInUse`. The seed is also built from the NUL-trimmed 4-byte id rather than the raw text of src/processor.rs:38-66, so text with NULs at either end (such as "ET" plus a NUL) seeds differently.
- Utils.StrToChainId: requires text of at most 4 bytes, where the source panics. The handlers call `Utils.ChainIdOf`, which models the panic as `Err(Panicked)`.
- The test suite (`tests/tests.rs`) is not modelled, only cited. Its expectations appear as `ProcessorLemmas.InitBridgeOnZeros`, `ProcessorLemmas.ValidatorsNumbered` and `ProcessorLemmas.AddSignatureFirst`.
- The `SigType` field that the tests read from `Signature` does not exist in `src/state.rs`, so it is left out.

## Findings

| source | as written | input that shows it | evidently intended | confidence | as-written member | corrected member |
|---|---|---|---|---|---|---|
| src/processor.rs:343-347 | the validator's chain is compared with the transfer's destination | the tests' call: an "ETH" validator signs a transfer from "ETH" to "BSC" (tests/tests.rs:306-316); it is refused with `InvalidArgument` | compare with the source chain, which the validator attests | not executed | Findings.TestTransferChainCheck | ProcessorLemmas.SignatureRecordsChain |
| src/processor.rs:355-360 | the lock seed `lock_<index>` is checked against the validator account | a lock account at the address derived from `lock_0` under the bridge authority, distinct from the validator account; it is refused with `InvalidSeeds` | check the seed against the lock account (the model uses the seed of src/utils.rs:55) | not executed | Findings.LockSeedCheckRefusesDerivedLock | ProcessorLemmas.SignatureChecksSeeds |
| src/processor.rs:394-400 | the signature address is derived with the validator's key as base, while lines 402-412 create it under the bridge authority | a signature account at the address derived under the bridge authority, a validator key other than the authority, and addresses that differ by base; it is refused | derive under the bridge authority | not executed | Findings.SignatureSeedCheckRefusesAuthoritySlot | ProcessorLemmas.RecordSignatureEffect |
| src/processor.rs:388-420 | the lock is decoded but never rewritten, so its `signatures` stays 0 | the first signature over a fresh lock; tests/tests.rs:333 expects the count to be 1 | increment `signatures` and write the lock back | not executed | Findings.SignatureNotCounted | ProcessorLemmas.AddSignatureFirst |
| src/processor.rs:394-412 | the private signature seed (lines 85-99) is built from the lock id and the lock's signature count, without the validator | once finding 3 is corrected so that the base is the bridge authority: two validators sign lock 1; the count never moves, so both derive one slot, and the second fails with `AccountAlreadyInUse`. As written, the base is the validator's key (line 398), so different validators get different addresses and this finding is hidden behind finding 3 | name the validator's index in the seed (src/utils.rs:68) | not executed | Findings.PrivateSeedSharedSlot | Findings.ValidatorSlotsDistinct |
