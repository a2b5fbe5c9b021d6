/** Chain-id codec, the seed grammar of every derived account, and the
    address checks built on them (`src/utils.rs`). The two derivations of the
    address library, `Pubkey::create_with_seed` and
    `Pubkey::find_program_address`, are hash based; they enter the model as
    uninterpreted functions carried by a `Derivation`. */
module Utils {
  import opened Bytes
  import opened Errors
  import opened Utf8
  import opened Decimal
  import opened Text

  /** The address library: `create_with_seed(base, seed, owner)` may fail
      (for example on an over-long seed); `find_program_address(seeds, owner)`
      always yields an address and its bump seed. */
  datatype Derivation = Derivation(
    createWithSeed: (Pubkey, seq<byte>, Pubkey) -> Result<Pubkey>,
    findProgramAddress: (seq<seq<byte>>, Pubkey) -> (Pubkey, byte))

  // ---- chain-id codec ----

  /** `str_to_chain_id`: the text left-justified in four NUL-padded bytes. */
  function StrToChainId(s: seq<byte>): (id: ChainId)
    requires |s| <= 4
    ensures id[..|s|] == s
    ensures forall i | |s| <= i < 4 :: id[i] == 0
  {
    s + Zeros(4 - |s|)
  }

  /** The same conversion where the caller does not bound the text: the
      slice copy panics on more than four bytes, which aborts the instruction. */
  function ChainIdOf(s: seq<byte>): (r: Result<ChainId>)
    ensures r.Ok? <==> |s| <= 4
    ensures r.Ok? ==> r.value == StrToChainId(s)
    ensures r.Err? ==> r.error == Panicked
  {
    if |s| > 4 then Err(Panicked) else Ok(StrToChainId(s))
  }

  /** `chain_id_to_str`: the four bytes as UTF-8 text with NULs trimmed at both ends. */
  function ChainIdToStr(id: ChainId): (r: Result<seq<byte>>)
    ensures r.Err? <==> !ValidUtf8(id)
    ensures r.Err? ==> r.error == InvalidArgument
    ensures r.Ok? ==> r.value == TrimNul(id) && ValidUtf8(r.value)
  {
    if !ValidUtf8(id) then Err(InvalidArgument)
    else
      TrimNulValid(id);
      Ok(TrimNul(id))
  }

  /** Dropping a NUL from the front of UTF-8 text leaves UTF-8 text. */
  lemma DropLeadingNulValid(s: seq<byte>)
    requires |s| > 0 && s[0] == 0 && ValidUtf8(s)
    ensures ValidUtf8(s[1..])
  {
  }

  /** Dropping a NUL from the end of UTF-8 text leaves UTF-8 text: NUL is not
      a continuation byte, so no character can end in it except NUL itself. */
  lemma {:induction false} DropTrailingNulValid(s: seq<byte>)
    requires |s| > 0 && s[|s| - 1] == 0 && ValidUtf8(s)
    ensures ValidUtf8(s[..|s| - 1])
    decreases |s|
  {
    var x := s[..|s| - 1];
    if x != [] {
      var w := CharWidth(s);
      assert !IsContinuation(s[|s| - 1]);
      assert w <= |x|;
      assert forall k | 0 <= k < w :: s[k] == x[k];
      assert CharWidth(x) == w;
      assert s[w..][..|s[w..]| - 1] == x[w..];
      DropTrailingNulValid(s[w..]);
    }
  }

  lemma {:induction false} TrimStartValid(s: seq<byte>)
    requires ValidUtf8(s)
    ensures ValidUtf8(s[TrimStartBound(s)..])
    decreases |s|
  {
    if s != [] && s[0] == 0 {
      DropLeadingNulValid(s);
      TrimStartValid(s[1..]);
      assert s[1..][TrimStartBound(s[1..])..] == s[TrimStartBound(s)..];
    }
  }

  lemma {:induction false} TrimEndValid(s: seq<byte>)
    requires ValidUtf8(s)
    ensures ValidUtf8(s[..TrimEndBound(s)])
    decreases |s|
  {
    if s != [] && s[|s| - 1] == 0 {
      DropTrailingNulValid(s);
      TrimEndValid(s[..|s| - 1]);
      assert s[..|s| - 1][..TrimEndBound(s[..|s| - 1])] == s[..TrimEndBound(s)];
    } else {
      assert s[..TrimEndBound(s)] == s;
    }
  }

  lemma TrimNulValid(s: seq<byte>)
    requires ValidUtf8(s)
    ensures ValidUtf8(TrimNul(s))
  {
    var j := TrimEndBound(s);
    TrimEndValid(s);
    TrimStartValid(s[..j]);
    assert TrimNul(s) == s[..j][TrimStartBound(s[..j])..];
  }

  /** Round trip: text of at most four bytes that is UTF-8 and neither starts
      nor ends with NUL comes back unchanged. */
  lemma ChainIdRoundTrip(s: seq<byte>)
    requires |s| <= 4 && ValidUtf8(s)
    requires s == [] || (s[0] != 0 && s[|s| - 1] != 0)
    ensures ChainIdToStr(StrToChainId(s)) == Ok(s)
  {
    var pad := Zeros(4 - |s|);
    AsciiValid(pad);
    ConcatValid(s, pad);
    TrimNulPadded(s, 4 - |s|);
  }

  /** The chain id the tests register: "ETH" becomes `[0x45, 0x54, 0x48, 0]`. */
  lemma EthChainId()
    ensures StrToChainId(Ascii("ETH")) == [0x45, 0x54, 0x48, 0]
    ensures ChainIdToStr(StrToChainId(Ascii("ETH"))) == Ok(Ascii("ETH"))
  {
    var eth := Ascii("ETH");
    assert eth == [0x45, 0x54, 0x48];
    AsciiValid(eth);
    ChainIdRoundTrip(eth);
  }

  // ---- seed grammar ----

  function Separated(a: seq<byte>, b: seq<byte>): seq<byte> {
    a + [UNDERSCORE] + b
  }

  /** The direction word of lock and signature seeds. */
  function Direction(revert: bool): seq<byte> {
    if revert then Ascii("revert") else Ascii("lock")
  }

  function BlockchainSeed(chain: seq<byte>): seq<byte> {
    Ascii("blockchain_") + chain
  }

  function ValidatorSeed(chain: seq<byte>, index: u64): seq<byte> {
    Ascii("validator_") + Separated(chain, Dec(index))
  }

  function LockSeed(revert: bool, chain: seq<byte>, lockId: u64): seq<byte> {
    Separated(Direction(revert), Separated(chain, Dec(lockId)))
  }

  function SignatureSeed(revert: bool, chain: seq<byte>, lockId: u64, validatorId: u64): seq<byte> {
    Ascii("signature_") + Separated(Direction(revert), Separated(chain, Separated(Dec(lockId), Dec(validatorId))))
  }

  function UserSeed(chain: seq<byte>): seq<byte> {
    Ascii("user_") + chain
  }

  function LockTxSeed(txType: seq<byte>, chain: seq<byte>, index: u64): seq<byte> {
    Separated(txType, Separated(chain, Dec(index)))
  }

  // ---- address checks ----

  /** `create_with_seed(authority, seed, program)` succeeds and yields `account`. */
  predicate Derives(d: Derivation, programId: Pubkey, authority: Pubkey, seed: seq<byte>, account: Pubkey) {
    d.createWithSeed(authority, seed, programId) == Ok(account)
  }

  /** `check_and_get_account_seed`: the seed comes back exactly when it derives
      the supplied account; a failing derivation passes its error through, and
      a derived address that differs is `InvalidSeeds`. */
  function CheckAndGetAccountSeed(d: Derivation, programId: Pubkey, seed: seq<byte>,
                                  authority: Pubkey, account: Pubkey): (r: Result<seq<byte>>)
    ensures r.Ok? <==> Derives(d, programId, authority, seed, account)
    ensures r.Ok? ==> r.value == seed
    ensures d.createWithSeed(authority, seed, programId).Err? ==> r.Err? && r.error == d.createWithSeed(authority, seed, programId).error
    ensures d.createWithSeed(authority, seed, programId).Ok? && r.Err? ==> r.error == InvalidSeeds
  {
    var expected :- d.createWithSeed(authority, seed, programId);
    if expected != account then Err(InvalidSeeds) else Ok(seed)
  }

  /** The shape shared by every chain-keyed helper: a chain id that is not
      UTF-8 is `InvalidArgument` before anything is derived; otherwise the
      seed built from the decoded text is checked against the account. */
  predicate ChainSeedChecked(d: Derivation, programId: Pubkey, chainId: ChainId,
                             seed: seq<byte> -> seq<byte>, authority: Pubkey, account: Pubkey,
                             r: Result<seq<byte>>) {
    && (!ValidUtf8(chainId) ==> r == Err(InvalidArgument))
    && (ValidUtf8(chainId) ==> r == CheckAndGetAccountSeed(d, programId, seed(TrimNul(chainId)), authority, account))
    && (r.Ok? <==> ValidUtf8(chainId) && Derives(d, programId, authority, seed(TrimNul(chainId)), account))
  }

  function CheckAndGetBlockchainAccountSeed(d: Derivation, programId: Pubkey, blockchainId: ChainId,
                                            bridgeAuthority: Pubkey, blockchainAccount: Pubkey): (r: Result<seq<byte>>)
    ensures ChainSeedChecked(d, programId, blockchainId, c => BlockchainSeed(c), bridgeAuthority, blockchainAccount, r)
    ensures r.Ok? ==> r.value == BlockchainSeed(TrimNul(blockchainId))
  {
    var chain :- ChainIdToStr(blockchainId);
    CheckAndGetAccountSeed(d, programId, BlockchainSeed(chain), bridgeAuthority, blockchainAccount)
  }

  function CheckAndGetValidatorAccountSeed(d: Derivation, programId: Pubkey, blockchainId: ChainId, index: u64,
                                           bridgeAuthority: Pubkey, validatorAccount: Pubkey): (r: Result<seq<byte>>)
    ensures ChainSeedChecked(d, programId, blockchainId, c => ValidatorSeed(c, index), bridgeAuthority, validatorAccount, r)
    ensures r.Ok? ==> r.value == ValidatorSeed(TrimNul(blockchainId), index)
  {
    var chain :- ChainIdToStr(blockchainId);
    CheckAndGetAccountSeed(d, programId, ValidatorSeed(chain, index), bridgeAuthority, validatorAccount)
  }

  function CheckAndGetLockAccountSeed(d: Derivation, programId: Pubkey, source: ChainId, lockId: u64, revert: bool,
                                      bridgeAuthority: Pubkey, lockAccount: Pubkey): (r: Result<seq<byte>>)
    ensures ChainSeedChecked(d, programId, source, c => LockSeed(revert, c, lockId), bridgeAuthority, lockAccount, r)
    ensures r.Ok? ==> r.value == LockSeed(revert, TrimNul(source), lockId)
  {
    var chain :- ChainIdToStr(source);
    CheckAndGetAccountSeed(d, programId, LockSeed(revert, chain, lockId), bridgeAuthority, lockAccount)
  }

  function CheckAndGetSignatureAccountSeed(d: Derivation, programId: Pubkey, source: ChainId, lockId: u64,
                                           validatorId: u64, revert: bool,
                                           bridgeAuthority: Pubkey, signatureAccount: Pubkey): (r: Result<seq<byte>>)
    ensures ChainSeedChecked(d, programId, source, c => SignatureSeed(revert, c, lockId, validatorId),
                             bridgeAuthority, signatureAccount, r)
    ensures r.Ok? ==> r.value == SignatureSeed(revert, TrimNul(source), lockId, validatorId)
  {
    var chain :- ChainIdToStr(source);
    CheckAndGetAccountSeed(d, programId, SignatureSeed(revert, chain, lockId, validatorId), bridgeAuthority, signatureAccount)
  }

  function CheckAndGetUserAccountSeed(d: Derivation, programId: Pubkey, blockchainId: ChainId,
                                      userAuthority: Pubkey, userAccount: Pubkey): (r: Result<seq<byte>>)
    ensures ChainSeedChecked(d, programId, blockchainId, c => UserSeed(c), userAuthority, userAccount, r)
    ensures r.Ok? ==> r.value == UserSeed(TrimNul(blockchainId))
  {
    var chain :- ChainIdToStr(blockchainId);
    CheckAndGetAccountSeed(d, programId, UserSeed(chain), userAuthority, userAccount)
  }

  function CheckAndGetSentLockAccountSeed(d: Derivation, programId: Pubkey, blockchainId: ChainId,
                                          userAuthority: Pubkey, index: u64, sentLockAccount: Pubkey): (r: Result<seq<byte>>)
    ensures ChainSeedChecked(d, programId, blockchainId, c => Ascii("sent_") + Separated(c, Dec(index)),
                             userAuthority, sentLockAccount, r)
  {
    var chain :- ChainIdToStr(blockchainId);
    CheckAndGetAccountSeed(d, programId, Ascii("sent_") + Separated(chain, Dec(index)), userAuthority, sentLockAccount)
  }

  function CheckAndGetReceivedLockAccountSeed(d: Derivation, programId: Pubkey, blockchainId: ChainId,
                                              userAuthority: Pubkey, index: u64, receivedLockAccount: Pubkey): (r: Result<seq<byte>>)
    ensures ChainSeedChecked(d, programId, blockchainId, c => Ascii("received_") + Separated(c, Dec(index)),
                             userAuthority, receivedLockAccount, r)
  {
    var chain :- ChainIdToStr(blockchainId);
    CheckAndGetAccountSeed(d, programId, Ascii("received_") + Separated(chain, Dec(index)), userAuthority, receivedLockAccount)
  }

  function CheckAndGetLockTxAccountSeed(d: Derivation, programId: Pubkey, blockchainId: ChainId, index: u64,
                                        txType: seq<byte>, userAuthority: Pubkey, lockTxAccount: Pubkey): (r: Result<seq<byte>>)
    ensures ChainSeedChecked(d, programId, blockchainId, c => LockTxSeed(txType, c, index), userAuthority, lockTxAccount, r)
    ensures r.Ok? ==> r.value == LockTxSeed(txType, TrimNul(blockchainId), index)
  {
    var chain :- ChainIdToStr(blockchainId);
    CheckAndGetAccountSeed(d, programId, LockTxSeed(txType, chain, index), userAuthority, lockTxAccount)
  }

  /** `validate_authority_and_get_bump_seed`: the bump comes back exactly when
      the program address derived from the single seed is the supplied authority. */
  function ValidateAuthorityAndGetBumpSeed(d: Derivation, programId: Pubkey, seed: seq<byte>,
                                           authorityAccount: Pubkey): (r: Result<byte>)
    ensures r.Ok? <==> d.findProgramAddress([seed], programId).0 == authorityAccount
    ensures r.Ok? ==> r.value == d.findProgramAddress([seed], programId).1
    ensures r.Err? ==> r.error == InvalidSeeds
  {
    var (expected, bump) := d.findProgramAddress([seed], programId);
    if expected != authorityAccount then Err(InvalidSeeds) else Ok(bump)
  }

  /** The bridge authority is the program address of the bridge account key. */
  function ValidateBridgeAuthorityAndGetBumpSeed(d: Derivation, programId: Pubkey, bridgeAccount: Pubkey,
                                                 authorityAccount: Pubkey): (r: Result<byte>)
    ensures r.Ok? <==> d.findProgramAddress([bridgeAccount], programId).0 == authorityAccount
    ensures r.Ok? ==> r.value == d.findProgramAddress([bridgeAccount], programId).1
    ensures r.Err? ==> r.error == InvalidSeeds
  {
    ValidateAuthorityAndGetBumpSeed(d, programId, bridgeAccount, authorityAccount)
  }

  /** A user authority is the program address of the user's foreign address. */
  function ValidateUserAddressAuthorityAndGetBumpSeed(d: Derivation, programId: Pubkey, userAddress: Address,
                                                      authorityAccount: Pubkey): (r: Result<byte>)
    ensures r.Ok? <==> d.findProgramAddress([userAddress], programId).0 == authorityAccount
    ensures r.Ok? ==> r.value == d.findProgramAddress([userAddress], programId).1
    ensures r.Err? ==> r.error == InvalidSeeds
  {
    ValidateAuthorityAndGetBumpSeed(d, programId, userAddress, authorityAccount)
  }

  // ---- properties of the seed grammar ----

  predicate NoUnderscore(s: seq<byte>) {
    forall i | 0 <= i < |s| :: s[i] != UNDERSCORE
  }

  lemma DecNoUnderscore(n: nat)
    ensures NoUnderscore(Dec(n))
  {
    var s := Dec(n);
    forall i | 0 <= i < |s| ensures s[i] != UNDERSCORE {
      assert IsDigit(s[i]);
    }
  }

  /** Text without '_' ends where the first '_' stands, so the split is unique. */
  lemma SplitAtUnderscore(a1: seq<byte>, b1: seq<byte>, a2: seq<byte>, b2: seq<byte>)
    requires NoUnderscore(a1) && NoUnderscore(a2)
    requires Separated(a1, b1) == Separated(a2, b2)
    ensures a1 == a2 && b1 == b2
  {
    var s := Separated(a1, b1);
    assert s[|a1|] == UNDERSCORE;
    assert Separated(a2, b2)[|a2|] == UNDERSCORE;
    assert |a1| == |a2|;
    assert a1 == s[..|a1|] && a2 == s[..|a2|];
    assert b1 == s[|a1| + 1..] && b2 == s[|a2| + 1..];
  }

  lemma CommonPrefix(p: seq<byte>, x: seq<byte>, y: seq<byte>)
    requires p + x == p + y
    ensures x == y
  {
    assert x == (p + x)[|p|..];
    assert y == (p + y)[|p|..];
  }

  /** Distinct validator indices of one chain get distinct seeds, hence distinct slots. */
  lemma ValidatorSeedInjective(chain: seq<byte>, i: u64, j: u64)
    requires ValidatorSeed(chain, i) == ValidatorSeed(chain, j)
    ensures i == j
  {
    var p := Ascii("validator_") + chain + [UNDERSCORE];
    assert ValidatorSeed(chain, i) == p + Dec(i) && ValidatorSeed(chain, j) == p + Dec(j);
    CommonPrefix(p, Dec(i), Dec(j));
    DecInjective(i, j);
  }

  lemma DirectionInjective(r1: bool, r2: bool, x1: seq<byte>, x2: seq<byte>)
    requires Separated(Direction(r1), x1) == Separated(Direction(r2), x2)
    ensures r1 == r2 && x1 == x2
  {
    assert Direction(true)[0] == 114 && Direction(false)[0] == 108;
    assert Separated(Direction(r1), x1)[0] == Direction(r1)[0];
    assert Separated(Direction(r2), x2)[0] == Direction(r2)[0];
    assert r1 == r2;
    CommonPrefix(Direction(r1) + [UNDERSCORE], x1, x2);
  }

  /** For one chain, the lock seed determines the direction and the lock id. */
  lemma LockSeedInjective(chain: seq<byte>, r1: bool, id1: u64, r2: bool, id2: u64)
    requires LockSeed(r1, chain, id1) == LockSeed(r2, chain, id2)
    ensures r1 == r2 && id1 == id2
  {
    DirectionInjective(r1, r2, Separated(chain, Dec(id1)), Separated(chain, Dec(id2)));
    CommonPrefix(chain + [UNDERSCORE], Dec(id1), Dec(id2));
    DecInjective(id1, id2);
  }

  /** For one chain, the signature seed determines direction, lock id and
      validator id: the two numerals are split at the '_' neither contains. */
  lemma SignatureSeedInjective(chain: seq<byte>, r1: bool, id1: u64, v1: u64, r2: bool, id2: u64, v2: u64)
    requires SignatureSeed(r1, chain, id1, v1) == SignatureSeed(r2, chain, id2, v2)
    ensures r1 == r2 && id1 == id2 && v1 == v2
  {
    var t1 := Separated(Direction(r1), Separated(chain, Separated(Dec(id1), Dec(v1))));
    var t2 := Separated(Direction(r2), Separated(chain, Separated(Dec(id2), Dec(v2))));
    CommonPrefix(Ascii("signature_"), t1, t2);
    DirectionInjective(r1, r2, Separated(chain, Separated(Dec(id1), Dec(v1))), Separated(chain, Separated(Dec(id2), Dec(v2))));
    CommonPrefix(chain + [UNDERSCORE], Separated(Dec(id1), Dec(v1)), Separated(Dec(id2), Dec(v2)));
    DecNoUnderscore(id1);
    DecNoUnderscore(id2);
    SplitAtUnderscore(Dec(id1), Dec(v1), Dec(id2), Dec(v2));
    DecInjective(id1, id2);
    DecInjective(v1, v2);
  }

  /** The four kinds of account derived from the bridge authority never share
      a seed, whatever their chains and numbers: their seeds begin with
      different letters. */
  lemma BridgeSeedFamiliesDisjoint(c1: seq<byte>, c2: seq<byte>, c3: seq<byte>, c4: seq<byte>, i: u64,
                                    r1: bool, id1: u64, r2: bool, id2: u64, v: u64)
    ensures BlockchainSeed(c1) != ValidatorSeed(c2, i)
    ensures BlockchainSeed(c1) != LockSeed(r1, c3, id1) && ValidatorSeed(c2, i) != LockSeed(r1, c3, id1)
    ensures BlockchainSeed(c1) != SignatureSeed(r2, c4, id2, v) && ValidatorSeed(c2, i) != SignatureSeed(r2, c4, id2, v)
    ensures LockSeed(r1, c3, id1) != SignatureSeed(r2, c4, id2, v)
  {
    assert BlockchainSeed(c1)[0] == Ascii("blockchain_")[0] == 98;
    assert ValidatorSeed(c2, i)[0] == Ascii("validator_")[0] == 118;
    assert LockSeed(r1, c3, id1)[0] == Direction(r1)[0];
    assert Direction(r1)[0] == 108 || Direction(r1)[0] == 114;
    assert SignatureSeed(r2, c4, id2, v)[0] == Ascii("signature_")[0] == 115;
  }

  /** For one transaction type and chain, the lock-transaction seed determines its index. */
  lemma LockTxSeedInjective(txType: seq<byte>, chain: seq<byte>, i: u64, j: u64)
    requires LockTxSeed(txType, chain, i) == LockTxSeed(txType, chain, j)
    ensures i == j
  {
    var p := txType + [UNDERSCORE] + chain + [UNDERSCORE];
    assert LockTxSeed(txType, chain, i) == p + Dec(i) && LockTxSeed(txType, chain, j) == p + Dec(j);
    CommonPrefix(p, Dec(i), Dec(j));
    DecInjective(i, j);
  }

  /** The three kinds of account derived from a user's authority (the user
      record, its sent and its received locks) never share a seed, whatever
      their chains and indices: their seeds begin with different letters. */
  lemma UserSeedFamiliesDisjoint(c1: seq<byte>, c2: seq<byte>, c3: seq<byte>, i: u64, j: u64)
    ensures UserSeed(c1) != LockTxSeed(Ascii("sent"), c2, i)
    ensures UserSeed(c1) != LockTxSeed(Ascii("received"), c3, j)
    ensures LockTxSeed(Ascii("sent"), c2, i) != LockTxSeed(Ascii("received"), c3, j)
  {
    assert UserSeed(c1)[0] == Ascii("user_")[0] == 117;
    assert LockTxSeed(Ascii("sent"), c2, i)[0] == Ascii("sent")[0] == 115;
    assert LockTxSeed(Ascii("received"), c3, j)[0] == Ascii("received")[0] == 114;
  }

  /** The sent and received helpers are the lock-transaction helper with the
      transaction type "sent" or "received". */
  lemma SentAndReceivedAreLockTx(d: Derivation, programId: Pubkey, blockchainId: ChainId,
                                 userAuthority: Pubkey, index: u64, account: Pubkey)
    ensures CheckAndGetSentLockAccountSeed(d, programId, blockchainId, userAuthority, index, account)
         == CheckAndGetLockTxAccountSeed(d, programId, blockchainId, index, Ascii("sent"), userAuthority, account)
    ensures CheckAndGetReceivedLockAccountSeed(d, programId, blockchainId, userAuthority, index, account)
         == CheckAndGetLockTxAccountSeed(d, programId, blockchainId, index, Ascii("received"), userAuthority, account)
  {
    forall c: seq<byte> ensures Ascii("sent_") + Separated(c, Dec(index)) == LockTxSeed(Ascii("sent"), c, index)
                          && Ascii("received_") + Separated(c, Dec(index)) == LockTxSeed(Ascii("received"), c, index) {
      assert Ascii("sent_") == Ascii("sent") + [UNDERSCORE];
      assert Ascii("received_") == Ascii("received") + [UNDERSCORE];
    }
  }
}
