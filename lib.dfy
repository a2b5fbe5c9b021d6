/** Crate-level constants of the bridge program. */
module Lib {
  import opened Bytes

  /** Format version stamped into every record the program creates. */
  const PROGRAM_VERSION: byte := 1
}

/** The parts of the Solana program library the bridge builds on: account
    metadata, instructions and the two well-known program addresses. */
module Sdk {
  import opened Bytes

  /** All-zero key of the system program (`11111111111111111111111111111111`). */
  const SYSTEM_PROGRAM_ID: Pubkey := Zeros(32)

  /** Key of the rent sysvar (`SysvarRent111111111111111111111111111111111`). */
  const RENT_SYSVAR_ID: Pubkey := [6, 167, 213, 23, 25, 44, 92, 81, 33, 140, 201, 76, 61, 74, 241, 127,
                                   88, 218, 238, 8, 155, 161, 253, 68, 227, 219, 217, 138, 0, 0, 0, 0]

  /** One entry of an instruction's account list, as the runtime hands it to
      the program: the key, whether the transaction signed for it, and
      whether it may be written. */
  datatype AccountMeta = AccountMeta(key: Pubkey, isSigner: bool, isWritable: bool)

  /** `AccountMeta::new`: writable. */
  function Writable(key: Pubkey, isSigner: bool): AccountMeta {
    AccountMeta(key, isSigner, true)
  }

  /** `AccountMeta::new_readonly`. */
  function Readonly(key: Pubkey, isSigner: bool): AccountMeta {
    AccountMeta(key, isSigner, false)
  }

  datatype Instruction = Instruction(programId: Pubkey, accounts: seq<AccountMeta>, data: seq<byte>)
}
