/** The ledger-side vocabulary the client speaks: public keys, account
    addresses (including program-derived ones), instruction account lists,
    the account store read through `getAccountInfo`, and the failures the
    client raises. */
module Chain {
  import opened Wire

  /** A 32-byte ed25519 public key, as `PublicKey.toBuffer()` returns it. */
  type PublicKey = k: seq<Byte> | |k| == 32 witness Zeros(32)

  /** `PublicKey.default` and `SystemProgram.programId` are both the all-zero key. */
  const DEFAULT_KEY: PublicKey := Zeros(32)
  const SYSTEM_PROGRAM_ID: PublicKey := Zeros(32)

  /** An account address. `findProgramAddressSync(seeds, program)` hashes the
      seeds with SHA-256 and searches for an off-curve bump; that search is not
      modelled, so a derived address is the symbolic term `Derived(seeds, program)`.
      Being a datatype constructor, it gives equal addresses for equal inputs,
      distinct addresses for distinct seed lists or programs, and never a plain
      `Key`: the collision resistance of SHA-256 is taken as exact here. */
  datatype Address =
    | Key(key: PublicKey)
    | Derived(seeds: seq<seq<Byte>>, program: PublicKey)
    | ClockSysvar

  /** One entry of an instruction's key list. */
  datatype AccountMeta = AccountMeta(pubkey: Address, isSigner: bool, isWritable: bool)

  datatype Instruction = Instruction(keys: seq<AccountMeta>, programId: PublicKey, data: seq<Byte>)

  /** What `getAccountInfo` would return for each address: the account's data,
      or nothing when no account exists there. */
  type Ledger = map<Address, seq<Byte>>

  /** The failures the client raises. */
  datatype Error =
    | WalletNotConnected        // "Wallet not connected"
    | AccountNotFound           // an explicit "... account not found" / "Board not initialized" throw
    | NullAccount               // `(await getAccountInfo(..))!.data` on an absent account
    | OutOfRange                // a Buffer read or write past its range (RangeError)
    | InvalidSquares            // "Squares array must have exactly 25 elements"
    | UnsafeInteger             // `new BN(n)` of a Number at or above 2^53

  datatype Result<+T> = Ok(value: T) | Err(error: Error)

  /** Signers of a key list. */
  function Signers(keys: seq<AccountMeta>): set<int>
  {
    set i | 0 <= i < |keys| && keys[i].isSigner
  }

  /** Read-only entries of a key list. */
  function ReadOnly(keys: seq<AccountMeta>): set<int>
  {
    set i | 0 <= i < |keys| && !keys[i].isWritable
  }
}
