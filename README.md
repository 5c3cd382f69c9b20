# ORE client wire codec, in Dafny

This project models the part of the ORE web clients that talks to the ORE
Solana program in bytes. Two clients are covered: `ore-frontend` and
`ore-supply-frontend`.

- **Instruction payloads.** Both clients build them (opcode, little-endian
  u64 amount or round id, u32 square mask), together with the account-key
  lists.
- **Square selections.** A list of 1-based square ids or a 25-entry boolean
  array becomes a 32-bit mask.
- **Program-derived addresses.** The seeds of every program-derived address
  are modelled, including the 8-byte little-endian round id.
- **Account decoding.** The Board, Round, Miner, Treasury and Stake accounts
  are read at fixed offsets. On top of those reads the model covers:
  - the countdown;
  - the winning square;
  - change detection;
  - the zero records shown when an account does not exist.
- **The `useGameProgram` hook.** It is a class whose fields are the hook's
  state: game state, miner stats, loading flag, error, and last deployed
  amounts. Its methods update that state the way `updateGameState`,
  `updateMinerStats` and `deploy` do.

Network reads are a `Ledger`, a map from address to account data. The
current slot and the wallet are parameters. Amounts stay in lamports
throughout.

Modules, one per file:

| module | models |
|---|---|
| `Wire` | little-endian bytes, Node `Buffer` reads |
| `Chain` | keys, addresses, instructions, the ledger, errors |
| `Bits` | 32-bit masks and their bits |
| `BufferWriters` | the hand-rolled byte writers; the hook's copies (useGameProgram.ts:39-54) are identical |
| `NodeBuffer` | Node's range-checked writers, used by the supply client |
| `Pdas` / `SupplyPdas` | the two `pdas.ts` |
| `Instructions` / `SupplyInstructions` | the two `instructions.ts` |
| `Accounts` | the account layouts the clients read, as reference encoders |
| `GameProgram` | the hook |
| `Actions` / `SupplyActions` | the two `actions.ts` |

Where the two clients share code, it is modelled once and reused:
- `createSquaresArray` and the mask loop;
- the board, miner, automation and stake finders;
- `getCurrentRoundId`.

Where they differ, each variant has its own member, and lemmas connect the
two:
- the supply client writes with Node's range-checked writers, so it fails
  where the ore client wraps;
- the supply client reads different offsets;
- the supply client throws instead of falling back.

Two behaviours that look unintended are stated as lemmas:
- the hook does not range-check square ids (`GameProgram.HookMaskWraps`);
- the supply client's Round offsets, which its own comments call provisional, read the round id as the motherlode (`SupplyActions.SupplyMotherlodeOnOreRound`).

## Model

| member | source | states |
|---|---|---|
| `Wire.ReadU64LE` | ore-frontend/hooks/useGameProgram.ts:98-100 | a u64 read succeeds exactly when 8 bytes lie at the offset, and yields a value below 2^64 |
| `Wire.ReadU32LE` | ore-supply-frontend/lib/program/actions.ts:106 | a u32 read succeeds exactly when 4 bytes lie at the offset, and yields a value below 2^32 |
| `Wire.ReadI64LE` | ore-supply-frontend/lib/program/actions.ts:80 | a signed 64-bit read succeeds exactly when 8 bytes lie at the offset |
| `Wire.AsI64` | ore-supply-frontend/lib/program/actions.ts:80 | the two's complement reading lies in [-2^63, 2^63) and agrees with the unsigned word modulo 2^64 |
| `Wire.LeValueBound` | ore-frontend/hooks/useGameProgram.ts:98-100 | an n-byte little-endian string denotes a value below 256^n |
| `Wire.LeRoundTrip` | ore-frontend/lib/program/instructions.ts:17-22 | reading back an n-byte little-endian write gives the value modulo 256^n, for every integer |
| `Wire.LeRoundTripInRange` | ore-frontend/lib/program/instructions.ts:17-22 | for values in [0, 256^n) the write is lossless |
| `Wire.LeValueInjective` | ore-frontend/lib/program/pdas.ts:28-36 | equal-length byte strings with the same value are the same bytes |
| `Wire.LeValueZero` | ore-frontend/lib/program/actions.ts:158-159 | a little-endian word is zero exactly when all its bytes are zero |
| `Wire.LeBytesModulo` | ore-frontend/lib/program/instructions.ts:17-22 | the n-byte write depends only on the value modulo 256^n |
| `Bits.BitOfOr` | ore-frontend/lib/program/instructions.ts:71 | OR-ing in flag k adds bit k and keeps every other bit as it was |
| `Bits.NoBitOfZero` | ore-frontend/lib/program/instructions.ts:68 | the initial mask 0 has no bit set |
| `Bits.MaskBelow` | ore-frontend/lib/program/instructions.ts:68-73 | a mask with bits 25..31 clear is below 2^25 |
| `Bits.MaskExt` | ore-frontend/lib/program/instructions.ts:68-73 | two masks with the same 32 bits are equal |
| `BufferWriters.WriteBigUInt64LE` | ore-frontend/lib/program/instructions.ts:17-22 | the 8 little-endian bytes of the value modulo 2^64 land at the offset, nothing else changes, and bytes past the end are dropped |
| `BufferWriters.WriteUInt32LE` | ore-frontend/lib/program/instructions.ts:27-32 | the 4 low bytes of the value land at the offset, nothing else changes, and bytes past the end are dropped |
| `BufferWriters.WriteUInt8` | ore-frontend/lib/program/instructions.ts:37-39 | the low byte lands at the offset when it is inside the buffer, and nothing else changes |
| `BufferWriters.StoredSlice` | ore-frontend/lib/program/instructions.ts:17-39 | after a write, the written slice holds the bytes and the rest of the buffer is as before |
| `NodeBuffer.WriteUIntLE` | ore-supply-frontend/lib/program/instructions.ts:51-54 | a checked write succeeds exactly when the value fits the width and the field fits the buffer; it then splices in the bytes, and otherwise leaves the buffer untouched |
| `NodeBuffer.WriteUInt8` | ore-supply-frontend/lib/program/instructions.ts:52 | `writeUInt8` succeeds for a byte value inside the buffer, and then sets exactly that byte |
| `NodeBuffer.WriteUInt32LE` | ore-supply-frontend/lib/program/instructions.ts:54 | `writeUInt32LE` succeeds for a u32 with 4 bytes of room, and then splices in its bytes |
| `NodeBuffer.WriteBigUInt64LE` | ore-supply-frontend/lib/program/instructions.ts:53 | `writeBigUInt64LE` succeeds for a u64 with 8 bytes of room, and then splices in its bytes |
| `NodeBuffer.CheckedAgreesWithUnchecked` | ore-supply-frontend/lib/program/instructions.ts:51-54 | in range, the checked writer stores what the hand-rolled writer stores, and the bytes read back as the value |
| `Pdas.FindRoundPda` | ore-frontend/lib/program/pdas.ts:27-42 | the byte loop derives the address from seeds "round" and an 8-byte id that reads back as the id when the id is a u64 |
| `Pdas.RoundSeedRoundTrip` | ore-frontend/lib/program/pdas.ts:28-36 | the id seed is 8 bytes and reads back as the id modulo 2^64 |
| `Pdas.RoundZeroSeeds` | ore-frontend/lib/program/pdas.ts:27-42 | round 0 is derived from "round" and eight zero bytes |
| `Pdas.RoundSeedsInjective` | ore-frontend/lib/program/pdas.ts:27-42 | two u64 round ids give the same seeds exactly when they are equal, and (with derivation taken as injective) the same address |
| `Pdas.RoundPdaWraps` | ore-frontend/lib/program/pdas.ts:28-34 | the ore finder takes the id modulo 2^64, so -1 names the same round as 2^64-1 |
| `Pdas.SeedListsDistinct` | ore-frontend/lib/program/pdas.ts:7-62 | the miner, automation and stake seeds identify their authority, and seed lists of different kinds never coincide |
| `SupplyPdas.FindRoundPda` | ore-supply-frontend/lib/program/pdas.ts:27-35 | the supply finder succeeds exactly for u64 ids, fails with a RangeError otherwise, and on success gives the same address as the ore finder |
| `Instructions.PayloadRoundTrip` | ore-frontend/lib/program/instructions.ts:85-91 | every payload decodes back to its command, with u64 fields taken modulo 2^64 and the mask modulo 2^32 |
| `Instructions.PayloadLayout` | ore-frontend/lib/program/instructions.ts:127-281 | opcodes are 0 to 6, and the lengths are 1, 9 and 13; the u64 sits at offset 1 and the Deploy mask at offset 9 |
| `Instructions.MaskUpToBits` | ore-frontend/lib/program/instructions.ts:68-73 | after i iterations of the mask loop, bit j is set iff j < i and square j is selected |
| `Instructions.MaskOfBits` | ore-frontend/lib/program/instructions.ts:68-73 | bit j of the mask is set iff j < 25 and square j is selected; the mask is below 2^25 |
| `Instructions.ComputeMask` | ore-frontend/lib/program/instructions.ts:67-73 | the loop computes that mask |
| `Instructions.CreateSquaresArray` | ore-frontend/lib/program/instructions.ts:114-122 | 25 entries, where entry i is true iff index i was selected; indices outside 0..24 are ignored |
| `Instructions.SelectedSquaresSetOnly` | ore-frontend/lib/program/instructions.ts:114-122 | only the set of selected indices matters, not their order or repetition |
| `Instructions.SquaresMaskRoundTrip` | ore-frontend/lib/program/instructions.ts:114-122 | the mask of a squares array has bit i iff i < 25 and i was selected |
| `Instructions.DeployKeysShape` | ore-frontend/lib/program/instructions.ts:94-104 | Deploy has 8 keys; only the first signs, and only the system program is read-only |
| `Instructions.CreateDeployInstruction` | ore-frontend/lib/program/instructions.ts:53-108 | it fails with InvalidSquares exactly when the array is not 25 long; otherwise it returns the Deploy keys and the payload opcode 6, amount and mask |
| `Instructions.OpcodeAndU64` | ore-frontend/lib/program/instructions.ts:157-159 | the 9-byte buffer holds the opcode and then the 8 little-endian bytes of the value |
| `Instructions.CreateInitializeInstruction` | ore-frontend/lib/program/instructions.ts:127-144 | Initialize has payload [0] and keys authority (signer), board, system program |
| `Instructions.CreateStartRoundInstruction` | ore-frontend/lib/program/instructions.ts:149-171 | StartRound has payload opcode 1 plus the round id, and keys authority, board, round, system program |
| `Instructions.CreateRevealInstruction` | ore-frontend/lib/program/instructions.ts:176-196 | Reveal has payload [2]; the authority signs read-only, followed by board, round and the clock sysvar |
| `Instructions.CreateClaimInstruction` | ore-frontend/lib/program/instructions.ts:201-223 | Claim has payload [3] and keys authority, board, round, miner, system program |
| `Instructions.CreateStakeInstruction` | ore-frontend/lib/program/instructions.ts:228-252 | Stake has payload opcode 4 plus the amount, and keys authority, board, miner, system program |
| `Instructions.CreateUnstakeInstruction` | ore-frontend/lib/program/instructions.ts:257-281 | Unstake has payload opcode 5 plus the amount, with the same keys as Stake |
| `SupplyInstructions.CreateDeployInstruction` | ore-supply-frontend/lib/program/instructions.ts:18-71 | it succeeds iff the array has 25 entries and the round id and amount are u64s; a wrong length gives InvalidSquares and anything else a RangeError; on success it returns the same instruction as the ore builder |
| `SupplyInstructions.WriteDeployPayload` | ore-supply-frontend/lib/program/instructions.ts:51-54 | the checked payload write succeeds iff the amount is a u64, and then equals the ore payload |
| `SupplyInstructions.SupplyDeployPayloadExact` | ore-supply-frontend/lib/program/instructions.ts:51-54 | a payload the supply builder accepts decodes back exactly, with no wrapping |
| `Accounts.WordsField` | ore-frontend/hooks/useGameProgram.ts:146-158 | a 25-word u64 array field reads back word for word |
| `Accounts.ParseBoard` | ore-frontend/hooks/useGameProgram.ts:120-125 | Board parsing succeeds iff there are at least 32 bytes (else RangeError), and yields u64 round id, start slot and end slot |
| `Accounts.BoardRoundTrip` | ore-frontend/hooks/useGameProgram.ts:114-125 | an encoded Board parses back to itself |
| `Accounts.RoundLayout` | ore-frontend/hooks/useGameProgram.ts:127-141 | in a 560-byte Round: id at 8, deployed at 16, slot hash at 216..248, count at 248, motherlode at 456, total deployed at 536 |
| `Accounts.MinerLayout` | ore-frontend/lib/program/actions.ts:215-221 | in a 456-byte Miner: deployed at 40, rewards_sol at 440, rewards_ore at 448 |
| `GameProgram.ParseRoundData` | ore-frontend/hooks/useGameProgram.ts:142-167 | the two loops read id, deployed, count, motherlode and total deployed; this succeeds iff there are at least 544 bytes |
| `GameProgram.RoundFieldsOfLayout` | ore-frontend/hooks/useGameProgram.ts:127-167 | parsing an encoded Round returns its own fields |
| `GameProgram.ParseTreasuryData` | ore-frontend/hooks/useGameProgram.ts:173-178 | succeeds iff there are at least 24 bytes (the u64 at 16), else RangeError |
| `GameProgram.TreasuryRoundTrip` | ore-frontend/hooks/useGameProgram.ts:173-178 | an encoded Treasury reads back its motherlode |
| `GameProgram.ParseMinerData` | ore-frontend/hooks/useGameProgram.ts:181-191 | the running-offset loop and the sum succeed iff there are at least 240 bytes, giving the sum of the 25 deployed words |
| `GameProgram.MinerTotalOfLayout` | ore-frontend/hooks/useGameProgram.ts:181-191 | on an encoded Miner the total is the sum of its deployed amounts |
| `GameProgram.TimeRemaining` | ore-frontend/hooks/useGameProgram.ts:218-225 | 0 when the end slot exceeds 4,000,000,000 or has passed; otherwise floor(0.4 × slots left) |
| `GameProgram.TimeRemainingMonotone` | ore-frontend/hooks/useGameProgram.ts:218-225 | the countdown never increases as the slot advances |
| `GameProgram.SquareView` | ore-frontend/hooks/useGameProgram.ts:228-232 | 25 squares with ids 1..25, each carrying its deployed amount and player count |
| `GameProgram.DetectChangedSquares` | ore-frontend/hooks/useGameProgram.ts:235-240 | the loop lists the changed squares |
| `GameProgram.ChangedSquaresUpTo` | ore-frontend/hooks/useGameProgram.ts:235-240 | id k is listed iff square k-1 changed; the list is strictly ascending |
| `GameProgram.ChangedSquaresEmpty` | ore-frontend/hooks/useGameProgram.ts:235-248 | nothing is listed iff the old and new deployed arrays are equal |
| `GameProgram.HookMaskBits` | ore-frontend/hooks/useGameProgram.ts:380-385 | bit j is set iff some id has (id - 1) mod 32 = j, the shift count being taken mod 32 |
| `GameProgram.HookMaskOfSquareIds` | ore-frontend/hooks/useGameProgram.ts:380-385 | for ids in 1..25, bit j is set iff id j+1 was chosen, and the mask is below 2^25 |
| `GameProgram.HookMaskWraps` | ore-frontend/hooks/useGameProgram.ts:382-385 | id 33 sets the same bit as id 1, and id 0 sets bit 31 |
| `GameProgram.HookDeployPayloadLayout` | ore-frontend/hooks/useGameProgram.ts:396-405 | the 20-byte payload has discriminator 7 as a u64, the lamports modulo 2^64 at 8, and the mask at 16 |
| `GameProgram.HookDeployKeysShape` | ore-frontend/hooks/useGameProgram.ts:407-419 | the hook's Deploy has 7 keys; only the wallet signs, and only the system program is read-only |
| `GameProgram.DeployInstructionSpec` | ore-frontend/hooks/useGameProgram.ts:387-419 | a missing Board throws "Board account not found", a short Board a RangeError, and a round id of 2^53 or more is refused by `new BN`; otherwise the instruction carries the amount, the mask and the round named by the Board |
| `GameProgram.Fetch` | ore-frontend/hooks/useGameProgram.ts:200-214 | account data is missing only when nothing was pushed and no account exists |
| `GameProgram.NextGameStateShape` | ore-frontend/hooks/useGameProgram.ts:196-257 | every published state carries the Board's round id, below 2^53, 25 squares numbered 1..25, winning square 0, and no countdown once the end slot has passed or holds the sentinel |
| `GameProgram.InitialAccountsView` | ore/program/src/initialize.rs:18-104 | on freshly initialized accounts the hook shows round 0 with nothing deployed and, because of the sentinel, no countdown |
| `GameProgram.MinerStatsCases` | ore-frontend/hooks/useGameProgram.ts:273-296 | a missing miner shows zero, and an encoded miner its deployed total; rewards are always 0 |
| `GameProgram.GameProgram.constructor` | ore-frontend/hooks/useGameProgram.ts:106-110 | the hook starts with no state, not loading, no error, and 25 zero last-deployed amounts |
| `GameProgram.GameProgram.UpdateGameState` | ore-frontend/hooks/useGameProgram.ts:194-270 | on success it publishes the next state, replaces the snapshot and returns the changed squares; on any failure it records the error and changes nothing else |
| `GameProgram.GameProgram.UpdateMinerStats` | ore-frontend/hooks/useGameProgram.ts:273-296 | with no wallet it does nothing; otherwise it publishes the miner stats, with zero on any failure |
| `GameProgram.GameProgram.Deploy` | ore-frontend/hooks/useGameProgram.ts:368-444 | with no wallet it throws and touches nothing; otherwise it returns the hook's Deploy instruction or its error, sets or clears the error, and ends not loading |
| `Actions.DeployMaskBits` | ore-frontend/lib/program/actions.ts:28-32 | bit j of the sent mask is set iff j < 25 and id j+1 was chosen |
| `Actions.DeployMaskMatchesHook` | ore-frontend/lib/program/actions.ts:28-32 | for ids in 1..25 this mask equals the hook's; id 33 is dropped here but sets a bit in the hook |
| `Actions.DeployToSquares` | ore-frontend/lib/program/actions.ts:17-41 | with no wallet it fails; otherwise the wallet is signer and authority, and the payload carries the amount and the ids' mask |
| `Actions.GetCurrentRoundId` | ore-frontend/lib/program/actions.ts:61-77 | a missing Board throws "not found", a Board under 16 bytes a RangeError; otherwise it returns the u64 at 8 |
| `Actions.GetCurrentRoundIdOfBoard` | ore-frontend/lib/program/actions.ts:61-77 | on an encoded Board it returns the Board's round id |
| `Actions.SlotsToSeconds` | ore-frontend/lib/program/actions.ts:107-110 | floor(slots left / 2.5), and 0 once the end slot has passed; there is no sentinel |
| `Actions.WinningSquare` | ore-frontend/lib/program/actions.ts:162-168 | the XOR of the four slot-hash words, taken mod 25, plus 1, lies in 1..25 |
| `Actions.RevealedIffWords` | ore-frontend/lib/program/actions.ts:157-169 | the slot hash is nonzero iff one of the four words is nonzero |
| `Actions.FetchGameState` | ore-frontend/lib/program/actions.ts:82-193 | the loop and reads compute the specified view, or its error |
| `Actions.GameViewShape` | ore-frontend/lib/program/actions.ts:113-176 | 25 squares numbered 1..25; the winner is 0, or in 1..25 exactly when the round exists and is revealed; a missing round shows zeros |
| `Actions.GameViewOfRound` | ore-frontend/lib/program/actions.ts:120-170 | on encoded accounts the view shows the round's own amounts, counts, motherlode and total, and a winner iff the slot hash is nonzero |
| `Actions.InitialAccountsGameView` | ore/program/src/initialize.rs:83-104 | on fresh accounts the view shows round 0, nothing deployed and no winner, but a countdown (no sentinel check) |
| `Actions.FetchMinerStats` | ore-frontend/lib/program/actions.ts:198-249 | the loop and reads compute the specified miner view, and every failure gives the zero record |
| `Actions.MinerViewCases` | ore-frontend/lib/program/actions.ts:198-249 | a missing miner gives zeros with exists false; an encoded Miner gives its deployed total and rewards |
| `SupplyActions.DeployToSquares` | ore-supply-frontend/lib/program/actions.ts:18-41 | it succeeds iff a wallet is present and the round id and amount are u64s, and then gives the same instruction as the ore client |
| `SupplyActions.FetchGameState` | ore-supply-frontend/lib/program/actions.ts:62-127 | the reads and the loop compute the specified supply view, or the error rethrown |
| `SupplyActions.SupplyGameViewShape` | ore-supply-frontend/lib/program/actions.ts:86-122 | the countdown is always 0; a missing round shows no squares and no winner; an existing one shows 25 squares and winner 1 |
| `SupplyActions.SupplyRoundIdAgrees` | ore-supply-frontend/lib/program/actions.ts:208-220 | whenever a game view is produced, its round id is the one `getCurrentRoundId` returns |
| `SupplyActions.SupplyMotherlodeOnOreRound` | ore-supply-frontend/lib/program/actions.ts:96-99 | on an ore-layout Round, the supply client's motherlode is the round id |
| `SupplyActions.FetchMinerStats` | ore-supply-frontend/lib/program/actions.ts:132-177 | the loop collects and sums the deployed words as specified, or rethrows a RangeError |
| `SupplyActions.ReadDeployed` | ore-supply-frontend/lib/program/actions.ts:156-164 | the loop succeeds iff the 25 words from offset 32 are present, collecting exactly those words and their sum |
| `SupplyActions.SupplyMinerViewShape` | ore-supply-frontend/lib/program/actions.ts:132-177 | it fails iff the miner exists with fewer than 232 bytes; the 25 entries are u64s summing to the total; a missing miner is zero |
| `SupplyActions.FetchStakeInfo` | ore-supply-frontend/lib/program/actions.ts:182-206 | a missing stake gives zeros, and one under 24 bytes a RangeError; otherwise it gives two u64s |
| `SupplyActions.StakeInfoRoundTrip` | ore-supply-frontend/lib/program/actions.ts:194-201 | an encoded Stake reads back its staked amount and rewards |

## Left out

- Network and signing are not modelled. Transactions are never assembled, signed, sent or confirmed; each send path stops at the instruction it would sign.
- WebSocket subscriptions and their cleanup (useGameProgram.ts:298-357) are not modelled. `refreshGameState` (useGameProgram.ts:360-365) is not modelled either; it only calls the two update methods.
- `findProgramAddressSync` is symbolic. An address is the term `Derived(seeds, program)`, so the SHA-256 hashing and the bump search are left out, and the bump is not returned.
- `Pdas.RoundSeedsInjective`: its address clause, and the three-account ledgers of `GameProgram.InitialAccountsView` and `Actions.InitialAccountsGameView`, rest on an assumption rather than a proof. Distinct seed lists are taken to give distinct addresses, and no derived address is taken to equal a plain key. SHA-256 is only collision-resistant, so this holds only up to a hash collision.
- The program id is a parameter, because ore-frontend/lib/program/constants.ts is not part of this model. For the same reason, `RPC_ENDPOINT`, `solToLamports` and `SLOTS_PER_SECOND` are not modelled. The value 2.5 is taken from the comment at actions.ts:107-108.
- Floating point is not modelled, because every amount is kept as an integer number of lamports. This covers:
  - `lamportsToSol`;
  - the `/ 1e11` scalings;
  - `Number(...)` of a u64, which loses precision above 2^53 and can round an id near 2^64 up to 2^64 before the supply finder's range check. In the hook, a round id of 2^53 or more is modelled as the `UnsafeInteger` failure of `new BN(roundId)` in `getRoundPDA` (useGameProgram.ts:64-69); that bound comes from the BN.js library, which is not part of this model;
  - `Math.floor(amount * LAMPORTS_PER_SOL)`.
- `GameProgram.TimeRemaining`: the countdown `slots * 0.4` uses exact arithmetic, `floor(2 * slots / 5)`, not the double-precision product.
- `Actions.SlotsToSeconds`: the countdown `slots / 2.5` likewise uses exact arithmetic, `floor(2 * slots / 5)`.
- The wallet is `Option<PublicKey>`. "Connected" means it has both a key and `signTransaction`.
- `getConfigPDA` (useGameProgram.ts:85-90) is not modelled, because nothing calls it.
- `findAutomationPda` in the supply client is the shared finder in `Pdas`. It has no model of its own.
- The hook parses the Treasury only for its failure cases. Its motherlode value is unused, and the model keeps it unused.
- Console logging and the `try`/`catch` logging wrappers are left out. Only their effect on the result or the error is modelled.
- Error messages are reduced to error kinds. For example, "Board account not found" and "Board not initialized" are both `AccountNotFound`.

