/** The supply client's Deploy builder (ore-supply-frontend
    lib/program/instructions.ts). It computes the same mask and key list as
    `Instructions.CreateDeployInstruction` but writes the payload with Node's
    range-checked writers, so a round id or an amount outside the u64 range
    raises a RangeError instead of wrapping. Its `createSquaresArray` is the
    one in `Instructions`. */
module SupplyInstructions {
  import opened Wire
  import opened Chain
  import opened Pdas
  import opened Bits
  import opened Instructions
  import SupplyPdas
  import NodeBuffer

  /** `createDeployInstruction` (amount already in lamports). The checks run
      in source order: the squares length, then the round id (inside
      `findRoundPda`), then the amount (inside `writeBigUInt64LE`). */
  method CreateDeployInstruction(signer: PublicKey, authority: PublicKey, amount: int,
                                 squares: seq<bool>, roundId: int, programId: PublicKey)
    returns (r: Result<Instruction>)
    ensures r.Ok? <==> |squares| == SQUARES && 0 <= roundId < U64_LIMIT && 0 <= amount < U64_LIMIT
    ensures |squares| != SQUARES ==> r == Err(InvalidSquares)
    ensures |squares| == SQUARES && r.Err? ==> r == Err(OutOfRange)
    ensures r.Ok? ==> r.value == Instruction(DeployKeys(signer, authority, roundId, programId),
                                             programId, Payload(Deploy(amount, MaskOf(squares) as int)))
  {
    if |squares| != SQUARES {
      return Err(InvalidSquares);
    }
    var mask := ComputeMask(squares);
    MaskOfBits(squares);
    var boardPda := FindBoardPda(programId);
    var minerPda := FindMinerPda(authority, programId);
    var roundPda := SupplyPdas.FindRoundPda(roundId, programId);
    if roundPda.Err? {
      return Err(roundPda.error);
    }
    var automationPda := FindAutomationPda(authority, programId);
    var entropyVarPda := Key(DEFAULT_KEY);

    var data := WriteDeployPayload(amount, mask as int);
    if data.Err? {
      return Err(data.error);
    }

    r := Ok(Instruction(
      [ AccountMeta(Key(signer), true, true),
        AccountMeta(Key(authority), false, true),
        AccountMeta(automationPda, false, true),
        AccountMeta(boardPda, false, true),
        AccountMeta(minerPda, false, true),
        AccountMeta(roundPda.value, false, true),
        AccountMeta(Key(SYSTEM_PROGRAM_ID), false, false),
        AccountMeta(entropyVarPda, false, true) ],
      programId, data.value));
  }

  /** The 13-byte payload written with Node's checked writers: the opcode
      and the mask always fit, the amount must be a u64. */
  method WriteDeployPayload(amount: int, mask: int) returns (r: Result<seq<Byte>>)
    requires 0 <= mask < U32_LIMIT
    ensures r.Ok? <==> 0 <= amount < U64_LIMIT
    ensures r.Err? ==> r.error == OutOfRange
    ensures r.Ok? ==> r.value == Payload(Deploy(amount, mask))
  {
    var data := new Byte[13](_ => 0);
    var ok := NodeBuffer.WriteUInt8(data, 6, 0);
    ok := NodeBuffer.WriteBigUInt64LE(data, amount, 1);
    if !ok {
      return Err(OutOfRange);
    }
    ok := NodeBuffer.WriteUInt32LE(data, mask, 9);
    r := Ok(data[..]);
  }

  /** Wherever the supply builder succeeds its payload reads back exactly:
      amount, and a mask whose bit i is square i. */
  lemma SupplyDeployPayloadExact(amount: int, squares: seq<bool>)
    requires 0 <= amount < U64_LIMIT && |squares| == SQUARES
    ensures ParsePayload(Payload(Deploy(amount, MaskOf(squares) as int)))
            == Some(Deploy(amount, MaskOf(squares) as int))
  {
    PayloadRoundTrip(Deploy(amount, MaskOf(squares) as int));
    Pow256Eight();
    MaskOfBits(squares);
    DivModUnique(amount, U64_LIMIT, 0, amount);
    DivModUnique(MaskOf(squares) as int, U32_LIMIT, 0, MaskOf(squares) as int);
  }
}
