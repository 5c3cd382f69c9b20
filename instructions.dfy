/** Instruction builders of the ore client (lib/program/instructions.ts):
    each allocates a zeroed data buffer, writes a one-byte opcode and its
    little-endian arguments into it in place, and pairs it with a fixed key
    list. Deploy also packs a 25-square selection into a 32-bit mask. */
module Instructions {
  import opened Wire
  import opened Chain
  import opened Pdas
  import opened Bits
  import BufferWriters

  /** The grid has 25 squares, indices 0..24 on the wire. */
  const SQUARES: nat := 25

  /** The instruction payloads, with the arguments as the caller passes them. */
  datatype Command =
    | Initialize
    | StartRound(roundId: int)
    | Reveal
    | Claim
    | Stake(amount: int)
    | Unstake(amount: int)
    | Deploy(amount: int, mask: int)

  /** The data buffer each builder produces: the opcode, then u64 arguments
      (wrapped modulo 2^64 by the byte writer) and the u32 mask. */
  function Payload(c: Command): seq<Byte>
  {
    match c
    case Initialize => [0]
    case StartRound(roundId) => [1] + LeBytes(roundId, 8)
    case Reveal => [2]
    case Claim => [3]
    case Stake(amount) => [4] + LeBytes(amount, 8)
    case Unstake(amount) => [5] + LeBytes(amount, 8)
    case Deploy(amount, mask) => [6] + LeBytes(amount, 8) + LeBytes(mask, 4)
  }

  /** The model's reference decoder for payloads (no on-chain parser is
      modelled): opcode, then fixed-width little-endian fields; any other
      length is rejected. */
  function ParsePayload(data: seq<Byte>): Option<Command>
  {
    if |data| == 1 && data[0] == 0 then Some(Initialize)
    else if |data| == 9 && data[0] == 1 then Some(StartRound(LeValue(data[1..9])))
    else if |data| == 1 && data[0] == 2 then Some(Reveal)
    else if |data| == 1 && data[0] == 3 then Some(Claim)
    else if |data| == 9 && data[0] == 4 then Some(Stake(LeValue(data[1..9])))
    else if |data| == 9 && data[0] == 5 then Some(Unstake(LeValue(data[1..9])))
    else if |data| == 13 && data[0] == 6 then
      Some(Deploy(LeValue(data[1..9]), LeValue(data[9..13])))
    else None
  }

  /** The command as it travels: every u64 argument reduced modulo 2^64. */
  function OnWire(c: Command): Command
  {
    match c
    case StartRound(roundId) => StartRound(roundId % U64_LIMIT)
    case Stake(amount) => Stake(amount % U64_LIMIT)
    case Unstake(amount) => Unstake(amount % U64_LIMIT)
    case Deploy(amount, mask) => Deploy(amount % U64_LIMIT, mask % U32_LIMIT)
    case _ => c
  }

  /** Every payload reads back as the command it encodes, with its u64
      arguments reduced modulo 2^64; in particular the opcode and the length
      identify the instruction. */
  lemma PayloadRoundTrip(c: Command)
    ensures ParsePayload(Payload(c)) == Some(OnWire(c))
  {
    Pow256Eight();
    match c
    case StartRound(roundId) =>
      assert Payload(c)[1..9] == LeBytes(roundId, 8);
      LeRoundTrip(roundId, 8);
    case Stake(amount) =>
      assert Payload(c)[1..9] == LeBytes(amount, 8);
      LeRoundTrip(amount, 8);
    case Unstake(amount) =>
      assert Payload(c)[1..9] == LeBytes(amount, 8);
      LeRoundTrip(amount, 8);
    case Deploy(amount, mask) =>
      var head: seq<Byte> := [6] + LeBytes(amount, 8);
      var tail := LeBytes(mask, 4);
      assert Payload(c) == head + tail;
      assert Payload(c)[1..9] == LeBytes(amount, 8);
      assert Payload(c)[9..13] == tail by {
        assert |head| == 9 && |tail| == 4;
        forall k | 0 <= k < 4 ensures (head + tail)[9 + k] == tail[k] { }
      }
      LeRoundTrip(amount, 8);
      LeRoundTrip(mask, 4);
    case _ =>
  }

  /** Opcodes and lengths: Initialize, Reveal and Claim are the single bytes
      0, 2 and 3; StartRound, Stake and Unstake are 9 bytes led by 1, 4 and 5;
      Deploy is 13 bytes led by 6 with the mask at offset 9. */
  lemma PayloadLayout(c: Command)
    ensures c.Initialize? ==> Payload(c) == [0]
    ensures c.Reveal? ==> Payload(c) == [2]
    ensures c.Claim? ==> Payload(c) == [3]
    ensures c.StartRound? ==> |Payload(c)| == 9 && Payload(c)[0] == 1 && U64At(Payload(c), 1) == c.roundId % U64_LIMIT
    ensures c.Stake? ==> |Payload(c)| == 9 && Payload(c)[0] == 4 && U64At(Payload(c), 1) == c.amount % U64_LIMIT
    ensures c.Unstake? ==> |Payload(c)| == 9 && Payload(c)[0] == 5 && U64At(Payload(c), 1) == c.amount % U64_LIMIT
    ensures c.Deploy? ==>
              && |Payload(c)| == 13 && Payload(c)[0] == 6
              && U64At(Payload(c), 1) == c.amount % U64_LIMIT
              && U32At(Payload(c), 9) == c.mask % U32_LIMIT
  {
    PayloadRoundTrip(c);
  }

  // ---------------------------------------------------------------------
  // The square mask

  /** The mask of the first n squares: `mask |= 1 << i` for each chosen i < n. */
  function MaskUpTo(squares: seq<bool>, n: nat): bv32
    requires n <= SQUARES && n <= |squares|
  {
    if n == 0 then 0
    else if squares[n - 1] then MaskUpTo(squares, n - 1) | Flag(n - 1)
    else MaskUpTo(squares, n - 1)
  }

  function MaskOf(squares: seq<bool>): bv32
    requires |squares| == SQUARES
  {
    MaskUpTo(squares, SQUARES)
  }

  lemma {:induction false} MaskUpToBits(squares: seq<bool>, n: nat)
    requires n <= SQUARES && n <= |squares|
    ensures forall i :: 0 <= i < 32 ==> (Bit(MaskUpTo(squares, n), i) <==> i < n && squares[i])
  {
    if n > 0 {
      MaskUpToBits(squares, n - 1);
      if squares[n - 1] {
        forall i | 0 <= i < 32
          ensures Bit(MaskUpTo(squares, n), i) <==> i < n && squares[i]
        {
          BitOfOr(MaskUpTo(squares, n - 1), n - 1, i);
        }
      }
    }
  }

  /** The mask has bit i set exactly when square i is chosen, and nothing at
      or above bit 25, so it is below 2^25. */
  lemma MaskOfBits(squares: seq<bool>)
    requires |squares| == SQUARES
    ensures forall i :: 0 <= i < 32 ==> (Bit(MaskOf(squares), i) <==> i < SQUARES && squares[i])
    ensures MaskOf(squares) as int < 0x200_0000
  {
    MaskUpToBits(squares, SQUARES);
    MaskBelow(MaskOf(squares));
  }

  /** The mask loop of `createDeployInstruction`. */
  method ComputeMask(squares: seq<bool>) returns (mask: bv32)
    requires |squares| == SQUARES
    ensures mask == MaskOf(squares)
    ensures forall i :: 0 <= i < 32 ==> (Bit(mask, i) <==> i < SQUARES && squares[i])
  {
    mask := 0;
    for i := 0 to SQUARES
      invariant mask == MaskUpTo(squares, i)
    {
      if squares[i] {
        mask := mask | Flag(i);
      }
    }
    MaskOfBits(squares);
  }

  // ---------------------------------------------------------------------
  // The squares array

  /** 25 flags, true exactly at the in-range listed indices. */
  function SelectedSquares(selected: seq<int>): seq<bool>
  {
    seq(SQUARES, i requires 0 <= i < SQUARES => i in selected)
  }

  /** `createSquaresArray`: start from 25 false flags and set each listed
      index that lies in 0..24; other indices are ignored. */
  method CreateSquaresArray(selected: seq<int>) returns (squares: seq<bool>)
    ensures |squares| == SQUARES
    ensures forall i :: 0 <= i < SQUARES ==> (squares[i] <==> i in selected)
    ensures squares == SelectedSquares(selected)
  {
    var a := new bool[SQUARES](_ => false);
    for k := 0 to |selected|
      invariant forall i :: 0 <= i < SQUARES ==> (a[i] <==> i in selected[..k])
    {
      var index := selected[k];
      if 0 <= index < SQUARES {
        a[index] := true;
      }
      assert selected[..k + 1] == selected[..k] + [index];
    }
    assert selected[..|selected|] == selected;
    squares := a[..];
  }

  /** Order and duplicates in the index list make no difference. */
  lemma SelectedSquaresSetOnly(s: seq<int>, t: seq<int>)
    requires forall i :: 0 <= i < SQUARES ==> (i in s <==> i in t)
    ensures SelectedSquares(s) == SelectedSquares(t)
  {
  }

  /** Round trip: for any index list, the mask of its squares array has bit i
      set exactly when i is a listed index in 0..24. */
  lemma SquaresMaskRoundTrip(selected: seq<int>)
    ensures forall i :: 0 <= i < 32 ==>
      (Bit(MaskOf(SelectedSquares(selected)), i) <==> i < SQUARES && i in selected)
  {
    MaskOfBits(SelectedSquares(selected));
  }

  // ---------------------------------------------------------------------
  // Builders

  /** The Deploy key list: signer, authority, automation, board, miner,
      round, system program, entropy var (the default key). */
  function DeployKeys(signer: PublicKey, authority: PublicKey, roundId: int, programId: PublicKey): seq<AccountMeta>
  {
    [ AccountMeta(Key(signer), true, true),
      AccountMeta(Key(authority), false, true),
      AccountMeta(FindAutomationPda(authority, programId), false, true),
      AccountMeta(FindBoardPda(programId), false, true),
      AccountMeta(FindMinerPda(authority, programId), false, true),
      AccountMeta(RoundPda(roundId, programId), false, true),
      AccountMeta(Key(SYSTEM_PROGRAM_ID), false, false),
      AccountMeta(Key(DEFAULT_KEY), false, true) ]
  }

  /** Eight keys; only the first signs and only the system program is read-only. */
  lemma DeployKeysShape(signer: PublicKey, authority: PublicKey, roundId: int, programId: PublicKey)
    ensures |DeployKeys(signer, authority, roundId, programId)| == 8
    ensures Signers(DeployKeys(signer, authority, roundId, programId)) == {0}
    ensures ReadOnly(DeployKeys(signer, authority, roundId, programId)) == {6}
  {
    var keys := DeployKeys(signer, authority, roundId, programId);
    assert forall i :: i in Signers(keys) ==> i == 0;
    assert 0 in Signers(keys);
    assert forall i :: i in ReadOnly(keys) ==> i == 6;
    assert 6 in ReadOnly(keys);
  }

  /** `createDeployInstruction` (amount already in lamports): rejects a squares
      array whose length is not 25, otherwise packs the mask and writes the
      13-byte payload [6, amount as u64 LE, mask as u32 LE]. */
  method CreateDeployInstruction(signer: PublicKey, authority: PublicKey, amount: int,
                                 squares: seq<bool>, roundId: int, programId: PublicKey)
    returns (r: Result<Instruction>)
    ensures r.Err? <==> |squares| != SQUARES
    ensures r.Err? ==> r.error == InvalidSquares
    ensures r.Ok? ==> r.value == Instruction(DeployKeys(signer, authority, roundId, programId),
                                             programId, Payload(Deploy(amount, MaskOf(squares) as int)))
  {
    if |squares| != SQUARES {
      return Err(InvalidSquares);
    }
    var mask := ComputeMask(squares);
    var boardPda := FindBoardPda(programId);
    var minerPda := FindMinerPda(authority, programId);
    var roundPda := FindRoundPda(roundId, programId);
    var automationPda := FindAutomationPda(authority, programId);
    var entropyVarPda := Key(DEFAULT_KEY);

    var data := new Byte[13](_ => 0);
    BufferWriters.WriteUInt8(data, 6, 0);
    BufferWriters.WriteBigUInt64LE(data, amount, 1);
    BufferWriters.WriteUInt32LE(data, mask as int, 9);
    assert data[..] == Payload(Deploy(amount, mask as int));

    r := Ok(Instruction(
      [ AccountMeta(Key(signer), true, true),
        AccountMeta(Key(authority), false, true),
        AccountMeta(automationPda, false, true),
        AccountMeta(boardPda, false, true),
        AccountMeta(minerPda, false, true),
        AccountMeta(roundPda, false, true),
        AccountMeta(Key(SYSTEM_PROGRAM_ID), false, false),
        AccountMeta(entropyVarPda, false, true) ],
      programId, data[..]));
  }

  /** Writes a one-byte payload holding `opcode` into a fresh buffer. */
  method OpcodeOnly(opcode: Byte) returns (data: seq<Byte>)
    ensures data == [opcode]
  {
    var buffer := new Byte[1](_ => 0);
    BufferWriters.WriteUInt8(buffer, opcode, 0);
    data := buffer[..];
  }

  /** Writes [opcode, value as u64 LE] into a fresh 9-byte buffer. */
  method OpcodeAndU64(opcode: Byte, value: int) returns (data: seq<Byte>)
    ensures data == [opcode] + LeBytes(value, 8)
  {
    var buffer := new Byte[9](_ => 0);
    BufferWriters.WriteUInt8(buffer, opcode, 0);
    BufferWriters.WriteBigUInt64LE(buffer, value, 1);
    data := buffer[..];
  }

  method CreateInitializeInstruction(authority: PublicKey, programId: PublicKey) returns (ix: Instruction)
    ensures ix.data == Payload(Initialize) && ix.programId == programId
    ensures ix.keys == [ AccountMeta(Key(authority), true, true),
                         AccountMeta(FindBoardPda(programId), false, true),
                         AccountMeta(Key(SYSTEM_PROGRAM_ID), false, false) ]
  {
    var data := OpcodeOnly(0);
    ix := Instruction([ AccountMeta(Key(authority), true, true),
                        AccountMeta(FindBoardPda(programId), false, true),
                        AccountMeta(Key(SYSTEM_PROGRAM_ID), false, false) ], programId, data);
  }

  method CreateStartRoundInstruction(authority: PublicKey, roundId: int, programId: PublicKey) returns (ix: Instruction)
    ensures ix.data == Payload(StartRound(roundId)) && ix.programId == programId
    ensures ix.keys == [ AccountMeta(Key(authority), true, true),
                         AccountMeta(FindBoardPda(programId), false, true),
                         AccountMeta(RoundPda(roundId, programId), false, true),
                         AccountMeta(Key(SYSTEM_PROGRAM_ID), false, false) ]
  {
    var roundPda := FindRoundPda(roundId, programId);
    var data := OpcodeAndU64(1, roundId);
    ix := Instruction([ AccountMeta(Key(authority), true, true),
                        AccountMeta(FindBoardPda(programId), false, true),
                        AccountMeta(roundPda, false, true),
                        AccountMeta(Key(SYSTEM_PROGRAM_ID), false, false) ], programId, data);
  }

  method CreateRevealInstruction(authority: PublicKey, roundId: int, programId: PublicKey) returns (ix: Instruction)
    ensures ix.data == Payload(Reveal) && ix.programId == programId
    ensures ix.keys == [ AccountMeta(Key(authority), true, false),
                         AccountMeta(FindBoardPda(programId), false, true),
                         AccountMeta(RoundPda(roundId, programId), false, true),
                         AccountMeta(ClockSysvar, false, false) ]
  {
    var roundPda := FindRoundPda(roundId, programId);
    var data := OpcodeOnly(2);
    ix := Instruction([ AccountMeta(Key(authority), true, false),
                        AccountMeta(FindBoardPda(programId), false, true),
                        AccountMeta(roundPda, false, true),
                        AccountMeta(ClockSysvar, false, false) ], programId, data);
  }

  method CreateClaimInstruction(authority: PublicKey, roundId: int, programId: PublicKey) returns (ix: Instruction)
    ensures ix.data == Payload(Claim) && ix.programId == programId
    ensures ix.keys == [ AccountMeta(Key(authority), true, true),
                         AccountMeta(FindBoardPda(programId), false, true),
                         AccountMeta(RoundPda(roundId, programId), false, true),
                         AccountMeta(FindMinerPda(authority, programId), false, true),
                         AccountMeta(Key(SYSTEM_PROGRAM_ID), false, false) ]
  {
    var roundPda := FindRoundPda(roundId, programId);
    var data := OpcodeOnly(3);
    ix := Instruction([ AccountMeta(Key(authority), true, true),
                        AccountMeta(FindBoardPda(programId), false, true),
                        AccountMeta(roundPda, false, true),
                        AccountMeta(FindMinerPda(authority, programId), false, true),
                        AccountMeta(Key(SYSTEM_PROGRAM_ID), false, false) ], programId, data);
  }

  /** The key list shared by Stake and Unstake. */
  function StakingKeys(authority: PublicKey, programId: PublicKey): seq<AccountMeta>
  {
    [ AccountMeta(Key(authority), true, true),
      AccountMeta(FindBoardPda(programId), false, true),
      AccountMeta(FindMinerPda(authority, programId), false, true),
      AccountMeta(Key(SYSTEM_PROGRAM_ID), false, false) ]
  }

  method CreateStakeInstruction(authority: PublicKey, amount: int, programId: PublicKey) returns (ix: Instruction)
    ensures ix == Instruction(StakingKeys(authority, programId), programId, Payload(Stake(amount)))
  {
    var data := OpcodeAndU64(4, amount);
    ix := Instruction(StakingKeys(authority, programId), programId, data);
  }

  method CreateUnstakeInstruction(authority: PublicKey, amount: int, programId: PublicKey) returns (ix: Instruction)
    ensures ix == Instruction(StakingKeys(authority, programId), programId, Payload(Unstake(amount)))
  {
    var data := OpcodeAndU64(5, amount);
    ix := Instruction(StakingKeys(authority, programId), programId, data);
  }
}
