/** The game hook of the ore client (hooks/useGameProgram.ts): account
    decoders for Board, Round, Treasury and Miner, the derived game view
    (squares, time remaining, squares changed since the last snapshot), and
    a Deploy builder with its own 20-byte payload. The hook's React state
    (game state, miner stats, loading flag, error, last-deployed snapshot) is
    the `GameProgram` class; network reads arrive as a `Ledger` and an
    optional buffer pushed by a subscription. */
module GameProgram {
  import opened Wire
  import opened Chain
  import opened Bits
  import opened Pdas
  import opened Accounts
  import BufferWriters

  /** `getTreasuryPDA`: the hook's one finder that `Pdas` has no twin for. */
  function TreasuryPda(programId: PublicKey): Address
  {
    FindProgramAddress([TREASURY_SEED], programId)
  }

  // ---------------------------------------------------------------------
  // Round

  /** The Round fields `parseRoundData` returns. */
  datatype RoundData = RoundData(roundId: nat, deployed: seq<nat>, count: seq<nat>,
                                 motherlode: nat, totalDeployed: nat)

  /** The furthest byte `parseRoundData` reads is total_deployed at 536..543. */
  const ROUND_BYTES_READ: nat := 544

  /** The fields at the Round's fixed offsets. */
  function RoundFields(data: seq<Byte>): RoundData
    requires |data| >= ROUND_BYTES_READ
  {
    RoundData(U64At(data, 8), U64Words(data, 16, 25), U64Words(data, 248, 25),
              U64At(data, 456), U64At(data, 536))
  }

  /** `parseRoundData`: the id, then 25 deployed words from 16, 25 count
      words from 248, motherlode and total deployed; any read past the end
      throws. */
  method ParseRoundData(data: seq<Byte>) returns (r: Result<RoundData>)
    ensures r.Ok? <==> |data| >= ROUND_BYTES_READ
    ensures r.Err? ==> r.error == OutOfRange
    ensures r.Ok? ==> r.value == RoundFields(data)
  {
    var roundId := ReadU64LE(data, 8);
    if roundId.None? {
      return Err(OutOfRange);
    }
    var deployed: seq<nat> := [];
    for i := 0 to 25
      invariant 16 + 8 * i <= |data|
      invariant deployed == U64Words(data, 16, i)
    {
      var offset := 16 + i * 8;
      var word := ReadU64LE(data, offset);
      if word.None? {
        return Err(OutOfRange);
      }
      deployed := deployed + [word.value];
    }
    var count: seq<nat> := [];
    for i := 0 to 25
      invariant 248 + 8 * i <= |data| || (i == 0 && 216 <= |data|)
      invariant count == (if i == 0 then [] else U64Words(data, 248, i))
    {
      var offset := 248 + i * 8;
      var word := ReadU64LE(data, offset);
      if word.None? {
        return Err(OutOfRange);
      }
      count := count + [word.value];
    }
    var motherlode := ReadU64LE(data, 456);
    if motherlode.None? {
      return Err(OutOfRange);
    }
    var totalDeployed := ReadU64LE(data, 536);
    if totalDeployed.None? {
      return Err(OutOfRange);
    }
    r := Ok(RoundData(roundId.value, deployed, count, motherlode.value, totalDeployed.value));
  }

  /** The decoder reads back the Round layout's fields. */
  lemma RoundFieldsOfLayout(round: Round, rest: seq<Byte>)
    requires RoundInRange(round)
    ensures |RoundBytes(round) + rest| >= ROUND_BYTES_READ
    ensures RoundFields(RoundBytes(round) + rest)
            == RoundData(round.id, round.deployed, round.count, round.motherlode, round.totalDeployed)
  {
    RoundLayout(round, rest);
  }

  // ---------------------------------------------------------------------
  // Treasury and Miner

  /** `parseTreasuryData`: motherlode is the u64 after the discriminator and
      the balance. */
  function ParseTreasuryData(data: seq<Byte>): (r: Result<nat>)
    ensures r.Ok? <==> |data| >= 24
    ensures r.Err? ==> r.error == OutOfRange
  {
    match ReadU64LE(data, 16)
    case Some(motherlode) => Ok(motherlode)
    case None => Err(OutOfRange)
  }

  /** Decoding an encoded Treasury gives back its motherlode. */
  lemma TreasuryRoundTrip(discriminator: int, balance: int, motherlode: int, rest: seq<Byte>)
    requires 0 <= motherlode < U64_LIMIT
    ensures ParseTreasuryData(TreasuryBytes(discriminator, balance, motherlode) + rest) == Ok(motherlode)
  {
    U64FieldExact(LeBytes(discriminator, 8) + LeBytes(balance, 8), motherlode, rest);
  }

  /** The furthest byte `parseMinerData` reads is deployed[24] at 232..239. */
  const MINER_BYTES_READ: nat := 240

  /** What `parseMinerData` computes, when every read succeeds. */
  function MinerTotal(data: seq<Byte>): Option<nat>
  {
    if |data| >= MINER_BYTES_READ then Some(Sum(U64Words(data, 40, 25))) else None
  }

  /** `parseMinerData`: 25 words read with a running offset from 40, then
      summed. */
  method ParseMinerData(data: seq<Byte>) returns (r: Result<nat>)
    ensures r.Ok? <==> |data| >= MINER_BYTES_READ
    ensures r.Err? ==> r.error == OutOfRange
    ensures r.Ok? ==> Some(r.value) == MinerTotal(data)
  {
    var offset := 8 + 32;
    var deployed: seq<nat> := [];
    for i := 0 to 25
      invariant offset == 40 + 8 * i
      invariant |deployed| == i
      invariant i > 0 ==> offset <= |data|
      invariant forall k :: 0 <= k < i ==> deployed[k] == U64At(data, 40 + 8 * k)
    {
      var word := ReadU64LE(data, offset);
      if word.None? {
        return Err(OutOfRange);
      }
      deployed := deployed + [word.value];
      offset := offset + 8;
    }
    assert deployed == U64Words(data, 40, 25);
    var totalDeployed := 0;
    for i := 0 to 25
      invariant totalDeployed == Sum(deployed[..i])
    {
      assert deployed[..i + 1][..i] == deployed[..i];
      totalDeployed := totalDeployed + deployed[i];
    }
    assert deployed[..25] == deployed;
    r := Ok(totalDeployed);
  }

  /** The miner total of an encoded Miner is the sum of its deployed amounts. */
  lemma MinerTotalOfLayout(m: Miner, rest: seq<Byte>)
    requires MinerInRange(m)
    ensures MinerTotal(MinerBytes(m) + rest) == Some(Sum(m.deployed))
  {
    MinerLayout(m, rest);
  }

  // ---------------------------------------------------------------------
  // The derived view

  /** Board end slots above this mean "no round running" (u64::MAX). */
  const END_SLOT_SENTINEL: int := 4_000_000_000

  /** Seconds left at 0.4 s per slot, written as floor(2 * slots / 5). */
  function TimeRemaining(endSlot: int, currentSlot: int): (t: nat)
    ensures endSlot > END_SLOT_SENTINEL ==> t == 0
    ensures currentSlot >= endSlot ==> t == 0
    ensures endSlot <= END_SLOT_SENTINEL && currentSlot < endSlot ==>
              5 * t <= 2 * (endSlot - currentSlot) < 5 * t + 5
  {
    if endSlot > END_SLOT_SENTINEL then 0
    else
      var slotsRemaining := if endSlot - currentSlot > 0 then endSlot - currentSlot else 0;
      (slotsRemaining * 2) / 5
  }

  /** Time remaining never grows as the current slot advances. */
  lemma TimeRemainingMonotone(endSlot: int, earlier: int, later: int)
    requires earlier <= later
    ensures TimeRemaining(endSlot, later) <= TimeRemaining(endSlot, earlier)
  {
    if endSlot <= END_SLOT_SENTINEL && later < endSlot {
      var a, b := TimeRemaining(endSlot, earlier), TimeRemaining(endSlot, later);
      assert 5 * b <= 2 * (endSlot - later) <= 2 * (endSlot - earlier) < 5 * a + 5;
    }
  }

  /** One square of the view; `sol` is kept in lamports. */
  datatype Square = Square(id: nat, lamports: nat, players: nat)

  /** The 25-entry square list: ids 1..25 in order, each with its deployed
      amount and player count. */
  function SquareView(deployed: seq<nat>, count: seq<nat>): (squares: seq<Square>)
    requires |deployed| == 25 && |count| == 25
    ensures |squares| == 25
    ensures forall i :: 0 <= i < 25 ==> squares[i].id == i + 1
    ensures forall i :: 0 <= i < 25 ==> squares[i].lamports == deployed[i] && squares[i].players == count[i]
  {
    seq(25, i requires 0 <= i < 25 => Square(i + 1, deployed[i], count[i]))
  }

  /** The deployed amounts shown by a view, in square order. */
  function Deployed(squares: seq<Square>): seq<nat>
  {
    seq(|squares|, i requires 0 <= i < |squares| => squares[i].lamports)
  }

  // ---------------------------------------------------------------------
  // Changed squares

  /** The 1-based numbers of the first n squares whose deployed amount differs. */
  function ChangedSquares(previous: seq<nat>, current: seq<nat>, n: nat): seq<nat>
    requires n <= |previous| && n <= |current|
  {
    if n == 0 then []
    else ChangedSquares(previous, current, n - 1) + (if previous[n - 1] != current[n - 1] then [n] else [])
  }

  /** The detection loop of `updateGameState`. */
  method DetectChangedSquares(previous: seq<nat>, current: seq<nat>) returns (changed: seq<nat>)
    requires |previous| == 25 && |current| == 25
    ensures changed == ChangedSquares(previous, current, 25)
  {
    changed := [];
    for i := 0 to 25
      invariant changed == ChangedSquares(previous, current, i)
    {
      if current[i] != previous[i] {
        changed := changed + [i + 1];
      }
    }
  }

  /** Square k is listed iff it changed, the list is strictly ascending, and
      it lies within 1..n. */
  lemma {:induction false} ChangedSquaresUpTo(previous: seq<nat>, current: seq<nat>, n: nat)
    requires n <= |previous| && n <= |current|
    ensures forall k :: k in ChangedSquares(previous, current, n) <==>
                          1 <= k <= n && previous[k - 1] != current[k - 1]
    ensures forall i, j :: 0 <= i < j < |ChangedSquares(previous, current, n)| ==>
                             ChangedSquares(previous, current, n)[i] < ChangedSquares(previous, current, n)[j]
  {
    if n > 0 {
      var before := ChangedSquares(previous, current, n - 1);
      ChangedSquaresUpTo(previous, current, n - 1);
      forall i | 0 <= i < |before|
        ensures before[i] < n
      {
        assert before[i] in before;
      }
    }
  }

  /** No square is reported exactly when nothing changed. */
  lemma ChangedSquaresEmpty(previous: seq<nat>, current: seq<nat>)
    requires |previous| == 25 && |current| == 25
    ensures ChangedSquares(previous, current, 25) == [] <==> previous == current
  {
    ChangedSquaresUpTo(previous, current, 25);
    if ChangedSquares(previous, current, 25) == [] {
      forall i | 0 <= i < 25
        ensures previous[i] == current[i]
      {
        assert i + 1 !in ChangedSquares(previous, current, 25);
      }
    } else {
      var k := ChangedSquares(previous, current, 25)[0];
      assert k in ChangedSquares(previous, current, 25);
    }
  }

  // ---------------------------------------------------------------------
  // Deploy

  /** `squaresMask |= 1 << (id - 1)` over the ids in order. JavaScript takes
      the shift count modulo 32, and no range check is made. */
  function HookMask(ids: seq<int>): bv32
  {
    if ids == [] then 0 else HookMask(ids[..|ids| - 1]) | Flag((ids[|ids| - 1] - 1) % 32)
  }

  /** Bit j is set iff some id has (id - 1) mod 32 == j. */
  lemma {:induction false} HookMaskBits(ids: seq<int>)
    ensures forall j :: 0 <= j < 32 ==>
              (Bit(HookMask(ids), j) <==> exists k :: 0 <= k < |ids| && (ids[k] - 1) % 32 == j)
  {
    if ids == [] {
      forall j | 0 <= j < 32 ensures !Bit(HookMask(ids), j) { NoBitOfZero(j); }
    } else {
      var n := |ids| - 1;
      HookMaskBits(ids[..n]);
      forall j | 0 <= j < 32
        ensures Bit(HookMask(ids), j) <==> exists k :: 0 <= k < |ids| && (ids[k] - 1) % 32 == j
      {
        BitOfOr(HookMask(ids[..n]), (ids[n] - 1) % 32, j);
        if exists k :: 0 <= k < |ids| && (ids[k] - 1) % 32 == j {
          var k :| 0 <= k < |ids| && (ids[k] - 1) % 32 == j;
          if k < n {
            assert ids[..n][k] == ids[k];
          }
        }
        if exists k :: 0 <= k < n && (ids[..n][k] - 1) % 32 == j {
          var k :| 0 <= k < n && (ids[..n][k] - 1) % 32 == j;
          assert ids[k] == ids[..n][k];
        }
      }
    }
  }

  /** For square ids 1..25 the mask has bit id - 1 for each listed id and
      nothing else, so it is below 2^25. */
  lemma HookMaskOfSquareIds(ids: seq<int>)
    requires forall k :: 0 <= k < |ids| ==> 1 <= ids[k] <= 25
    ensures forall j :: 0 <= j < 32 ==> (Bit(HookMask(ids), j) <==> j < 25 && j + 1 in ids)
    ensures HookMask(ids) as int < 0x200_0000
  {
    HookMaskBits(ids);
    forall j | 0 <= j < 32
      ensures Bit(HookMask(ids), j) <==> j < 25 && j + 1 in ids
    {
      if j + 1 in ids {
        var k :| 0 <= k < |ids| && ids[k] == j + 1;
        assert (ids[k] - 1) % 32 == j;
      }
      if exists k :: 0 <= k < |ids| && (ids[k] - 1) % 32 == j {
        var k :| 0 <= k < |ids| && (ids[k] - 1) % 32 == j;
        assert ids[k] - 1 == j;
      }
    }
    MaskBelow(HookMask(ids));
  }

  /** Out-of-range ids are not dropped: id 33 sets the same bit as id 1, and
      id 0 sets bit 31. */
  lemma HookMaskWraps()
    ensures HookMask([33]) == HookMask([1])
    ensures Bit(HookMask([0]), 31)
  {
    assert [33][..0] == [] && [1][..0] == [] && [0][..0] == [];
    BitOfOr(0, 31, 31);
  }

  /** The hook's Deploy discriminator: 7 as a little-endian u64. */
  const DEPLOY_DISCRIMINATOR: seq<Byte> := [7, 0, 0, 0, 0, 0, 0, 0]

  /** `Buffer.concat([discriminator, amountBuffer, squaresBuffer])`. */
  function HookDeployPayload(lamports: int, mask: bv32): seq<Byte>
  {
    DEPLOY_DISCRIMINATOR + LeBytes(lamports, 8) + LeBytes(mask as int, 4)
  }

  /** 20 bytes: discriminator 7 as a u64, the amount at 8 (modulo 2^64) and
      the mask at 16. */
  lemma HookDeployPayloadLayout(lamports: int, mask: bv32)
    ensures |HookDeployPayload(lamports, mask)| == 20
    ensures U64At(HookDeployPayload(lamports, mask), 0) == 7
    ensures U64At(HookDeployPayload(lamports, mask), 8) == lamports % U64_LIMIT
    ensures U32At(HookDeployPayload(lamports, mask), 16) == mask as int
  {
    var p := HookDeployPayload(lamports, mask);
    LeRoundTripInRange(7, 8);
    assert LeBytes(7, 8) == DEPLOY_DISCRIMINATOR;
    assert p[0..8] == DEPLOY_DISCRIMINATOR;
    U64Field(DEPLOY_DISCRIMINATOR, lamports, LeBytes(mask as int, 4));
    assert p[16..20] == LeBytes(mask as int, 4);
    Pow256Eight();
    LeRoundTripInRange(mask as int, 4);
  }

  /** `getRoundPDA` hands the round id to `new BN(roundId)` as a Number,
      which refuses values at or above 2^53; below that, `Number` of the u64
      is exact. */
  const SAFE_INTEGER_LIMIT: nat := 0x20_0000_0000_0000

  /** The seven Deploy keys: wallet (signer), wallet, the default key,
      board, miner, round, system program (the only read-only entry). */
  function HookDeployKeys(wallet: PublicKey, roundId: int, programId: PublicKey): seq<AccountMeta>
  {
    [ AccountMeta(Key(wallet), true, true),
      AccountMeta(Key(wallet), false, true),
      AccountMeta(Key(DEFAULT_KEY), false, true),
      AccountMeta(FindBoardPda(programId), false, true),
      AccountMeta(FindMinerPda(wallet, programId), false, true),
      AccountMeta(RoundPda(roundId, programId), false, true),
      AccountMeta(Key(SYSTEM_PROGRAM_ID), false, false) ]
  }

  lemma HookDeployKeysShape(wallet: PublicKey, roundId: int, programId: PublicKey)
    ensures |HookDeployKeys(wallet, roundId, programId)| == 7
    ensures Signers(HookDeployKeys(wallet, roundId, programId)) == {0}
    ensures ReadOnly(HookDeployKeys(wallet, roundId, programId)) == {6}
  {
    var keys := HookDeployKeys(wallet, roundId, programId);
    assert forall i :: i in Signers(keys) ==> i == 0;
    assert 0 in Signers(keys);
    assert forall i :: i in ReadOnly(keys) ==> i == 6;
    assert 6 in ReadOnly(keys);
  }

  /** The instruction `deploy` signs and sends: the Board must exist and hold
      a round id below 2^53; the round account is the one for that id. */
  function DeployInstruction(wallet: PublicKey, ledger: Ledger, squareIds: seq<int>,
                             lamports: int, programId: PublicKey): Result<Instruction>
  {
    if FindBoardPda(programId) !in ledger then Err(AccountNotFound)
    else match ReadU64LE(ledger[FindBoardPda(programId)], 8)
      case None => Err(OutOfRange)
      case Some(roundId) =>
        if roundId >= SAFE_INTEGER_LIMIT then Err(UnsafeInteger)
        else
          Ok(Instruction(HookDeployKeys(wallet, roundId, programId), programId,
                         HookDeployPayload(lamports, HookMask(squareIds))))
  }

  /** Deploy fails exactly when the Board is missing, too short, or holds a
      round id `new BN` refuses, and then says which; on success the payload
      decodes to the amount and the mask. */
  lemma DeployInstructionSpec(wallet: PublicKey, ledger: Ledger, squareIds: seq<int>,
                              lamports: int, programId: PublicKey)
    ensures var r := DeployInstruction(wallet, ledger, squareIds, lamports, programId);
      && (FindBoardPda(programId) !in ledger ==> r == Err(AccountNotFound))
      && (FindBoardPda(programId) in ledger ==>
            (r.Ok? <==> |ledger[FindBoardPda(programId)]| >= 16 &&
                        U64At(ledger[FindBoardPda(programId)], 8) < SAFE_INTEGER_LIMIT))
      && (FindBoardPda(programId) in ledger && |ledger[FindBoardPda(programId)]| < 16 ==> r == Err(OutOfRange))
      && (FindBoardPda(programId) in ledger && |ledger[FindBoardPda(programId)]| >= 16 ==>
            U64At(ledger[FindBoardPda(programId)], 8) >= SAFE_INTEGER_LIMIT ==> r == Err(UnsafeInteger))
      && (r.Ok? ==>
            && |r.value.data| == 20
            && U64At(r.value.data, 8) == lamports % U64_LIMIT
            && U32At(r.value.data, 16) == HookMask(squareIds) as int
            && r.value.keys[5].pubkey == RoundPda(U64At(ledger[FindBoardPda(programId)], 8), programId))
  {
    HookDeployPayloadLayout(lamports, HookMask(squareIds));
  }

  // ---------------------------------------------------------------------
  // Hook state

  datatype GameState = GameState(roundId: nat, motherlode: nat, timeRemaining: nat,
                                 totalDeployed: nat, winningSquare: nat, squares: seq<Square>)

  datatype MinerStats = MinerStats(totalDeployed: nat, rewards: nat)

  /** An account's data: the buffer a subscription pushed, else what
      `getAccountInfo` returns; reading `.data` of a missing account throws. */
  function Fetch(ledger: Ledger, given: Option<seq<Byte>>, address: Address): (r: Result<seq<Byte>>)
    ensures r.Err? <==> given.None? && address !in ledger
  {
    if given.Some? then Ok(given.value)
    else if address in ledger then Ok(ledger[address])
    else Err(NullAccount)
  }

  /** The state `updateGameState` computes, or the first error it meets:
      board, then `new BN` of its round id, then round, then treasury. */
  function NextGameState(programId: PublicKey, ledger: Ledger, boardData: Option<seq<Byte>>,
                         roundData: Option<seq<Byte>>, treasuryData: Option<seq<Byte>>,
                         currentSlot: int): Result<GameState>
  {
    match Fetch(ledger, boardData, FindBoardPda(programId))
    case Err(e) => Err(e)
    case Ok(boardBytes) =>
      match ParseBoard(boardBytes)
      case Err(e) => Err(e)
      case Ok(board) =>
        if board.roundId >= SAFE_INTEGER_LIMIT then Err(UnsafeInteger)
        else
          match Fetch(ledger, roundData, RoundPda(board.roundId, programId))
          case Err(e) => Err(e)
          case Ok(roundBytes) =>
            if |roundBytes| < ROUND_BYTES_READ then Err(OutOfRange)
            else
              var round := RoundFields(roundBytes);
              match Fetch(ledger, treasuryData, TreasuryPda(programId))
              case Err(e) => Err(e)
              case Ok(treasuryBytes) =>
                match ParseTreasuryData(treasuryBytes)
                case Err(e) => Err(e)
                case Ok(_) =>
                  Ok(GameState(board.roundId, round.motherlode, TimeRemaining(board.endSlot, currentSlot),
                               round.totalDeployed, 0, SquareView(round.deployed, round.count)))
  }

  /** Every state the hook publishes carries the Board's round id, which is
      below 2^53, 25 squares numbered 1..25, no winning square, and a time
      remaining of 0 once the Board's end slot has passed or holds the
      sentinel. */
  lemma NextGameStateShape(programId: PublicKey, ledger: Ledger, boardData: Option<seq<Byte>>,
                           roundData: Option<seq<Byte>>, treasuryData: Option<seq<Byte>>,
                           currentSlot: int)
    ensures var r := NextGameState(programId, ledger, boardData, roundData, treasuryData, currentSlot);
      r.Ok? ==>
        && |r.value.squares| == 25
        && (forall i :: 0 <= i < 25 ==> r.value.squares[i].id == i + 1)
        && r.value.winningSquare == 0
        && |Deployed(r.value.squares)| == 25
        && var board := ParseBoard(Fetch(ledger, boardData, FindBoardPda(programId)).value).value;
           && r.value.roundId == board.roundId < SAFE_INTEGER_LIMIT
           && (board.endSlot > END_SLOT_SENTINEL || board.endSlot <= currentSlot ==> r.value.timeRemaining == 0)
  {
  }

  /** Against the accounts `initialize` creates, the hook shows round 0 with
      nothing deployed and no time remaining, whatever the current slot. */
  lemma InitialAccountsView(programId: PublicKey, boardDiscriminator: int, roundDiscriminator: nat,
                            rentPayer: PublicKey, treasury: seq<Byte>, currentSlot: int)
    requires |treasury| >= 24
    ensures
      var ledger := map[FindBoardPda(programId) := BoardBytes(boardDiscriminator, INITIAL_BOARD),
                        RoundPda(0, programId) := RoundBytes(InitialRound(roundDiscriminator, rentPayer)),
                        TreasuryPda(programId) := treasury];
      var r := NextGameState(programId, ledger, None, None, None, currentSlot);
      && r.Ok?
      && r.value.roundId == 0 && r.value.timeRemaining == 0
      && r.value.motherlode == 0 && r.value.totalDeployed == 0
      && forall i :: 0 <= i < 25 ==> r.value.squares[i].lamports == 0 && r.value.squares[i].players == 0
  {
    var round := InitialRound(roundDiscriminator, rentPayer);
    BoardRoundTrip(boardDiscriminator, INITIAL_BOARD, []);
    assert BoardBytes(boardDiscriminator, INITIAL_BOARD) + [] == BoardBytes(boardDiscriminator, INITIAL_BOARD);
    RoundLayout(round, []);
    assert RoundBytes(round) + [] == RoundBytes(round);
    assert FindBoardPda(programId) != RoundPda(0, programId);
    assert FindBoardPda(programId) != TreasuryPda(programId);
    assert RoundPda(0, programId) != TreasuryPda(programId) by {
      assert ROUND_SEED[0] != TREASURY_SEED[0];
    }
  }

  /** The miner stats `updateMinerStats` publishes: the miner total, or 0
      when the account is missing or too short; rewards are always 0. */
  function MinerStatsOf(ledger: Ledger, minerData: Option<seq<Byte>>, minerPda: Address): MinerStats
  {
    match Fetch(ledger, minerData, minerPda)
    case Err(_) => MinerStats(0, 0)
    case Ok(data) =>
      match MinerTotal(data)
      case None => MinerStats(0, 0)
      case Some(total) => MinerStats(total, 0)
  }

  /** A missing miner account shows zero; an encoded Miner shows the sum of
      its deployed amounts. */
  lemma MinerStatsCases(ledger: Ledger, minerPda: Address, m: Miner, rest: seq<Byte>)
    requires MinerInRange(m)
    ensures minerPda !in ledger ==> MinerStatsOf(ledger, None, minerPda) == MinerStats(0, 0)
    ensures MinerStatsOf(ledger, Some(MinerBytes(m) + rest), minerPda) == MinerStats(Sum(m.deployed), 0)
  {
    MinerTotalOfLayout(m, rest);
  }

  class GameProgram {
    const programId: PublicKey
    var wallet: Option<PublicKey>
    var gameState: Option<GameState>
    var minerStats: Option<MinerStats>
    var loading: bool
    var error: Option<Error>
    /** `lastDeployedRef.current`: the deployed amounts last seen. */
    var lastDeployed: seq<nat>

    ghost predicate Valid()
      reads this
    {
      |lastDeployed| == 25
    }

    /** The hook's initial state: nothing loaded, no error, a zero snapshot. */
    constructor(programId: PublicKey, wallet: Option<PublicKey>)
      ensures Valid()
      ensures this.programId == programId && this.wallet == wallet
      ensures gameState == None && minerStats == None && !loading && error == None
      ensures lastDeployed == seq(25, _ => 0)
    {
      this.programId := programId;
      this.wallet := wallet;
      gameState := None;
      minerStats := None;
      loading := false;
      error := None;
      lastDeployed := seq(25, _ => 0);
    }

    /** `updateGameState`: on success publishes the new state and replaces
        the snapshot, returning the squares that changed against the old
        one; on failure records the error and changes nothing else. */
    method UpdateGameState(ledger: Ledger, boardData: Option<seq<Byte>>, roundData: Option<seq<Byte>>,
                           treasuryData: Option<seq<Byte>>, currentSlot: int)
      returns (changed: seq<nat>)
      requires Valid()
      modifies this
      ensures Valid()
      ensures wallet == old(wallet) && minerStats == old(minerStats) && loading == old(loading)
      ensures var next := NextGameState(programId, ledger, boardData, roundData, treasuryData, currentSlot);
        && (next.Ok? ==>
              && gameState == Some(next.value) && error == old(error)
              && lastDeployed == Deployed(next.value.squares)
              && changed == ChangedSquares(old(lastDeployed), lastDeployed, 25))
        && (next.Err? ==>
              && gameState == old(gameState) && error == Some(next.error)
              && lastDeployed == old(lastDeployed) && changed == [])
    {
      changed := [];
      var boardBytes := Fetch(ledger, boardData, FindBoardPda(programId));
      if boardBytes.Err? {
        error := Some(boardBytes.error);
        return;
      }
      var board := ParseBoard(boardBytes.value);
      if board.Err? {
        error := Some(board.error);
        return;
      }
      if board.value.roundId >= SAFE_INTEGER_LIMIT {
        error := Some(UnsafeInteger);
        return;
      }
      var roundBytes := Fetch(ledger, roundData, RoundPda(board.value.roundId, programId));
      if roundBytes.Err? {
        error := Some(roundBytes.error);
        return;
      }
      var round := ParseRoundData(roundBytes.value);
      if round.Err? {
        error := Some(round.error);
        return;
      }
      var treasuryBytes := Fetch(ledger, treasuryData, TreasuryPda(programId));
      if treasuryBytes.Err? {
        error := Some(treasuryBytes.error);
        return;
      }
      var treasury := ParseTreasuryData(treasuryBytes.value);
      if treasury.Err? {
        error := Some(treasury.error);
        return;
      }
      var timeRemaining := TimeRemaining(board.value.endSlot, currentSlot);
      var squares := SquareView(round.value.deployed, round.value.count);
      changed := DetectChangedSquares(lastDeployed, round.value.deployed);
      assert Deployed(squares) == round.value.deployed;
      lastDeployed := round.value.deployed;
      gameState := Some(GameState(board.value.roundId, round.value.motherlode, timeRemaining,
                                  round.value.totalDeployed, 0, squares));
    }

    /** `updateMinerStats`: without a wallet nothing happens; otherwise the
        miner stats become `MinerStatsOf` for the wallet's miner account. */
    method UpdateMinerStats(ledger: Ledger, minerData: Option<seq<Byte>>)
      modifies this
      ensures wallet == old(wallet) && gameState == old(gameState) && loading == old(loading)
      ensures error == old(error) && lastDeployed == old(lastDeployed)
      ensures wallet.None? ==> minerStats == old(minerStats)
      ensures wallet.Some? ==>
                minerStats == Some(MinerStatsOf(ledger, minerData, FindMinerPda(wallet.value, programId)))
    {
      if wallet.None? {
        return;
      }
      var minerPda := FindMinerPda(wallet.value, programId);
      var data := Fetch(ledger, minerData, minerPda);
      if data.Err? {
        minerStats := Some(MinerStats(0, 0));
        return;
      }
      var total := ParseMinerData(data.value);
      if total.Err? {
        minerStats := Some(MinerStats(0, 0));
        return;
      }
      minerStats := Some(MinerStats(total.value, 0));
    }

    /** `deploy` up to signing: without a wallet it throws before touching
        any state; otherwise it builds the instruction (or fails), clears or
        records the error accordingly, and ends with loading off. */
    method Deploy(ledger: Ledger, squareIds: seq<int>, lamports: int) returns (r: Result<Instruction>)
      modifies this
      ensures wallet == old(wallet) && gameState == old(gameState) && minerStats == old(minerStats)
      ensures lastDeployed == old(lastDeployed)
      ensures wallet.None? ==> r == Err(WalletNotConnected) && loading == old(loading) && error == old(error)
      ensures wallet.Some? ==>
                && r == DeployInstruction(wallet.value, ledger, squareIds, lamports, programId)
                && !loading
                && error == (if r.Err? then Some(r.error) else None)
    {
      if wallet.None? {
        return Err(WalletNotConnected);
      }
      var owner := wallet.value;
      loading := true;
      error := None;

      var squaresMask: bv32 := 0;
      for k := 0 to |squareIds|
        invariant squaresMask == HookMask(squareIds[..k])
      {
        assert squareIds[..k + 1][..k] == squareIds[..k];
        var index := squareIds[k] - 1;
        squaresMask := squaresMask | Flag(index % 32);
      }
      assert squareIds[..|squareIds|] == squareIds;

      var boardPda := FindBoardPda(programId);
      var minerPda := FindMinerPda(owner, programId);
      if boardPda !in ledger {
        r := Err(AccountNotFound);
        error := Some(r.error);
        loading := false;
        return;
      }
      var roundId := ReadU64LE(ledger[boardPda], 8);
      if roundId.None? {
        r := Err(OutOfRange);
        error := Some(r.error);
        loading := false;
        return;
      }
      if roundId.value >= SAFE_INTEGER_LIMIT {
        r := Err(UnsafeInteger);
        error := Some(r.error);
        loading := false;
        return;
      }
      var roundPda := RoundPda(roundId.value, programId);

      var amountBuffer := new Byte[8](_ => 0);
      BufferWriters.WriteBigUInt64LE(amountBuffer, lamports, 0);
      var squaresBuffer := new Byte[4](_ => 0);
      BufferWriters.WriteUInt32LE(squaresBuffer, squaresMask as int, 0);
      assert amountBuffer[..] == LeBytes(lamports, 8);
      assert squaresBuffer[..] == LeBytes(squaresMask as int, 4);
      var instructionData := DEPLOY_DISCRIMINATOR + amountBuffer[..] + squaresBuffer[..];

      r := Ok(Instruction(
        [ AccountMeta(Key(owner), true, true),
          AccountMeta(Key(owner), false, true),
          AccountMeta(Key(DEFAULT_KEY), false, true),
          AccountMeta(boardPda, false, true),
          AccountMeta(minerPda, false, true),
          AccountMeta(roundPda, false, true),
          AccountMeta(Key(SYSTEM_PROGRAM_ID), false, false) ],
        programId, instructionData));
      loading := false;
    }
  }
}
