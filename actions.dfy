/** The ore client's account actions (ore-frontend lib/program/actions.ts):
    `deployToSquares` (1-based square ids to the Deploy instruction),
    `getCurrentRoundId`, `fetchGameState` (Board and Round decoding, time
    remaining, winning square, absent-round fallback) and `fetchMinerStats`.
    Account reads come from a `Ledger`; the current slot is a parameter;
    amounts stay in lamports. */
module Actions {
  import opened Wire
  import opened Chain
  import opened Bits
  import opened Pdas
  import opened Accounts
  import opened Instructions
  import GameProgram

  type Square = GameProgram.Square

  // ---------------------------------------------------------------------
  // deployToSquares

  /** `selectedSquareIds.map(id => id - 1)`. */
  function ToIndices(ids: seq<int>): (indices: seq<int>)
    ensures |indices| == |ids|
  {
    seq(|ids|, i requires 0 <= i < |ids| => ids[i] - 1)
  }

  /** The mask `deployToSquares` ends up sending for a list of square ids. */
  function DeployMask(ids: seq<int>): bv32
  {
    MaskOf(SelectedSquares(ToIndices(ids)))
  }

  /** Bit j of the mask is set iff square id j + 1 was listed; ids outside
      1..25 are dropped. */
  lemma DeployMaskBits(ids: seq<int>)
    ensures forall j :: 0 <= j < 32 ==> (Bit(DeployMask(ids), j) <==> j < SQUARES && j + 1 in ids)
    ensures DeployMask(ids) as int < 0x200_0000
  {
    var indices := ToIndices(ids);
    SquaresMaskRoundTrip(indices);
    MaskOfBits(SelectedSquares(indices));
    forall j | 0 <= j < SQUARES
      ensures j in indices <==> j + 1 in ids
    {
      if j in indices {
        var k :| 0 <= k < |indices| && indices[k] == j;
        assert ids[k] == j + 1;
      }
      if j + 1 in ids {
        var k :| 0 <= k < |ids| && ids[k] == j + 1;
        assert indices[k] == j;
      }
    }
  }

  /** For ids in 1..25 the hook's mask and this one coincide; beyond that
      range they part: id 33 is dropped here but sets bit 0 in the hook. */
  lemma DeployMaskMatchesHook(ids: seq<int>)
    requires forall k :: 0 <= k < |ids| ==> 1 <= ids[k] <= 25
    ensures DeployMask(ids) == GameProgram.HookMask(ids)
    ensures DeployMask([33]) == 0 && GameProgram.HookMask([33]) != 0
  {
    DeployMaskBits(ids);
    GameProgram.HookMaskOfSquareIds(ids);
    MaskExt(DeployMask(ids), GameProgram.HookMask(ids));
    DeployMaskBits([33]);
    forall j | 0 <= j < 32 ensures Bit(DeployMask([33]), j) <==> Bit(0, j) {
      NoBitOfZero(j);
    }
    MaskExt(DeployMask([33]), 0);
    GameProgram.HookMaskWraps();
    GameProgram.HookMaskOfSquareIds([1]);
    assert Bit(GameProgram.HookMask([1]), 0);
    NoBitOfZero(0);
  }

  /** `deployToSquares` up to signing: the wallet signs as both signer and
      authority; the squares array always has 25 entries, so the builder
      cannot reject it. */
  method DeployToSquares(wallet: Option<PublicKey>, selectedSquareIds: seq<int>, lamports: int,
                         roundId: int, programId: PublicKey)
    returns (r: Result<Instruction>)
    ensures r.Err? <==> wallet.None?
    ensures r.Err? ==> r.error == WalletNotConnected
    ensures r.Ok? ==> r.value == Instruction(DeployKeys(wallet.value, wallet.value, roundId, programId),
                                             programId, Payload(Deploy(lamports, DeployMask(selectedSquareIds) as int)))
  {
    if wallet.None? {
      return Err(WalletNotConnected);
    }
    var selectedIndices := ToIndices(selectedSquareIds);
    var squares := CreateSquaresArray(selectedIndices);
    r := CreateDeployInstruction(wallet.value, wallet.value, lamports, squares, roundId, programId);
  }

  // ---------------------------------------------------------------------
  // getCurrentRoundId

  /** `getCurrentRoundId`: the u64 at offset 8 of the Board; a missing Board
      throws "Board account not found", a short one a RangeError. */
  function GetCurrentRoundId(ledger: Ledger, programId: PublicKey): (r: Result<nat>)
    ensures FindBoardPda(programId) !in ledger ==> r == Err(AccountNotFound)
    ensures FindBoardPda(programId) in ledger ==> (r.Ok? <==> |ledger[FindBoardPda(programId)]| >= 16)
  {
    if FindBoardPda(programId) !in ledger then Err(AccountNotFound)
    else match ReadU64LE(ledger[FindBoardPda(programId)], 8)
      case None => Err(OutOfRange)
      case Some(roundId) => Ok(roundId)
  }

  /** Against an encoded Board the round id is the Board's. */
  lemma GetCurrentRoundIdOfBoard(ledger: Ledger, programId: PublicKey, discriminator: int, b: Board, rest: seq<Byte>)
    requires BoardInRange(b)
    requires FindBoardPda(programId) in ledger && ledger[FindBoardPda(programId)] == BoardBytes(discriminator, b) + rest
    ensures GetCurrentRoundId(ledger, programId) == Ok(b.roundId)
  {
    BoardRoundTrip(discriminator, b, rest);
  }

  // ---------------------------------------------------------------------
  // fetchGameState

  /** What `fetchGameState` returns (amounts in lamports). */
  datatype GameView = GameView(roundId: nat, startSlot: nat, endSlot: nat, timeRemaining: nat,
                               squares: seq<Square>, motherlode: nat, totalDeployed: nat,
                               winningSquare: nat)

  /** floor(max(0, endSlot - currentSlot) / 2.5), written as floor(2 * slots / 5);
      unlike the hook there is no sentinel for an unset end slot. */
  function SlotsToSeconds(endSlot: int, currentSlot: int): (t: nat)
    ensures currentSlot >= endSlot ==> t == 0
    ensures currentSlot < endSlot ==> 5 * t <= 2 * (endSlot - currentSlot) < 5 * t + 5
  {
    var slotsRemaining := if endSlot - currentSlot > 0 then endSlot - currentSlot else 0;
    (slotsRemaining * 2) / 5
  }

  /** The slot hash occupies bytes 216..247 of a Round. */
  predicate Revealed(data: seq<Byte>)
    requires |data| >= 248
  {
    exists k :: 216 <= k < 248 && data[k] != 0
  }

  /** ((w216 ^ w224 ^ w232 ^ w240) mod 25) + 1 over the four slot-hash words. */
  function WinningSquare(data: seq<Byte>): (w: nat)
    requires |data| >= 248
    ensures 1 <= w <= 25
  {
    var r1, r2 := ReadU64LE(data, 216).value, ReadU64LE(data, 224).value;
    var r3, r4 := ReadU64LE(data, 232).value, ReadU64LE(data, 240).value;
    var rng := (r1 as bv64) ^ (r2 as bv64) ^ (r3 as bv64) ^ (r4 as bv64);
    (rng as int) % 25 + 1
  }

  /** The slot hash is nonzero exactly when one of the four words is. */
  lemma RevealedIffWords(data: seq<Byte>)
    requires |data| >= 248
    ensures Revealed(data) <==>
              U64At(data, 216) != 0 || U64At(data, 224) != 0 || U64At(data, 232) != 0 || U64At(data, 240) != 0
  {
    LeValueZero(data[216..224]);
    LeValueZero(data[224..232]);
    LeValueZero(data[232..240]);
    LeValueZero(data[240..248]);
    if Revealed(data) {
      var k :| 216 <= k < 248 && data[k] != 0;
      if k < 224 { assert data[216..224][k - 216] != 0; }
      else if k < 232 { assert data[224..232][k - 224] != 0; }
      else if k < 240 { assert data[232..240][k - 232] != 0; }
      else { assert data[240..248][k - 240] != 0; }
    }
  }

  /** The squares of a missing round: ids 1..25, nothing deployed, no players. */
  function EmptySquares(): seq<Square>
  {
    GameProgram.SquareView(seq(25, _ => 0), seq(25, _ => 0))
  }

  /** Bytes the present-round branch needs: total_deployed ends at 544. */
  const ROUND_BYTES_READ: nat := 544

  /** The view `fetchGameState` computes, or the error it throws. */
  function GameViewOf(programId: PublicKey, ledger: Ledger, currentSlot: int): Result<GameView>
  {
    if FindBoardPda(programId) !in ledger then Err(AccountNotFound)
    else match ParseBoard(ledger[FindBoardPda(programId)])
      case Err(e) => Err(e)
      case Ok(board) =>
        var timeRemaining := SlotsToSeconds(board.endSlot, currentSlot);
        var roundPda := RoundPda(board.roundId, programId);
        if roundPda !in ledger then
          Ok(GameView(board.roundId, board.startSlot, board.endSlot, timeRemaining, EmptySquares(), 0, 0, 0))
        else if |ledger[roundPda]| < ROUND_BYTES_READ then Err(OutOfRange)
        else
          var data := ledger[roundPda];
          Ok(GameView(board.roundId, board.startSlot, board.endSlot, timeRemaining,
                      GameProgram.SquareView(U64Words(data, 16, 25), U64Words(data, 248, 25)),
                      U64At(data, 456), U64At(data, 536),
                      if Revealed(data) then WinningSquare(data) else 0))
  }

  /** `fetchGameState`: reads the Board, then the Round for its round id;
      each square's deployed amount and player count are read in one loop. */
  method FetchGameState(ledger: Ledger, currentSlot: int, programId: PublicKey) returns (r: Result<GameView>)
    ensures r == GameViewOf(programId, ledger, currentSlot)
  {
    var boardPda := FindBoardPda(programId);
    if boardPda !in ledger {
      return Err(AccountNotFound);
    }
    var board := ParseBoard(ledger[boardPda]);
    if board.Err? {
      return Err(board.error);
    }
    var roundId, startSlot, endSlot := board.value.roundId, board.value.startSlot, board.value.endSlot;
    var timeRemaining := SlotsToSeconds(endSlot, currentSlot);

    var roundPda := FindRoundPda(roundId, programId);
    if roundPda !in ledger {
      return Ok(GameView(roundId, startSlot, endSlot, timeRemaining, EmptySquares(), 0, 0, 0));
    }
    var roundData := ledger[roundPda];
    var squares: seq<Square> := [];
    for i := 0 to 25
      invariant |squares| == i
      invariant i > 0 ==> 248 + 8 * i <= |roundData|
      invariant forall k :: 0 <= k < i ==>
                  squares[k] == GameProgram.Square(k + 1, U64At(roundData, 16 + 8 * k), U64At(roundData, 248 + 8 * k))
    {
      var deployedLamports := ReadU64LE(roundData, 16 + i * 8);
      if deployedLamports.None? {
        return Err(OutOfRange);
      }
      var players := ReadU64LE(roundData, 248 + i * 8);
      if players.None? {
        return Err(OutOfRange);
      }
      squares := squares + [GameProgram.Square(i + 1, deployedLamports.value, players.value)];
    }
    var motherlode := ReadU64LE(roundData, 456);
    if motherlode.None? {
      return Err(OutOfRange);
    }
    var totalDeployed := ReadU64LE(roundData, 536);
    if totalDeployed.None? {
      return Err(OutOfRange);
    }
    var isRoundEnded := !(forall k | 216 <= k < 248 :: roundData[k] == 0);
    var winningSquare := 0;
    if isRoundEnded {
      winningSquare := WinningSquare(roundData);
    }
    assert squares == GameProgram.SquareView(U64Words(roundData, 16, 25), U64Words(roundData, 248, 25));
    r := Ok(GameView(roundId, startSlot, endSlot, timeRemaining, squares, motherlode.value,
                     totalDeployed.value, winningSquare));
  }

  /** Every view has 25 squares numbered 1..25; the winning square is 0
      unless the round exists and its slot hash is nonzero, and then lies in
      1..25; a missing round shows nothing deployed. */
  lemma GameViewShape(programId: PublicKey, ledger: Ledger, currentSlot: int)
    ensures var r := GameViewOf(programId, ledger, currentSlot);
      r.Ok? ==>
        && |r.value.squares| == 25
        && (forall i :: 0 <= i < 25 ==> r.value.squares[i].id == i + 1)
        && (r.value.winningSquare == 0 || 1 <= r.value.winningSquare <= 25)
        && (r.value.winningSquare != 0 <==>
              var roundPda := RoundPda(r.value.roundId, programId);
              roundPda in ledger && Revealed(ledger[roundPda]))
        && (RoundPda(r.value.roundId, programId) !in ledger ==>
              && r.value.motherlode == 0 && r.value.totalDeployed == 0
              && forall i :: 0 <= i < 25 ==> r.value.squares[i].lamports == 0 && r.value.squares[i].players == 0)
  {
  }

  /** Against the accounts `initialize` creates: round 0 is found, nothing is
      deployed, the zero slot hash means no winner yet, and with no sentinel
      check the unset end slot u64::MAX shows as a countdown. */
  lemma InitialAccountsGameView(programId: PublicKey, boardDiscriminator: int, roundDiscriminator: nat,
                                rentPayer: PublicKey, currentSlot: int)
    requires currentSlot + 3 <= U64_MAX
    ensures
      var ledger := map[FindBoardPda(programId) := BoardBytes(boardDiscriminator, INITIAL_BOARD),
                        RoundPda(0, programId) := RoundBytes(InitialRound(roundDiscriminator, rentPayer))];
      var r := GameViewOf(programId, ledger, currentSlot);
      && r.Ok? && r.value.roundId == 0 && r.value.winningSquare == 0
      && r.value.motherlode == 0 && r.value.totalDeployed == 0
      && (forall i :: 0 <= i < 25 ==> r.value.squares[i].lamports == 0)
      && r.value.timeRemaining > 0
  {
    var ledger := map[FindBoardPda(programId) := BoardBytes(boardDiscriminator, INITIAL_BOARD),
                      RoundPda(0, programId) := RoundBytes(InitialRound(roundDiscriminator, rentPayer))];
    assert FindBoardPda(programId) != RoundPda(0, programId);
    BoardRoundTrip(boardDiscriminator, INITIAL_BOARD, []);
    assert BoardBytes(boardDiscriminator, INITIAL_BOARD) + [] == BoardBytes(boardDiscriminator, INITIAL_BOARD);
    assert ParseBoard(ledger[FindBoardPda(programId)]) == Ok(INITIAL_BOARD);
    InitialRoundView(roundDiscriminator, rentPayer);
  }

  /** Against an encoded Board and Round the view shows the round's own
      fields: its id, per-square deployed amounts and player counts, its
      motherlode and total deployed, and a winner exactly when the slot
      hash is nonzero. */
  lemma GameViewOfRound(programId: PublicKey, ledger: Ledger, currentSlot: int, boardDiscriminator: int,
                        b: Board, round: Round, rest: seq<Byte>)
    requires BoardInRange(b) && RoundInRange(round)
    requires FindBoardPda(programId) in ledger && ledger[FindBoardPda(programId)] == BoardBytes(boardDiscriminator, b)
    requires RoundPda(b.roundId, programId) in ledger && ledger[RoundPda(b.roundId, programId)] == RoundBytes(round) + rest
    ensures var r := GameViewOf(programId, ledger, currentSlot);
      && r.Ok? && r.value.roundId == b.roundId && r.value.endSlot == b.endSlot
      && r.value.motherlode == round.motherlode && r.value.totalDeployed == round.totalDeployed
      && (forall i :: 0 <= i < 25 ==>
            r.value.squares[i].lamports == round.deployed[i] && r.value.squares[i].players == round.count[i])
      && (r.value.winningSquare != 0 <==> exists k :: 0 <= k < 32 && round.slotHash[k] != 0)
  {
    BoardRoundTrip(boardDiscriminator, b, []);
    assert BoardBytes(boardDiscriminator, b) + [] == BoardBytes(boardDiscriminator, b);
    var data := RoundBytes(round) + rest;
    RoundLayout(round, rest);
    if exists k :: 0 <= k < 32 && round.slotHash[k] != 0 {
      var k :| 0 <= k < 32 && round.slotHash[k] != 0;
      assert data[216 + k] == data[216..248][k];
    }
    if Revealed(data) {
      var k :| 216 <= k < 248 && data[k] != 0;
      assert data[216..248][k - 216] == data[k];
    }
  }

  /** The encoded initial round is long enough, unrevealed, and all zero. */
  lemma InitialRoundView(roundDiscriminator: nat, rentPayer: PublicKey)
    ensures var data := RoundBytes(InitialRound(roundDiscriminator, rentPayer));
      && |data| >= ROUND_BYTES_READ && !Revealed(data)
      && U64At(data, 456) == 0 && U64At(data, 536) == 0
      && U64Words(data, 16, 25) == seq(25, _ => 0)
  {
    var round := InitialRound(roundDiscriminator, rentPayer);
    var data := RoundBytes(round);
    RoundLayout(round, []);
    assert data + [] == data;
    forall k | 216 <= k < 248 ensures data[k] == 0 {
      assert data[216..248][k - 216] == round.slotHash[k - 216];
    }
  }

  // ---------------------------------------------------------------------
  // fetchMinerStats

  /** What `fetchMinerStats` returns (amounts in lamports). */
  datatype MinerView = MinerView(totalDeployed: nat, rewardsSol: nat, rewardsOre: nat, accountExists: bool)

  /** The fallback for a missing account and for any read error. */
  const NO_MINER: MinerView := MinerView(0, 0, 0, false)

  /** Bytes a present miner needs: rewards_ore ends at 456. */
  const MINER_BYTES_READ: nat := 456

  /** The view `fetchMinerStats` computes for an authority. */
  function MinerViewOf(programId: PublicKey, ledger: Ledger, authority: PublicKey): MinerView
  {
    var minerPda := FindMinerPda(authority, programId);
    if minerPda !in ledger || |ledger[minerPda]| < MINER_BYTES_READ then NO_MINER
    else
      var data := ledger[minerPda];
      MinerView(Sum(U64Words(data, 40, 25)), U64At(data, 440), U64At(data, 448), true)
  }

  /** `fetchMinerStats`: rewards at 440 and 448, then the deployed words
      from 40 summed in a loop; every failure gives the zero record. */
  method FetchMinerStats(ledger: Ledger, authority: PublicKey, programId: PublicKey) returns (v: MinerView)
    ensures v == MinerViewOf(programId, ledger, authority)
  {
    var minerPda := FindMinerPda(authority, programId);
    if minerPda !in ledger {
      return NO_MINER;
    }
    var data := ledger[minerPda];
    var rewardsSol := ReadU64LE(data, 440);
    if rewardsSol.None? {
      return NO_MINER;
    }
    var rewardsOre := ReadU64LE(data, 448);
    if rewardsOre.None? {
      return NO_MINER;
    }
    var totalDeployedLamports := 0;
    for i := 0 to 25
      invariant totalDeployedLamports == Sum(U64Words(data, 40, 25)[..i])
    {
      var word := ReadU64LE(data, 40 + i * 8);
      assert U64Words(data, 40, 25)[..i + 1] == U64Words(data, 40, 25)[..i] + [word.value];
      totalDeployedLamports := totalDeployedLamports + word.value;
    }
    assert U64Words(data, 40, 25)[..25] == U64Words(data, 40, 25);
    v := MinerView(totalDeployedLamports, rewardsSol.value, rewardsOre.value, true);
  }

  /** A missing miner gives the zero record; an encoded Miner gives its
      deployed total and rewards; the record says `accountExists` only when read. */
  lemma MinerViewCases(programId: PublicKey, ledger: Ledger, authority: PublicKey, m: Miner, rest: seq<Byte>)
    requires MinerInRange(m)
    ensures FindMinerPda(authority, programId) !in ledger ==> MinerViewOf(programId, ledger, authority) == NO_MINER
    ensures !MinerViewOf(programId, ledger, authority).accountExists ==> MinerViewOf(programId, ledger, authority) == NO_MINER
    ensures FindMinerPda(authority, programId) in ledger && ledger[FindMinerPda(authority, programId)] == MinerBytes(m) + rest ==>
              MinerViewOf(programId, ledger, authority) == MinerView(Sum(m.deployed), m.rewardsSol, m.rewardsOre, true)
  {
    MinerLayout(m, rest);
  }
}
