/** The supply client's account actions (ore-supply-frontend
    lib/program/actions.ts). Its `deployToSquares` goes through the
    range-checked Deploy builder; its `fetchGameState`, `fetchMinerStats` and
    `fetchStakeInfo` read their own (provisional) offsets, rethrow every read
    error, and do not compute a countdown or a winner. Its `getCurrentRoundId`
    is `Actions.GetCurrentRoundId`. */
module SupplyActions {
  import opened Wire
  import opened Chain
  import opened Pdas
  import opened Accounts
  import opened Instructions
  import SupplyPdas
  import SupplyInstructions
  import GameProgram
  import Actions

  type Square = GameProgram.Square

  // ---------------------------------------------------------------------
  // deployToSquares

  /** `deployToSquares` up to signing: the same ids-to-mask conversion as
      the ore client, and the same instruction whenever the round id and
      the amount are u64s; otherwise the builder's RangeError. */
  method DeployToSquares(wallet: Option<PublicKey>, selectedSquareIds: seq<int>, lamports: int,
                         roundId: int, programId: PublicKey)
    returns (r: Result<Instruction>)
    ensures r.Ok? <==> wallet.Some? && 0 <= roundId < U64_LIMIT && 0 <= lamports < U64_LIMIT
    ensures wallet.None? ==> r == Err(WalletNotConnected)
    ensures wallet.Some? && r.Err? ==> r == Err(OutOfRange)
    ensures r.Ok? ==> r.value == Instruction(DeployKeys(wallet.value, wallet.value, roundId, programId),
                                             programId, Payload(Deploy(lamports, Actions.DeployMask(selectedSquareIds) as int)))
  {
    if wallet.None? {
      return Err(WalletNotConnected);
    }
    var selectedIndices := Actions.ToIndices(selectedSquareIds);
    var squares := CreateSquaresArray(selectedIndices);
    r := SupplyInstructions.CreateDeployInstruction(wallet.value, wallet.value, lamports, squares, roundId, programId);
  }

  // ---------------------------------------------------------------------
  // fetchGameState

  /** What the supply `fetchGameState` returns; `winningSquare` is absent
      when the round account is missing. */
  datatype SupplyGameView = SupplyGameView(roundId: nat, timestamp: int, squares: seq<Square>,
                                           motherlode: nat, timeRemaining: nat, winningSquare: Option<nat>)

  /** Square i's amount is the u64 at 16 + 16i and its player count the u32
      eight bytes later. */
  function SupplySquares(data: seq<Byte>): (squares: seq<Square>)
    requires |data| >= SUPPLY_ROUND_BYTES_READ
    ensures |squares| == 25
  {
    seq(25, i requires 0 <= i < 25 => GameProgram.Square(i + 1, U64At(data, 16 + 16 * i), U32At(data, 24 + 16 * i)))
  }

  /** Bytes the present-round branch reads: the last player count ends at 412. */
  const SUPPLY_ROUND_BYTES_READ: nat := 412

  /** The view the supply `fetchGameState` computes, or the error it rethrows. */
  function SupplyGameViewOf(programId: PublicKey, ledger: Ledger): Result<SupplyGameView>
  {
    if FindBoardPda(programId) !in ledger then Err(AccountNotFound)
    else
      var board := ledger[FindBoardPda(programId)];
      if |board| < 24 then Err(OutOfRange)
      else
        var roundId := U64At(board, 8);
        var timestamp := ReadI64LE(board, 16).value;
        var roundPda := RoundPda(roundId, programId);
        if roundPda !in ledger then Ok(SupplyGameView(roundId, timestamp, [], 0, 0, None))
        else if |ledger[roundPda]| < SUPPLY_ROUND_BYTES_READ then Err(OutOfRange)
        else
          var data := ledger[roundPda];
          Ok(SupplyGameView(roundId, timestamp, SupplySquares(data), U64At(data, 8), 0, Some(1)))
  }

  /** The supply `fetchGameState`: Board round id and timestamp, then the
      Round's motherlode and one loop over the squares. */
  method FetchGameState(ledger: Ledger, programId: PublicKey) returns (r: Result<SupplyGameView>)
    ensures r == SupplyGameViewOf(programId, ledger)
  {
    var boardPda := FindBoardPda(programId);
    if boardPda !in ledger {
      return Err(AccountNotFound);
    }
    var data := ledger[boardPda];
    var roundIdWord := ReadU64LE(data, 8);
    if roundIdWord.None? {
      return Err(OutOfRange);
    }
    var timestampWord := ReadI64LE(data, 16);
    if timestampWord.None? {
      return Err(OutOfRange);
    }
    var roundId, timestamp := roundIdWord.value, timestampWord.value;

    var roundPda := SupplyPdas.FindRoundPda(roundId, programId);
    if roundPda.Err? {
      // a u64 read from the Board is always a valid round id
      assert false;
      return Err(OutOfRange);
    }
    if roundPda.value !in ledger {
      return Ok(SupplyGameView(roundId, timestamp, [], 0, 0, None));
    }
    var roundData := ledger[roundPda.value];
    var motherlode := ReadU64LE(roundData, 8);
    if motherlode.None? {
      return Err(OutOfRange);
    }
    var squares: seq<Square> := [];
    for i := 0 to 25
      invariant |squares| == i
      invariant i > 0 ==> 12 + 16 * i <= |roundData|
      invariant forall k :: 0 <= k < i ==>
                  squares[k] == GameProgram.Square(k + 1, U64At(roundData, 16 + 16 * k), U32At(roundData, 24 + 16 * k))
    {
      var offset := 16 + i * 16;
      var amount := ReadU64LE(roundData, offset);
      if amount.None? {
        return Err(OutOfRange);
      }
      var players := ReadU32LE(roundData, offset + 8);
      if players.None? {
        return Err(OutOfRange);
      }
      squares := squares + [GameProgram.Square(i + 1, amount.value, players.value)];
    }
    assert squares == SupplySquares(roundData);
    r := Ok(SupplyGameView(roundId, timestamp, squares, motherlode.value, 0, Some(1)));
  }

  /** The view never counts down; squares are listed only for an existing
      round, then all 25 numbered 1..25, and only then is square 1 reported
      as the winner; a missing round shows nothing. */
  lemma SupplyGameViewShape(programId: PublicKey, ledger: Ledger)
    ensures var r := SupplyGameViewOf(programId, ledger);
      r.Ok? ==>
        && r.value.timeRemaining == 0
        && (r.value.winningSquare.Some? <==> RoundPda(r.value.roundId, programId) in ledger)
        && (r.value.winningSquare.Some? ==> r.value.winningSquare.value == 1)
        && (r.value.squares == [] <==> RoundPda(r.value.roundId, programId) !in ledger)
        && (r.value.squares != [] ==>
              |r.value.squares| == 25 && forall i :: 0 <= i < 25 ==> r.value.squares[i].id == i + 1)
        && (RoundPda(r.value.roundId, programId) !in ledger ==> r.value.motherlode == 0)
  {
  }

  /** Both clients take the round id from offset 8 of the Board, but the
      supply one needs only 24 bytes of it where the ore one needs 32. */
  lemma SupplyRoundIdAgrees(programId: PublicKey, ledger: Ledger, currentSlot: int)
    ensures var r := SupplyGameViewOf(programId, ledger);
      r.Ok? ==> Actions.GetCurrentRoundId(ledger, programId) == Ok(r.value.roundId)
    ensures Actions.GameViewOf(programId, ledger, currentSlot).Ok? ==>
              Actions.GetCurrentRoundId(ledger, programId) == Ok(Actions.GameViewOf(programId, ledger, currentSlot).value.roundId)
  {
  }

  /** The supply offsets do not follow the ore Round layout: on an encoded
      ore Round, the supply motherlode is the round's id. */
  lemma SupplyMotherlodeOnOreRound(programId: PublicKey, ledger: Ledger, boardDiscriminator: int,
                                   b: Board, round: Round, rest: seq<Byte>)
    requires BoardInRange(b) && RoundInRange(round)
    requires FindBoardPda(programId) in ledger && ledger[FindBoardPda(programId)] == BoardBytes(boardDiscriminator, b)
    requires RoundPda(b.roundId, programId) in ledger && ledger[RoundPda(b.roundId, programId)] == RoundBytes(round) + rest
    ensures var r := SupplyGameViewOf(programId, ledger);
      r.Ok? && r.value.roundId == b.roundId && r.value.motherlode == round.id
  {
    BoardRoundTrip(boardDiscriminator, b, []);
    assert BoardBytes(boardDiscriminator, b) + [] == BoardBytes(boardDiscriminator, b);
    RoundLayout(round, rest);
  }

  // ---------------------------------------------------------------------
  // fetchMinerStats

  /** What the supply `fetchMinerStats` returns (amounts in lamports). */
  datatype SupplyMinerView = SupplyMinerView(roundId: nat, totalDeployed: nat, rewardsSol: nat,
                                             rewardsOre: nat, deployed: seq<nat>)

  /** Bytes a present miner needs: the last deployed word ends at 232. */
  const SUPPLY_MINER_BYTES_READ: nat := 232

  /** The record the supply `fetchMinerStats` computes, or the error it rethrows. */
  function SupplyMinerViewOf(programId: PublicKey, ledger: Ledger, authority: PublicKey): Result<SupplyMinerView>
  {
    var minerPda := FindMinerPda(authority, programId);
    if minerPda !in ledger then Ok(SupplyMinerView(0, 0, 0, 0, seq(25, _ => 0)))
    else if |ledger[minerPda]| < SUPPLY_MINER_BYTES_READ then Err(OutOfRange)
    else
      var data := ledger[minerPda];
      var deployed := U64Words(data, 32, 25);
      Ok(SupplyMinerView(U64At(data, 8), Sum(deployed), U64At(data, 16), U64At(data, 24), deployed))
  }

  /** The supply `fetchMinerStats`: round id, rewards, then the deployed
      words from offset 32, collected and summed in one loop. */
  method FetchMinerStats(ledger: Ledger, userPubkey: PublicKey, programId: PublicKey)
    returns (r: Result<SupplyMinerView>)
    ensures r == SupplyMinerViewOf(programId, ledger, userPubkey)
  {
    var minerPda := FindMinerPda(userPubkey, programId);
    if minerPda !in ledger {
      return Ok(SupplyMinerView(0, 0, 0, 0, seq(25, _ => 0)));
    }
    var data := ledger[minerPda];
    var roundId := ReadU64LE(data, 8);
    var rewardsSol := ReadU64LE(data, 16);
    var rewardsOre := ReadU64LE(data, 24);
    if roundId.None? || rewardsSol.None? || rewardsOre.None? {
      return Err(OutOfRange);
    }
    var deployed, totalDeployed := ReadDeployed(data);
    if deployed.None? {
      return Err(OutOfRange);
    }
    r := Ok(SupplyMinerView(roundId.value, totalDeployed, rewardsSol.value, rewardsOre.value, deployed.value));
  }

  /** The deployed loop of `fetchMinerStats`: reads the 25 words from
      offset 32, collecting them and their running sum. */
  method ReadDeployed(data: seq<Byte>) returns (deployed: Option<seq<nat>>, totalDeployed: nat)
    ensures deployed.Some? <==> |data| >= SUPPLY_MINER_BYTES_READ
    ensures deployed.Some? ==> deployed.value == U64Words(data, 32, 25) && totalDeployed == Sum(deployed.value)
  {
    var words: seq<nat> := [];
    totalDeployed := 0;
    for i := 0 to 25
      invariant |words| == i
      invariant i > 0 ==> 32 + 8 * i <= |data|
      invariant forall k :: 0 <= k < i ==> words[k] == U64At(data, 32 + 8 * k)
      invariant totalDeployed == Sum(words)
    {
      var amount := ReadU64LE(data, 32 + i * 8);
      if amount.None? {
        return None, 0;
      }
      assert (words + [amount.value])[..i] == words;
      words := words + [amount.value];
      totalDeployed := totalDeployed + amount.value;
    }
    assert words == U64Words(data, 32, 25);
    deployed := Some(words);
  }

  /** A missing miner is all zeros with 25 zero entries; a present one
      lists 25 u64 entries whose sum is its total; a short one is an error. */
  lemma SupplyMinerViewShape(programId: PublicKey, ledger: Ledger, authority: PublicKey)
    ensures var r := SupplyMinerViewOf(programId, ledger, authority);
      && (r.Err? <==> FindMinerPda(authority, programId) in ledger
                      && |ledger[FindMinerPda(authority, programId)]| < SUPPLY_MINER_BYTES_READ)
      && (r.Ok? ==> |r.value.deployed| == 25 && AllU64(r.value.deployed)
                    && r.value.totalDeployed == Sum(r.value.deployed))
      && (FindMinerPda(authority, programId) !in ledger ==> r.value.totalDeployed == 0 && r.value.roundId == 0)
  {
    var r := SupplyMinerViewOf(programId, ledger, authority);
    if r.Ok? {
      forall i | 0 <= i < 25 ensures 0 <= r.value.deployed[i] < U64_LIMIT {
        if FindMinerPda(authority, programId) in ledger {
          var data := ledger[FindMinerPda(authority, programId)];
          LeValueBound(data[32 + 8 * i..32 + 8 * i + 8]);
          Pow256Eight();
        }
      }
      if FindMinerPda(authority, programId) !in ledger {
        ZeroSum(25);
      }
    }
  }

  /** Twenty-five-or-any zero entries sum to zero. */
  lemma {:induction false} ZeroSum(n: nat)
    ensures Sum(seq(n, _ => 0)) == 0
  {
    if n > 0 {
      assert seq(n, _ => 0)[..n - 1] == seq(n - 1, _ => 0);
      ZeroSum(n - 1);
    }
  }

  // ---------------------------------------------------------------------
  // fetchStakeInfo

  /** What `fetchStakeInfo` returns. */
  datatype StakeInfo = StakeInfo(staked: nat, rewards: nat)

  /** `fetchStakeInfo`: the u64s at 8 and 16 of the Stake account, zeros
      when it does not exist, a RangeError when it is too short. */
  function FetchStakeInfo(ledger: Ledger, userPubkey: PublicKey, programId: PublicKey): (r: Result<StakeInfo>)
    ensures FindStakePda(userPubkey, programId) !in ledger ==> r == Ok(StakeInfo(0, 0))
    ensures r.Err? <==> FindStakePda(userPubkey, programId) in ledger && |ledger[FindStakePda(userPubkey, programId)]| < 24
    ensures r.Err? ==> r.error == OutOfRange
    ensures r.Ok? ==> r.value.staked < U64_LIMIT && r.value.rewards < U64_LIMIT
  {
    var stakePda := FindStakePda(userPubkey, programId);
    if stakePda !in ledger then Ok(StakeInfo(0, 0))
    else match (ReadU64LE(ledger[stakePda], 8), ReadU64LE(ledger[stakePda], 16))
      case (Some(staked), Some(rewards)) => Ok(StakeInfo(staked, rewards))
      case _ => Err(OutOfRange)
  }

  /** A Stake account laid out as discriminator, staked, rewards reads back
      its two amounts. */
  lemma StakeInfoRoundTrip(ledger: Ledger, userPubkey: PublicKey, programId: PublicKey,
                           discriminator: int, staked: nat, rewards: nat, rest: seq<Byte>)
    requires staked < U64_LIMIT && rewards < U64_LIMIT
    requires FindStakePda(userPubkey, programId) in ledger
    requires ledger[FindStakePda(userPubkey, programId)] == LeBytes(discriminator, 8) + LeBytes(staked, 8) + LeBytes(rewards, 8) + rest
    ensures FetchStakeInfo(ledger, userPubkey, programId) == Ok(StakeInfo(staked, rewards))
  {
    var d, s, w := LeBytes(discriminator, 8), LeBytes(staked, 8), LeBytes(rewards, 8);
    U64FieldExact(d, staked, w + rest);
    assert d + s + w + rest == d + s + (w + rest);
    U64FieldExact(d + s, rewards, rest);
  }
}
