/** The byte layouts of the program's accounts as the client's readers
    describe them (Board, Round, Miner and Treasury, each led by an 8-byte
    discriminator), with the encoders that lay a record out, the generic
    word-array reader the decoders share, and the accounts `initialize.rs`
    creates. The encoders are the reference the decoders' fixed offsets are
    proved against. */
module Accounts {
  import opened Wire
  import opened Chain

  // ---------------------------------------------------------------------
  // Word arrays

  /** The n u64 words stored from `base` on, 8 bytes apart. */
  function U64Words(data: seq<Byte>, base: nat, n: nat): (ws: seq<nat>)
    requires base + 8 * n <= |data|
    ensures |ws| == n
  {
    seq(n, i requires 0 <= i < n => U64At(data, base + 8 * i))
  }

  /** The sum of a sequence of amounts. */
  function Sum(xs: seq<nat>): nat
  {
    if xs == [] then 0 else Sum(xs[..|xs| - 1]) + xs[|xs| - 1]
  }

  /** Every entry is a u64. */
  predicate AllU64(ws: seq<int>)
  {
    forall i :: 0 <= i < |ws| ==> 0 <= ws[i] < U64_LIMIT
  }

  /** A `[u64; n]` field: the words' little-endian encodings back to back. */
  function WordsBytes(ws: seq<int>): (bs: seq<Byte>)
    ensures |bs| == 8 * |ws|
  {
    if ws == [] then [] else WordsBytes(ws[..|ws| - 1]) + LeBytes(ws[|ws| - 1], 8)
  }

  /** A u64 field stored after `p` reads back, reduced modulo 2^64. */
  lemma U64Field(p: seq<Byte>, v: int, s: seq<Byte>)
    ensures U64At(p + LeBytes(v, 8) + s, |p|) == v % U64_LIMIT
  {
    assert (p + LeBytes(v, 8) + s)[|p|..|p| + 8] == LeBytes(v, 8);
    LeRoundTrip(v, 8);
    Pow256Eight();
  }

  /** A u64 field holding a u64 reads back exactly. */
  lemma U64FieldExact(p: seq<Byte>, v: int, s: seq<Byte>)
    requires 0 <= v < U64_LIMIT
    ensures U64At(p + LeBytes(v, 8) + s, |p|) == v
  {
    U64Field(p, v, s);
    DivModUnique(v, U64_LIMIT, 0, v);
  }

  /** A `[u64; n]` field of u64s reads back word by word. */
  lemma {:induction false} WordsField(p: seq<Byte>, ws: seq<int>, s: seq<Byte>)
    requires AllU64(ws)
    ensures U64Words(p + WordsBytes(ws) + s, |p|, |ws|) == ws
  {
    if ws != [] {
      var n := |ws| - 1;
      var init, last := ws[..n], ws[n];
      var data := p + WordsBytes(ws) + s;
      assert data == p + WordsBytes(init) + (LeBytes(last, 8) + s);
      WordsField(p, init, LeBytes(last, 8) + s);
      assert data == (p + WordsBytes(init)) + LeBytes(last, 8) + s;
      U64FieldExact(p + WordsBytes(init), last, s);
      forall i | 0 <= i < |ws|
        ensures U64Words(data, |p|, |ws|)[i] == ws[i]
      {
        if i < n {
          assert U64Words(data, |p|, |ws|)[i] == U64Words(data, |p|, n)[i];
        }
      }
    }
  }

  // ---------------------------------------------------------------------
  // Board: discriminator, round_id, start_slot, end_slot

  datatype Board = Board(roundId: nat, startSlot: nat, endSlot: nat)

  function BoardBytes(discriminator: int, b: Board): (bs: seq<Byte>)
    ensures |bs| == 32
  {
    LeBytes(discriminator, 8) + LeBytes(b.roundId, 8) + LeBytes(b.startSlot, 8) + LeBytes(b.endSlot, 8)
  }

  predicate BoardInRange(b: Board)
  {
    b.roundId < U64_LIMIT && b.startSlot < U64_LIMIT && b.endSlot < U64_LIMIT
  }

  /** `parseBoardData`: round id, start slot and end slot as u64s at offsets
      8, 16 and 24; a buffer too short for any of them throws. */
  function ParseBoard(data: seq<Byte>): (r: Result<Board>)
    ensures r.Ok? <==> |data| >= 32
    ensures r.Err? ==> r.error == OutOfRange
    ensures r.Ok? ==> BoardInRange(r.value)
  {
    match (ReadU64LE(data, 8), ReadU64LE(data, 16), ReadU64LE(data, 24))
    case (Some(roundId), Some(startSlot), Some(endSlot)) => Ok(Board(roundId, startSlot, endSlot))
    case _ => Err(OutOfRange)
  }

  /** Decoding an encoded Board gives it back, whatever follows it. */
  lemma BoardRoundTrip(discriminator: int, b: Board, rest: seq<Byte>)
    requires BoardInRange(b)
    ensures ParseBoard(BoardBytes(discriminator, b) + rest) == Ok(b)
  {
    var d, r, st, e := LeBytes(discriminator, 8), LeBytes(b.roundId, 8), LeBytes(b.startSlot, 8), LeBytes(b.endSlot, 8);
    var data := BoardBytes(discriminator, b) + rest;
    assert data == d + r + (st + e + rest);
    U64FieldExact(d, b.roundId, st + e + rest);
    assert data == (d + r) + st + (e + rest);
    U64FieldExact(d + r, b.startSlot, e + rest);
    assert data == (d + r + st) + e + rest;
    U64FieldExact(d + r + st, b.endSlot, rest);
  }

  // ---------------------------------------------------------------------
  // Round: discriminator, id, deployed[25], slot_hash[32], count[25],
  // expires_at, motherlode, rent_payer, top_miner, top_miner_reward,
  // total_deployed, total_vaulted, total_winnings

  datatype Round = Round(
    discriminator: nat, id: nat, deployed: seq<nat>, slotHash: seq<Byte>, count: seq<nat>,
    expiresAt: nat, motherlode: nat, rentPayer: PublicKey, topMiner: PublicKey,
    topMinerReward: nat, totalDeployed: nat, totalVaulted: nat, totalWinnings: nat)

  predicate RoundInRange(r: Round)
  {
    && |r.deployed| == 25 && |r.count| == 25 && |r.slotHash| == 32
    && AllU64(r.deployed) && AllU64(r.count)
    && r.id < U64_LIMIT && r.motherlode < U64_LIMIT && r.totalDeployed < U64_LIMIT
  }

  function RoundBytes(r: Round): seq<Byte>
  {
    RoundHead(r) + RoundBody(r) + RoundTail(r)
  }

  /** discriminator, id, deployed, slot_hash: offsets 0..215 and 216..247. */
  function RoundHead(r: Round): seq<Byte>
  {
    LeBytes(r.discriminator, 8) + LeBytes(r.id, 8) + WordsBytes(r.deployed) + r.slotHash
  }

  /** count, expires_at, motherlode, rent_payer, top_miner, top_miner_reward. */
  function RoundBody(r: Round): seq<Byte>
  {
    WordsBytes(r.count) + LeBytes(r.expiresAt, 8) + LeBytes(r.motherlode, 8) + r.rentPayer
    + r.topMiner + LeBytes(r.topMinerReward, 8)
  }

  /** total_deployed, total_vaulted, total_winnings. */
  function RoundTail(r: Round): seq<Byte>
  {
    LeBytes(r.totalDeployed, 8) + LeBytes(r.totalVaulted, 8) + LeBytes(r.totalWinnings, 8)
  }

  lemma RoundHeadLayout(r: Round, rest: seq<Byte>)
    requires RoundInRange(r)
    ensures |RoundHead(r)| == 248
    ensures var data := RoundHead(r) + rest;
      && U64At(data, 8) == r.id
      && U64Words(data, 16, 25) == r.deployed
      && data[216..248] == r.slotHash
  {
    var d, i, dep := LeBytes(r.discriminator, 8), LeBytes(r.id, 8), WordsBytes(r.deployed);
    var data := RoundHead(r) + rest;
    assert data == d + i + (dep + r.slotHash + rest);
    U64FieldExact(d, r.id, dep + r.slotHash + rest);
    assert data == (d + i) + dep + (r.slotHash + rest);
    WordsField(d + i, r.deployed, r.slotHash + rest);
  }

  lemma RoundBodyLayout(p: seq<Byte>, r: Round, rest: seq<Byte>)
    requires RoundInRange(r) && |p| == 248
    ensures |RoundBody(r)| == 288
    ensures var data := p + RoundBody(r) + rest;
      && U64Words(data, 248, 25) == r.count
      && U64At(data, 456) == r.motherlode
  {
    var cnt, exp, ml := WordsBytes(r.count), LeBytes(r.expiresAt, 8), LeBytes(r.motherlode, 8);
    var after := r.rentPayer + r.topMiner + LeBytes(r.topMinerReward, 8) + rest;
    var data := p + RoundBody(r) + rest;
    assert data == p + cnt + (exp + ml + after);
    WordsField(p, r.count, exp + ml + after);
    assert data == (p + cnt + exp) + ml + after;
    U64FieldExact(p + cnt + exp, r.motherlode, after);
  }

  /** Where the readers look in a Round: id at 8, deployed from 16, the slot
      hash at 216..247, count from 248, motherlode at 456 and total deployed
      at 536; the account is 560 bytes. */
  lemma RoundLayout(r: Round, rest: seq<Byte>)
    requires RoundInRange(r)
    ensures |RoundBytes(r)| == 560
    ensures var data := RoundBytes(r) + rest;
      && U64At(data, 8) == r.id
      && U64Words(data, 16, 25) == r.deployed
      && data[216..248] == r.slotHash
      && U64Words(data, 248, 25) == r.count
      && U64At(data, 456) == r.motherlode
      && U64At(data, 536) == r.totalDeployed
  {
    var head, body, tail := RoundHead(r), RoundBody(r), RoundTail(r);
    var data := RoundBytes(r) + rest;
    RoundHeadLayout(r, body + tail + rest);
    assert data == head + (body + tail + rest);
    RoundBodyLayout(head, r, tail + rest);
    assert data == head + body + (tail + rest);
    U64FieldExact(head + body, r.totalDeployed, LeBytes(r.totalVaulted, 8) + LeBytes(r.totalWinnings, 8) + rest);
    assert data == (head + body) + LeBytes(r.totalDeployed, 8)
                   + (LeBytes(r.totalVaulted, 8) + LeBytes(r.totalWinnings, 8) + rest);
  }

  // ---------------------------------------------------------------------
  // Miner: discriminator, authority, deployed[25], cumulative[25],
  // rewards_sol, rewards_ore, then further fields

  datatype Miner = Miner(discriminator: nat, authority: PublicKey, deployed: seq<nat>,
                         cumulative: seq<nat>, rewardsSol: nat, rewardsOre: nat)

  predicate MinerInRange(m: Miner)
  {
    && |m.deployed| == 25 && |m.cumulative| == 25 && AllU64(m.deployed)
    && m.rewardsSol < U64_LIMIT && m.rewardsOre < U64_LIMIT
  }

  function MinerBytes(m: Miner): seq<Byte>
  {
    LeBytes(m.discriminator, 8) + m.authority + WordsBytes(m.deployed) + WordsBytes(m.cumulative)
    + LeBytes(m.rewardsSol, 8) + LeBytes(m.rewardsOre, 8)
  }

  /** Where the readers look in a Miner: deployed from 40, rewards_sol at 440
      and rewards_ore at 448; the fields read span 456 bytes. */
  lemma MinerLayout(m: Miner, rest: seq<Byte>)
    requires MinerInRange(m)
    ensures |MinerBytes(m)| == 456
    ensures var data := MinerBytes(m) + rest;
      && U64Words(data, 40, 25) == m.deployed
      && U64At(data, 440) == m.rewardsSol
      && U64At(data, 448) == m.rewardsOre
  {
    var data := MinerBytes(m) + rest;
    var d, dep, cum := LeBytes(m.discriminator, 8), WordsBytes(m.deployed), WordsBytes(m.cumulative);
    var rs, ro := LeBytes(m.rewardsSol, 8), LeBytes(m.rewardsOre, 8);
    assert data == (d + m.authority) + dep + (cum + rs + ro + rest);
    WordsField(d + m.authority, m.deployed, cum + rs + ro + rest);
    assert data == (d + m.authority + dep + cum) + rs + (ro + rest);
    U64FieldExact(d + m.authority + dep + cum, m.rewardsSol, ro + rest);
    assert data == (d + m.authority + dep + cum + rs) + ro + rest;
    U64FieldExact(d + m.authority + dep + cum + rs, m.rewardsOre, rest);
  }

  // ---------------------------------------------------------------------
  // Treasury: discriminator, balance, motherlode, then further fields

  function TreasuryBytes(discriminator: int, balance: int, motherlode: int): (bs: seq<Byte>)
    ensures |bs| == 24
  {
    LeBytes(discriminator, 8) + LeBytes(balance, 8) + LeBytes(motherlode, 8)
  }

  // ---------------------------------------------------------------------
  // The accounts `initialize` creates

  /** The Board starts at round 0 with both slots at u64::MAX. */
  const INITIAL_BOARD: Board := Board(0, U64_MAX, U64_MAX)

  /** Round 0: nothing deployed, an all-zero slot hash, no players, expiry at
      u64::MAX, and `rentPayer` the signer that created it. */
  function InitialRound(discriminator: nat, rentPayer: PublicKey): Round
  {
    Round(discriminator, 0, seq(25, _ => 0), Zeros(32), seq(25, _ => 0), U64_MAX, 0,
          rentPayer, DEFAULT_KEY, 0, 0, 0, 0)
  }
}
