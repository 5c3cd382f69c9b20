/** Program-derived address seeds (lib/program/pdas.ts). Every finder
    hands a seed list and the program id to `findProgramAddressSync`, which
    is modelled symbolically by `Chain.Derived`; the round finder first
    fills an 8-byte little-endian round id in place. */
module Pdas {
  import opened Wire
  import opened Chain

  /** The UTF-8 bytes of an ASCII string, as `Buffer.from(s)` gives them. */
  function Ascii(s: string): seq<Byte>
    requires forall i :: 0 <= i < |s| ==> s[i] as int < 128
  {
    seq(|s|, i requires 0 <= i < |s| => s[i] as int)
  }

  const BOARD_SEED: seq<Byte> := Ascii("board")
  const MINER_SEED: seq<Byte> := Ascii("miner")
  const ROUND_SEED: seq<Byte> := Ascii("round")
  const AUTOMATION_SEED: seq<Byte> := Ascii("automation")
  const STAKE_SEED: seq<Byte> := Ascii("stake")
  const TREASURY_SEED: seq<Byte> := Ascii("treasury")

  /** `PublicKey.findProgramAddressSync(seeds, programId)[0]`. */
  function FindProgramAddress(seeds: seq<seq<Byte>>, programId: PublicKey): Address
  {
    Derived(seeds, programId)
  }

  function BoardSeeds(): seq<seq<Byte>> { [BOARD_SEED] }

  function MinerSeeds(authority: PublicKey): seq<seq<Byte>> { [MINER_SEED, authority] }

  /** The round id seed is its 8-byte little-endian encoding (wrapped modulo 2^64). */
  function RoundSeeds(roundId: int): seq<seq<Byte>> { [ROUND_SEED, LeBytes(roundId, 8)] }

  function AutomationSeeds(authority: PublicKey): seq<seq<Byte>> { [AUTOMATION_SEED, authority] }

  function StakeSeeds(authority: PublicKey): seq<seq<Byte>> { [STAKE_SEED, authority] }

  function FindBoardPda(programId: PublicKey): Address
  {
    FindProgramAddress(BoardSeeds(), programId)
  }

  function FindMinerPda(authority: PublicKey, programId: PublicKey): Address
  {
    FindProgramAddress(MinerSeeds(authority), programId)
  }

  /** The address `findRoundPda` derives; the method below computes it. */
  function RoundPda(roundId: int, programId: PublicKey): Address
  {
    FindProgramAddress(RoundSeeds(roundId), programId)
  }

  function FindAutomationPda(authority: PublicKey, programId: PublicKey): Address
  {
    FindProgramAddress(AutomationSeeds(authority), programId)
  }

  function FindStakePda(authority: PublicKey, programId: PublicKey): Address
  {
    FindProgramAddress(StakeSeeds(authority), programId)
  }

  /** `findRoundPda`: fills an 8-byte array with byte i = (roundId >> 8i) & 0xff
      and derives the address from ["round", that array]. */
  method FindRoundPda(roundId: int, programId: PublicKey) returns (pda: Address)
    ensures pda == RoundPda(roundId, programId)
    ensures pda.Derived? && |pda.seeds[1]| == 8
    ensures 0 <= roundId < U64_LIMIT ==> LeValue(pda.seeds[1]) == roundId
  {
    var roundIdArray := new Byte[8](_ => 0);
    for i := 0 to 8
      invariant forall k :: 0 <= k < i ==> roundIdArray[k] == ByteAt(roundId, k)
    {
      roundIdArray[i] := ByteAt(roundId, i);
    }
    assert roundIdArray[..] == LeBytes(roundId, 8);
    pda := FindProgramAddress([ROUND_SEED, roundIdArray[..]], programId);
    RoundSeedRoundTrip(roundId);
  }

  // ---------------------------------------------------------------------
  // Properties of the seed lists

  /** The round seed decodes back to the round id (modulo 2^64). */
  lemma RoundSeedRoundTrip(roundId: int)
    ensures |RoundSeeds(roundId)[1]| == 8
    ensures LeValue(RoundSeeds(roundId)[1]) == roundId % U64_LIMIT
    ensures 0 <= roundId < U64_LIMIT ==> LeValue(RoundSeeds(roundId)[1]) == roundId
  {
    LeRoundTrip(roundId, 8);
    Pow256Eight();
    if 0 <= roundId < U64_LIMIT {
      DivModUnique(roundId, U64_LIMIT, 0, roundId);
    }
  }

  /** Round 0 gets the seeds the program uses when it creates round 0:
      ["round", 0u64.to_le_bytes()]. */
  lemma RoundZeroSeeds()
    ensures RoundSeeds(0) == [ROUND_SEED, [0, 0, 0, 0, 0, 0, 0, 0]]
  {
    assert LeBytes(0, 8) == [0, 0, 0, 0, 0, 0, 0, 0];
  }

  /** Distinct in-range round ids give distinct round seeds, so distinct rounds
      are looked up at distinct derived addresses. */
  lemma RoundSeedsInjective(a: int, b: int, programId: PublicKey)
    requires 0 <= a < U64_LIMIT && 0 <= b < U64_LIMIT
    ensures RoundSeeds(a) == RoundSeeds(b) <==> a == b
    ensures RoundPda(a, programId) == RoundPda(b, programId) <==> a == b
  {
    RoundSeedRoundTrip(a);
    RoundSeedRoundTrip(b);
  }

  /** The id is taken modulo 2^64, so an id outside the u64 range names the
      same round account as its wrapped value: -1 names round 2^64 - 1. */
  lemma RoundPdaWraps(roundId: int, programId: PublicKey)
    ensures RoundPda(roundId, programId) == RoundPda(roundId % U64_LIMIT, programId)
    ensures RoundPda(-1, programId) == RoundPda(U64_MAX, programId)
  {
    Pow256Eight();
    var w := roundId % U64_LIMIT;
    DivModUnique(w, U64_LIMIT, 0, w);
    LeBytesModulo(roundId, w, 8);
    DivModUnique(-1, U64_LIMIT, -1, U64_MAX);
    DivModUnique(U64_MAX, U64_LIMIT, 0, U64_MAX);
    LeBytesModulo(-1, U64_MAX, 8);
  }

  /** Seed lists built from distinct authorities, or for different account
      kinds, never coincide; equal inputs give the same address. */
  lemma SeedListsDistinct(a: PublicKey, b: PublicKey, roundId: int)
    ensures MinerSeeds(a) == MinerSeeds(b) <==> a == b
    ensures AutomationSeeds(a) == AutomationSeeds(b) <==> a == b
    ensures StakeSeeds(a) == StakeSeeds(b) <==> a == b
    ensures MinerSeeds(a) != AutomationSeeds(b) && MinerSeeds(a) != StakeSeeds(b)
    ensures AutomationSeeds(a) != StakeSeeds(b)
    ensures RoundSeeds(roundId) != MinerSeeds(a) && RoundSeeds(roundId) != StakeSeeds(a)
    ensures RoundSeeds(roundId) != AutomationSeeds(a)
    ensures BoardSeeds() != RoundSeeds(roundId) && |BoardSeeds()| == 1
  {
    assert MINER_SEED[0] == 'm' as int && STAKE_SEED[0] == 's' as int;
    assert AUTOMATION_SEED[0] == 'a' as int && ROUND_SEED[0] == 'r' as int;
  }
}
