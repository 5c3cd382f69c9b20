/** The supply client's PDA finders (ore-supply-frontend lib/program/pdas.ts).
    Board, miner, automation and stake seeds are the same as in `Pdas`; the
    round finder writes the id with Node's range-checked `writeBigUInt64LE`
    instead of a byte loop, so an id outside the u64 range throws. */
module SupplyPdas {
  import opened Wire
  import opened Chain
  import opened Pdas
  import NodeBuffer

  /** `findRoundPda(roundId)`. */
  method FindRoundPda(roundId: int, programId: PublicKey) returns (r: Result<Address>)
    ensures r.Ok? <==> 0 <= roundId < U64_LIMIT
    ensures r.Err? ==> r.error == OutOfRange
    ensures r.Ok? ==> r.value == RoundPda(roundId, programId)
    ensures r.Ok? ==> r.value.Derived? && LeValue(r.value.seeds[1]) == roundId
  {
    var roundIdBuffer := new Byte[8](_ => 0);
    var ok := NodeBuffer.WriteBigUInt64LE(roundIdBuffer, roundId, 0);
    if !ok {
      return Err(OutOfRange);
    }
    assert roundIdBuffer[..] == LeBytes(roundId, 8);
    r := Ok(FindProgramAddress([ROUND_SEED, roundIdBuffer[..]], programId));
    RoundSeedRoundTrip(roundId);
  }
}
