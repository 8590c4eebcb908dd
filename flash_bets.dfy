/**
 * The flash-bet batch (FlashBetViewSet.process_flash_bet in
 * views_FlashBetDice.py): pick the rolling key from the player's seed,
 * rotating it first when it was already revealed; compute the dice setup once;
 * roll `numberOfBets` times at consecutive nonces, classifying each roll
 * against the half-open winning range and accumulating wins, losses and net
 * profit.
 *
 * The provably-fair roller and the dice-setup calculator are not part of this
 * model; they are function values passed in. So is the fresh server seed the
 * roller's constructor would generate.
 */
module FlashBets {
  import opened Wrappers
  import opened Encryption
  import opened Seeds
  import Ledger

  /** What compute_dice_setup yields: payout multiplier and winning range. */
  datatype DiceParams = DiceParams(payoutX: real, minRange: real, maxRange: real)

  /** The running totals of a batch. */
  datatype Tally = Tally(winnings: nat, losses: nat, netProfit: real)

  datatype FlashBetResponse = FlashBetResponse(
    status: string, winnings: nat, losses: nat, netProfit: real, coinTicker: string)

  /** A roll wins when it falls in [minRange, maxRange). */
  predicate IsWin(params: DiceParams, roll: real)
  {
    params.minRange <= roll < params.maxRange
  }

  /** What a won bet adds to the net profit: the payout minus the stake. */
  function WonAmountAfterFee(betAmount: real, params: DiceParams): real
  {
    betAmount * params.payoutX - betAmount
  }

  /** The rolls of `n` bets made with `key` and `clientSeed` from nonce `k` on. */
  function Rolls(roll: (string, string, nat) -> real, key: string, clientSeed: string, k: nat, n: nat)
    : seq<real>
  {
    seq(n, i requires 0 <= i < n => roll(key, clientSeed, k + i))
  }

  /** One bet's effect on the totals. */
  function Step(t: Tally, params: DiceParams, betAmount: real, roll: real): Tally
  {
    if IsWin(params, roll) then
      Tally(t.winnings + 1, t.losses, t.netProfit + WonAmountAfterFee(betAmount, params))
    else
      Tally(t.winnings, t.losses + 1, t.netProfit - betAmount)
  }

  /** The totals after the given rolls, in order, starting from zero. */
  function Accumulate(rolls: seq<real>, params: DiceParams, betAmount: real): Tally
    decreases |rolls|
  {
    if rolls == [] then Tally(0, 0, 0.0)
    else Step(Accumulate(rolls[..|rolls| - 1], params, betAmount), params, betAmount, rolls[|rolls| - 1])
  }

  /** Every bet is either a win or a loss. */
  lemma {:induction false} AccumulateCountsEveryBet(rolls: seq<real>, params: DiceParams, betAmount: real)
    ensures var t := Accumulate(rolls, params, betAmount); t.winnings + t.losses == |rolls|
    decreases |rolls|
  {
    if rolls != [] {
      AccumulateCountsEveryBet(rolls[..|rolls| - 1], params, betAmount);
    }
  }

  /** The positions of the winning rolls. */
  function WinningBets(rolls: seq<real>, params: DiceParams): set<nat>
  {
    set i: nat | i < |rolls| && IsWin(params, rolls[i])
  }

  /** The number of wins is the number of rolls inside the winning range. */
  lemma {:induction false} AccumulateCountsWins(rolls: seq<real>, params: DiceParams, betAmount: real)
    ensures Accumulate(rolls, params, betAmount).winnings == |WinningBets(rolls, params)|
    decreases |rolls|
  {
    if rolls != [] {
      var n := |rolls| - 1;
      var prefix := rolls[..n];
      AccumulateCountsWins(prefix, params, betAmount);
      var before := WinningBets(prefix, params);
      assert n !in before;
      if IsWin(params, rolls[n]) {
        assert WinningBets(rolls, params) == before + {n};
      } else {
        assert WinningBets(rolls, params) == before;
      }
    }
  }

  /** The net profit is what the wins paid minus the stakes the losses forfeited. */
  lemma {:induction false} AccumulateNetProfit(rolls: seq<real>, params: DiceParams, betAmount: real)
    ensures var t := Accumulate(rolls, params, betAmount);
            t.netProfit == t.winnings as real * WonAmountAfterFee(betAmount, params) - t.losses as real * betAmount
    decreases |rolls|
  {
    if rolls != [] {
      var prefix := rolls[..|rolls| - 1];
      AccumulateNetProfit(prefix, params, betAmount);
      var p := Accumulate(prefix, params, betAmount);
      var w := WonAmountAfterFee(betAmount, params);
      assert (p.winnings + 1) as real * w == p.winnings as real * w + w;
      assert (p.losses + 1) as real * betAmount == p.losses as real * betAmount + betAmount;
    }
  }

  /** A batch whose every roll misses loses every stake: no wins, n losses, -n times the stake. */
  lemma {:induction false} AllMissesLoseEveryStake(rolls: seq<real>, params: DiceParams, betAmount: real)
    requires forall i :: 0 <= i < |rolls| ==> !IsWin(params, rolls[i])
    ensures var t := Accumulate(rolls, params, betAmount);
            t.winnings == 0 && t.losses == |rolls| && t.netProfit == -(|rolls| as real) * betAmount
  {
    AccumulateCountsWins(rolls, params, betAmount);
    assert WinningBets(rolls, params) == {};
    AccumulateCountsEveryBet(rolls, params, betAmount);
    AccumulateNetProfit(rolls, params, betAmount);
  }

  /**
   * The seed selection of process_flash_bet: a revealed seed is first rotated to
   * `freshServerSeed` (the seed a new roller generates), and the roller is
   * keyed with that plaintext; a hidden seed is left alone and the roller is
   * keyed with the stored, encrypted, server seed field.
   */
  method SelectRollerKey(seed: Seed, freshServerSeed: string, key: string, p: Primitives)
    returns (pfairKey: string)
    modifies seed
    ensures old(seed.visible) ==>
              pfairKey == freshServerSeed && seed.nonce == 0 &&
              seed.hashedServerSeedForUser == p.hash(freshServerSeed) &&
              seed.serverSeed == p.encrypt(freshServerSeed, key)
    ensures !old(seed.visible) ==>
              pfairKey == old(seed.serverSeed) && seed.nonce == old(seed.nonce) &&
              seed.serverSeed == old(seed.serverSeed) &&
              seed.hashedServerSeedForUser == old(seed.hashedServerSeedForUser)
    ensures !seed.visible && seed.clientSeed == old(seed.clientSeed)
    ensures (if old(seed.visible) then p.DecryptInvertsEncrypt() else old(seed.Committed(p, key))) ==>
              seed.Committed(p, key)
  {
    if seed.visible {
      pfairKey := freshServerSeed;
      ghost var _ := seed.ModifyServerSeed(Some(freshServerSeed), freshServerSeed, key, p);
    } else {
      pfairKey := seed.serverSeed;
    }
  }

  /**
   * The bet loop of process_flash_bet: roll `numberOfBets` times with the
   * current nonce, classify and accumulate, and advance the nonce after each
   * roll. The ghost result lists the nonces used, in order.
   */
  method RollBets(seed: Seed, pfairKey: string, roll: (string, string, nat) -> real,
                  params: DiceParams, betAmount: real, numberOfBets: nat)
    returns (tally: Tally, ghost noncesUsed: seq<nat>)
    modifies seed
    ensures noncesUsed == seq(numberOfBets, i requires 0 <= i < numberOfBets => old(seed.nonce) + i)
    ensures seed.nonce == old(seed.nonce) + numberOfBets
    ensures tally == Accumulate(Rolls(roll, pfairKey, seed.clientSeed, old(seed.nonce), numberOfBets),
                                params, betAmount)
    ensures seed.clientSeed == old(seed.clientSeed) && seed.serverSeed == old(seed.serverSeed)
    ensures seed.hashedServerSeedForUser == old(seed.hashedServerSeedForUser)
    ensures seed.visible == old(seed.visible)
  {
    ghost var k := seed.nonce;
    ghost var clientSeed := seed.clientSeed;
    var wonAmountAfterFee := WonAmountAfterFee(betAmount, params);
    var winnings: nat, losses: nat := 0, 0;
    var netProfit := 0.0;
    noncesUsed := [];
    for indexBet := 0 to numberOfBets
      invariant seed.nonce == k + indexBet
      invariant seed.clientSeed == clientSeed && seed.serverSeed == old(seed.serverSeed)
      invariant seed.hashedServerSeedForUser == old(seed.hashedServerSeedForUser)
      invariant seed.visible == old(seed.visible)
      invariant noncesUsed == seq(indexBet, i requires 0 <= i < indexBet => k + i)
      invariant Tally(winnings, losses, netProfit)
                == Accumulate(Rolls(roll, pfairKey, clientSeed, k, indexBet), params, betAmount)
    {
      var rolled := roll(pfairKey, seed.clientSeed, seed.nonce);
      ghost var done := Rolls(roll, pfairKey, clientSeed, k, indexBet);
      ghost var next := Rolls(roll, pfairKey, clientSeed, k, indexBet + 1);
      assert next == done + [rolled];
      assert next[..indexBet] == done;
      assert Accumulate(next, params, betAmount)
             == Step(Accumulate(done, params, betAmount), params, betAmount, rolled);
      if params.minRange <= rolled < params.maxRange {
        netProfit := netProfit + wonAmountAfterFee;
        winnings := winnings + 1;
      } else {
        losses := losses + 1;
        netProfit := netProfit - betAmount;
      }
      assert Tally(winnings, losses, netProfit) == Accumulate(next, params, betAmount);
      noncesUsed := noncesUsed + [seed.nonce];
      seed.IncrementNonce();
    }
    tally := Tally(winnings, losses, netProfit);
  }

  /**
   * The completed path of process_flash_bet. `freshServerSeed` is the seed a
   * new roller would generate, `key` the seeds key, `roll` and
   * `computeDiceSetup` the roller and the dice-setup calculator. The ghost
   * results say which key rolled, from which nonce, and at which nonces.
   */
  method ProcessFlashBet(
    seed: Seed, profile: Ledger.ProfileUser, casino: Ledger.CasinoBankroll,
    numberOfBets: nat, betAmount: real, userWinrateChoice: real, isRollUnder: bool, coinTicker: string,
    freshServerSeed: string, key: string, p: Primitives,
    roll: (string, string, nat) -> real, computeDiceSetup: (real, bool) -> DiceParams)
    returns (response: FlashBetResponse, ghost rollKey: string, ghost firstNonce: nat, ghost noncesUsed: seq<nat>)
    modifies seed
    // seed selection
    ensures old(seed.visible) ==>
              rollKey == freshServerSeed && firstNonce == 0 &&
              seed.hashedServerSeedForUser == p.hash(freshServerSeed) &&
              seed.serverSeed == p.encrypt(freshServerSeed, key)
    ensures !old(seed.visible) ==>
              rollKey == old(seed.serverSeed) && firstNonce == old(seed.nonce) &&
              seed.serverSeed == old(seed.serverSeed) &&
              seed.hashedServerSeedForUser == old(seed.hashedServerSeedForUser)
    ensures !seed.visible && seed.clientSeed == old(seed.clientSeed)
    ensures (if old(seed.visible) then p.DecryptInvertsEncrypt() else old(seed.Committed(p, key))) ==>
              seed.Committed(p, key)
    // one nonce per bet, consecutive, and the counter left just past the last
    ensures noncesUsed == seq(numberOfBets, i requires 0 <= i < numberOfBets => firstNonce + i)
    ensures seed.nonce == firstNonce + numberOfBets
    // the dice setup is computed once, and the report is the totals of the rolls at those nonces
    ensures var t := Accumulate(Rolls(roll, rollKey, seed.clientSeed, firstNonce, numberOfBets),
                                computeDiceSetup(userWinrateChoice, isRollUnder), betAmount);
            response == FlashBetResponse("success", t.winnings, t.losses, t.netProfit, coinTicker)
    // no funds move on the completed path
    ensures unchanged(profile) && unchanged(casino)
  {
    var pfairKey := SelectRollerKey(seed, freshServerSeed, key, p);
    rollKey := pfairKey;
    firstNonce := seed.nonce;
    var diceParamsCurrentBet := computeDiceSetup(userWinrateChoice, isRollUnder);
    var tally;
    tally, noncesUsed := RollBets(seed, pfairKey, roll, diceParamsCurrentBet, betAmount, numberOfBets);
    response := FlashBetResponse("success", tally.winnings, tally.losses, tally.netProfit, coinTicker);
  }
}
