/**
 * Player and house balances in three currencies (Account_balances,
 * Casino_Bankroll and Profile_User in OLD_models.py), and the three
 * operations that move funds: a bet debit from player to house, a win credit
 * from house to player, and a wallet deposit into the player's balance.
 *
 * Amounts are Decimal in the casino's Python code and exact `real`s here. The pure
 * functions BetDebit, WinCredit and WalletDeposit give the effect of each
 * operation on a pair of balance records; the methods of ProfileUser perform
 * it in place on the two objects and are proved to agree with them.
 */
module Ledger {
  import opened Wrappers

  datatype Ticker = PLAY | ETH | BTC

  function TickerName(t: Ticker): string
  {
    match t
    case PLAY => "PLAY"
    case ETH => "ETH"
    case BTC => "BTC"
  }

  /** The currency a coin_ticker string selects; anything else is a bad ticker. */
  function ParseTicker(s: string): (r: Option<Ticker>)
    ensures r.Some? ==> TickerName(r.value) == s
    ensures r.None? <==> forall t :: TickerName(t) != s
  {
    if s == "ETH" then Some(ETH)
    else if s == "BTC" then Some(BTC)
    else if s == "PLAY" then Some(PLAY)
    else None
  }

  /** One amount per currency. */
  datatype Balances = Balances(play: real, eth: real, btc: real)
  {
    function Get(t: Ticker): real
    {
      match t
      case PLAY => play
      case ETH => eth
      case BTC => btc
    }

    function Set(t: Ticker, v: real): (b: Balances)
      ensures b.Get(t) == v
      ensures forall u :: u != t ==> b.Get(u) == Get(u)
    {
      match t
      case PLAY => this.(play := v)
      case ETH => this.(eth := v)
      case BTC => this.(btc := v)
    }
  }

  /** The balances of a freshly created account (either side). */
  const DefaultBalances: Balances := Balances(100.0, 0.0, 0.0)

  datatype LedgerError = InvalidAmount | NotEnoughFunds | BadTicker

  /** The player's balances and the casino bankroll's, side by side. */
  datatype Books = Books(player: Balances, casino: Balances)

  function Total(b: Books, t: Ticker): real
  {
    b.player.Get(t) + b.casino.Get(t)
  }

  /**
   * reduce_funds_bet: a negative amount is rejected first, then the ticker is
   * checked, then the player's balance; on success the amount moves from the
   * player to the casino in that currency only.
   */
  function BetDebit(b: Books, amount: real, coinTicker: string): (r: Result<Books, LedgerError>)
    ensures amount < 0.0 ==> r == Failure(InvalidAmount)
    ensures amount >= 0.0 && ParseTicker(coinTicker).None? ==> r == Failure(BadTicker)
    ensures amount >= 0.0 && ParseTicker(coinTicker).Some? ==>
              var t := ParseTicker(coinTicker).value;
              if amount > b.player.Get(t) then r == Failure(NotEnoughFunds)
              else r == Success(Books(b.player.Set(t, b.player.Get(t) - amount),
                                      b.casino.Set(t, b.casino.Get(t) + amount)))
    ensures r.Success? ==> forall t :: Total(r.value, t) == Total(b, t)
    ensures r.Success? ==> forall t :: b.player.Get(t) >= 0.0 ==> r.value.player.Get(t) >= 0.0
  {
    if amount < 0.0 then Failure(InvalidAmount)
    else if coinTicker == "ETH" then
      if b.player.eth - amount < 0.0 then Failure(NotEnoughFunds)
      else Success(Books(b.player.(eth := b.player.eth - amount), b.casino.(eth := b.casino.eth + amount)))
    else if coinTicker == "BTC" then
      if b.player.btc - amount < 0.0 then Failure(NotEnoughFunds)
      else Success(Books(b.player.(btc := b.player.btc - amount), b.casino.(btc := b.casino.btc + amount)))
    else if coinTicker == "PLAY" then
      if b.player.play - amount < 0.0 then Failure(NotEnoughFunds)
      else Success(Books(b.player.(play := b.player.play - amount), b.casino.(play := b.casino.play + amount)))
    else Failure(BadTicker)
  }

  /**
   * gain_funds: moves the amount from the casino to the player in one
   * currency. There is no check on the sign of the amount nor on the casino's
   * balance; only a bad ticker is rejected.
   */
  function WinCredit(b: Books, amount: real, coinTicker: string): (r: Result<Books, LedgerError>)
    ensures r.Failure? <==> ParseTicker(coinTicker).None?
    ensures r.Failure? ==> r.error == BadTicker
    ensures r.Success? ==>
              var t := ParseTicker(coinTicker).value;
              r.value == Books(b.player.Set(t, b.player.Get(t) + amount),
                               b.casino.Set(t, b.casino.Get(t) - amount))
    ensures r.Success? ==> forall t :: Total(r.value, t) == Total(b, t)
  {
    if coinTicker == "ETH" then
      Success(Books(b.player.(eth := b.player.eth + amount), b.casino.(eth := b.casino.eth - amount)))
    else if coinTicker == "BTC" then
      Success(Books(b.player.(btc := b.player.btc + amount), b.casino.(btc := b.casino.btc - amount)))
    else if coinTicker == "PLAY" then
      Success(Books(b.player.(play := b.player.play + amount), b.casino.(play := b.casino.play - amount)))
    else Failure(BadTicker)
  }

  /** deposit_funds_wallet: credits the player's balance in one currency and nothing else. */
  function WalletDeposit(player: Balances, amount: real, coinTicker: string): (r: Result<Balances, LedgerError>)
    ensures r.Failure? <==> ParseTicker(coinTicker).None?
    ensures r.Failure? ==> r.error == BadTicker
    ensures r.Success? ==>
              var t := ParseTicker(coinTicker).value;
              r.value.Get(t) == player.Get(t) + amount &&
              forall u :: u != t ==> r.value.Get(u) == player.Get(u)
  {
    if coinTicker == "ETH" then Success(player.(eth := player.eth + amount))
    else if coinTicker == "BTC" then Success(player.(btc := player.btc + amount))
    else if coinTicker == "PLAY" then Success(player.(play := player.play + amount))
    else Failure(BadTicker)
  }

  /** gain_funds does not guard the bankroll: a win larger than it drives it negative. */
  lemma WinCreditCanOverdrawCasino(b: Books, amount: real, t: Ticker)
    requires amount > b.casino.Get(t)
    ensures var r := WinCredit(b, amount, TickerName(t));
            r.Success? && r.value.casino.Get(t) < 0.0
  {
  }

  /**
   * gain_funds does not check the sign of the amount either: a negative win
   * larger than the player's balance succeeds and drives that balance negative.
   */
  lemma WinCreditCanOverdrawPlayer(b: Books, amount: real, t: Ticker)
    requires amount < -b.player.Get(t)
    ensures var r := WinCredit(b, amount, TickerName(t));
            r.Success? && r.value.player.Get(t) < 0.0
  {
  }

  /** A transfer between player and casino, as the game code issues them. */
  datatype Transfer =
    | ReduceFundsBet(amount: real, coinTicker: string)
    | GainFunds(amount: real, coinTicker: string)

  /** The books after one transfer; a raised error leaves them as they were. */
  function Apply(b: Books, op: Transfer): (r: Books)
    ensures forall t :: Total(r, t) == Total(b, t)
  {
    var res := match op
      case ReduceFundsBet(a, c) => BetDebit(b, a, c)
      case GainFunds(a, c) => WinCredit(b, a, c);
    if res.Success? then res.value else b
  }

  function ApplyAll(b: Books, ops: seq<Transfer>): Books
    decreases |ops|
  {
    if ops == [] then b else ApplyAll(Apply(b, ops[0]), ops[1..])
  }

  /** Every currency's player-plus-casino total survives any sequence of transfers. */
  lemma {:induction false} ApplyAllConserves(b: Books, ops: seq<Transfer>, t: Ticker)
    ensures Total(ApplyAll(b, ops), t) == Total(b, t)
    decreases |ops|
  {
    if ops != [] {
      ApplyAllConserves(Apply(b, ops[0]), ops[1..], t);
    }
  }

  predicate NonNegative(p: Balances)
  {
    forall t :: p.Get(t) >= 0.0
  }

  /**
   * The player's balances never go negative through debits and through
   * credits of non-negative amounts (the only kind the game code issues).
   */
  lemma {:induction false} ApplyAllKeepsPlayerSolvent(b: Books, ops: seq<Transfer>)
    requires NonNegative(b.player)
    requires forall i :: 0 <= i < |ops| && ops[i].GainFunds? ==> ops[i].amount >= 0.0
    ensures NonNegative(ApplyAll(b, ops).player)
    decreases |ops|
  {
    if ops != [] {
      var b' := Apply(b, ops[0]);
      assert NonNegative(b'.player);
      ApplyAllKeepsPlayerSolvent(b', ops[1..]);
    }
  }

  class CasinoBankroll {
    var playAmount: real
    var ethAmount: real
    var btcAmount: real
    var isBankAcc: bool
    var accountLabel: string

    constructor ()
      ensures Holdings() == DefaultBalances && isBankAcc && accountLabel == "Bankroll"
    {
      playAmount, ethAmount, btcAmount := 100.0, 0.0, 0.0;
      isBankAcc := true;
      accountLabel := "Bankroll";
    }

    function Holdings(): Balances
      reads this
    {
      Balances(playAmount, ethAmount, btcAmount)
    }
  }

  class ProfileUser {
    var playAmount: real
    var ethAmount: real
    var btcAmount: real

    constructor ()
      ensures Holdings() == DefaultBalances
    {
      playAmount, ethAmount, btcAmount := 100.0, 0.0, 0.0;
    }

    function Holdings(): Balances
      reads this
    {
      Balances(playAmount, ethAmount, btcAmount)
    }

    method ReduceFundsBet(amount: real, coinTicker: string, casinoRef: CasinoBankroll)
      returns (r: Outcome<LedgerError>)
      modifies this, casinoRef
      ensures var after := BetDebit(Books(old(Holdings()), old(casinoRef.Holdings())), amount, coinTicker);
              if after.Success? then
                r == Pass && Holdings() == after.value.player && casinoRef.Holdings() == after.value.casino
              else
                r == Fail(after.error) && Holdings() == old(Holdings()) && casinoRef.Holdings() == old(casinoRef.Holdings())
      ensures casinoRef.isBankAcc == old(casinoRef.isBankAcc) && casinoRef.accountLabel == old(casinoRef.accountLabel)
    {
      if amount < 0.0 {
        return Fail(InvalidAmount);
      }
      if coinTicker == "ETH" {
        if ethAmount - amount < 0.0 {
          return Fail(NotEnoughFunds);
        } else {
          ethAmount := ethAmount - amount;
          casinoRef.ethAmount := casinoRef.ethAmount + amount;
        }
      } else if coinTicker == "BTC" {
        if btcAmount - amount < 0.0 {
          return Fail(NotEnoughFunds);
        } else {
          btcAmount := btcAmount - amount;
          casinoRef.btcAmount := casinoRef.btcAmount + amount;
        }
      } else if coinTicker == "PLAY" {
        if playAmount - amount < 0.0 {
          return Fail(NotEnoughFunds);
        } else {
          playAmount := playAmount - amount;
          casinoRef.playAmount := casinoRef.playAmount + amount;
        }
      } else {
        return Fail(BadTicker);
      }
      r := Pass;
    }

    method GainFunds(amount: real, coinTicker: string, casinoRef: CasinoBankroll)
      returns (r: Outcome<LedgerError>)
      modifies this, casinoRef
      ensures var after := WinCredit(Books(old(Holdings()), old(casinoRef.Holdings())), amount, coinTicker);
              if after.Success? then
                r == Pass && Holdings() == after.value.player && casinoRef.Holdings() == after.value.casino
              else
                r == Fail(after.error) && Holdings() == old(Holdings()) && casinoRef.Holdings() == old(casinoRef.Holdings())
      ensures casinoRef.isBankAcc == old(casinoRef.isBankAcc) && casinoRef.accountLabel == old(casinoRef.accountLabel)
    {
      if coinTicker == "ETH" {
        ethAmount := ethAmount + amount;
        casinoRef.ethAmount := casinoRef.ethAmount - amount;
      } else if coinTicker == "BTC" {
        btcAmount := btcAmount + amount;
        casinoRef.btcAmount := casinoRef.btcAmount - amount;
      } else if coinTicker == "PLAY" {
        playAmount := playAmount + amount;
        casinoRef.playAmount := casinoRef.playAmount - amount;
      } else {
        return Fail(BadTicker);
      }
      r := Pass;
    }

    method DepositFundsWallet(amount: real, coinTicker: string) returns (r: Outcome<LedgerError>)
      modifies this
      ensures var after := WalletDeposit(old(Holdings()), amount, coinTicker);
              if after.Success? then r == Pass && Holdings() == after.value
              else r == Fail(after.error) && Holdings() == old(Holdings())
    {
      if coinTicker == "ETH" {
        ethAmount := ethAmount + amount;
      } else if coinTicker == "BTC" {
        btcAmount := btcAmount + amount;
      } else if coinTicker == "PLAY" {
        playAmount := playAmount + amount;
      } else {
        return Fail(BadTicker);
      }
      r := Pass;
    }
  }
}
