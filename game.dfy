/** The page's `gameState` object and the handlers that update it in place.
    Every method is proved to move the abstract value `Snapshot()` exactly as
    the matching function of the rules module says. */
module Game {
  import opened Symbols
  import opened Rules

  class GameState {
    var balance: int
    var currentBet: int
    var goldSlots: int
    var diamondSlots: int
    var totalWin: int
    var highestWin: int
    var spinCount: int
    var isSpinning: bool
    /** The key drawn by the spin in flight, held across the wait between
        the draw and `calculateWinnings`. */
    var pending: string

    /** The state the rules module speaks about. */
    function Snapshot(): State
      reads this
    {
      State(balance, currentBet, goldSlots, diamondSlots, totalWin, highestWin, spinCount, isSpinning)
    }

    /** The rules' invariant, and a spin in flight holds a key of the table. */
    ghost predicate Valid()
      reads this
    {
      Inv(Snapshot()) && (isSpinning ==> Lookup(Table, pending).Some?)
    }

    /** The initial `gameState` literal. */
    constructor ()
      ensures Valid() && Snapshot() == Initial
    {
      balance := InitialBalance;
      currentBet := InitialBet;
      goldSlots := 0;
      diamondSlots := 0;
      totalWin := 0;
      highestWin := 0;
      spinCount := 0;
      isSpinning := false;
      pending := Fallback;
    }

    /** `adjustBet(amount)`. */
    method AdjustBet(amount: int)
      requires Valid()
      modifies this`currentBet
      ensures Valid()
      ensures Snapshot() == Rules.AdjustBet(old(Snapshot()), amount)
    {
      var newBet := currentBet + amount;
      if newBet >= MinBet && newBet <= MaxBet && newBet <= balance {
        currentBet := newBet;
      }
    }

    /** The increase button: `adjustBet` by one step. */
    method IncreaseBet()
      requires Valid()
      modifies this`currentBet
      ensures Valid()
      ensures Snapshot() == Rules.AdjustBet(old(Snapshot()), BetStep)
    {
      AdjustBet(BetStep);
    }

    /** The decrease button: `adjustBet` by minus one step. */
    method DecreaseBet()
      requires Valid()
      modifies this`currentBet
      ensures Valid()
      ensures Snapshot() == Rules.AdjustBet(old(Snapshot()), -BetStep)
    {
      AdjustBet(-BetStep);
    }

    /** `validateBet` on the parsed contents of the bet field. */
    method ValidateBet(input: Option<int>)
      requires Valid()
      modifies this`currentBet
      ensures Valid()
      ensures Snapshot() == Rules.ValidateBet(old(Snapshot()), input)
    {
      // an unparsable or zero input falls back to the minimum
      var val := MinBet;
      if input.Some? && input.value != 0 {
        val := input.value;
      }
      // the least of the request, the cap and the balance
      var low := val;
      if MaxBet < low { low := MaxBet; }
      if balance < low { low := balance; }
      // and never below the minimum
      if low < MinBet { low := MinBet; }
      currentBet := low;
    }

    /** A quick-bet button: the bet is set to the button's amount with no
        check against the limits or the balance. */
    method SelectQuickBet(amount: int)
      requires Valid()
      modifies this`currentBet
      ensures Valid()
      ensures Snapshot() == old(Snapshot()).(currentBet := amount)
    {
      currentBet := amount;
    }

    /** `spin` up to and including the draw: the re-entrancy guard, the
        funds check, the flag, the debit, the count and `getRandomSymbol`. */
    method StartSpin(r: nat) returns (a: Attempt)
      requires Valid()
      modifies this
      ensures Valid()
      ensures Rules.BeginSpin(old(Snapshot()), r) == Step(Snapshot(), a)
      ensures a.Started? ==> pending == a.symbol
      ensures !a.Started? ==> pending == old(pending)
    {
      if isSpinning {
        return AlreadySpinning;
      }
      if balance < currentBet {
        return InsufficientFunds;
      }
      ghost var s0 := Snapshot();
      isSpinning := true;
      balance := balance - currentBet;
      spinCount := spinCount + 1;
      var symbol := GetRandomSymbol(Table, r);
      DrawnInTable(r);
      pending := symbol;
      a := Started(symbol);
      assert Snapshot() == s0.(balance := s0.balance - s0.currentBet,
                               spinCount := s0.spinCount + 1,
                               isSpinning := true);
    }

    /** `calculateWinnings` for the pending key, then the flag cleared: the
        rest of `spin` once the animation and the pauses are over. */
    method FinishSpin() returns (w: Winnings)
      requires Valid() && isSpinning
      modifies this
      ensures Valid()
      ensures Rules.Settle(old(Snapshot()), old(pending)) == Step(Snapshot(), w)
      ensures pending == old(pending)
    {
      var payout := 0;
      var combo := NoCombo;
      match KindOf(pending) {
      case Gold =>
        goldSlots := goldSlots + 1;
        if goldSlots >= ComboLength {
          payout := payout + GoldReward;
          combo := GoldCombo;
          goldSlots := 0;
        }
      case Diamond =>
        diamondSlots := diamondSlots + 1;
        if diamondSlots >= ComboLength {
          payout := payout + DiamondReward;
          combo := DiamondCombo;
          diamondSlots := 0;
        }
      case Money(value) =>
        payout := payout + value;
      case Multiplier(tenths) =>
        // the bet times the factor rounded down, the factor held in tenths
        payout := payout + (currentBet * tenths) / 10;
      case Empty =>
      }
      if payout > 0 {
        balance := balance + payout;
        totalWin := totalWin + payout;
        if payout > highestWin {
          highestWin := payout;
        }
      }
      // the popup condition and `showWinPopup`'s choice of tier
      var popup := PopupFor(payout, combo != NoCombo, currentBet);
      isSpinning := false;
      w := Winnings(payout, combo, popup);
    }

    /** A whole `spin` with nothing else happening during its waits. */
    method Spin(r: nat) returns (o: Outcome)
      requires Valid()
      modifies this
      ensures Valid()
      ensures Rules.Spin(old(Snapshot()), r) == Step(Snapshot(), o)
    {
      var a := StartSpin(r);
      match a
      case AlreadySpinning => o := Ignored;
      case InsufficientFunds => o := NoFunds;
      case Started(symbol) =>
        var w := FinishSpin();
        o := Spun(symbol, w);
    }

    /** `resetGame`: the defaults, the spinning flag left as it is. */
    method ResetGame()
      requires Valid()
      modifies this
      ensures Valid()
      ensures Snapshot() == Reset(old(Snapshot()))
      ensures pending == old(pending)
    {
      balance := InitialBalance;
      currentBet := InitialBet;
      goldSlots := 0;
      diamondSlots := 0;
      totalWin := 0;
      highestWin := 0;
      spinCount := 0;
    }
  }
}
