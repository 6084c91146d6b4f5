/** Properties of a session: a run of whole spins, one per draw value, all at
    the bet in force. */
module Session {
  import opened Symbols
  import opened Rules

  /** The state after spinning once for each draw in `draws`, in order. */
  function RunSpins(s: State, draws: seq<nat>): State
    decreases |draws|
  {
    if draws == [] then s else RunSpins(Spin(s, draws[0]).state, draws[1..])
  }

  /** Conservation: over any run, the balance moves by the total won less one
      bet for every spin counted, whatever the draws; the bet and the spinning
      flag are untouched and the accumulators never decrease. */
  lemma {:induction false} RunLedger(s: State, draws: seq<nat>)
    ensures var e := RunSpins(s, draws);
      && e.balance - s.balance == (e.totalWin - s.totalWin) - s.currentBet * (e.spinCount - s.spinCount)
      && e.currentBet == s.currentBet && e.isSpinning == s.isSpinning
      && s.totalWin <= e.totalWin && s.highestWin <= e.highestWin && s.spinCount <= e.spinCount
    decreases |draws|
  {
    if draws != [] {
      var m := Spin(s, draws[0]).state;
      SpinLedger(s, draws[0]);
      RunLedger(m, draws[1..]);
      var e := RunSpins(m, draws[1..]);
      LedgerCompose(s.currentBet, s.balance, m.balance, e.balance,
                    s.totalWin, m.totalWin, e.totalWin, s.spinCount, m.spinCount, e.spinCount);
    }
  }

  /** Two consecutive ledger steps at the same bet make one. */
  lemma LedgerCompose(bet: int, b0: int, b1: int, b2: int, t0: int, t1: int, t2: int, c0: int, c1: int, c2: int)
    requires b1 - b0 == (t1 - t0) - bet * (c1 - c0)
    requires b2 - b1 == (t2 - t1) - bet * (c2 - c1)
    ensures b2 - b0 == (t2 - t0) - bet * (c2 - c0)
  {
    assert bet * (c2 - c0) == bet * (c1 - c0) + bet * (c2 - c1);
  }

  /** The invariant holds throughout any run. */
  lemma {:induction false} RunKeepsInv(s: State, draws: seq<nat>)
    requires Inv(s)
    ensures Inv(RunSpins(s, draws))
    decreases |draws|
  {
    if draws != [] {
      RunKeepsInv(Spin(s, draws[0]).state, draws[1..]);
    }
  }

  /** Game over is final for spinning: at any bet the limits allow, no run of
      spins changes anything. */
  lemma {:induction false} GameOverIsFinal(s: State, draws: seq<nat>)
    requires IsGameOver(s) && s.currentBet >= MinBet
    ensures RunSpins(s, draws) == s
    decreases |draws|
  {
    if draws != [] {
      GameOverRefusesSpin(s, draws[0]);
      GameOverIsFinal(s, draws[1..]);
    }
  }

  /** A combo counter after one more draw of its kind. */
  function NextCount(c: int): int {
    if c + 1 >= ComboLength then 0 else c + 1
  }

  /** Whether one more draw of its kind completes the combo. */
  function Completes(c: int): nat {
    if c + 1 >= ComboLength then 1 else 0
  }

  /** A combo counter after `n` more draws of its kind, one at a time. */
  function CountAfter(c: int, n: nat): int
    decreases n
  {
    if n == 0 then c else CountAfter(NextCount(c), n - 1)
  }

  /** The combos those `n` draws complete. */
  function CombosAfter(c: int, n: nat): nat
    decreases n
  {
    if n == 0 then 0 else Completes(c) + CombosAfter(NextCount(c), n - 1)
  }

  /** Counted one at a time, `n` draws from counter `c` leave the counter at
      `(c + n) mod 3` and complete `(c + n) div 3` combos. */
  lemma {:induction false} CountArithmetic(c: int, n: nat)
    requires 0 <= c < ComboLength
    ensures CountAfter(c, n) == (c + n) % ComboLength
    ensures CombosAfter(c, n) == (c + n) / ComboLength
    decreases n
  {
    if n > 0 {
      CountArithmetic(NextCount(c), n - 1);
      ComboStep(c, NextCount(c), n - 1, c + n);
    }
  }

  /** Counting one combo draw and then `k` more is counting `total` draws. */
  lemma ComboStep(c: int, c': int, k: nat, total: int)
    requires 0 <= c < ComboLength && total == c + k + 1
    requires c' == NextCount(c)
    ensures (c' + k) % ComboLength == total % ComboLength
    ensures (c' + k) / ComboLength + Completes(c) == total / ComboLength
  {
    if c + 1 >= ComboLength {
      assert total == k + ComboLength;
    }
  }

  /** The first spin of a run of gold draws that the balance covers. */
  lemma GoldRunStep(s: State, draws: seq<nat>) returns (m: State)
    requires draws != [] && GoldDraw(draws[0])
    requires !s.isSpinning && s.balance >= s.currentBet
    ensures RunSpins(s, draws) == RunSpins(m, draws[1..])
    ensures m.goldSlots == NextCount(s.goldSlots)
    ensures m.totalWin == s.totalWin + Completes(s.goldSlots) * GoldReward
    ensures m.diamondSlots == s.diamondSlots && m.spinCount == s.spinCount + 1
    ensures m.balance >= s.balance - s.currentBet
    ensures m.currentBet == s.currentBet && !m.isSpinning
  {
    GoldSpin(s, draws[0]);
    m := Spin(s, draws[0]).state;
  }

  /** The first spin of a run of diamond draws that the balance covers. */
  lemma DiamondRunStep(s: State, draws: seq<nat>) returns (m: State)
    requires draws != [] && DiamondDraw(draws[0])
    requires !s.isSpinning && s.balance >= s.currentBet
    ensures RunSpins(s, draws) == RunSpins(m, draws[1..])
    ensures m.diamondSlots == NextCount(s.diamondSlots)
    ensures m.totalWin == s.totalWin + Completes(s.diamondSlots) * DiamondReward
    ensures m.goldSlots == s.goldSlots && m.spinCount == s.spinCount + 1
    ensures m.balance >= s.balance - s.currentBet
    ensures m.currentBet == s.currentBet && !m.isSpinning
  {
    DiamondSpin(s, draws[0]);
    m := Spin(s, draws[0]).state;
  }

  /** A run of gold draws with the balance to pay for all of them, counted a
      draw at a time; `e` is the state the run ends in. */
  lemma {:induction false} GoldRun(s: State, draws: seq<nat>) returns (e: State)
    requires !s.isSpinning
    requires 0 <= s.currentBet && |draws| * s.currentBet <= s.balance
    requires forall i :: 0 <= i < |draws| ==> GoldDraw(draws[i])
    ensures e == RunSpins(s, draws)
    ensures e.goldSlots == CountAfter(s.goldSlots, |draws|)
    ensures e.totalWin == s.totalWin + CombosAfter(s.goldSlots, |draws|) * GoldReward
    ensures e.diamondSlots == s.diamondSlots
    ensures e.spinCount == s.spinCount + |draws|
    decreases |draws|
  {
    if draws == [] {
      e := s;
    } else {
      MulPred(|draws[1..]|, |draws|, s.currentBet);
      var m := GoldRunStep(s, draws);
      e := GoldRun(m, draws[1..]);
    }
  }

  /** The same for a run of diamond draws and the diamond reward. */
  lemma {:induction false} DiamondRun(s: State, draws: seq<nat>) returns (e: State)
    requires !s.isSpinning
    requires 0 <= s.currentBet && |draws| * s.currentBet <= s.balance
    requires forall i :: 0 <= i < |draws| ==> DiamondDraw(draws[i])
    ensures e == RunSpins(s, draws)
    ensures e.diamondSlots == CountAfter(s.diamondSlots, |draws|)
    ensures e.totalWin == s.totalWin + CombosAfter(s.diamondSlots, |draws|) * DiamondReward
    ensures e.goldSlots == s.goldSlots
    ensures e.spinCount == s.spinCount + |draws|
    decreases |draws|
  {
    if draws == [] {
      e := s;
    } else {
      MulPred(|draws[1..]|, |draws|, s.currentBet);
      var m := DiamondRunStep(s, draws);
      e := DiamondRun(m, draws[1..]);
    }
  }

  /** A run of gold draws with the balance to pay for all of them: the gold
      counter counts the draws modulo three, every third one pays the gold
      reward, and the diamond counter is untouched. */
  lemma GoldStreak(s: State, draws: seq<nat>) returns (e: State)
    requires !s.isSpinning && 0 <= s.goldSlots < ComboLength
    requires 0 <= s.currentBet && |draws| * s.currentBet <= s.balance
    requires forall i :: 0 <= i < |draws| ==> GoldDraw(draws[i])
    ensures e == RunSpins(s, draws)
    ensures e.goldSlots == (s.goldSlots + |draws|) % ComboLength
    ensures e.totalWin == s.totalWin + (s.goldSlots + |draws|) / ComboLength * GoldReward
    ensures e.diamondSlots == s.diamondSlots
    ensures e.spinCount == s.spinCount + |draws|
  {
    e := GoldRun(s, draws);
    CountArithmetic(s.goldSlots, |draws|);
  }

  /** The same for a run of diamond draws and the diamond reward. */
  lemma DiamondStreak(s: State, draws: seq<nat>) returns (e: State)
    requires !s.isSpinning && 0 <= s.diamondSlots < ComboLength
    requires 0 <= s.currentBet && |draws| * s.currentBet <= s.balance
    requires forall i :: 0 <= i < |draws| ==> DiamondDraw(draws[i])
    ensures e == RunSpins(s, draws)
    ensures e.diamondSlots == (s.diamondSlots + |draws|) % ComboLength
    ensures e.totalWin == s.totalWin + (s.diamondSlots + |draws|) / ComboLength * DiamondReward
    ensures e.goldSlots == s.goldSlots
    ensures e.spinCount == s.spinCount + |draws|
  {
    e := DiamondRun(s, draws);
    CountArithmetic(s.diamondSlots, |draws|);
  }

  lemma MulPred(k: int, n: int, b: int)
    requires k == n - 1
    ensures k * b == n * b - b
  {
  }

  /** From a fresh game, three gold draws pay the gold reward once, on the
      third, and leave the counter at zero. */
  lemma ThreeGolds(a: nat, b: nat, c: nat)
    requires GoldDraw(a) && GoldDraw(b) && GoldDraw(c)
    ensures RunSpins(Initial, [a, b]).totalWin == 0
    ensures var e := RunSpins(Initial, [a, b, c]);
      e.goldSlots == 0 && e.totalWin == GoldReward && e.balance == InitialBalance - 3 * InitialBet + GoldReward
  {
    var e2 := GoldStreak(Initial, [a, b]);
    var e3 := GoldStreak(Initial, [a, b, c]);
    RunLedger(Initial, [a, b, c]);
  }
}
