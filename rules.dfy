/** The session engine's rules on a value of the session state: the bet
    ledger, the two phases of a spin, the payout by kind, the win popup, the
    game-over test and the reset. The class in game.dfy updates its fields in
    place and is proved to follow these functions. */
module Rules {
  import opened Symbols

  const GoldReward: int := 500
  const DiamondReward: int := 750
  const MinBet: int := 10
  const MaxBet: int := 500
  /** The step of the bet buttons (a literal 5 in one of the two scripts). */
  const BetStep: int := 5
  /** Gold or diamond draws needed to complete a combo. */
  const ComboLength: int := 3
  const InitialBalance: int := 1000
  const InitialBet: int := 25

  datatype State = State(
    balance: int,
    currentBet: int,
    goldSlots: int,
    diamondSlots: int,
    totalWin: int,
    highestWin: int,
    spinCount: int,
    isSpinning: bool)

  const Initial: State := State(InitialBalance, InitialBet, 0, 0, 0, 0, 0, false)

  /** What every operation keeps: combo counters below three, a balance
      that never goes negative, and a best single win no larger than the
      sum of all wins. */
  predicate Inv(s: State) {
    && 0 <= s.goldSlots < ComboLength
    && 0 <= s.diamondSlots < ComboLength
    && 0 <= s.balance
    && 0 <= s.highestWin <= s.totalWin
    && 0 <= s.spinCount
  }

  datatype Combo = NoCombo | GoldCombo | DiamondCombo
  datatype Popup = NoPopup | PowerComplete | BigWin | PlainWin

  /** What a finished spin reports: the payout, the combo it completed and
      the popup it raises. */
  datatype Winnings = Winnings(payout: int, combo: Combo, popup: Popup)

  /** The first phase of a spin: refused, or started with the drawn key. */
  datatype Attempt = AlreadySpinning | InsufficientFunds | Started(symbol: string)

  /** A whole spin: ignored while another is in flight, refused for lack of
      funds, or spun with the drawn key and its winnings. */
  datatype Outcome = Ignored | NoFunds | Spun(symbol: string, winnings: Winnings)

  datatype Step<O> = Step(state: State, out: O)

  /** The payout and counter updates of one drawn kind. */
  datatype Resolution = Resolution(payout: int, goldSlots: int, diamondSlots: int, combo: Combo)

  function Max(a: int, b: int): int { if a >= b then a else b }
  function Min(a: int, b: int): int { if a <= b then a else b }

  /** The payout switch of `calculateWinnings` for one drawn kind, given the
      bet and the two combo counters before the draw. */
  function Resolve(k: Kind, bet: int, gold: int, diamond: int): (res: Resolution)
    // the counters stay below three between spins
    ensures 0 <= gold < ComboLength && 0 <= diamond < ComboLength ==>
              0 <= res.goldSlots < ComboLength && 0 <= res.diamondSlots < ComboLength
    // each combo draw moves its own counter only; other kinds move neither
    ensures k.Gold? ==> res.diamondSlots == diamond
    ensures k.Diamond? ==> res.goldSlots == gold
    ensures !k.Gold? && !k.Diamond? ==> res.goldSlots == gold && res.diamondSlots == diamond
    // a combo completes exactly on the draw that brings its counter to three
    ensures res.combo == GoldCombo <==> k.Gold? && gold + 1 >= ComboLength
    ensures res.combo == DiamondCombo <==> k.Diamond? && diamond + 1 >= ComboLength
    ensures res.combo == GoldCombo ==> res.payout == GoldReward && res.goldSlots == 0
    ensures res.combo == DiamondCombo ==> res.payout == DiamondReward && res.diamondSlots == 0
    ensures k.Gold? && res.combo == NoCombo ==> res.payout == 0 && res.goldSlots == gold + 1
    ensures k.Diamond? && res.combo == NoCombo ==> res.payout == 0 && res.diamondSlots == diamond + 1
    // money pays its value, a multiplier the floor of bet times factor, empty nothing
    ensures k.Money? ==> res.payout == k.value
    ensures k.Multiplier? ==> 10 * res.payout <= bet * k.tenths < 10 * res.payout + 10
    ensures k.Empty? ==> res.payout == 0
    ensures bet >= 0 ==> res.payout >= 0
  {
    match k
    case Gold =>
      if gold + 1 >= ComboLength then Resolution(GoldReward, 0, diamond, GoldCombo)
      else Resolution(0, gold + 1, diamond, NoCombo)
    case Diamond =>
      if diamond + 1 >= ComboLength then Resolution(DiamondReward, gold, 0, DiamondCombo)
      else Resolution(0, gold, diamond + 1, NoCombo)
    case Money(value) => Resolution(value, gold, diamond, NoCombo)
    case Multiplier(tenths) => Resolution((bet * tenths) / 10, gold, diamond, NoCombo)
    case Empty => Resolution(0, gold, diamond, NoCombo)
  }

  /** Whether a payout raises the win popup, and its tier. */
  function PopupFor(payout: int, special: bool, bet: int): (p: Popup)
    ensures p != NoPopup <==> payout > 0 && (special || payout >= bet * 2)
    ensures p == PowerComplete <==> payout > 0 && special
    ensures p == BigWin <==> payout > 0 && !special && payout >= bet * 5 && payout >= bet * 2
    ensures p == PlainWin ==> payout > 0 && !special && payout < bet * 5
  {
    if payout > 0 && (special || payout >= bet * 2) then
      if special then PowerComplete
      else if payout >= bet * 5 then BigWin
      else PlainWin
    else NoPopup
  }

  /** The first phase of `spin`: the re-entrancy guard, the funds check, the
      debit and count, and the draw. */
  function BeginSpin(s: State, r: nat): (st: Step<Attempt>)
    ensures s.isSpinning ==> st == Step(s, AlreadySpinning)
    ensures !s.isSpinning && s.balance < s.currentBet ==> st == Step(s, InsufficientFunds)
    ensures st.out.Started? <==> !s.isSpinning && s.balance >= s.currentBet
    ensures st.out.Started? ==>
              && st.out.symbol == DrawnId(Table, r)
              && Lookup(Table, st.out.symbol).Some?
              && st.state == s.(balance := s.balance - s.currentBet,
                                spinCount := s.spinCount + 1,
                                isSpinning := true)
    ensures Inv(s) ==> Inv(st.state)
  {
    if s.isSpinning then Step(s, AlreadySpinning)
    else if s.balance < s.currentBet then Step(s, InsufficientFunds)
    else
      DrawnInTable(r);
      Step(s.(balance := s.balance - s.currentBet,
              spinCount := s.spinCount + 1,
              isSpinning := true),
           Started(DrawnId(Table, r)))
  }

  /** The second phase of `spin`: `calculateWinnings` for the drawn key,
      with the bet as it stands now, then the flag cleared. */
  function Settle(s: State, symbol: string): (st: Step<Winnings>)
    requires Lookup(Table, symbol).Some?
    ensures var res := Resolve(KindOf(symbol), s.currentBet, s.goldSlots, s.diamondSlots);
              && st.out.payout == res.payout && st.out.combo == res.combo
              && st.state.goldSlots == res.goldSlots && st.state.diamondSlots == res.diamondSlots
    // a positive payout is credited to the balance and to the total and can
    // raise the best win; any other payout leaves all three alone
    ensures st.out.payout > 0 ==>
              && st.state.balance == s.balance + st.out.payout
              && st.state.totalWin == s.totalWin + st.out.payout
              && st.state.highestWin == Max(s.highestWin, st.out.payout)
    ensures st.out.payout <= 0 ==>
              && st.state.balance == s.balance
              && st.state.totalWin == s.totalWin
              && st.state.highestWin == s.highestWin
    ensures st.state.currentBet == s.currentBet && st.state.spinCount == s.spinCount
    ensures !st.state.isSpinning
    ensures st.out.popup == PopupFor(st.out.payout, st.out.combo != NoCombo, s.currentBet)
    ensures Inv(s) ==> Inv(st.state)
  {
    var res := Resolve(KindOf(symbol), s.currentBet, s.goldSlots, s.diamondSlots);
    var credit := if res.payout > 0 then res.payout else 0;
    var best := if res.payout > 0 && res.payout > s.highestWin then res.payout else s.highestWin;
    Step(s.(goldSlots := res.goldSlots,
            diamondSlots := res.diamondSlots,
            balance := s.balance + credit,
            totalWin := s.totalWin + credit,
            highestWin := best,
            isSpinning := false),
         Winnings(res.payout, res.combo, PopupFor(res.payout, res.combo != NoCombo, s.currentBet)))
  }

  /** A whole spin with nothing happening between its two phases. */
  function Spin(s: State, r: nat): (st: Step<Outcome>)
    ensures s.isSpinning ==> st == Step(s, Ignored)
    ensures !s.isSpinning && s.balance < s.currentBet ==> st == Step(s, NoFunds)
    ensures st.out.Spun? <==> !s.isSpinning && s.balance >= s.currentBet
    // a spin that proceeds costs the bet once and credits its positive payout
    ensures st.out.Spun? ==>
              && st.out.symbol == DrawnId(Table, r)
              && st.state.spinCount == s.spinCount + 1
              && st.state.balance == s.balance - s.currentBet + Max(st.out.winnings.payout, 0)
              && st.state.totalWin == s.totalWin + Max(st.out.winnings.payout, 0)
    ensures !st.out.Spun? ==> st.state == s
    ensures st.state.currentBet == s.currentBet && st.state.isSpinning == s.isSpinning
    ensures s.totalWin <= st.state.totalWin && s.highestWin <= st.state.highestWin
    ensures s.spinCount <= st.state.spinCount
    ensures Inv(s) ==> Inv(st.state)
  {
    var begun := BeginSpin(s, r);
    match begun.out
    case AlreadySpinning => Step(s, Ignored)
    case InsufficientFunds => Step(s, NoFunds)
    case Started(symbol) =>
      var settled := Settle(begun.state, symbol);
      Step(settled.state, Spun(symbol, settled.out))
  }

  /** The draw values that select the gold symbol, and the diamond symbol. */
  predicate GoldDraw(r: nat) { r < 18 }
  predicate DiamondDraw(r: nat) { 18 <= r < 33 }

  /** A spin that the balance covers settles the kind the draw selects, at
      the bet in force. */
  lemma SpinSettles(s: State, r: nat)
    requires !s.isSpinning && s.balance >= s.currentBet
    ensures Lookup(Table, DrawnId(Table, r)).Some?
    ensures var m := Spin(s, r).state;
      var res := Resolve(KindOf(DrawnId(Table, r)), s.currentBet, s.goldSlots, s.diamondSlots);
      && m.goldSlots == res.goldSlots && m.diamondSlots == res.diamondSlots
      && m.totalWin == s.totalWin + Max(res.payout, 0)
      && m.balance == s.balance - s.currentBet + Max(res.payout, 0)
      && m.spinCount == s.spinCount + 1
      && m.currentBet == s.currentBet && !m.isSpinning
  {
    DrawnInTable(r);
    var symbol := DrawnId(Table, r);
    var begun := BeginSpin(s, r);
    var b := s.(balance := s.balance - s.currentBet, spinCount := s.spinCount + 1, isSpinning := true);
    assert begun == Step(b, Started(symbol));
    var settled := Settle(b, symbol);
    assert Spin(s, r) == Step(settled.state, Spun(symbol, settled.out));
  }

  /** One spin on a gold draw that the balance covers. */
  lemma GoldSpin(s: State, r: nat)
    requires GoldDraw(r) && !s.isSpinning && s.balance >= s.currentBet
    ensures var m := Spin(s, r).state;
      && m.goldSlots == (if s.goldSlots + 1 >= ComboLength then 0 else s.goldSlots + 1)
      && m.totalWin == s.totalWin + (if s.goldSlots + 1 >= ComboLength then GoldReward else 0)
      && m.diamondSlots == s.diamondSlots && m.spinCount == s.spinCount + 1
      && m.balance >= s.balance - s.currentBet
      && m.currentBet == s.currentBet && !m.isSpinning
  {
    TableCumulative();
    DrawOfPosition(r, 0);
    SpinSettles(s, r);
  }

  /** One spin on a diamond draw that the balance covers. */
  lemma DiamondSpin(s: State, r: nat)
    requires DiamondDraw(r) && !s.isSpinning && s.balance >= s.currentBet
    ensures var m := Spin(s, r).state;
      && m.diamondSlots == (if s.diamondSlots + 1 >= ComboLength then 0 else s.diamondSlots + 1)
      && m.totalWin == s.totalWin + (if s.diamondSlots + 1 >= ComboLength then DiamondReward else 0)
      && m.goldSlots == s.goldSlots && m.spinCount == s.spinCount + 1
      && m.balance >= s.balance - s.currentBet
      && m.currentBet == s.currentBet && !m.isSpinning
  {
    TableCumulative();
    DrawOfPosition(r, 1);
    SpinSettles(s, r);
  }

  /** The ledger of one spin: the balance moves by what the spin adds to the
      total won, less the bet if the spin was counted. */
  lemma SpinLedger(s: State, r: nat)
    ensures var m := Spin(s, r).state;
      m.balance - s.balance == (m.totalWin - s.totalWin) - s.currentBet * (m.spinCount - s.spinCount)
  {
    var st := Spin(s, r);
    if st.out.Spun? {
      assert st.state.spinCount - s.spinCount == 1;
    } else {
      assert st.state == s;
    }
  }

  /** Whether a bet may be placed against `balance`. */
  predicate Affordable(bet: int, balance: int) {
    MinBet <= bet <= MaxBet && bet <= balance
  }

  /** `adjustBet`: move the bet by `amount` when the result stays affordable. */
  function AdjustBet(s: State, amount: int): (s': State)
    // the bet moves by exactly the step or not at all, and nothing else changes
    ensures s' == s || s' == s.(currentBet := s.currentBet + amount)
    ensures Affordable(s.currentBet + amount, s.balance) ==> s'.currentBet == s.currentBet + amount
    ensures !Affordable(s.currentBet + amount, s.balance) ==> s' == s
    // an affordable bet stays affordable
    ensures Affordable(s.currentBet, s.balance) ==> Affordable(s'.currentBet, s'.balance)
    ensures Inv(s) ==> Inv(s')
  {
    var newBet := s.currentBet + amount;
    if newBet >= MinBet && newBet <= MaxBet && newBet <= s.balance then s.(currentBet := newBet)
    else s
  }

  /** `validateBet` on an already parsed input (`None` when it does not
      parse): clamp it to the range of bets the balance allows. */
  function ValidateBet(s: State, input: Option<int>): (s': State)
    ensures s' == s.(currentBet := s'.currentBet)
    // always within the configured limits
    ensures MinBet <= s'.currentBet <= MaxBet
    // an affordable request is honoured
    ensures input.Some? && Affordable(input.value, s.balance) ==> s'.currentBet == input.value
    // a request below the minimum, zero, or unparsable gives the minimum
    ensures input.None? || input.value == 0 || input.value < MinBet ==> s'.currentBet == MinBet
    // a request above what the limits and the balance allow gives that cap
    ensures input.Some? && input.value > Min(MaxBet, s.balance) && s.balance >= MinBet ==>
              s'.currentBet == Min(MaxBet, s.balance)
    // the bet exceeds the balance only when the balance is below the minimum
    ensures s'.currentBet > s.balance ==> s.balance < MinBet && s'.currentBet == MinBet
    ensures Inv(s) ==> Inv(s')
  {
    var val := if input.None? || input.value == 0 then MinBet else input.value;
    s.(currentBet := Max(MinBet, Min(val, Min(MaxBet, s.balance))))
  }

  /** `resetGame`: the defaults, with the spinning flag left as it is. */
  function Reset(s: State): (s': State)
    ensures s' == Initial.(isSpinning := s.isSpinning)
    ensures Inv(s')
    ensures Affordable(s'.currentBet, s'.balance)
  {
    State(InitialBalance, InitialBet, 0, 0, 0, 0, 0, s.isSpinning)
  }

  /** The game-over test of `updateDisplay`: no spin is in flight and the
      balance covers no bet the limits allow. */
  function IsGameOver(s: State): (over: bool)
    ensures over <==> !s.isSpinning && forall bet :: !Affordable(bet, s.balance)
  {
    assert !Affordable(MinBet, s.balance) <==> s.balance < MinBet;
    s.balance < MinBet && !s.isSpinning
  }

  /** Resetting twice is resetting once. */
  lemma ResetIdempotent(s: State)
    ensures Reset(Reset(s)) == Reset(s)
  {
  }

  /** Once the game is over, a spin at any bet the limits allow is refused
      and changes nothing. */
  lemma GameOverRefusesSpin(s: State, r: nat)
    requires IsGameOver(s) && s.currentBet >= MinBet
    ensures Spin(s, r) == Step(s, NoFunds)
  {
  }

  /** A completed combo always raises the popup with the combo tier. */
  lemma ComboRaisesPopup(s: State, symbol: string)
    requires Lookup(Table, symbol).Some?
    ensures Settle(s, symbol).out.combo != NoCombo ==> Settle(s, symbol).out.popup == PowerComplete
  {
  }

  /** The payout reads the bet standing when the spin settles, not the bet
      the spin was paid with: a spin paid at 10 that lands on the 2.3
      multiplier, with the bet raised to 500 while it runs, pays 1150. */
  lemma BetRaisedMidSpin()
    ensures var begun := BeginSpin(Initial.(currentBet := 10), 66);
      && begun.out == Started("🌟")
      && begun.state.balance == 990
      && var raised := ValidateBet(begun.state, Some(500));
      && raised.currentBet == 500
      && Settle(raised, "🌟").out.payout == 1150
  {
    TableCumulative();
    DrawOfPosition(66, 9);
  }

  /** Worked example: a 0.3 multiplier on a bet of 25 pays the floor of 7.5. */
  lemma WorkedMultiplier()
    ensures Resolve(Multiplier(3), 25, 0, 0).payout == 7
  {
  }

  /** Worked example: a balance of 5 cannot cover a bet of 10, whatever the draw. */
  lemma WorkedNoFunds(r: nat)
    ensures var s := Initial.(balance := 5, currentBet := 10); Spin(s, r) == Step(s, NoFunds)
  {
  }

  /** Worked examples: a typed bet clamps to the minimum from below and to the
      balance from above. */
  lemma WorkedClamp()
    ensures ValidateBet(Initial, Some(-5)).currentBet == 10
    ensures ValidateBet(Initial.(balance := 300), Some(10000)).currentBet == 300
  {
  }
}
