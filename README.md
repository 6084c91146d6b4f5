# Mistik Çark session engine, in Dafny

The game is a one-reel slot machine for the browser. A single `gameState`
record holds the player's balance, the current bet, the two combo counters
(gold for the angel 😇, diamond for the devil 😈), the running total won, the
best single win, the spin count and an `isSpinning` flag. Page handlers
update the record in place:

- `adjustBet` steps the bet;
- `validateBet` clamps a typed bet;
- the quick-bet buttons assign a bet;
- `spin` checks the guard and the funds, debits the bet, draws a symbol from
  a weighted table, waits for the animation and then runs
  `calculateWinnings`;
- `resetGame` restores the defaults.

`game.js` and `script.js` hold the same engine and differ only in
presentation. The one difference that matters is the bet step: `game.js`
writes the literal ±5 (game.js:63-64) and `script.js` reads `config.betStep`,
which is 5 (script.js:20, 65-66). So the engine is modelled once.

The project is split into four modules:

- `Symbols` (symbols.dfy): the symbol table in insertion order, and the
  weighted draw `getRandomSymbol`, written as a loop. It is proved against
  the function `DrawnId`: the first entry whose running total exceeds the
  draw. Every entry is proved to receive exactly its weight out of the 100
  possible draw values. The model also says which kind each draw range
  selects, and proves that the `'❌'` fallback is reached only at or past the
  total weight.
- `Rules` (rules.dfy): the engine as pure functions on a `State` value. This
  covers the kind switch of `calculateWinnings` (`Resolve`) and the popup
  trigger and tier (`PopupFor`). A spin has two phases: `BeginSpin` is the
  part of `spin` before the `await`, and `Settle` is `calculateWinnings` plus
  clearing the flag. `Spin` is both phases with nothing in between. The
  module also holds the bet rules, the reset and the game-over test, each
  with the invariant it keeps.
- `Session` (session.dfy): lemmas over runs of whole spins. They cover the
  balance ledger over any run, the invariant over any run, that game over is
  final, and gold and diamond streaks (the counter is the count mod 3, and
  one reward is paid per three draws).
- `Game` (game.dfy): the class `GameState`. Its fields are those of
  `gameState`, plus `pending`, the key drawn by a spin in flight. Its methods
  mutate the fields as the handlers do. Every method except the quick-bet
  setter is proved to move `Snapshot()` exactly as the matching `Rules`
  function says. The setter is proved to change the bet alone.

Because a spin is split at the `await`, the bet can be changed while a spin
runs: the bet buttons stay live, and only the spin button is disabled. The
multiplier payout and the popup's firing test (game.js:247, 264) then read the
bet as it stands at settlement.
`Rules.BetRaisedMidSpin` shows what that means. A spin paid at 10 that lands
on the 2.3× multiplier pays 1150 if the bet is raised to 500 before the spin
settles.

The draw is a parameter `r`: a natural number standing for
`Math.floor(Math.random() * totalWeight)`. Every running total is an integer,
so `rand < cumulative` decides the same way for `rand` and for its floor. The
multiplier factors 0.3, 0.6, 1.2 and 2.3 are held in tenths, and the payout
is `(bet * tenths) / 10`. That is the floor of the exact product; "Left out"
says where the source's floating-point product differs. Dafny's division rounds toward minus infinity for a positive
divisor, as `Math.floor` does.

## Model

| member | source | states |
|---|---|---|
| `Symbols.GetRandomSymbol` | game.js:119-129 | the loop that accumulates weights returns the key the draw selects over any table, including the `'❌'` fallback when no running total exceeds the draw |
| `Symbols.DrawIndexSpec` | script.js:114-124 | the selected position is the first whose running total exceeds the draw: every earlier running total is at or below it, and a draw below the total weight never runs off the table |
| `Symbols.ScanSpec` | game.js:123-126 | walking the table from any position stops at the first running total above the draw and passes only totals at or below it |
| `Symbols.DrawnIdCases` | game.js:120-128 | below the total weight the draw returns the key of a table entry; at or past it, the `'❌'` fallback |
| `Symbols.DrawPastTotal` | game.js:128 | a draw at or past the total weight matches no entry, so the loop ends and falls back |
| `Symbols.DrawIndexIff` | game.js:124-125 | entry `k` is drawn exactly when the draw lies between the running totals before and after `k` (both directions) |
| `Symbols.DrawMass` | game.js:120-126 | out of the `totalWeight` equally likely draw values, exactly `weight` select each entry |
| `Symbols.CumulativeMonotone` | game.js:124 | running totals never decrease along the table |
| `Symbols.Interval` | game.js:120 | the set of draw values in a half-open range holds exactly the values in that range |
| `Symbols.IntervalSize` | game.js:120 | a half-open range of draw values has `hi - lo` members |
| `Symbols.Lookup` | game.js:187 | `symbols[key]` finds only an entry with that key |
| `Symbols.LookupFinds` | game.js:210 | a lookup finds an entry of the table, and finds nothing exactly when no entry has the key |
| `Symbols.LookupUnique` | game.js:22-34 | with distinct keys, looking up an entry's key finds that entry |
| `Symbols.TableLookup` | script.js:24-36 | each of the eleven keys of the table looks up its own entry |
| `Symbols.TableCumulative` | game.js:22-36 | the running totals of the table are 18, 33, 41, 47, 51, 53, 58, 62, 65, 67 and 100 |
| `Symbols.TotalWeightSum` | game.js:36 | `totalWeight` is the sum of the weights: 0 for no symbols, a symbol's weight for one, and additive over any split of the table |
| `Symbols.CumulativeConcat` | script.js:38 | past the end of a table, the running totals of an extended table are its total plus the running totals of the extension |
| `Symbols.CumulativePrefix` | game.js:36 | within a table, extending it leaves its running totals unchanged |
| `Symbols.TableFacts` | script.js:24-38 | the table has eleven distinct keys, `totalWeight` is 100, and the last entry is the empty `'❌'` |
| `Symbols.DrawnInTable` | game.js:183-187 | every key the draw can return is a key of the table, so `symbols[result]` is always defined |
| `Symbols.DrawOfPosition` | game.js:123-125 | a draw in the range of entry `k` returns `k`'s key and `k`'s kind |
| `Symbols.DrawKinds` | game.js:22-34 | the kind each draw value selects agrees with an independent range table: below 18 gold, 18 to 33 diamond, …, 67 and up empty |
| `Symbols.DrawFallback` | game.js:128 | a draw at or past 100 returns `'❌'`, the empty symbol of the table |
| `Rules.Resolve` | game.js:212-254 | gold and diamond each advance only their own counter, complete the combo exactly on reaching three and then pay 500 or 750 and reset to 0; money pays its value; a multiplier pays the floor of bet × factor; empty pays 0; counters stay in [0, 3) |
| `Rules.PopupFor` | script.js:289-301 | a popup is raised exactly when the payout is positive and is a combo or at least twice the bet; its tier is power-complete exactly for a combo, big-win exactly for a non-combo of at least five bets, and a plain win otherwise |
| `Rules.BeginSpin` | game.js:164-183 | already spinning: nothing changes; balance below the bet: nothing changes; otherwise the flag is set, the bet debited and the count raised before the draw, and the drawn key is a table key |
| `Rules.Settle` | game.js:207-271 | the payout, combo and counters are those of the drawn kind at the current bet; a positive payout is added to balance and total and raises the best win to the max; a zero payout leaves all three; bet and count are kept, the flag is cleared, the invariant is kept |
| `Rules.Spin` | script.js:155-187 | the two phases together: ignored while spinning, refused without funds (state unchanged in both), otherwise the drawn key is settled, the balance moves by the positive payout less the bet, the total won by the positive payout and the count by one; bet and flag are kept and the totals never decrease |
| `Rules.SpinSettles` | game.js:176-200 | a spin that the balance covers settles the kind the draw selects at the bet in force |
| `Rules.GoldSpin` | game.js:213-225 | a gold draw advances the gold counter (reset and 500 paid on the third), leaves the diamond counter, and costs at most the bet |
| `Rules.DiamondSpin` | script.js:210-222 | a diamond draw advances the diamond counter (reset and 750 paid on the third), leaves the gold counter, and costs at most the bet |
| `Rules.SpinLedger` | game.js:176-177 | over one spin, balance change = change in total won − bet × change in spin count |
| `Rules.AdjustBet` | game.js:83-91 | the bet moves by the step exactly when the result is in [10, 500] and within the balance, otherwise nothing changes; an affordable bet stays affordable |
| `Rules.ValidateBet` | game.js:94-101 | only the bet changes; it always lands in [10, 500]; an affordable request is honoured; unparsable, 0 or below-minimum gives 10; a request above the lesser of the cap and the balance gives that lesser value when the balance is at least 10; it exceeds the balance only when the balance is below 10 |
| `Rules.Reset` | game.js:386-393 | balance 1000, bet 25, counters, totals and count 0, flag untouched; the result satisfies the invariant and its bet is affordable |
| `Rules.ResetIdempotent` | script.js:364-371 | resetting twice is resetting once |
| `Rules.GameOverRefusesSpin` | game.js:375 | once the balance is below the minimum and no spin is in flight, a spin at any legal bet is refused and changes nothing |
| `Rules.ComboRaisesPopup` | game.js:264 | a completed combo always raises the power-complete popup |
| `Rules.BetRaisedMidSpin` | game.js:247 | the multiplier reads the bet at settlement: a spin paid at 10 on the 2.3× symbol pays 1150 after the bet is raised to 500 mid-spin |
| `Rules.WorkedMultiplier` | game.js:247 | a 0.3 multiplier on a bet of 25 pays 7, the product rounded down |
| `Rules.WorkedNoFunds` | game.js:166 | a balance of 5 refuses a bet of 10 on any draw, with nothing changed |
| `Rules.WorkedClamp` | game.js:96 | a typed −5 clamps up to 10, and a typed 10000 against a balance of 300 clamps down to 300 |
| `Rules.IsGameOver` | game.js:375 | the game is over exactly when no spin is in flight and the balance covers no bet the limits allow |
| `Session.RunLedger` | game.js:176-258 | over any run of spins, balance change = total won − bet × spins counted; bet and flag unchanged; totals and count never decrease |
| `Session.RunKeepsInv` | game.js:163-204 | the invariant (counters in [0, 3), balance ≥ 0, 0 ≤ best ≤ total) holds after any run of spins |
| `Session.GameOverIsFinal` | script.js:353 | from game over at a legal bet (at least 10), no run of spins changes anything |
| `Session.CountArithmetic` | game.js:214-221 | counting combo draws one at a time from counter `c` leaves `(c + n) mod 3` and completes `(c + n) div 3` combos |
| `Session.ComboStep` | game.js:218-221 | one more combo draw then `k` more counts as `c + k + 1` draws |
| `Session.GoldRunStep` | game.js:213-225 | the first spin of a covered gold run, in the terms the streak counts in |
| `Session.DiamondRunStep` | game.js:227-239 | the first spin of a covered diamond run, in the terms the streak counts in |
| `Session.GoldRun` | script.js:196-208 | a covered run of gold draws leaves the gold counter and the combos as counted one at a time, and the diamond counter unchanged |
| `Session.DiamondRun` | script.js:210-222 | a covered run of diamond draws leaves the diamond counter and the combos as counted one at a time, and the gold counter unchanged |
| `Session.GoldStreak` | game.js:213-225 | after `n` covered gold draws the gold counter is `(c + n) mod 3` and `(c + n) div 3` gold rewards have been paid |
| `Session.DiamondStreak` | game.js:227-239 | after `n` covered diamond draws the diamond counter is `(c + n) mod 3` and `(c + n) div 3` diamond rewards have been paid |
| `Session.ThreeGolds` | game.js:218-221 | from a fresh game, two gold draws pay nothing and the third pays 500 and empties the counter, leaving 1000 − 75 + 500 |
| `Game.GameState.constructor` | game.js:2-11 | the initial record: balance 1000, bet 25, all else 0, not spinning |
| `Game.GameState.AdjustBet` | script.js:84-92 | updates the bet in place exactly as `Rules.AdjustBet` |
| `Game.GameState.IncreaseBet` | script.js:66 | `adjustBet(config.betStep)`, the step being 5 |
| `Game.GameState.DecreaseBet` | game.js:63 | `adjustBet(-5)` |
| `Game.GameState.ValidateBet` | script.js:95-102 | `max(minBet, min(val, maxBet, balance))` in place, exactly as `Rules.ValidateBet` |
| `Game.GameState.SelectQuickBet` | game.js:68-73 | the quick-bet handler: the bet is set to the button's amount, nothing else changes |
| `Game.GameState.StartSpin` | game.js:163-185 | the guard, funds check, flag, debit, count and `getRandomSymbol`, exactly as `Rules.BeginSpin`; the drawn key is kept as pending |
| `Game.GameState.FinishSpin` | game.js:207-271 | the kind switch and crediting on the pending key, then the flag cleared, exactly as `Rules.Settle` |
| `Game.GameState.Spin` | script.js:155-187 | a whole spin in place, exactly as `Rules.Spin` |
| `Game.GameState.ResetGame` | script.js:364-371 | the defaults restored in place, exactly as `Rules.Reset`, flag and pending key kept |

## Left out

- The DOM and all presentation: displayed texts, titles, colours, the
  progress dots, `updateQuickBets`, `updateResultDisplay`, `showWinPopup`'s
  icon and message, confetti, the injected styles. The popup's firing
  condition and its tier are modelled as `Rules.PopupFor`.
- The spin button's disabled state (`balance < currentBet || isSpinning`).
  It is a display of the same guard `BeginSpin` applies.
- The 800 ms wait inside `calculateWinnings` (game.js:265, script.js:248)
  falls inside `FinishSpin`. The source's popup tier test (game.js:318,
  script.js:295) reads the bet after that wait, and a bet button pressed
  during it changes the tier. `Rules.PopupFor` and `FinishSpin` use the bet
  at settlement for both the firing test and the tier. For example, 💸 pays
  100 at bet 25: the model gives a plain win, but the source shows a big win
  if the bet drops to 20 during the wait.
- Timers, `setInterval`, `setTimeout`, the `await`s, the animation and the
  `confirm()` restart prompt. A spin is the two phases `StartSpin` and
  `FinishSpin`, with any handler able to run between them, or the atomic
  `Spin`. The automatic restart after game over is left to the caller of
  `ResetGame`.
- `Math.random`: the draw is the parameter `r`, its floor times the total
  weight.
- Rules.Resolve: the multiplier payout is the floor of the exact product,
  not of the double-precision product of game.js:247 and script.js:230. The
  two differ only for the 2.3× 🌟 factor, whose double lies just below 2.3.
  At a bet of 100 the source pays 229 and the model 230. The same happens at
  bets of 50, 90, 110, 200 and other multiples of 10. The 0.3, 0.6 and 1.2
  factors agree with the model at every integer bet.
- `parseInt`: `ValidateBet` takes the parsed input as `Option<int>`, `None`
  standing for `NaN`. `SelectQuickBet` takes the button's already parsed
  amount. The amounts written in the HTML are not part of this model, so the
  quick-bet setter is left unchecked, as in the source.
- `targetRTP` (script.js:15): it is defined but never read.
- The exception JavaScript would throw if `symbols[result]` were undefined.
  `Symbols.DrawnInTable` proves that every drawn key is in the table, so that
  path cannot be taken.
- Text rendering of balances with `Math.floor`: every amount in the model is
  an integer already.
