# Kaboom: a verified model of the bankroll, the VRF game protocol and its off-chain gates

Kaboom is a mines game on a shared bankroll. A player locks a bet in the vault, clicks tiles whose
fate an oracle's randomness decides, and is paid by a multiplier; liquidity providers and the house
own the vault through units. This project models, in Dafny:

- **the money and game engine**: the ledger of accounts, lamports and units, and the handlers of the
  VRF mode, the commit-reveal mode, the LP and house positions, referrals and configuration
  (`Ledger`, `Handlers`), and the same handlers as one class that updates its fields in the order the
  instructions do, with a runtime that undoes a failed transaction (`Program`);
- **the reveal state** of a VRF round, as a value with its replay (`Reveal`) and as the account the
  program writes, a class over a real 16-slot array (`VrfGameAccount`);
- **the odds**, with the on-chain loop and its TypeScript twin (`Odds`), and what they are worth
  against every strategy (`HouseEdge`, `Fairness`);
- **two off-chain machines and a cache**: the RPC proxy's gate (`RpcGate`, `RpcConnection`, `RateLimit`,
  `Refusals`, and `Upstream` for the other end of it), the log scanner (`LogScan`,
  `LogOrigin`), the signature cache (`Dedup`).

`Runs` defines transactions and runs and proves the invariant of every reachable ledger. On top of it:
`Permits` and `Admission` (when each transaction succeeds), `Payments` (what it pays to whom), `TimeLocks` and
`Authority` (windows and signers over runs), `Solvency` and `Backing` (the money behind both modes),
`Settlement`, `Referrals`, `Accruals`, `Finality`, `Liveness`, `RoundRun` and `Sessions` (whole games of either
mode, the first against the path payouts of `Fairness`), `Depletion`, `Pricing`, `Withdrawals`, `HouseFloor`,
and two modules of concrete runs from `initialize_v2`: `Example`, a round that meets the
hypotheses, and `Counterexamples`. `Prelude`, `Arith` and `Sums` are the helpers they share. Check
everything with `dafny verify dfyconfig.toml`.

## How the original is represented

- Integers are unbounded; every checked or saturating u64/u128 step of the source is written out. Two
  panics of the source, a shift by tile 255 and an edge above 100%, are `MathOverflow`.
- Each method of `Program` updates its fields in the instruction's own order and is proved to end in exactly
  the ledger, or the error, of the handler function of the same name; its row below says what that is.
- A wallet is a number, 0 being the default key; an account address is a wallet or a kind of derived
  account of one. Signers and accounts are given as the instruction contexts derive them. Rent is the
  default schedule on the accounts' sizes.
- A delegated game is two copies: the rollup's live one, and an L1 image that is zero-filled or as old
  as the last commit. Delegating, committing and undelegating are atomic. Randomness is any 32 bytes.
- Of the commit-reveal proof, the SHA-256 digest of what is published is a parameter; comparing it with
  the commitment and the layout with the revealed tiles is modelled. Whether an address is executable is
  a parameter too.
- Fairness sums over all draw sequences, so no probability appears: an average over M^k sequences is
  stated after multiplying by M^k.
- A JSON value is known by its identity alone, an id by its type and value, a frame by its size, kind
  and parsed calls. Tokens and clock readings are reals. Whether the client has stopped reading, and
  whether a send fails, are inputs of each event.
- Log lines are character sequences, matched at that level; decoding a payload is any partial function.

## What turned out differently from the documentation

- **A group of LPs can gain from others' rounding.** Each floor division favours the pool, so a group
  cannot gain by its own transactions, and it gains from others' by at most the remainders they leave
  (`GroupCannotProfit`, `LeftIsSmall`). A transaction leaves nothing if and only if it divides exactly;
  `Counterexamples.RoundedDepositEnriches` is a run in which it does not.
- **A refund can beat the house edge.** The source notes the ceiling of 1000 bps as worth re-checking. The
  edge holds against all strategies if and only if there are 15 mines or 16 * edge <= BPS * mines
  (`EdgeHoldsExactly`, `ProgramRefundsFair`): within the ceiling, it fails exactly with one mine and an
  edge above 625 bps. `CashOutPaysBet` shows the same number as the threshold of a different promise.
- **A settlement can still fail**, for a verified winner in a solvent vault: valuing the pending units for
  the treasury's cut overflows a u128. That and a wrong referral account are the only ways
  (`LandedSettles`), and `Counterexamples.AWinnerIsStuck` reaches it from `initialize_v2`.
- **A cleared commit-reveal board is never paid.** Revealing the last safe tile makes the session won,
  cashing out needs one in play, and settling pays the player nothing (`ClearingPaysNothing`,
  `FinishedIsNeverPaid`). `docs/security/program-audit.md:156` lists this ending among the wins and
  follows it with a settlement.
- **An owner's release locks the player out.** The reveal account stays behind and `start_game_vrf`
  creates it afresh, so that player never opens a VRF round again (`ReleasedPlayerIsLockedOut`).
- The comments call clicks and cash-outs rollup-only; the handlers shown do not check it. The model
  lets them act on the live copy wherever it is, and every result holds with that freedom.
- The README's multiplier formula has no floors and no exception at zero reveals, where the code
  answers 1x without the edge. `MultiplierIsBinomial` is for s >= 1.
- The log scanner warns that a program can log a line that mimics an invoke or success. Through
  `Program log:` it cannot: such lines match neither pattern (`LogLinesAreNeutral`).
- The signature cache never drops an empty signature, because it tests the evicted one for truth
  (`DiffersFromWindow`). Its caller only passes signatures of at least 64 characters.

## Model

| member | source | states |
|---|---|---|
| Odds.CalcMultiplierOnChain | programs/kaboom/src/lib.rs:1790-1834 | The on-chain loop returns the closed falling-product formula for every `u8`/`u16` input with its exact error cases; on a 16-tile board none of the checked u128/u64 steps is the one that fails |
| Odds.CalcMultiplierBps | packages/shared/src/multiplier.ts:8-32 | The client loop throws exactly outside the board and otherwise returns the same number as the chain for every edge up to 100%, and floor or truncated negative for edges outside it |
| Odds.ChooseFalling | programs/kaboom/src/lib.rs:1800-1822 | The loops' falling products are binomial coefficients: C(n,k) * k! is the product the loop builds |
| Odds.MultiplierIsBinomial | README.md:321-322 | For any board and s >= 1 the multiplier is floor(floor(BPS * C(n,s) / C(n-m,s)) * (BPS - edge) / BPS), the documented formula with both floors |
| Odds.MultiplierMonoInSafe | programs/kaboom/src/lib.rs:1790-1834 | More safe reveals never pay less, on any board |
| Odds.MultiplierMonoInMines | programs/kaboom/src/lib.rs:1790-1834 | More mines never pay less, on any board |
| Odds.MultiplierAntitoneInEdge | programs/kaboom/src/lib.rs:1790-1834 | A larger edge never pays more |
| Odds.MultiplierFits | pinocchio/kaboom-p/src/helpers.rs:440-463 | On 16 tiles the widest product fits a u128 and the multiplier a u64 |
| Odds.PayoutWithinWorstCase | programs/kaboom/src/lib.rs:1845-1850 | The reservation bounds the payout of every safe count the round can still reach |
| Odds.WorstCaseCoversBet | programs/kaboom/src/lib.rs:1845-1850 | At any configurable edge the reservation is at least the bet, so a refund never exceeds it |
| Odds.CashOutPaysBet | programs/kaboom/src/vrf_mode.rs:755-760 | Every cash-out of every bet pays at least the bet if and only if the edge is below 625 bps |
| HouseEdge.MineDrawsExact | programs/kaboom/src/vrf_mode.rs:192-201 | Of the draws below M exactly floor(M/r)*m + min(M mod r, m) are mines, for any M |
| HouseEdge.MineDrawsAtLeastFair | programs/kaboom/src/vrf_mode.rs:187-201 | The modulo draw never favours the player: at least m in r draws are mines, for any M, 2^64 included |
| HouseEdge.NoStrategyBeatsTheEdge | programs/kaboom/src/vrf_mode.rs:187-201 | On every board and draw range, against every function of the draw history, the expected payout is at most bet * (BPS - edge) / BPS, refunds included where they are fair |
| HouseEdge.RefundBeatsTheEdge | programs/kaboom/src/vrf_mode.rs:755-760 | Where refunds are not fair the bound fails for every positive bet: one click past the mines, then a refund, beats it |
| HouseEdge.EdgeHoldsExactly | programs/kaboom/src/vrf_mode.rs:755-760 | For every board, mine count, edge, positive bet and draw range, no strategy beats the edge if and only if refunds are fair: one safe tile in all, or the first click lost at least as often as the edge asks |
| HouseEdge.ProgramRefundsFair | programs/kaboom/src/vrf_mode.rs:755-760 | On the program's 16 tiles and eight-byte draw, refunds are fair if and only if there are 15 mines or 16 * edge <= BPS * mines |
| HouseEdge.FairByCount | programs/kaboom/src/vrf_mode.rs:187-201 | On any board and any range it is enough that n * edge <= BPS * mines |
| Fairness.SumIsTotal | programs/kaboom/src/vrf_mode.rs:187-201 | The backward recursion used for the bound equals the plain sum of path payouts over all draw sequences |
| Fairness.AverageBelowStake | programs/kaboom/src/vrf_mode.rs:187-201 | On that plain sum the edge holds for every strategy without refunds, and for all strategies if and only if refunds are fair |
| Fairness.ClickGoesThrough | programs/kaboom/src/vrf_mode.rs:420-480 | One request and its callback on an honest round succeed, and lose, clear or continue it as the priced draw says |
| RoundRun.MovesPayPath | programs/kaboom/src/vrf_mode.rs:420-844 | From any decision of a round in the rollup, the player's own transactions (clicks, callbacks, cash-out, undelegation, then settlement or the stall window and a refund) close the claim and pay the wallet the path payout |
| RoundRun.RoundPaysPathOnLedger | programs/kaboom/src/vrf_mode.rs:208-844 | Every round opened in a state of the invariant and followed to its end by any strategy, on any tiles, against any oracle bytes, changes the player's wallet by exactly the path payout whose average is bounded above, and both accounts' rent |
| Reveal.DrawIsUniform | programs/kaboom/src/vrf_mode.rs:197-199 | Reading eight little-endian bytes and writing them are inverse, so uniform bytes are a uniform draw below 2^64 |
| Reveal.DecideMineIsPriced | programs/kaboom/src/vrf_mode.rs:192-201 | `decide_mine` is the decision the multiplier prices, on a draw below 2^64 |
| Reveal.ReplayMeaning | programs/kaboom/src/vrf_mode.rs:567-578 | The replay returns (s, lost) if and only if s is the length of the longest mine-free prefix of the records and lost says a mine cut it short |
| Reveal.ReplayStopsAtLastSafeTile | programs/kaboom/src/vrf_mode.rs:567-578 | A replay never counts past 16 - mines, and more records than that must contain a mine |
| Reveal.VerifiedOutcome | programs/kaboom/src/vrf_mode.rs:529-589 | For any committed bytes a verified outcome is the one the recorded draws spell out, with 1 <= s <= 16 - mines on a win |
| Reveal.VerifyExactly | programs/kaboom/src/vrf_mode.rs:529-589 | L1 accepts committed bytes if and only if they are consistent: an unsettled claim's own terms, a finished status, and a safe count, outcome and multiplier that are what the records spell out; it then takes them at their word |
| Reveal.AwardIsCapped | programs/kaboom/src/vrf_mode.rs:601-616 | For any claim and verdict an award is nothing on a loss, and otherwise the price if and only if the reservation covers it |
| Reveal.SettlementSound | programs/kaboom/src/vrf_mode.rs:529-616 | For every claim written at start and any committed bytes, a verified round pays 0 on a loss and floor(bet * mult(s) / BPS) on a win, within `reserved`; the hard cap cannot fire |
| Reveal.CallbackHonest | programs/kaboom/src/vrf_mode.rs:455-480 | A callback succeeds exactly when a reveal is pending, keeps the summary equal to what the records say, loses exactly on a mine draw, and wins exactly when the board is cleared |
| Reveal.RequestHonest | programs/kaboom/src/vrf_mode.rs:420-450 | A request keeps the summary honest |
| Reveal.CashOutHonest | programs/kaboom/src/vrf_mode.rs:484-496 | A cash-out keeps the summary honest |
| Reveal.HonestVerifies | programs/kaboom/src/vrf_mode.rs:529-589 | A finished honest game passes every pin, bound and replay check, and the replay returns the incremental safe count, outcome and multiplier |
| Reveal.TerminalIsSticky | programs/kaboom/src/vrf_mode.rs:420-496 | After a win or a loss no click, callback or cash-out succeeds |
| VrfGameAccount.GameAccount.constructor | programs/kaboom/src/vrf_mode.rs:293-308 | A fresh account over its own 16 slots is the opening game |
| VrfGameAccount.GameAccount.Load | programs/kaboom/src/vrf_mode.rs:531-541 | An account loaded from bytes views as those bytes |
| VrfGameAccount.GameAccount.Request | programs/kaboom/src/vrf_mode.rs:420-431 | The request in place: the specified new state, or the specified error and no change |
| VrfGameAccount.GameAccount.Record | programs/kaboom/src/vrf_mode.rs:461-470 | The record takes the next slot of the array and answers the request |
| VrfGameAccount.GameAccount.Callback | programs/kaboom/src/vrf_mode.rs:455-480 | The callback in place over the array: the specified new state, or the specified error and no change |
| VrfGameAccount.GameAccount.TakeCashOut | programs/kaboom/src/vrf_mode.rs:484-496 | The cash-out in place: the specified new state, or the specified error and no change |
| VrfGameAccount.GameAccount.CheckSettlement | programs/kaboom/src/vrf_mode.rs:529-589 | The replay loop over the array returns the specified verdict or error on any contents |
| Ledger.Move | pinocchio/kaboom-p/src/helpers.rs:333-337 | A debit and credit on live balances keeps total lamports even when both ends are the same account, keeps the vault's rent, and fails exactly when the payer is short |
| Ledger.Fund | programs/kaboom/src/lib.rs:2305-2311 | Opening an account moves its rent from the payer and creates nothing |
| Ledger.Drain | programs/kaboom/src/vrf_mode.rs:830-843 | Closing an account returns every lamport of it and touches no vault money |
| Program.Kaboom.MoveLamports | pinocchio/kaboom-p/src/helpers.rs:333-337 | A debit and a credit on live balances, the same account at both ends included, or the specified error |
| Program.Kaboom.PayRakeback | programs/kaboom/src/vrf_mode.rs:660-706 | With a referrer and a passed account: the account must be the referrer's, who is paid their tier's cut capped by assets and gains accrual, volume and perhaps a tier; otherwise nothing moves |
| Program.Kaboom.PayTreasuryCut | programs/kaboom/src/vrf_mode.rs:708-734 | The treasury gets its part of the edge on the bet, capped by what is neither reserved nor being withdrawn |
| Program.Kaboom.EscrowBet | programs/kaboom/src/vrf_mode.rs:237-329 | The bet enters the vault and exactly the worst case priced is reserved, under both caps and the health floor, or the first failing check's error |
| Program.Kaboom.StartGameVrf | programs/kaboom/src/vrf_mode.rs:208-332 | With VRF mode open, a new round has its claim and its reveal account on the same terms, the bet escrowed and the worst case reserved |
| Program.Kaboom.DelegateVrf | programs/kaboom/src/vrf_mode.rs:372-416 | Only an undecided game without a pending reveal leaves L1, to the pinned validator, and what stays behind is a zeroed image |
| Program.Kaboom.RequestRevealVrf | programs/kaboom/src/vrf_mode.rs:420-450 | The session key locks one hidden tile of a game in play; nothing else changes |
| Program.Kaboom.RevealCallbackVrf | programs/kaboom/src/vrf_mode.rs:455-480 | The oracle's bytes are recorded and decide the locked tile: lost, cleared or one safe tile more |
| Program.Kaboom.CashOutVrf | programs/kaboom/src/vrf_mode.rs:484-496 | The session key ends a game in play with at least one safe tile as a win; no money moves |
| Program.Kaboom.CommitVrf | programs/kaboom/src/vrf_mode.rs:69-71 | L1 sees the live bytes while the game stays delegated |
| Program.Kaboom.UndelegateVrf | programs/kaboom/src/vrf_mode.rs:498-520 | The player or the session key brings the live game back to L1 unchanged |
| Program.Kaboom.SettleVrf | programs/kaboom/src/vrf_mode.rs:526-738 | A finished game whose records replay to its summary releases its reservation, pays player, referrer and treasury in that order, and closes both accounts; any failed check pays nobody |
| Program.Kaboom.RefundStalledVrf | programs/kaboom/src/vrf_mode.rs:767-844 | After the stall window an unfinished game on L1 gives its bet back, releases its reservation and closes both accounts, for the player or the house authority |
| Program.Kaboom.AdminReleaseVrfClaim | programs/kaboom/src/vrf_mode.rs:864-896 | After the abandon window the owner releases a reservation and returns the bet, as far as it is spare, to the player; the claim closes and the game stays |
| Program.Kaboom.StartGame | programs/kaboom/src/lib.rs:265-372 | A non-zero commitment opens a session with the bet escrowed and the worst case reserved |
| Program.Kaboom.RevealTile | programs/kaboom/src/lib.rs:375-442 | The authority reveals one tile of a live session: lost on a mine, else one more tile at the multiplier of the current edge, won when the board is cleared |
| Program.Kaboom.CashOutGame | programs/kaboom/src/lib.rs:445-499 | A session in play pays bet times multiplier at once and becomes won, its obligation left in place |
| Program.Kaboom.SettleGame | programs/kaboom/src/lib.rs:510-797 | Once the layout matches the commitment and every revealed tile, the obligation is released and both cuts are paid; the player is paid nothing |
| Program.Kaboom.RefundExpired | programs/kaboom/src/lib.rs:862-906 | An expired session gives its bet back once, capped by assets, and releases its obligation |
| Program.Kaboom.CloseGame | programs/kaboom/src/lib.rs:908-917 | An expired session, or a finished and settled one, is closed to its player |
| Program.Kaboom.CloseUnsettledGame | programs/kaboom/src/lib.rs:929-946 | A finished, never settled session is closed after its window, its obligation released |
| Program.Kaboom.FundVault | programs/kaboom/src/lib.rs:193-214 | A positive gift enters the vault and mints nothing |
| Program.Kaboom.LpDeposit | programs/kaboom/src/lib.rs:1415-1480 | The floored share is minted to the user for the amount, if the house's floor, the position cap and the health floor hold afterwards |
| Program.Kaboom.RequestWithdraw | programs/kaboom/src/lib.rs:1482-1515 | At most one request a user, for a positive part of the units, with its unlock slot |
| Program.Kaboom.CancelWithdraw | programs/kaboom/src/lib.rs:1517-1542 | Pending units return to the position and leave the pending total |
| Program.Kaboom.CompleteWithdraw | programs/kaboom/src/lib.rs:1544-1600 | After the cooldown the pending units are burnt for their floored share of assets |
| Program.Kaboom.HouseDeposit | programs/kaboom/src/lib.rs:1617-1652 | The owner's lamports mint their floored share to the house |
| Program.Kaboom.HouseRequestWithdraw | programs/kaboom/src/lib.rs:1654-1677 | House units become pending only if the house's floor holds without them |
| Program.Kaboom.HouseCancelWithdraw | programs/kaboom/src/lib.rs:1679-1692 | Pending house units return, all of them |
| Program.Kaboom.HouseCompleteWithdraw | programs/kaboom/src/lib.rs:1694-1728 | After the cooldown the owner is paid the floored share of the pending house units |
| Program.Kaboom.UnlockOperatorPosition | programs/kaboom/src/lib.rs:1043-1131 | All operator units are burnt for the smaller of their value and what is free, to an allowed, non-executable destination, with the health floor kept |
| Program.Kaboom.WithdrawToTreasury | programs/kaboom/src/lib.rs:949-1005 | At most assets go to an allowed, non-executable destination |
| Program.Kaboom.SetReferrer | programs/kaboom/src/lib.rs:222-262 | A player's referrer is set once, never to themselves, and has a record from then on |
| Program.Kaboom.ClaimReferral | programs/kaboom/src/lib.rs:800-828 | A referrer is paid the accrual, capped by what the record holds above its rent |
| Program.Kaboom.Transact | programs/kaboom/src/lib.rs:141-143 | A transaction of any kind leaves the ledger at the specified next state with the invariant intact, and a failed one leaves no trace |
| Program.Kaboom.Execute | programs/kaboom/src/lib.rs:141-143 | Any list of transactions executed in place is the specified run, and the invariant holds after it |
| Runs.Run | programs/kaboom/src/lib.rs:1854-1857 | Over every run total lamports are constant and a vault at its rent minimum stays there, whoever the recipients are |
| Runs.GenesisShares | programs/kaboom/src/lib.rs:1313-1348 | At the start a unit is a lamport, one SOL of them the seed and the rest the house's, with nothing pending or reserved and the default floors |
| Runs.StepKeepsReservations | programs/kaboom/src/vrf_mode.rs:28-31 | After every transaction of either mode `total_outstanding_max_payout` is the sum over open claims plus the sum over sessions playing or finished and unsettled: released exactly once, never saturating |
| Runs.StepKeepsUnits | programs/kaboom/src/lib.rs:1415-1728 | After every transaction total units are seed + house + house pending + every user's units and pending units, and total pending is the users' pending |
| Runs.StepKeepsConfig | programs/kaboom/src/lib.rs:1134-1187 | The bounds on edge, caps, split and health floor survive every transaction |
| Runs.StepKeepsRounds | programs/kaboom/src/vrf_mode.rs:284-308 | A player's claim and reveal account belong to the same round on the terms L1 wrote, across delegation, stale copies and undelegation |
| Runs.ReachableInv | programs/kaboom/src/lib.rs:1313-1348 | All of these hold in every state reachable from `initialize_v2` by any interleaving of the modelled transactions |
| Permits.StepSucceeds | programs/kaboom/src/vrf_mode.rs:208-896 | The instruction set's exact conditions: in every state of the invariant a transaction of any kind succeeds if and only if a table permits it, which reads signers, windows, statuses, caps, floors and amounts off the state in plain arithmetic |
| Admission.FloorIs | programs/kaboom/src/lib.rs:1893-1918 | The health check passes exactly when free assets times 10,000 reach the configured floor times assets, free meaning less what is reserved and what is being withdrawn; failing that inequality alone is the floor's error |
| Admission.StartExactly | programs/kaboom/src/vrf_mode.rs:208-332 | A round opens if and only if its terms, caps scaled by health, rents and stake are met and the vault stays at or above the floor with the full clear reserved; with all but the floor met, the answer is the floor's error |
| Admission.OpenExactly | programs/kaboom/src/lib.rs:265-372 | The same for a commit-reveal session |
| Admission.DepositExactly | programs/kaboom/src/lib.rs:1415-1480 | The same for a deposit, with the house's share, the user's cap and the floor on what it would leave |
| Admission.UnlockExactly | programs/kaboom/src/lib.rs:1043-1131 | The same for the operator's exit |
| Admission.EndsHealthy | programs/kaboom/src/lib.rs:1893-1918 | Each of these four, when it succeeds, ends at or above the configured floor |
| Admission.StartLeaves | programs/kaboom/src/vrf_mode.rs:284-329 | A round as opened: stake, full clear, terms and the current slot in the claim, the opening game beside it, the bet in assets and the full clear in the accumulator |
| Solvency.HealthyMeansSolvent | programs/kaboom/src/lib.rs:1893-1918 | Passing a non-zero health floor leaves assets strictly above everything reserved |
| Permits.SettingsTake | programs/kaboom/src/lib.rs:1134-1412 | A configuration call sets the fields it names, and leaves every other field, balance and account as it was |
| Admission.HouseInLeaves | programs/kaboom/src/lib.rs:1617-1652 | A house deposit's floored share goes to the house's own units |
| Solvency.ClaimCovered | programs/kaboom/src/vrf_mode.rs:322-329 | An open claim's bet is within its reservation, which is within the accumulator |
| Solvency.StepSolvent | programs/kaboom/src/vrf_mode.rs:591-632 | Every covered transaction keeps assets at or above what is reserved |
| Solvency.ReachableSolvent | programs/kaboom/src/vrf_mode.rs:322-329 | From `initialize_v2`, any interleaving of the covered transactions leaves vault assets at or above `total_outstanding_max_payout` |
| Settlement.LandedVerifies | programs/kaboom/src/vrf_mode.rs:529-589 | In every reachable state a finished round back under program ownership passes all of settle's checks with its own claim, and the replay agrees with the play |
| Backing.StepKeepsSessionsCovered | programs/kaboom/src/lib.rs:375-499 | After every transaction a commit-reveal session in play can be cashed out or refunded for no more than it reserved, whatever the edge becomes |
| Backing.DearestWithinWorstCase | programs/kaboom/src/lib.rs:1845-1850 | The dearest cash-out, one tile short of clearing and with no edge at all, is within the reservation made at any configurable edge |
| Backing.SettleCostsReservation | programs/kaboom/src/vrf_mode.rs:599-734 | Settling a VRF round costs assets at most its reservation, or leaves them above everything reserved |
| Backing.StepFunded | programs/kaboom/src/lib.rs:445-499 | Every transaction of both modes, the pool and the treasury whose asset-capped payments stay out of the reserve keeps assets at or above what can still be called on |
| Backing.ReachableFunded | programs/kaboom/src/lib.rs:1854-1857 | From `initialize_v2` with no old game in play, the same over every interleaving of both modes, lost rounds' referral cuts included |
| Backing.TreasuryOutSolvent | programs/kaboom/src/lib.rs:949-1005 | A treasury withdrawal leaves assets at or above the accumulator if and only if it asks for no more than is spare |
| Backing.CompletionSolvent | programs/kaboom/src/lib.rs:1544-1600 | A completed withdrawal does so if and only if what its units are worth is spare |
| Backing.HouseCompletionSolvent | programs/kaboom/src/lib.rs:1694-1728 | The same for the house |
| Backing.CashOutGoesThrough | programs/kaboom/src/lib.rs:445-499 | In a funded state a commit-reveal session cashes out if and only if it is in play with a tile revealed |
| Sessions.SessionPays | programs/kaboom/src/lib.rs:375-499 | A commit-reveal game opened in a state of the invariant, shown k safe tiles and cashed out pays exactly the bet's price at k tiles and the opening edge, with no other condition on the vault |
| Sessions.SessionCanExit | programs/kaboom/src/lib.rs:862-946 | From every state a session has a run that closes its account |
| Backing.ClearingPaysNothing | programs/kaboom/src/lib.rs:375-442 | Revealing the last safe tile finishes the session and moves no lamport |
| Backing.MineEndsSession | programs/kaboom/src/lib.rs:375-442 | A mine finishes it as lost, with the tile shown and no lamport moved |
| Backing.FinishedIsNeverPaid | programs/kaboom/src/lib.rs:445-455 | From then on, over every run until the session is closed, its cash-out and its refund are both refused |
| Settlement.ReferrerPays | programs/kaboom/src/vrf_mode.rs:660-706 | The referral step fails if and only if the account passed is not the referrer's own record, and costs the vault exactly the cut, capped by assets |
| Settlement.TreasuryPays | programs/kaboom/src/vrf_mode.rs:708-734 | The treasury step fails if and only if valuing the pending units overflows a u128 |
| Settlement.DueIsCovered | programs/kaboom/src/vrf_mode.rs:601-619 | In a funded vault L1 awards exactly the price of a landed round, within its reservation and within assets |
| Settlement.LandedSettles | programs/kaboom/src/vrf_mode.rs:526-738 | In a funded vault, whatever referral account is passed, a landed round settles if and only if that account fits the referrer's record and the treasury's valuation of pending units fits a u128: no verified winner is refused for insufficient funds |
| Referrals.StepKeepsRecords | programs/kaboom/src/lib.rs:222-262 | After every transaction each set referrer has a record under their own key |
| Referrals.ReachableSettles | programs/kaboom/src/vrf_mode.rs:660-738 | So in every funded reachable state a landed round settles if and only if the referral account is the referrer's address and the treasury's valuation fits |
| Referrals.ReferOpens | programs/kaboom/src/lib.rs:222-262 | Setting a referrer opens an empty record under their key, or claims one that was nobody's at the lowest tier with what it had earned; nobody else's record changes |
| Referrals.ReferrerIsForever | programs/kaboom/src/lib.rs:222-262 | Once set, a player's referrer never changes, over any run |
| Referrals.SettleCredits | programs/kaboom/src/vrf_mode.rs:660-706 | A settlement credits the referrer's record with exactly the cut paid and the bet, at the level its volume then reaches, and no other record with anything |
| Accruals.AccrualsConserved | programs/kaboom/src/lib.rs:800-828 | Over any run what a record owes at the end and what was claimed on the way add up to what it owed before and the cuts earned, and its own account holds that above its rent throughout |
| Accruals.ClaimOwesTheRest | programs/kaboom/src/lib.rs:800-828 | Where the account is short, a claim leaves exactly what it did not pay, and no other field changes |
| Accruals.OpenedHeld | programs/kaboom/src/lib.rs:222-262 | A record's first player opens it empty, with its account at rent |
| Accruals.ClaimPaysAll | programs/kaboom/src/lib.rs:800-828 | So a claim pays the referrer everything accrued and leaves nothing owed |
| Payments.StepBalances | programs/kaboom/src/vrf_mode.rs:601-734 | After any transaction that succeeds, every account of the ledger holds exactly what a table in plain arithmetic says: stakes, prizes, cuts, shares, rents and closes, aliased accounts included |
| Payments.TreasuryReceives | programs/kaboom/src/vrf_mode.rs:708-734 | Settling a round pays a treasury that is no party to it exactly the smaller of its part of the edge and what obligations and pending units leave free, and costs the vault exactly the price and both cuts |
| Payments.TreasuryReceivesProof | programs/kaboom/src/lib.rs:711-746 | The same for a commit-reveal settlement, which pays the player nothing |
| Payments.OnlyPayeesGain | programs/kaboom/src/lib.rs:949-1005 | No transaction leaves any account richer but those it is for; the operator's payments can only reach the allowlist |
| Payments.UnpaidNeverGrows | programs/kaboom/src/lib.rs:949-1005 | Over any run an account that is nobody's payee never grows |
| Settlement.WinnerReceives | programs/kaboom/src/vrf_mode.rs:617-631 | After settling, with any referral account, the player's wallet has gained the payout and the rent of both closed accounts: exactly that when the treasury is not one of the player's accounts, never less when it is |
| Counterexamples.AWinnerIsStuck | programs/kaboom/src/vrf_mode.rs:708-734 | A run from `initialize_v2` (one lamport left by treasury withdrawals, a large deposit, a pending tenth, a gift) reaches a solvent state with a verified winner whose settlement is refused |
| Finality.LossIsRefused | programs/kaboom/src/vrf_mode.rs:354-390 | Wherever a lost game is, it cannot be delegated, clicked, called back, cashed out or refunded, although a zero-filled copy reads as playing |
| Finality.StepKeepsLoss | programs/kaboom/src/vrf_mode.rs:742-810 | Every transaction leaves a loss unchanged or ends it by settling for nothing or by an owner's release after the abandon window |
| Finality.LossIsFinal | programs/kaboom/src/vrf_mode.rs:354-390 | The same over whole runs, for every player and every interleaving |
| Finality.ImageIsLastCommit | programs/kaboom/src/vrf_mode.rs:69-71 | L1's copy of a game that is away is blank from the hand-off on and the live game of the last commit from then on, over any run without a further commit or the game's return |
| Authority.PlaceKeepsGame | programs/kaboom/src/vrf_mode.rs:372-520 | Delegation, commits and undelegation change where a game is and nothing of the game |
| Finality.ReleaseStrands | programs/kaboom/src/vrf_mode.rs:892-895 | An owner's release leaves the reveal account without a claim |
| Finality.ReleasedPlayerIsLockedOut | programs/kaboom/src/vrf_mode.rs:892-895 | From then on no run lets that player open another VRF round |
| Depletion.MidSteps | programs/kaboom/src/vrf_mode.rs:420-520 | Play, commits, undelegation, configuration and time move no vault money and no claim |
| Depletion.StartEffect | programs/kaboom/src/vrf_mode.rs:242-266 | A game opened under a payout ceiling q adds its bet to assets and reserves at most q / BPS of the assets before it |
| Depletion.CutsWithinBet | programs/kaboom/src/lib.rs:84-86 | The largest referral cut and the largest treasury cut together never exceed the bet |
| Depletion.SettleCost | programs/kaboom/src/vrf_mode.rs:599-734 | Settling costs the vault at most the reservation and the bet it already holds, both cuts included |
| Depletion.RoundsDeplete | programs/kaboom/src/vrf_mode.rs:242-266 | Over n rounds of any stakes and outcomes A_n * BPS^n >= A_0 * (BPS - q)^n |
| Pricing.StepPrice | programs/kaboom/src/lib.rs:1861-1883 | No deposit, withdrawal, donation or operator exit lowers assets per unit, and the price stays put if and only if the floor division is exact |
| Pricing.UnlockMoves | programs/kaboom/src/lib.rs:1071-1084 | The operator's exit burns all its units and pays the smaller of their value and what is free of obligations and pending withdrawals |
| Pricing.RunPrice | programs/kaboom/src/lib.rs:1415-1480 | Over any run with units outstanding throughout, assets per unit never falls |
| Pricing.OwnStepValue | programs/kaboom/src/lib.rs:1415-1600 | A group's own transaction never leaves its share above what it was plus what went in less what came out |
| Pricing.OutsiderStepValue | programs/kaboom/src/lib.rs:1861-1883 | An outsider's transaction never lowers a group's share, and leaves it unchanged if and only if its division is exact or the group holds no units |
| Pricing.StepLeaves | programs/kaboom/src/lib.rs:1861-1883 | Exactly: each pool transaction raises the price of the units it finds and leaves standing by the remainder of its floor division, a gift, or what the operator's exit was capped by |
| Pricing.OutsiderLeaves | programs/kaboom/src/lib.rs:1861-1883 | A group gains from an outsider's transaction at most what that transaction leaves |
| Pricing.LeftIsSmall | programs/kaboom/src/lib.rs:1861-1883 | A rounded deposit leaves at most the price of one unit, a rounded withdrawal less than one lamport |
| Pricing.GroupCannotProfit | programs/kaboom/src/lib.rs:1415-1728 | No arbitrage, over any run of pool transactions with units throughout: a group takes out and still holds at most its initial value, what it and the donors put in, and what the outsiders' roundings left |
| Pricing.RoundingIsSmall | programs/kaboom/src/lib.rs:1861-1883 | Without an outside operator's exit that last sum is at most one lamport a withdrawal and the final unit price a deposit |
| Pricing.NothingLeft | programs/kaboom/src/lib.rs:1861-1883 | It is zero when the outsiders' divisions are exact |
| Counterexamples.RoundedDepositEnriches | programs/kaboom/src/lib.rs:1415-1480 | It cannot be dropped: in a run from `initialize_v2` (a gift of one lamport, a deposit of ten million) the operator, who does nothing, ends above its initial value and the gift |
| TimeLocks.NoEarlyWithdrawal | programs/kaboom/src/lib.rs:1498-1501 | Over every run in which a request stays pending, whatever happens meanwhile, it is for exactly the units asked for and cannot complete before the slot it was asked at plus the cooldown then in force |
| TimeLocks.NoEarlyHouseWithdrawal | programs/kaboom/src/lib.rs:1654-1728 | The same for the house's units |
| Withdrawals.UserIsPaid | programs/kaboom/src/lib.rs:1544-1600 | A pending withdrawal completes if and only if its cooldown is over and its valuation fits a u128: no total underflows and the vault is never short of it |
| Withdrawals.HouseIsPaid | programs/kaboom/src/lib.rs:1694-1728 | The same for the house's pending withdrawal |
| Withdrawals.RequestSucceeds | programs/kaboom/src/lib.rs:1482-1515 | A request succeeds if and only if none is pending and it asks for a positive part of the user's units |
| Withdrawals.CancelUndoesRequest | programs/kaboom/src/lib.rs:1517-1542 | A cancellation restores the ledger the request found, up to the unlock slot |
| Withdrawals.HouseCancelUndoesRequest | programs/kaboom/src/lib.rs:1679-1692 | The same for the house |
| Withdrawals.CompletionPays | programs/kaboom/src/lib.rs:1544-1600 | A completed withdrawal burns exactly the pending units and moves exactly their floored share of assets from the vault to that user's wallet |
| Withdrawals.InAndOutCosts | programs/kaboom/src/lib.rs:1415-1600 | Round trip, for a first or a later deposit: taken straight out again it never profits, costs less than one unit's price and a lamport beyond a first position's rent, leaves total units and the user's other units as they were, and the pool richer by exactly the cost |
| TimeLocks.RefundExactly | programs/kaboom/src/vrf_mode.rs:767-810 | In a funded state an open claim's bet is given back if and only if the stall window is over, the game is on L1 and unfinished, and the caller is the player, or the house authority while nothing was revealed or asked |
| TimeLocks.NoEarlyRefund | programs/kaboom/src/vrf_mode.rs:776-780 | Over every run after a round's start in which its claim stays open: no refund within 25 slots of the start, and no owner's release within 216,000 |
| TimeLocks.SessionWindows | programs/kaboom/src/lib.rs:375-946 | Over every run in which a session stays open: tiles only within 300 slots of its start, a refund only after them, no cleanup within 38, and a settlement only against the commitment and mine count it was opened with |
| Authority.StrangersCannotTouch | programs/kaboom/src/vrf_mode.rs:498-510 | Over every run without a signature of the player or the session key, a game in the rollup stays there, changes by one answer to a pending request at most, and keeps its claim unless the owner releases it |
| Liveness.RefundGoesThrough | programs/kaboom/src/vrf_mode.rs:767-844 | In a funded state a player's refund of an unfinished game on L1 succeeds once the stall window is over, and closes the claim |
| Liveness.PlayerCanExit | programs/kaboom/src/vrf_mode.rs:742-766 | From every funded state of the invariant a player with an open claim has a run of their own transactions (undelegate, then settle, or wait and refund) that ends it |
| Example.AWinIsPaid | programs/kaboom/src/vrf_mode.rs:7-27 | A concrete run from `initialize_v2` through configuration, start, delegation, click, callback and undelegation meets the hypotheses above, lands as a win, and settles |
| HouseFloor.UsersAreCounted | programs/kaboom/src/lib.rs:1885-1891 | `user_units_total` never fails and is the sum over users' positions |
| HouseFloor.StepKeepsFloor | programs/kaboom/src/lib.rs:1920-1942 | Every transaction except the operator's exit and a raise of the floor keeps the house's share |
| HouseFloor.ReachableFloor | programs/kaboom/src/lib.rs:1458-1460 | From `initialize_v2`, every run without those two keeps house_units * BPS >= min_house_share_bps * (house_units + user units) |
| HouseFloor.UnlockDropsFloor | programs/kaboom/src/lib.rs:1087-1097 | After the operator's exit the floor holds if and only if it is zero or no user holds units |
| RpcGate.NeverBoth | apps/realtime/src/index.ts:359-364 | No method is both a subscribe and an unsubscribe |
| RpcGate.NoteKeepsSound | apps/realtime/src/index.ts:335-366 | Any upstream message, honest or not, keeps pendingSubs equal to the Subscribe calls in flight and both caps |
| RpcGate.ScreenMeaning | apps/realtime/src/index.ts:428-451 | The one-pass loop clears a batch if and only if every call is allowlisted, every subscribe matchable, every id new to the connection and the batch, and the subscription cap holds, and then returns exactly its ids and its subscribes |
| RpcGate.TrackAllCounts | apps/realtime/src/index.ts:466-474 | A cleared batch adds exactly its ids to the calls in flight and exactly its subscribes to pendingSubs |
| RateLimit.AcceptedExactly | apps/realtime/src/index.ts:403-464 | After any history, a frame is accepted if and only if it conforms (size, batch, allowlist, ids, caps) and, in every window since the connection opened, the calls accepted and this frame's stay within 40 plus 12 a second: the token bucket without tokens |
| Refusals.RefusalNamesTheFault | apps/realtime/src/index.ts:403-464 | A refusal names nobody's id for the frame itself, and otherwise the first call at fault with that call's own fault; with none at fault only a limit on the first call's id is left |
| Refusals.ClosesExactly | apps/realtime/src/index.ts:368-499 | A connection ends exactly when a socket goes, the client stops reading, a send fails, or a 51st frame waits for upstream |
| RpcGate.RefusedChangesNothing | apps/realtime/src/index.ts:403-464 | A refused frame or batch changes no accounting, forwards nothing and costs no token |
| RpcGate.RunKeepsInv | apps/realtime/src/index.ts:327-366 | Under every interleaving of client frames, arbitrary upstream messages and socket failures pendingSubs counts the Subscribe calls in flight, subs + pendingSubs <= 32 and calls in flight <= 50 |
| RpcGate.ForwardedInOrder | apps/realtime/src/index.ts:476-489 | Until the connection closes, upstream has received the accepted frames in order, up to those still held |
| RpcGate.RateBound | apps/realtime/src/index.ts:457-464 | In any window of d seconds at most 40 + 12 * d calls are accepted, whatever came before |
| Upstream.ActAgrees | apps/realtime/src/index.ts:327-366 | Each step of the gate, the channel and an answering upstream keeps the gate's eventual beliefs covering what upstream holds |
| Upstream.UpstreamHoldsAtMost32 | apps/realtime/src/index.ts:194-195 | An upstream that answers what it was asked never holds more than 32 subscriptions for a connection, unopened requests included, under any interleaving |
| Upstream.QuietMeansExact | apps/realtime/src/index.ts:327-331 | Once the channel is quiet, and if every unsubscribe carried an id, the gate's set is upstream's set |
| Upstream.ConnectionForwards | apps/realtime/src/index.ts:403-489 | The connection is this gate: a frame it accepts is one the gate may forward and is accounted for as forwarded, and a refused one is not accounted for |
| Upstream.ConnectionDelivers | apps/realtime/src/index.ts:376-385 | A message from upstream is noted whenever the client is there to read it |
| RpcConnection.Connection.constructor | apps/realtime/src/index.ts:327-391 | A new connection has a full bucket and nothing in flight |
| RpcConnection.Connection.ScreenBatch | apps/realtime/src/index.ts:428-451 | The first loop returns the specified screening |
| RpcConnection.Connection.TrackBatch | apps/realtime/src/index.ts:466-474 | The second loop leaves the specified accounting |
| RpcConnection.Connection.RpcError | apps/realtime/src/index.ts:393-402 | A refusal carries the request's id and code, and closes the connection of a client that stopped reading |
| RpcConnection.Connection.OnClientMessage | apps/realtime/src/index.ts:403-489 | The handler in place: the specified connection and verdict for every frame, a failing send included |
| RpcConnection.Connection.NoteUpstream | apps/realtime/src/index.ts:335-366 | The loop over upstream messages leaves the specified accounting |
| RpcConnection.Connection.OnUpstreamMessage | apps/realtime/src/index.ts:376-385 | Upstream messages are accounted for and passed on, unless the client stopped reading or the send fails: then the connection closes |
| RpcConnection.Connection.OnUpstreamOpen | apps/realtime/src/index.ts:322-326 | The flush sends what was held, in order, and holds nothing |
| RpcConnection.Connection.On | apps/realtime/src/index.ts:322-489 | After any event the connection is the specified one and its accounting is sound |
| LogScan.ParseInvokeMeaning | packages/sdk/src/events.ts:12-12 | The parser accepts a line with an id if and only if the invoke pattern matches it with that id |
| LogScan.IsEndMeaning | packages/sdk/src/events.ts:14-14 | The end test accepts a line if and only if the end pattern matches it |
| LogScan.ExtractEventsFromLogs | packages/sdk/src/events.ts:569-608 | The loop with its stack returns the specified scan of any lines |
| LogScan.ScanInvertsPrint | packages/sdk/src/events.ts:569-608 | Over the printed lines of any forest of calls the scan returns exactly the decodable payloads emitted while the wanted program was innermost, in order, and restores the stack |
| LogScan.LogsGiveEvents | packages/sdk/src/events.ts:569-608 | The same for a whole transaction from an empty stack |
| LogOrigin.EventsComeFromInside | packages/sdk/src/events.ts:569-608 | For every sequence of lines, cut, unbalanced or forged: the events are exactly the decodable payloads of the data lines whose innermost open call is the wanted program's, openness by bracket matching over the lines and without a stack |
| LogScan.TruncatedLogsGivePrefix | packages/sdk/src/events.ts:569-608 | A log cut off anywhere yields a prefix of the events |
| LogScan.DataLineIsData | packages/sdk/src/events.ts:10-14 | A data line never reads as an invoke or an end, and its payload is read back |
| LogScan.LogLinesAreNeutral | packages/sdk/src/events.ts:561-567 | Whatever text a program logs through `Program log:`, its line opens no call, closes none and is no data line |
| LogScan.ConsumedLinesAreNeutral | packages/sdk/src/events.ts:10-14 | Compute-unit lines are neutral, although they name a program |
| LogScan.ReturnLinesAreNeutral | packages/sdk/src/events.ts:10-14 | Return-data lines are neutral |
| Dedup.SignatureCache.Remember | apps/realtime/src/alchemy-logs.ts:85-94 | In place: the specified set, list and answer |
| Dedup.RememberHolds | apps/realtime/src/alchemy-logs.ts:85-94 | The list is the last 256 accepted signatures without duplicates, the set is the list plus an empty string once accepted, and the answer follows from the history alone |
| Dedup.AnswersFollowHistory | apps/realtime/src/alchemy-logs.ts:82-94 | For every sequence of signatures all answers follow from the history |
| Dedup.CacheIsWindow | apps/realtime/src/alchemy-logs.ts:82-94 | On non-empty signatures the cache is the sliding window of the last 256 accepted |
| Dedup.DiffersFromWindow | apps/realtime/src/alchemy-logs.ts:90-91 | An answer differs from the window's if and only if the signature is empty, was accepted, and has left the window |
| Dedup.EmptyIsNeverForgotten | apps/realtime/src/alchemy-logs.ts:90-91 | That case is reached: an empty signature and 256 others |

## Left out

- Solvency.StepSolvent: covers the steps that keep the whole accumulator backed; `Backing.StepFunded` adds the commit-reveal mode and the asset-capped steps, against what can still be called on.
- Solvency.ReachableSolvent: the same, with `Backing.ReachableFunded`.
- Backing.ReachableFunded: asset-capped payments that dig into the reserve are outside, since the program permits them; `TreasuryOutSolvent`, `CompletionSolvent` and `HouseCompletionSolvent` give their exact conditions.
- Pricing.GroupCannotProfit: is about pool transactions; games and treasury withdrawals move the price both ways and are not among its steps.
- Permits.StepSucceeds: takes sessions from before `initialize_v2` to hold bets of a u64, as the account does.
- Sessions.SessionPays: takes the current slot to fit a u64, as the clock's does.
- RoundRun.RoundPaysPathOnLedger: takes a treasury that is not one of the player's own accounts, pending units that can be priced, and nobody else acting between the player's transactions.
- Liveness.PlayerCanExit: takes undelegation to be answered, and pending units that can be priced where the round is finished; a rollup that never gives the game back leaves only the owner's release.
- Upstream.UpstreamHoldsAtMost32: needs an upstream that answers each request once; against an arbitrary one only the gate's own counts are bounded.
- `admin_close_orphaned_game_v2`: a one-off cleanup read from raw bytes.
- Fairness of the commit-reveal mode, whose layout the server draws, and `repair_referral`.
- Player statistics, vault counters and events, which no handler reads back.
- Ownership transfer and the allowlist setters.
- Account validation, derived addresses, discriminators, signatures, SHA-256, the oracle's proof and the delegation program's internals. A failure inside the runtime's own transfer or account creation is one of this model's errors.
- Each live game in `Program` is kept as a value and loaded into the array form for the steps that write it, so aliasing of two references to one game is not captured.
- The Pinocchio instruction handlers; its shared arithmetic is the same as the functions modelled.
- JSON parsing, heartbeats, and what a client is sent back besides a refusal's id and code.
- Base-64 and event decoding, reconnect timers, SDK builders, the web app and scripts.
