/**
 Both game modes against the money behind them: every obligation that can still be called on stays
 backed by assets, so no cash-out is refused, and a cleared commit-reveal board is never paid at all.
 */
module Backing {
  import opened Prelude
  import opened Arith
  import opened Sums
  import opened Odds
  import opened Reveal
  import opened Ledger
  import opened Handlers
  import opened Runs
  import opened Solvency

  // ---------------------------------------------------------------- what a session can cost

  lemma {:induction false} RawMono(n: nat, s: nat, s': nat, m: nat)
    requires s <= s' && s' + m <= n
    ensures RawBps(n, s, m) <= RawBps(n, s', m)
    decreases s' - s
  {
    if s < s' {
      RawMonoInSafe(n, s, m);
      RawMono(n, s + 1, s', m);
    }
  }

  /** The last safe tile at least doubles the odds. */
  lemma LastTileDoubles(n: nat, m: nat)
    requires 1 <= m < n
    ensures 2 * RawBps(n, n - m - 1, m) <= RawBps(n, n - m, m)
  {
    var s := n - m - 1;
    var num, den := BPS * Falling(n, s), Falling(n - m, s);
    FallingPositive(n - m, s);
    DivBounds(num, den);
    MulMono(2, m + 1, num);
    assert Falling(n - m, s + 1) == den * 1;
    assert BPS * Falling(n, s + 1) == num * (m + 1) by { MulAssoc(BPS, Falling(n, s), m + 1); }
    MulAssoc(2, RawBps(n, s, m), den);
    DivAtLeast(2 * RawBps(n, s, m), num * (m + 1), den);
  }

  /** The dearest cash-out, one tile short of clearing: within the reservation at any later edge. */
  function Dearest(bet: nat, mines: nat): nat
    requires mines < GRID_SIZE
  {
    bet * RawBps(GRID_SIZE, GRID_SIZE - 1 - mines, mines) / BPS
  }

  lemma DearestWithinWorstCase(bet: nat, mines: nat, edge: nat)
    requires MIN_MINES <= mines <= MAX_MINES && edge <= MAX_HOUSE_EDGE_BPS && WorstCasePayout(bet, mines, edge).Ok?
    ensures Dearest(bet, mines) <= WorstCasePayout(bet, mines, edge).value
  {
    var top := GRID_SIZE - mines;
    var raw := RawBps(GRID_SIZE, top - 1, mines);
    LastTileDoubles(GRID_SIZE, mines);
    MulMono2(2 * raw, RawBps(GRID_SIZE, top, mines), 9_000, BPS - edge);
    DivAtLeast(raw, RawBps(GRID_SIZE, top, mines) * (BPS - edge), BPS);
    PaysMore(bet, raw, Multiplier(GRID_SIZE, top, mines, edge));
  }

  lemma CashOutWithinDearest(bet: nat, safe: nat, mines: nat, edge: nat)
    requires 1 <= safe && safe + mines < GRID_SIZE && edge <= BPS
    ensures Payout(bet, safe, mines, edge) <= Dearest(bet, mines)
  {
    var raw := RawBps(GRID_SIZE, safe, mines);
    MulMono(BPS - edge, BPS, raw);
    DivAtMost(raw, raw * (BPS - edge), BPS);
    RawMono(GRID_SIZE, safe, GRID_SIZE - 1 - mines, mines);
    PaysMore(bet, Multiplier(GRID_SIZE, safe, mines, edge), RawBps(GRID_SIZE, GRID_SIZE - 1 - mines, mines));
  }

  /** A session in play can be cashed out or refunded for no more than it reserved, whatever the edge becomes. */
  predicate SessionCovered(s: State, p: Id) {
    p in s.sessions && s.sessions[p].status == Playing ==>
      var g := s.sessions[p];
      && MIN_MINES <= g.mines <= MAX_MINES && g.safe + g.mines < GRID_SIZE
      && g.bet <= g.maxPayout && g.bet * g.mult / BPS <= g.maxPayout && Dearest(g.bet, g.mines) <= g.maxPayout
  }

  ghost predicate SessionsCovered(s: State) {
    forall p | p in s.sessions :: SessionCovered(s, p)
  }

  lemma OpenCovered(s: State, p: Id, mines: nat, bet: nat, commitment: Digest)
    requires ConfigSound(s) && StartGame(s, p, mines, bet, commitment).Ok?
    ensures SessionCovered(StartGame(s, p, mines, bet, commitment).value, p)
  {
    hide FundRound, EnsureStats, Fund, Move, Reserve, Assets, WorstCasePayout, SessionEffect, CalcHealth, Dearest;
    WorstCaseCoversBet(bet, mines, s.vault.edge);
    DearestWithinWorstCase(bet, mines, s.vault.edge);
    assert bet * BPS / BPS == bet;
  }

  lemma TileCovered(s: State, p: Id, tile: nat, isMine: bool)
    requires ConfigSound(s) && SessionCovered(s, p) && RevealTile(s, p, tile, isMine).Ok?
    ensures SessionCovered(RevealTile(s, p, tile, isMine).value, p)
  {
    hide Multiplier, Dearest, SessionEffect;
    var g := s.sessions[p];
    if !isMine && g.safe + 1 + g.mines < GRID_SIZE {
      CashOutWithinDearest(g.bet, g.safe + 1, g.mines, s.vault.edge);
    }
  }

  lemma SessionStepCovered(s: State, step: SessionStep)
    requires ConfigSound(s) && SessionCovered(s, step.player) && ApplySession(s, step).Ok?
    ensures SessionCovered(ApplySession(s, step).value, step.player)
  {
    hide StartGame, RevealTile, Move, Drain, Assets, MulDivFloor, PayReferrer, PayTreasury, CalcHealth, CheckLayout;
    hide Dearest, SessionEffect;
    match step {
      case Open(p, m, b, c) => OpenCovered(s, p, m, b, c);
      case Tile(p, t, m) => TileCovered(s, p, t, m);
      case _ =>
    }
  }

  lemma StepKeepsSessionsCovered(s: State, step: Step)
    requires ConfigSound(s) && SessionsCovered(s)
    ensures SessionsCovered(Next(s, step))
  {
    hide ApplyVrf, ApplySession, ApplyLp, ApplyHouse, ApplyAdmin, MoneyKept, Dearest;
    var t := Next(s, step);
    if Apply(s, step).Ok? && step.Legacy? {
      var p := step.g.player;
      assert SessionCovered(s, p);
      SessionStepCovered(s, step.g);
      forall q | q in t.sessions
        ensures SessionCovered(t, q)
      {
        if q != p {
          Elsewhere(s.sessions, t.sessions, p, q);
        }
      }
    }
  }

  // ---------------------------------------------------------------- the payable total, entry by entry

  function ClaimDue(s: State, p: Id): nat {
    if p in s.claims then s.claims[p].reserved else 0
  }

  function SessionDue(s: State, p: Id): nat {
    if p in s.sessions then PayableOf(p, s.sessions[p]) else 0
  }

  lemma RoundMovesPayable(s: State, t: State, p: Id)
    requires t.claims - {p} == s.claims - {p} && t.sessions == s.sessions
    ensures Payable(t) + ClaimDue(s, p) == Payable(s) + ClaimDue(t, p)
  {
    SumChange(s.claims, t.claims, ReservedOf, p);
  }

  lemma SessionMovesPayable(s: State, t: State, p: Id)
    requires t.sessions - {p} == s.sessions - {p} && t.claims == s.claims
    ensures Payable(t) + SessionDue(s, p) == Payable(s) + SessionDue(t, p)
  {
    SumChange(s.sessions, t.sessions, PayableOf, p);
  }

  // ---------------------------------------------------------------- the steps

  /** `amount` can leave the vault without touching what is reserved. */
  predicate Spare(s: State, amount: nat) {
    amount + s.v2.outstanding <= Assets(s.lamports)
  }

  /** What `units` are worth now, nothing where they cannot be priced. */
  function Worth(s: State, units: nat): nat {
    var out := UnitsToAssets(units, Assets(s.lamports), s.v2.totalUnits);
    if out.Ok? then out.value else 0
  }

  /** The referrer's cut of a bet, nothing where there is none to pay. */
  function CutDue(referrals: map<Id, Referral>, referrer: Option<Id>, passed: Option<Account>, bet: nat): nat {
    if referrer.None? || passed.None? || referrer.value !in referrals then 0
    else bet * CutBps(referrals[referrer.value].tier) / BPS
  }

  predicate CutIsSpare(s: State, p: Id, passed: Option<Account>, bet: nat) {
    NoRakeback(s, p, passed) || Spare(s, CutDue(s.referrals, s.stats[p], passed, bet))
  }

  /**
   Every step of both modes and of the pool, where what the program caps by assets alone stays out of the
   reserve: withdrawals, treasury payments, and a referral cut unless the bet of a lost VRF round pays it.
   */
  predicate Backed(s: State, step: Step) {
    match step
    case Vrf(Settle(p, referral)) =>
      p in s.claims && p in s.games ==> s.games[p].game.status == VRF_LOST || CutIsSpare(s, p, referral, s.claims[p].bet)
    case Legacy(Prove(p, _, _, referral)) => p in s.sessions ==> CutIsSpare(s, p, referral, s.sessions[p].bet)
    case Lp(CompleteOut(u)) => u in s.positions ==> Spare(s, Worth(s, s.positions[u].pending))
    case House(HouseComplete) => Spare(s, Worth(s, s.v2.housePending))
    case House(TreasuryOut(_, _, amount)) => Spare(s, Min(amount, Assets(s.lamports)))
    case _ => true
  }

  predicate AllBacked(s: State, steps: seq<Step>)
    decreases |steps|
  {
    steps == [] || ((Apply(s, steps[0]).Ok? ==> Backed(s, steps[0])) && AllBacked(Next(s, steps[0]), steps[1..]))
  }

  /** A step that leaves assets above the whole accumulator leaves everything payable. */
  lemma SolventAfter(s: State, step: Step)
    requires Inv(s) && Solvent(Next(s, step))
    ensures Funded(Next(s, step))
  {
    hide Inv, Next, Solvent, Funded;
    StepKeepsInv(s, step);
    SolventIsFunded(Next(s, step));
  }

  /** Paying the referrer costs at most the cut due, which is part of the bet. */
  lemma CutWithinBet(l: Lamports, referrals: map<Id, Referral>, referrer: Option<Id>, passed: Option<Account>, bet: nat)
    requires PayReferrer(l, referrals, referrer, passed, bet).Ok?
    ensures var l' := PayReferrer(l, referrals, referrer, passed, bet).value.lamports;
            && Assets(l) <= Assets(l') + CutDue(referrals, referrer, passed, bet)
            && (referrer.None? || passed.None? ==> l' == l)
    ensures CutDue(referrals, referrer, passed, bet) <= bet
  {
    hide MoneyKept;
    if referrer.Some? && passed.Some? && referrer.value in referrals {
      var bps := CutBps(referrals[referrer.value].tier);
      MulMono(bps, BPS, bet);
      DivAtMost(bet, bet * bps, BPS);
    }
  }

  /** Settling costs at most the reservation, or leaves assets above the whole accumulator. */
  lemma SettleCostsReservation(s: State, p: Id, referral: Option<Account>)
    requires Inv(s) && Funded(s) && SettleVrf(s, p, referral).Ok? && Backed(s, Vrf(Settle(p, referral)))
    ensures var t := SettleVrf(s, p, referral).value;
            Assets(s.lamports) <= Assets(t.lamports) + s.claims[p].reserved || Solvent(t)
  {
    hide Verify, Award, PayTreasury, PayReferrer, Inv, RoundEffect, Written, MoneyKept, Funded, CutDue;
    var c, v2' := s.claims[p], Release(s.v2, s.claims[p].reserved);
    ClaimCovered(s, p);
    SettlementSound(c, s.games[p].game);
    var verdict := Verify(c, s.games[p].game).value;
    var payout := Award(c, verdict).value;
    LostVerdict(c, s.games[p].game);
    var l1 := Move(s.lamports, VaultPda, Wallet(p), payout).value;
    CutWithinBet(l1, s.referrals, s.stats[p], referral, c.bet);
  }

  lemma LostVerdict(c: Claim, g: VrfGame)
    requires Verify(c, g).Ok?
    ensures Verify(c, g).value.lost <==> g.status == VRF_LOST
  {
    hide Replay, CalcMultiplier;
  }

  lemma SettleFunded(s: State, p: Id, referral: Option<Account>)
    requires Inv(s) && Funded(s) && SettleVrf(s, p, referral).Ok? && Backed(s, Vrf(Settle(p, referral)))
    ensures Funded(SettleVrf(s, p, referral).value)
  {
    hide Inv, SettleVrf, Backed, Payable, Assets;
    var t := SettleVrf(s, p, referral).value;
    SettleCostsReservation(s, p, referral);
    SettleEnds(s, p, referral);
    if Solvent(t) {
      assert Next(s, Vrf(Settle(p, referral))) == t by { hide MoneyKept; }
      SolventAfter(s, Vrf(Settle(p, referral)));
    } else {
      RoundMovesPayable(s, t, p);
    }
  }

  lemma SettleEnds(s: State, p: Id, referral: Option<Account>)
    requires SettleVrf(s, p, referral).Ok?
    ensures p in s.claims && p !in SettleVrf(s, p, referral).value.claims
  {
    hide Verify, Award, PayRound, Drain, RoundEffect;
  }

  /** A refund or a release gives back the bet at most, and drops the whole reservation. */
  lemma BetBackFunded(s: State, step: VrfStep)
    requires Inv(s) && Funded(s) && (step.Refund? || step.AdminRelease?) && ApplyVrf(s, step).Ok?
    ensures Funded(ApplyVrf(s, step).value)
  {
    hide Inv, Written, RoundEffect, Drain, MoneyKept, Payable, CheckStalled, StartGameVrf, SettleVrf;
    var t := ApplyVrf(s, step).value;
    ClaimCovered(s, step.player);
    assert step.player !in t.claims;
    RoundMovesPayable(s, t, step.player);
  }

  lemma PlayFunded(s: State, step: VrfStep)
    requires Funded(s) && ApplyVrf(s, step).Ok?
    requires step.Delegate? || step.Request? || step.Callback? || step.TakeWin? || step.Commit? || step.Undelegate?
    ensures Funded(ApplyVrf(s, step).value)
  {
    hide RoundEffect, MoneyKept, RequestReveal, RevealCallback, CashOut, CheckDelegable, StartGameVrf, SettleVrf;
    hide RefundStalledVrf, AdminReleaseVrfClaim, Assets;
  }

  lemma VrfFunded(s: State, step: VrfStep)
    requires Inv(s) && Funded(s) && Backed(s, Vrf(step)) && ApplyVrf(s, step).Ok?
    ensures Funded(ApplyVrf(s, step).value)
  {
    hide Inv, Funded, Solvent, StartGameVrf, SettleVrf, Backed, RefundStalledVrf, AdminReleaseVrfClaim, RoundEffect;
    hide DelegateVrf, RequestRevealVrf, RevealCallbackVrf, CashOutVrf, CommitVrf, UndelegateVrf;
    match step {
      case Start(p, k, m, b) =>
        StartSolvent(s, p, k, m, b);
        SolventAfter(s, Vrf(step));
      case Settle(p, referral) => SettleFunded(s, p, referral);
      case Refund(_, _) => BetBackFunded(s, step);
      case AdminRelease(_) => BetBackFunded(s, step);
      case _ => PlayFunded(s, step);
    }
  }

  // ---------------------------------------------------------------- commit-reveal steps

  lemma OpenSolvent(s: State, p: Id, mines: nat, bet: nat, commitment: Digest)
    requires Inv(s) && StartGame(s, p, mines, bet, commitment).Ok?
    ensures Solvent(StartGame(s, p, mines, bet, commitment).value)
  {
    hide Quote, EnforceMinHealth, EnsureStats, SessionEffect, Inv, MoneyKept;
    var t := StartGame(s, p, mines, bet, commitment).value;
    ConfigOf(s);
    HealthyMeansSolvent(t.v2, SatAdd(Assets(s.lamports), bet));
  }

  /** A cash-out or a refund of an expired game costs at most what the session had reserved. */
  lemma PaidSessionFunded(s: State, step: SessionStep)
    requires Inv(s) && Funded(s) && SessionsCovered(s) && (step.TakeCash? || step.Expire?) && ApplySession(s, step).Ok?
    ensures Funded(ApplySession(s, step).value)
  {
    hide Inv, SessionEffect, MoneyKept, Payable, Dearest, StartGame, RevealTile, SettleGame, CloseGame, CloseUnsettledGame;
    var p, t := step.player, ApplySession(s, step).value;
    assert SessionCovered(s, p);
    SessionMovesPayable(s, t, p);
  }

  /** The treasury's cut stops at the whole accumulator, and so does a spare referral cut. */
  lemma ProveMoney(s: State, p: Id, layout: set<nat>, digest: Digest, referral: Option<Account>)
    requires SettleGame(s, p, layout, digest, referral).Ok? && CutIsSpare(s, p, referral, s.sessions[p].bet)
    ensures var t := SettleGame(s, p, layout, digest, referral).value;
            Assets(t.lamports) == Assets(s.lamports) || Solvent(t)
  {
    hide SessionEffect, MoneyKept, PayReferrer, PayTreasury, CalcHealth, MulDivFloor, CheckLayout, Assets, Bal, TierFor, CutDue;
    CutWithinBet(s.lamports, s.referrals, s.stats[p], referral, s.sessions[p].bet);
  }

  lemma ProvedOwesNothing(s: State, p: Id, layout: set<nat>, digest: Digest, referral: Option<Account>)
    requires SettleGame(s, p, layout, digest, referral).Ok?
    ensures SessionDue(SettleGame(s, p, layout, digest, referral).value, p) == 0
  {
    hide SessionEffect, MoneyKept, PayReferrer, PayTreasury, CalcHealth, MulDivFloor, CheckLayout;
  }

  lemma ProveFunded(s: State, p: Id, layout: set<nat>, digest: Digest, referral: Option<Account>)
    requires Inv(s) && Funded(s) && SettleGame(s, p, layout, digest, referral).Ok?
    requires Backed(s, Legacy(Prove(p, layout, digest, referral)))
    ensures Funded(SettleGame(s, p, layout, digest, referral).value)
  {
    assert p in s.sessions by { hide Backed, CutIsSpare, MoneyKept; }
    ProveMoney(s, p, layout, digest, referral);
    ProvedOwesNothing(s, p, layout, digest, referral);
    hide Inv, MoneyKept, Payable, SettleGame, Assets, SessionDue, CutIsSpare;
    var t := SettleGame(s, p, layout, digest, referral).value;
    SessionMovesPayable(s, t, p);
    if Assets(t.lamports) != Assets(s.lamports) {
      assert Next(s, Legacy(Prove(p, layout, digest, referral))) == t;
      SolventAfter(s, Legacy(Prove(p, layout, digest, referral)));
    }
  }

  /** A tile moves no money and owes no more; closing a finished session owes nothing. */
  lemma QuietSessionFunded(s: State, step: SessionStep)
    requires Funded(s) && (step.Tile? || step.Close? || step.CloseUnsettled?) && ApplySession(s, step).Ok?
    ensures Funded(ApplySession(s, step).value)
  {
    QuietSessionMoney(s, step);
    QuietSessionDue(s, step);
    hide ApplySession, Payable, Assets, SessionDue;
    SessionMovesPayable(s, ApplySession(s, step).value, step.player);
  }

  lemma QuietSessionDue(s: State, step: SessionStep)
    requires (step.Tile? || step.Close? || step.CloseUnsettled?) && ApplySession(s, step).Ok?
    ensures SessionDue(ApplySession(s, step).value, step.player) <= SessionDue(s, step.player)
  {
    hide SessionEffect, StartGame, SettleGame, CashOutGame, RefundExpired, CalcMultiplier, Drain;
  }

  lemma QuietSessionMoney(s: State, step: SessionStep)
    requires (step.Tile? || step.Close? || step.CloseUnsettled?) && ApplySession(s, step).Ok?
    ensures Assets(ApplySession(s, step).value.lamports) == Assets(s.lamports)
  {
    hide SessionEffect, StartGame, SettleGame, CashOutGame, RefundExpired, CalcMultiplier, MoneyKept, Move;
  }

  lemma SessionFunded(s: State, step: SessionStep)
    requires Inv(s) && Funded(s) && SessionsCovered(s) && Backed(s, Legacy(step)) && ApplySession(s, step).Ok?
    ensures Funded(ApplySession(s, step).value)
  {
    hide Inv, Funded, Solvent, SessionsCovered, SessionEffect;
    hide StartGame, RevealTile, CashOutGame, SettleGame, RefundExpired, CloseGame, CloseUnsettledGame;
    match step {
      case Open(p, m, b, c) =>
        OpenSolvent(s, p, m, b, c);
        SolventAfter(s, Legacy(step));
      case TakeCash(_) => PaidSessionFunded(s, step);
      case Expire(_) => PaidSessionFunded(s, step);
      case Prove(p, l, d, r) => ProveFunded(s, p, l, d, r);
      case _ => QuietSessionFunded(s, step);
    }
  }

  // ---------------------------------------------------------------- what is capped by assets alone

  /** A treasury withdrawal leaves the vault solvent exactly when it asks for no more than is spare. */
  lemma TreasuryOutSolvent(s: State, destination: Account, executable: bool, amount: nat)
    requires MoneySound(s) && WithdrawToTreasury(s, destination, executable, amount).Ok?
    ensures Solvent(WithdrawToTreasury(s, destination, executable, amount).value) <==> Spare(s, Min(amount, Assets(s.lamports)))
  {
    hide HouseEffect, MoneyKept;
  }

  /** A completed withdrawal, exactly when what its units are worth is spare. */
  lemma CompletionSolvent(s: State, u: Id)
    requires MoneySound(s) && CompleteWithdraw(s, u).Ok?
    ensures u in s.positions && (Solvent(CompleteWithdraw(s, u).value) <==> Spare(s, Worth(s, s.positions[u].pending)))
  {
    hide LpEffect, MoneyKept, UnitsToAssets;
  }

  lemma HouseCompletionSolvent(s: State)
    requires MoneySound(s) && HouseCompleteWithdraw(s).Ok?
    ensures Solvent(HouseCompleteWithdraw(s).value) <==> Spare(s, Worth(s, s.v2.housePending))
  {
    hide HouseEffect, MoneyKept, UnitsToAssets;
  }

  // ---------------------------------------------------------------- every run

  lemma LpKeepsAssets(s: State, step: LpStep)
    requires MoneySound(s) && !step.CompleteOut? && ApplyLp(s, step).Ok?
    ensures Assets(s.lamports) <= Assets(ApplyLp(s, step).value.lamports)
  {
    hide EnsurePosition, DepositToUnits, AdmitDeposit, MoneyKept, LpEffect, CompleteWithdraw;
  }

  lemma LpFunded(s: State, step: LpStep)
    requires Inv(s) && Funded(s) && Backed(s, Lp(step)) && ApplyLp(s, step).Ok?
    ensures Funded(ApplyLp(s, step).value)
  {
    hide Inv, Solvent, MoneyKept, Spare, Worth, Payable, FundVault, LpDeposit, RequestWithdraw, CancelWithdraw;
    hide CompleteWithdraw, CloseLpPosition;
    ConfigOf(s);
    if step.CompleteOut? {
      CompletionSolvent(s, step.user);
      SolventAfter(s, Lp(step));
    } else {
      LpKeepsAssets(s, step);
      SameBookSamePayable(s, ApplyLp(s, step).value);
    }
  }

  /** Units that only change hands, or come in, leave assets where they were or above. */
  lemma HouseKeepsAssets(s: State, step: HouseStep)
    requires MoneySound(s) && (step.HouseIn? || step.HouseRequest? || step.HouseCancel?) && ApplyHouse(s, step).Ok?
    ensures Assets(s.lamports) <= Assets(ApplyHouse(s, step).value.lamports)
  {
    hide DepositToUnits, EnforceHouseFloor, EnforceMinHealth, UserUnitsTotal, MoneyKept, HouseEffect;
    hide HouseCompleteWithdraw, UnlockOperatorPosition, WithdrawToTreasury;
  }

  lemma UnlockSolvent(s: State, destination: Account, executable: bool)
    requires ConfigSound(s) && UnlockOperatorPosition(s, destination, executable).Ok?
    ensures Solvent(UnlockOperatorPosition(s, destination, executable).value)
  {
    hide UnitsToAssets, EnforceMinHealth, MoneyKept, HouseEffect;
    var t := UnlockOperatorPosition(s, destination, executable).value;
    HealthyMeansSolvent(t.v2, Assets(t.lamports));
  }

  lemma HouseFunded(s: State, step: HouseStep)
    requires Inv(s) && Funded(s) && Backed(s, House(step)) && ApplyHouse(s, step).Ok?
    ensures Funded(ApplyHouse(s, step).value)
  {
    hide Inv, Solvent, MoneyKept, Spare, Worth, Payable;
    hide HouseDeposit, HouseRequestWithdraw, HouseCancelWithdraw, HouseCompleteWithdraw;
    hide UnlockOperatorPosition, WithdrawToTreasury;
    ConfigOf(s);
    match step {
      case Unlock(d, x) => UnlockSolvent(s, d, x); SolventAfter(s, House(step));
      case HouseComplete => HouseCompletionSolvent(s); SolventAfter(s, House(step));
      case TreasuryOut(d, x, n) => TreasuryOutSolvent(s, d, x, n); SolventAfter(s, House(step));
      case _ =>
        HouseKeepsAssets(s, step);
        SameBookSamePayable(s, ApplyHouse(s, step).value);
    }
  }

  lemma StepFunded(s: State, step: Step)
    requires Inv(s) && Funded(s) && SessionsCovered(s) && (Apply(s, step).Ok? ==> Backed(s, step))
    ensures Funded(Next(s, step))
  {
    hide ApplyVrf, ApplySession, ApplyLp, ApplyHouse, ApplyAdmin, Inv, MoneyKept, SessionsCovered, Payable;
    ConfigOf(s);
    if Apply(s, step).Ok? {
      match step {
        case Vrf(v) => VrfFunded(s, v);
        case Legacy(g) => SessionFunded(s, g);
        case Lp(l) => LpFunded(s, l);
        case House(h) => HouseFunded(s, h);
        case Admin(_) => SameBookSamePayable(s, Next(s, step));
      }
    }
  }

  lemma SameBookSamePayable(s: State, t: State)
    requires t.claims == s.claims && t.sessions == s.sessions
    ensures Payable(t) == Payable(s)
  {}

  lemma {:induction false} RunFunded(s: State, steps: seq<Step>)
    requires Inv(s) && Funded(s) && SessionsCovered(s) && AllBacked(s, steps)
    ensures Inv(Run(s, steps)) && Funded(Run(s, steps)) && SessionsCovered(Run(s, steps))
    decreases |steps|
  {
    hide Inv, Funded, Next, Apply, Backed, SessionsCovered, MoneyKept;
    if steps != [] {
      StepFunded(s, steps[0]);
      ConfigOf(s);
      StepKeepsSessionsCovered(s, steps[0]);
      StepKeepsInv(s, steps[0]);
      RunFunded(Next(s, steps[0]), steps[1..]);
    }
  }

  /**
   From `initialize_v2`, with no game of the old mode in play, any interleaving of both modes, the pool and
   the treasury whose capped payments stay out of the reserve leaves assets at or above every reservation
   that can still be called on.
   */
  lemma ReachableFunded(s: State, steps: seq<Step>)
    requires Genesis(s) && SessionsCovered(s) && AllBacked(s, steps)
    ensures Funded(Run(s, steps)) && SessionsCovered(Run(s, steps))
  {
    hide Run, AllBacked, SessionsCovered;
    GenesisInv(s);
    GenesisFunded(s);
    RunFunded(s, steps);
  }

  lemma GenesisFunded(s: State)
    requires Genesis(s)
    ensures Funded(s)
  {
    GenesisInv(s);
    PayableWithinOutstanding(s);
  }

  /** No commit-reveal winner is refused: a session in play with a revealed tile cashes out. */
  lemma CashOutGoesThrough(s: State, p: Id)
    requires Inv(s) && Funded(s) && SessionsCovered(s) && p in s.sessions
    ensures CashOutGame(s, p).Ok? <==> s.sessions[p].status == Playing && 0 < s.sessions[p].safe
  {
    hide SessionEffect, MoneyKept, Dearest, ReservationsExact, SessionsSound, UnitsConserved, ConfigSound, RoundsSound;
    assert SessionCovered(s, p);
    BalanceBounded(s.lamports, VaultPda);
    if s.sessions[p].status == Playing {
      SumAtLeast(s.sessions, PayableOf, p);
    }
  }

  // ---------------------------------------------------------------- the cleared board

  predicate Finished(s: State, p: Id) {
    p in s.sessions && s.sessions[p].status != Playing
  }

  /** Revealing the last safe tile finishes the game and moves no lamport. */
  lemma ClearingPaysNothing(s: State, p: Id, tile: nat)
    requires p in s.sessions && GRID_SIZE <= s.sessions[p].safe + 1 + s.sessions[p].mines && RevealTile(s, p, tile, false).Ok?
    ensures var t := RevealTile(s, p, tile, false).value; t.lamports == s.lamports && Finished(t, p)
  {
    hide CalcMultiplier, SessionEffect;
  }

  /** A mine finishes it too, and moves no lamport either. */
  lemma MineEndsSession(s: State, p: Id, tile: nat)
    requires RevealTile(s, p, tile, true).Ok?
    ensures var t := RevealTile(s, p, tile, true).value;
            t.lamports == s.lamports && Finished(t, p) && t.sessions[p].status == Lost
            && t.sessions[p].revealed == s.sessions[p].revealed + {tile} && t.sessions[p].safeTiles == s.sessions[p].safeTiles
  {
    hide SessionEffect;
  }

  /** A finished session can be neither cashed out nor refunded, in any state until it is closed. */
  predicate UnpaidUntilClosed(s: State, steps: seq<Step>, p: Id)
    decreases |steps|
  {
    && CashOutGame(s, p).Err? && RefundExpired(s, p).Err?
    && (steps != [] ==>
          if Finished(Next(s, steps[0]), p) then UnpaidUntilClosed(Next(s, steps[0]), steps[1..], p)
          else steps[0] in {Legacy(Close(p)), Legacy(CloseUnsettled(p))})
  }

  lemma StepKeepsFinished(s: State, step: Step, p: Id)
    requires Finished(s, p)
    ensures Finished(Next(s, step), p) || step in {Legacy(Close(p)), Legacy(CloseUnsettled(p))}
  {
    hide ApplyVrf, ApplyLp, ApplyHouse, ApplyAdmin, MoneyKept, StartGame, Move, Drain, PayReferrer, PayTreasury;
    hide CalcHealth, CalcMultiplier, MulDivFloor, CheckLayout;
    if Apply(s, step).Ok? && step.Legacy? {
      if step.g.player != p {
        Elsewhere(s.sessions, Next(s, step).sessions, step.g.player, p);
      } else if step.g.Open? {
        FinishedCannotOpen(s, p, step.g.mines, step.g.bet, step.g.commitment);
      }
    }
  }

  lemma FinishedCannotOpen(s: State, p: Id, mines: nat, bet: nat, commitment: Digest)
    requires p in s.sessions
    ensures StartGame(s, p, mines, bet, commitment) == Err(AccountInUse)
  {}

  /**
   A cleared commit-reveal board, like any finished session, is never paid: over every run, until its
   account is closed, both ways to the player's money are refused.
   */
  lemma {:induction false} FinishedIsNeverPaid(s: State, steps: seq<Step>, p: Id)
    requires Finished(s, p)
    ensures UnpaidUntilClosed(s, steps, p)
    decreases |steps|
  {
    hide Next, Move, Assets, SessionEffect, MulDivFloor;
    if steps != [] {
      StepKeepsFinished(s, steps[0], p);
      if Finished(Next(s, steps[0]), p) {
        FinishedIsNeverPaid(Next(s, steps[0]), steps[1..], p);
      }
    }
  }
}
