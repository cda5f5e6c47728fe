/** How fast rounds can drain the bankroll. */
module Depletion {
  import opened Prelude
  import opened Arith
  import opened Odds
  import opened Reveal
  import opened Ledger
  import opened Handlers
  import opened Runs
  import opened Solvency

  // ---------------------------------------------------------------- one round

  /** What may happen between a round's start and its settlement: play by anyone, configuration, time. */
  predicate MidRound(step: Step) {
    match step
    case Vrf(v) => v.Delegate? || v.Request? || v.Callback? || v.TakeWin? || v.Commit? || v.Undelegate?
    case Admin(_) => true
    case _ => false
  }

  lemma MidPlay(s: State, step: VrfStep)
    requires MidRound(Vrf(step)) && ApplyVrf(s, step).Ok?
    ensures ApplyVrf(s, step).value.lamports == s.lamports && ApplyVrf(s, step).value.claims == s.claims
  {
    hide StartGameVrf, SettleVrf, RefundStalledVrf, AdminReleaseVrfClaim, RoundEffect;
    hide RequestReveal, RevealCallback, CashOut, CheckDelegable;
  }

  lemma MidStep(s: State, step: Step)
    requires MidRound(step)
    ensures Assets(Next(s, step).lamports) == Assets(s.lamports) && Next(s, step).claims == s.claims
  {
    hide ApplyVrf, ApplySession, ApplyLp, ApplyHouse, ApplyAdmin, MoneyKept;
    if Apply(s, step).Ok? && step.Vrf? {
      MidPlay(s, step.v);
    }
  }

  lemma {:induction false} MidSteps(s: State, steps: seq<Step>)
    requires Inv(s) && forall step | step in steps :: MidRound(step)
    ensures Assets(Run(s, steps).lamports) == Assets(s.lamports) && Run(s, steps).claims == s.claims && Inv(Run(s, steps))
    decreases |steps|
  {
    hide Inv, Next, MidRound;
    if steps != [] {
      MidStep(s, steps[0]);
      StepKeepsInv(s, steps[0]);
      MidSteps(Next(s, steps[0]), steps[1..]);
    }
  }

  /** A game reserves at most q / BPS of the assets it was opened against. */
  lemma ReservationBounded(available: nat, bps: nat, health: nat, q: nat, worst: nat)
    requires bps <= q && health <= BPS && ScaledCap(available, bps, health).Ok?
    requires worst <= ScaledCap(available, bps, health).value
    ensures worst * BPS <= available * q
  {
    MulMono(health, BPS, bps);
    var scaled := bps * health / BPS;
    DivAtMost(bps, bps * health, BPS);
    MulMono(scaled, q, available);
    DivBounds(available * scaled, BPS);
    MulMono(worst, available * scaled / BPS, BPS);
  }

  lemma HealthBounded(v2: V2State, assets: nat)
    requires CalcHealth(v2, assets).Ok?
    ensures CalcHealth(v2, assets).value <= BPS
  {}

  lemma QuoteBounded(vault: Vault, v2: V2State, available: nat, bps: nat, mines: nat, bet: nat, q: nat)
    requires bps <= q && Quote(vault, v2, available, bps, mines, bet).Ok?
    ensures Quote(vault, v2, available, bps, mines, bet).value * BPS <= available * q
  {
    hide CalcHealth, WorstCasePayout, ScaledCap;
    HealthBounded(v2, available);
    ReservationBounded(available, bps, CalcHealth(v2, available).value, q, Quote(vault, v2, available, bps, mines, bet).value);
  }

  lemma StartEffect(s: State, p: Id, session: Id, mines: nat, bet: nat, q: nat)
    requires Inv(s) && StartGameVrf(s, p, session, mines, bet).Ok?
    requires Min(s.vault.maxPayoutBps, s.v2.vrfMaxPayoutBps) <= q
    ensures var t := StartGameVrf(s, p, session, mines, bet).value;
            && p in t.claims && t.claims[p].bet == bet
            && Assets(t.lamports) == Assets(s.lamports) + bet
            && t.claims[p].reserved * BPS <= Assets(s.lamports) * q
  {
    hide Quote, Reserve, FundRound, RoundEffect, Inv;
    ConfigOf(s);
    QuoteBounded(s.vault, s.v2, Assets(s.lamports), Min(s.vault.maxPayoutBps, s.v2.vrfMaxPayoutBps), mines, bet, q);
  }

  /** Both cuts together are paid for by the bet. */
  lemma CutsWithinBet(bet: nat, tierBps: nat, edge: nat, split: nat)
    requires tierBps <= REFERRAL_GOLD_BPS && edge <= MAX_HOUSE_EDGE_BPS && split <= BPS
    ensures bet * tierBps / BPS + bet * edge / BPS * split / BPS <= bet
  {
    var share := bet * edge / BPS;
    MulMono(tierBps, 5_000, bet);
    MulMono(edge, 5_000, bet);
    DivMono(bet * tierBps, bet * 5_000, BPS);
    DivMono(bet * edge, bet * 5_000, BPS);
    MulMono(split, BPS, share);
    DivAtMost(share, share * split, BPS);
  }

  lemma ReferrerCost(l: Lamports, referrals: map<Id, Referral>, referrer: Option<Id>, passed: Option<Account>, bet: nat)
    requires PayReferrer(l, referrals, referrer, passed, bet).Ok?
    ensures Assets(l) <= Assets(PayReferrer(l, referrals, referrer, passed, bet).value.lamports) + bet * REFERRAL_GOLD_BPS / BPS
  {
    hide MoneyKept;
    if referrer.Some? && passed.Some? {
      var bps := CutBps(referrals[referrer.value].tier);
      MulMono(bps, REFERRAL_GOLD_BPS, bet);
      DivMono(bet * bps, bet * REFERRAL_GOLD_BPS, BPS);
    }
  }

  lemma TreasuryCost(l: Lamports, vault: Vault, v2: V2State, bet: nat)
    requires PayTreasury(l, vault, v2, bet).Ok?
    ensures Assets(l) <= Assets(PayTreasury(l, vault, v2, bet).value) + bet * vault.edge / BPS * vault.splitBps / BPS
  {
    hide UnitsToAssets, MoneyKept;
  }

  /** Settling costs the vault at most the reservation and the bet it already holds. */
  lemma SettleCost(s: State, p: Id, referral: Option<Account>)
    requires Inv(s) && SettleVrf(s, p, referral).Ok?
    ensures Assets(s.lamports) <= Assets(SettleVrf(s, p, referral).value.lamports) + s.claims[p].reserved + s.claims[p].bet
  {
    hide Verify, Award, PayTreasury, PayReferrer, Inv, RoundEffect, Written, MoneyKept;
    var c := s.claims[p];
    var v2' := Release(s.v2, c.reserved);
    ConfigOf(s);
    ClaimCovered(s, p);
    SettlementSound(c, s.games[p].game);
    var payout := Award(c, Verify(c, s.games[p].game).value).value;
    var l1 := Move(s.lamports, VaultPda, Wallet(p), payout).value;
    var paid := PayReferrer(l1, s.referrals, s.stats[p], referral, c.bet).value;
    ReferrerCost(l1, s.referrals, s.stats[p], referral, c.bet);
    TreasuryCost(paid.lamports, s.vault, v2', c.bet);
    CutsWithinBet(c.bet, REFERRAL_GOLD_BPS, s.vault.edge, s.vault.splitBps);
  }

  // ---------------------------------------------------------------- any number of rounds

  datatype Round = Round(player: Id, session: Id, mines: nat, bet: nat, mid: seq<Step>, referral: Option<Account>)

  function Opened(s: State, r: Round): State {
    Next(s, Vrf(Start(r.player, r.session, r.mines, r.bet)))
  }

  /** Start, play, and one attempt to settle. */
  function PlayRound(s: State, r: Round): State {
    Next(Run(Opened(s, r), r.mid), Vrf(Settle(r.player, r.referral)))
  }

  function PlayRounds(s: State, rounds: seq<Round>): State
    decreases |rounds|
  {
    if rounds == [] then s else PlayRounds(PlayRound(s, rounds[0]), rounds[1..])
  }

  /** The round opens, under a payout ceiling of at most q, and only mid-round steps lie between. */
  predicate Playable(s: State, r: Round, q: nat) {
    && ApplyVrf(s, Start(r.player, r.session, r.mines, r.bet)).Ok?
    && Min(s.vault.maxPayoutBps, s.v2.vrfMaxPayoutBps) <= q
    && forall step | step in r.mid :: MidRound(step)
  }

  predicate AllPlayable(s: State, rounds: seq<Round>, q: nat)
    decreases |rounds|
  {
    rounds == [] || (Playable(s, rounds[0], q) && AllPlayable(PlayRound(s, rounds[0]), rounds[1..], q))
  }

  lemma RoundLoss(s: State, r: Round, q: nat)
    requires Inv(s) && Playable(s, r, q) && q <= BPS
    ensures Inv(PlayRound(s, r))
    ensures Assets(s.lamports) * (BPS - q) <= Assets(PlayRound(s, r).lamports) * BPS
  {
    hide Inv, Next, MidRound, StartGameVrf, SettleVrf, MoneyKept;
    var p := r.player;
    var t := Opened(s, r);
    assert t == StartGameVrf(s, p, r.session, r.mines, r.bet).value by { NextStart(s, r); }
    StartEffect(s, p, r.session, r.mines, r.bet, q);
    StepKeepsInv(s, Vrf(Start(p, r.session, r.mines, r.bet)));
    MidSteps(t, r.mid);
    var u := Run(t, r.mid);
    StepKeepsInv(u, Vrf(Settle(p, r.referral)));
    NextSettle(u, p, r.referral);
    if SettleVrf(u, p, r.referral).Ok? {
      SettleCost(u, p, r.referral);
    }
    Compound(Assets(s.lamports), Assets(PlayRound(s, r).lamports), t.claims[p].reserved, q);
  }

  lemma NextStart(s: State, r: Round)
    requires StartGameVrf(s, r.player, r.session, r.mines, r.bet).Ok?
    ensures Opened(s, r) == StartGameVrf(s, r.player, r.session, r.mines, r.bet).value
  {
    hide StartGameVrf;
  }

  lemma NextSettle(s: State, p: Id, referral: Option<Account>)
    ensures Next(s, Vrf(Settle(p, referral))) == (if SettleVrf(s, p, referral).Ok? then SettleVrf(s, p, referral).value else s)
  {
    hide SettleVrf;
  }

  lemma Compound(a: nat, b: nat, reserved: nat, q: nat)
    requires a <= b + reserved && reserved * BPS <= a * q && q <= BPS
    ensures a * (BPS - q) <= b * BPS
  {
    MulMono(a, b + reserved, BPS);
    assert a * (BPS - q) == a * BPS - a * q;
    assert (b + reserved) * BPS == b * BPS + reserved * BPS;
  }

  /**
   Bounded depletion: after n rounds played one at a time, whatever their outcomes, cuts and stakes,
   at least (1 - q/BPS)^n of the assets is left.
   */
  lemma {:induction false} RoundsDeplete(s: State, rounds: seq<Round>, q: nat)
    requires Inv(s) && AllPlayable(s, rounds, q) && q <= BPS
    ensures Assets(s.lamports) * Pow(BPS - q, |rounds|) <= Assets(PlayRounds(s, rounds).lamports) * Pow(BPS, |rounds|)
    decreases |rounds|
  {
    hide Inv, Playable, PlayRound;
    if rounds != [] {
      RoundLoss(s, rounds[0], q);
      RoundsDeplete(PlayRound(s, rounds[0]), rounds[1..], q);
      CompoundMore(Assets(s.lamports), Assets(PlayRound(s, rounds[0]).lamports), Assets(PlayRounds(s, rounds).lamports),
                   BPS - q, Pow(BPS - q, |rounds| - 1), Pow(BPS, |rounds| - 1));
    }
  }

  lemma CompoundMore(a: nat, b: nat, c: nat, f: nat, x: nat, y: nat)
    requires a * f <= b * BPS && b * x <= c * y
    ensures a * (f * x) <= c * (BPS * y)
  {
    MulMono(a * f, b * BPS, x);
    MulMono(b * x, c * y, BPS);
    assert a * (f * x) == a * f * x;
    assert b * BPS * x == b * x * BPS;
    assert c * (BPS * y) == c * y * BPS;
  }
}
