/** When a finished round is back on L1, settling it succeeds and pays exactly its price. */
module Settlement {
  import opened Prelude
  import opened Arith
  import opened Odds
  import opened Reveal
  import opened Ledger
  import opened Handlers
  import opened Runs
  import opened Solvency

  /** A finished round whose game is back under program ownership. */
  predicate Landed(s: State, p: Id) {
    p in s.claims && p in s.games && s.games[p].OnL1? && s.games[p].game.status != VRF_PLAYING
  }

  function Outcome(g: VrfGame): Verdict {
    Verdict(g.status == VRF_LOST, g.safe, g.mult)
  }

  /**
   Settlement completeness: in every reachable state a landed round passes all of L1's pin, bound
   and replay checks against its own claim, and the replay agrees with the incremental play.
   */
  lemma LandedVerifies(s: State, steps: seq<Step>, p: Id)
    requires Genesis(s) && Landed(Run(s, steps), p)
    ensures var t := Run(s, steps);
            Verify(t.claims[p], t.games[p].game) == Ok(Outcome(t.games[p].game))
  {
    ReachableInv(s, steps);
    LandedVerifiesHere(Run(s, steps), p);
  }

  lemma LandedVerifiesHere(s: State, p: Id)
    requires Inv(s) && Landed(s, p)
    ensures Verify(s.claims[p], s.games[p].game) == Ok(Outcome(s.games[p].game))
  {
    hide Honest, Written, Verify;
    assert RoundSound(s, p);
    HonestVerifies(s.claims[p], s.games[p].game);
  }

  // ---------------------------------------------------------------- when the money moves

  /** A holder of at most all units is owed at most all assets. */
  lemma ShareWithinAssets(units: nat, assets: nat, totalUnits: nat)
    requires units <= totalUnits && assets <= U64_MAX
    ensures UnitsToAssets(units, assets, totalUnits).Ok? <==> units * assets <= U128_MAX
    ensures UnitsToAssets(units, assets, totalUnits).Ok? ==> UnitsToAssets(units, assets, totalUnits).value <= assets
  {
    if totalUnits != 0 && units != 0 {
      MulMono(units, totalUnits, assets);
      DivAtMost(assets, units * assets, totalUnits) by {
        assert (assets + 1) * totalUnits == totalUnits * assets + totalUnits;
      }
    }
  }

  /** The treasury's share of a bet is at most the edge on it, so it fits a u64. */
  lemma CutFits(bet: nat, bps: nat)
    requires bet <= U64_MAX && bps <= BPS
    ensures MulDivFloor(bet, bps, BPS).Ok? && MulDivFloor(bet, bps, BPS).value <= bet
  {
    MulMono(bps, BPS, bet);
    DivAtMost(bet, bet * bps, BPS);
  }

  /** The one way the treasury step fails: valuing the pending units overflows a u128. */
  predicate PendingPriced(vault: Vault, v2: V2State, assets: nat) {
    vault.splitBps == 0 || v2.totalPending * assets <= U128_MAX
  }

  lemma TreasuryPays(l: Lamports, vault: Vault, v2: V2State, bet: nat)
    requires Total(l) <= U64_MAX && vault.edge <= BPS && vault.splitBps <= BPS && bet <= U64_MAX
    requires v2.totalPending <= v2.totalUnits
    ensures PayTreasury(l, vault, v2, bet).Ok? <==> PendingPriced(vault, v2, Assets(l))
  {
    BalanceBounded(l, VaultPda);
    ShareWithinAssets(v2.totalPending, Assets(l), v2.totalUnits);
    CutFits(bet, vault.edge);
    hide UnitsToAssets;
    if vault.splitBps != 0 {
      CutFits(MulDivFloor(bet, vault.edge, BPS).value, vault.splitBps);
    }
    hide MulDivFloor, MoneyKept;
  }

  lemma PendingWithinUnits(s: State)
    requires UnitsConserved(s)
    ensures s.v2.totalPending <= s.v2.totalUnits
  {
    Sums.SumMono(s.positions, PendingOf, UnitsOf);
  }

  /** A referral account that is used at all is the referrer's own record. */
  predicate RecordFits(referrals: map<Id, Referral>, referrer: Option<Id>, passed: Option<Account>) {
    referrer.Some? && passed.Some? ==>
      var key := referrer.value;
      passed.value == ReferralPda(key) && key in referrals && referrals[key].referrer == key
  }

  /** The referrer's cut, out of what assets there are. */
  function Rakeback(referrals: map<Id, Referral>, referrer: Option<Id>, passed: Option<Account>, bet: nat, assets: nat): nat
    requires RecordFits(referrals, referrer, passed)
  {
    if referrer.None? || passed.None? then 0
    else Min(bet * CutBps(referrals[referrer.value].tier) / BPS, assets)
  }

  /** The referral step fails only on a wrong account, and costs the vault exactly the cut. */
  lemma ReferrerPays(l: Lamports, referrals: map<Id, Referral>, referrer: Option<Id>, passed: Option<Account>, bet: nat)
    requires Total(l) <= U64_MAX && bet <= U64_MAX
    ensures PayReferrer(l, referrals, referrer, passed, bet).Ok? <==> RecordFits(referrals, referrer, passed)
    ensures PayReferrer(l, referrals, referrer, passed, bet).Ok? ==>
              var l' := PayReferrer(l, referrals, referrer, passed, bet).value.lamports;
              && Total(l') == Total(l)
              && Assets(l') == Assets(l) - Rakeback(referrals, referrer, passed, bet, Assets(l))
  {
    if referrer.Some? && passed.Some? && referrer.value in referrals {
      CutFits(bet, CutBps(referrals[referrer.value].tier));
    }
    hide MulDivFloor;
  }

  /** What a landed round is worth. */
  function Due(c: Claim, g: VrfGame): nat
    requires g.safe + c.mines <= GRID_SIZE && c.edge <= BPS
  {
    if g.status == VRF_LOST then 0 else Payout(c.bet, g.safe, c.mines, c.edge)
  }

  /** The price of a landed round is covered by the vault, and L1 awards exactly it. */
  lemma DueIsCovered(s: State, p: Id)
    requires Inv(s) && Funded(s) && Landed(s, p)
    ensures var c, g := s.claims[p], s.games[p].game;
            && g.safe + c.mines <= GRID_SIZE && c.edge <= BPS
            && Award(c, Outcome(g)) == Ok(Due(c, g))
            && Due(c, g) <= c.reserved <= Assets(s.lamports)
  {
    hide Verify, Award, Payout, Funded;
    var c, g := s.claims[p], s.games[p].game;
    assert RoundSound(s, p);
    LandedVerifiesHere(s, p);
    ClaimCovered(s, p);
    ClaimFunded(s, p);
    SettlementSound(c, g);
  }

  /** The assets left when the player and the referrer have been paid. */
  function AfterPayment(s: State, p: Id, passed: Option<Account>): nat
    requires Landed(s, p) && p in s.stats && RecordFits(s.referrals, s.stats[p], passed)
    requires s.games[p].game.safe + s.claims[p].mines <= GRID_SIZE && s.claims[p].edge <= BPS
  {
    var left := SatSub(Assets(s.lamports), Due(s.claims[p], s.games[p].game));
    SatSub(left, Rakeback(s.referrals, s.stats[p], passed, s.claims[p].bet, left))
  }

  /**
   No verified winner is refused: in a funded vault a landed round settles exactly when the referral
   account, if one is used, is the referrer's, and valuing the pending units fits a u128.
   */
  lemma LandedSettles(s: State, p: Id, passed: Option<Account>)
    requires Inv(s) && Funded(s) && Landed(s, p)
    ensures var c, g := s.claims[p], s.games[p].game;
            && g.safe + c.mines <= GRID_SIZE && c.edge <= BPS && p in s.stats
            && (SettleVrf(s, p, passed).Ok? <==>
                  RecordFits(s.referrals, s.stats[p], passed) && PendingPriced(s.vault, s.v2, AfterPayment(s, p, passed)))
  {
    hide Verify, Award, Due, PayRound, Rakeback, RecordFits, RoundEffect, Honest, Written, Funded, Inv;
    DueIsCovered(s, p);
    LandedVerifiesHere(s, p);
    BetFits(s, p);
    ConfigOf(s);
    PartiesPaid(s, p, passed);
    PaidClose(s, p, passed);
  }

  /** Paying the three parties of a landed round. */
  lemma PartiesPaid(s: State, p: Id, passed: Option<Account>)
    requires Inv(s) && Landed(s, p) && p in s.stats
    requires s.games[p].game.safe + s.claims[p].mines <= GRID_SIZE && s.claims[p].edge <= BPS
    requires Due(s.claims[p], s.games[p].game) <= Assets(s.lamports)
    ensures PayRound(s.(v2 := Release(s.v2, s.claims[p].reserved)), p, Due(s.claims[p], s.games[p].game), s.claims[p].bet, passed).Ok?
            <==> RecordFits(s.referrals, s.stats[p], passed) && PendingPriced(s.vault, s.v2, AfterPayment(s, p, passed))
  {
    hide Due, RecordFits, PayRound, Rakeback, Written, Assets;
    ConfigOf(s);
    BetFits(s, p);
    UnitsOfInv(s);
    PendingWithinUnits(s);
    hide Inv;
    PayRoundPays(s.(v2 := Release(s.v2, s.claims[p].reserved)), p, Due(s.claims[p], s.games[p].game), s.claims[p].bet, passed);
  }

  /** With the payout in hand, only a wrong referral account or an unpriceable pending total fails. */
  lemma PayRoundPays(s: State, p: Id, payout: nat, bet: nat, passed: Option<Account>)
    requires p in s.stats && payout <= Assets(s.lamports) && Total(s.lamports) <= U64_MAX && bet <= U64_MAX
    requires s.vault.edge <= BPS && s.vault.splitBps <= BPS && s.v2.totalPending <= s.v2.totalUnits
    ensures PayRound(s, p, payout, bet, passed).Ok? <==>
            && RecordFits(s.referrals, s.stats[p], passed)
            && var left: nat := Assets(s.lamports) - payout;
            PendingPriced(s.vault, s.v2, SatSub(left, Rakeback(s.referrals, s.stats[p], passed, bet, left)))
  {
    hide RecordFits, PayReferrer, PayTreasury, Rakeback, Assets, Move;
    PaymentMoves(s.lamports, p, payout);
    var l1 := Move(s.lamports, VaultPda, Wallet(p), payout).value;
    ReferrerPays(l1, s.referrals, s.stats[p], passed, bet);
    if RecordFits(s.referrals, s.stats[p], passed) {
      TreasuryPays(PayReferrer(l1, s.referrals, s.stats[p], passed, bet).value.lamports, s.vault, s.v2, bet);
    }
  }

  lemma UnitsOfInv(s: State)
    requires Inv(s)
    ensures UnitsConserved(s)
  {}

  lemma PaymentMoves(l: Lamports, p: Id, n: nat)
    requires n <= Assets(l) && Total(l) <= U64_MAX
    ensures Move(l, VaultPda, Wallet(p), n).Ok?
    ensures var l' := Move(l, VaultPda, Wallet(p), n).value; Total(l') == Total(l) && Assets(l') == Assets(l) - n
  {
    hide Move;
  }

  /** Once the parties are paid, nothing is left that can fail. */
  lemma PaidClose(s: State, p: Id, passed: Option<Account>)
    requires MoneySound(s) && Landed(s, p) && p in s.stats
    requires s.games[p].game.safe + s.claims[p].mines <= GRID_SIZE && s.claims[p].edge <= BPS
    requires Verify(s.claims[p], s.games[p].game) == Ok(Outcome(s.games[p].game))
    requires Award(s.claims[p], Outcome(s.games[p].game)) == Ok(Due(s.claims[p], s.games[p].game))
    ensures SettleVrf(s, p, passed).Ok? <==>
            PayRound(s.(v2 := Release(s.v2, s.claims[p].reserved)), p, Due(s.claims[p], s.games[p].game), s.claims[p].bet, passed).Ok?
  {
    hide Verify, Award, Due, PayRound, CloseRound, RoundEffect;
    var released := s.(v2 := Release(s.v2, s.claims[p].reserved));
    var paid := PayRound(released, p, Due(s.claims[p], s.games[p].game), s.claims[p].bet, passed);
    if paid.Ok? {
      ClosingGoesThrough(released.(referrals := paid.value.referrals), paid.value.lamports, p);
    }
  }

  lemma ClosingGoesThrough(s: State, l: Lamports, p: Id)
    requires Total(l) <= U64_MAX
    ensures CloseRound(s, l, p).Ok? && p !in CloseRound(s, l, p).value.claims
  {
    hide Bal, Move, Drain;
    DrainGoesThrough(l, ClaimPda(p), Wallet(p));
    DrainGoesThrough(Drain(l, ClaimPda(p), Wallet(p)).value, GamePda(p), Wallet(p));
  }

  lemma DrainGoesThrough(l: Lamports, a: Account, to: Account)
    requires Total(l) <= U64_MAX && a != VaultPda
    ensures Drain(l, a, to).Ok? && Total(Drain(l, a, to).value) == Total(l)
  {
    hide Bal, Move;
  }

  lemma BetFits(s: State, p: Id)
    requires Inv(s) && p in s.claims
    ensures s.claims[p].bet <= U64_MAX && p in s.stats
  {
    assert RoundSound(s, p);
    ClaimCovered(s, p);
  }

  // ---------------------------------------------------------------- who gets what

  lemma MoveBalance(l: Lamports, from: Account, to: Account, n: nat, a: Account)
    requires Move(l, from, to, n).Ok?
    ensures Bal(Move(l, from, to, n).value, a) == Bal(l, a) - Part(a, from, n) + Part(a, to, n)
  {}

  /** The player's own accounts in a round. */
  function Own(p: Id): set<Account> {
    {Wallet(p), ClaimPda(p), GamePda(p)}
  }

  /**
   Settling hands the winner the payout and the rent of the two closed accounts: exactly that, or more
   where the treasury is an account of the same player.
   */
  lemma WinnerReceives(s: State, p: Id, passed: Option<Account>)
    requires Inv(s) && Funded(s) && Landed(s, p) && SettleVrf(s, p, passed).Ok?
    ensures var c, g, t := s.claims[p], s.games[p].game, SettleVrf(s, p, passed).value;
            && g.safe + c.mines <= GRID_SIZE && c.edge <= BPS && p !in t.claims && p !in t.games
            && var owed := Bal(s.lamports, Wallet(p)) + Due(c, g) + Bal(s.lamports, ClaimPda(p)) + Bal(s.lamports, GamePda(p));
            && Bal(t.lamports, Wallet(p)) >= owed
            && (s.vault.treasury !in Own(p) ==> Bal(t.lamports, Wallet(p)) == owed)
  {
    hide Verify, Award, Due, PayRound, CloseRound, RoundEffect, Honest, Written, Bal, Funded, Inv;
    DueIsCovered(s, p);
    LandedVerifiesHere(s, p);
    BetFits(s, p);
    var c, due := s.claims[p], Due(s.claims[p], s.games[p].game);
    var released := s.(v2 := Release(s.v2, c.reserved));
    var paid := PayRound(released, p, due, c.bet, passed).value;
    forall a | a in Own(p)
      ensures Bal(paid.lamports, a) >= Bal(s.lamports, a) + Part(a, Wallet(p), due)
      ensures s.vault.treasury !in Own(p) ==> Bal(paid.lamports, a) == Bal(s.lamports, a) + Part(a, Wallet(p), due)
    {
      PartyReceives(released, p, due, c.bet, passed, a);
    }
    ClosingPays(released.(referrals := paid.referrals), paid.lamports, p);
  }

  /** The player's accounts see the payout, and the treasury's cut where it is theirs. */
  lemma PartyReceives(s: State, p: Id, payout: nat, bet: nat, passed: Option<Account>, a: Account)
    requires p in s.stats && PayRound(s, p, payout, bet, passed).Ok? && a in Own(p)
    ensures var l := PayRound(s, p, payout, bet, passed).value.lamports;
            && Bal(l, a) >= Bal(s.lamports, a) + Part(a, Wallet(p), payout)
            && (a != s.vault.treasury ==> Bal(l, a) == Bal(s.lamports, a) + Part(a, Wallet(p), payout))
  {
    hide Bal, Assets, PayReferrer, PayTreasury;
    var l1 := Move(s.lamports, VaultPda, Wallet(p), payout).value;
    var paid := PayReferrer(l1, s.referrals, s.stats[p], passed, bet).value;
    MoveBalance(s.lamports, VaultPda, Wallet(p), payout, a);
    ReferrerLeaves(l1, s.referrals, s.stats[p], passed, bet, a);
    TreasuryLeaves(paid.lamports, s.vault, s.v2, bet, a);
  }

  lemma ReferrerLeaves(l: Lamports, referrals: map<Id, Referral>, referrer: Option<Id>, passed: Option<Account>, bet: nat,
                       a: Account)
    requires PayReferrer(l, referrals, referrer, passed, bet).Ok? && a != VaultPda && !a.ReferralPda?
    ensures Bal(PayReferrer(l, referrals, referrer, passed, bet).value.lamports, a) == Bal(l, a)
  {
    hide MulDivFloor;
  }

  lemma TreasuryLeaves(l: Lamports, vault: Vault, v2: V2State, bet: nat, a: Account)
    requires PayTreasury(l, vault, v2, bet).Ok? && a != VaultPda
    ensures Bal(PayTreasury(l, vault, v2, bet).value, a) >= Bal(l, a)
    ensures a != vault.treasury ==> Bal(PayTreasury(l, vault, v2, bet).value, a) == Bal(l, a)
  {
    hide UnitsToAssets, MulDivFloor;
  }

  lemma ClosingPays(s: State, l: Lamports, p: Id)
    requires CloseRound(s, l, p).Ok?
    ensures Bal(CloseRound(s, l, p).value.lamports, Wallet(p)) == Bal(l, Wallet(p)) + Bal(l, ClaimPda(p)) + Bal(l, GamePda(p))
  {
    hide Bal, Move;
    var l1 := Drain(l, ClaimPda(p), Wallet(p)).value;
    MoveBalance(l, ClaimPda(p), Wallet(p), Bal(l, ClaimPda(p)), Wallet(p));
    MoveBalance(l, ClaimPda(p), Wallet(p), Bal(l, ClaimPda(p)), GamePda(p));
    MoveBalance(l1, GamePda(p), Wallet(p), Bal(l1, GamePda(p)), Wallet(p));
  }
}
