/** Nobody's bet is held hostage: from every funded reachable state a player can end their own round. */
module Liveness {
  import opened Prelude
  import opened Arith
  import opened Reveal
  import opened Ledger
  import opened Handlers
  import opened Runs
  import opened Solvency
  import opened Settlement

  /** The player's own transactions, and time. */
  predicate Own(step: Step, p: Id) {
    match step
    case Vrf(Undelegate(q, signer)) => q == p && signer == p
    case Vrf(Refund(q, caller)) => q == p && caller == p
    case Vrf(Settle(q, _)) => q == p
    case Admin(Wait(_)) => true
    case _ => false
  }

  /** Bring the game home, then settle it, or wait out the stall window and take the bet back. */
  function WayOut(s: State, p: Id): seq<Step>
    requires p in s.claims && p in s.games
  {
    (if s.games[p].Delegated? then [Vrf(Undelegate(p, p))] else []) +
    (if s.games[p].game.status == VRF_PLAYING
     then [Admin(Wait(SatAdd(s.claims[p].startSlot, STALL_SLOTS) + 1)), Vrf(Refund(p, p))]
     else [Vrf(Settle(p, None))])
  }

  lemma Home(s: State, p: Id)
    requires Inv(s) && p in s.claims && s.games[p].Delegated?
    ensures Next(s, Vrf(Undelegate(p, p))) == s.(games := s.games[p := OnL1(s.games[p].game)])
  {
    hide Honest, Written, RoundEffect, MoneyKept, ReservationsExact, SessionsSound, UnitsConserved;
    hide StartGameVrf, SettleVrf, RefundStalledVrf, AdminReleaseVrfClaim;
    assert RoundSound(s, p);
  }

  /** The player's own refund of an unfinished game on L1 goes through once the stall window is over. */
  lemma RefundGoesThrough(s: State, p: Id)
    requires Inv(s) && Funded(s) && p in s.claims && s.games[p].OnL1? && s.games[p].game.status == VRF_PLAYING
    requires SatAdd(s.claims[p].startSlot, STALL_SLOTS) < s.slot
    ensures RefundStalledVrf(s, p, p).Ok? && p !in RefundStalledVrf(s, p, p).value.claims
  {
    MayRefund(s, p);
    ClaimCovered(s, p);
    ClaimFunded(s, p);
    ConfigOf(s);
    PayAndClose(s, p);
  }

  lemma PayAndClose(s: State, p: Id)
    requires p in s.claims && p in s.games && CheckStalled(s, p, p) == Pass
    requires s.claims[p].bet <= Assets(s.lamports) && Total(s.lamports) <= U64_MAX
    ensures RefundStalledVrf(s, p, p).Ok? && p !in RefundStalledVrf(s, p, p).value.claims
  {
    PaymentMoves(s.lamports, p, s.claims[p].bet);
    hide CheckStalled, Move, Assets, RoundEffect, MoneyKept, CloseRound;
    var l := Move(s.lamports, VaultPda, Wallet(p), s.claims[p].bet).value;
    ClosingGoesThrough(s.(v2 := Release(s.v2, s.claims[p].reserved)), l, p);
  }

  lemma MayRefund(s: State, p: Id)
    requires Inv(s) && p in s.claims && s.games[p].OnL1? && s.games[p].game.status == VRF_PLAYING
    requires SatAdd(s.claims[p].startSlot, STALL_SLOTS) < s.slot
    ensures CheckStalled(s, p, p) == Pass
  {
    hide Honest, ReservationsExact, SessionsSound, UnitsConserved, MoneySound, ConfigSound;
    assert RoundSound(s, p);
  }

  // ---------------------------------------------------------------- the way out

  lemma SettleCloses(s: State, p: Id, passed: Option<Account>)
    requires SettleVrf(s, p, passed).Ok?
    ensures p !in Next(s, Vrf(Settle(p, passed))).claims
  {
    hide Verify, Award, PayRound, Drain, RoundEffect, MoneyKept;
  }

  lemma WaitGoesThrough(s: State, slots: nat)
    ensures Next(s, Admin(Wait(slots))) == s.(slot := s.slot + slots)
  {
    hide MoneyKept;
  }

  lemma NextRefund(s: State, p: Id)
    requires RefundStalledVrf(s, p, p).Ok?
    ensures Next(s, Vrf(Refund(p, p))) == RefundStalledVrf(s, p, p).value
  {
    hide RefundStalledVrf, MoneyKept;
  }

  /** A finished round settles: valuing pending withdrawals fits a u128 at today's assets, so at any fewer. */
  predicate Priceable(s: State, p: Id) {
    (p in s.games && s.games[p].game.status == VRF_PLAYING) || PendingPriced(s.vault, s.v2, Assets(s.lamports))
  }

  lemma FromHome(s: State, p: Id)
    requires Inv(s) && Funded(s) && Priceable(s, p) && p in s.claims && p in s.games && s.games[p].OnL1?
    ensures p !in Run(s, WayOut(s, p)).claims
  {
    hide Inv, Next, Run, RefundStalledVrf, SettleVrf;
    if s.games[p].game.status == VRF_PLAYING {
      var slots := SatAdd(s.claims[p].startSlot, STALL_SLOTS) + 1;
      var t := s.(slot := s.slot + slots);
      WaitGoesThrough(s, slots);
      StepKeepsInv(s, Admin(Wait(slots)));
      RefundGoesThrough(t, p);
      NextRefund(t, p);
      assert WayOut(s, p) == [Admin(Wait(slots))] + ([Vrf(Refund(p, p))] + []);
      RunFirst(s, Admin(Wait(slots)), [Vrf(Refund(p, p))] + []);
      RunFirst(t, Vrf(Refund(p, p)), []);
      RunNothing(Next(t, Vrf(Refund(p, p))));
    } else {
      LandedSettles(s, p, None);
      StillPriceable(s, AfterPayment(s, p, None));
      SettleCloses(s, p, None);
      assert WayOut(s, p) == [Vrf(Settle(p, None))] + [];
      RunFirst(s, Vrf(Settle(p, None)), []);
      RunNothing(Next(s, Vrf(Settle(p, None))));
    }
  }

  lemma StillPriceable(s: State, assets: nat)
    requires PendingPriced(s.vault, s.v2, Assets(s.lamports)) && assets <= Assets(s.lamports)
    ensures PendingPriced(s.vault, s.v2, assets)
  {
    MulMono(assets, Assets(s.lamports), s.v2.totalPending);
  }

  /**
   From every funded state of the invariant, a player with an open claim has a run of their own
   transactions that ends it, wherever the game is and however far it got.
   */
  lemma PlayerCanExit(s: State, p: Id)
    requires Inv(s) && Funded(s) && Priceable(s, p) && p in s.claims
    ensures p in s.games && (forall step | step in WayOut(s, p) :: Own(step, p)) && p !in Run(s, WayOut(s, p)).claims
  {
    hide Inv, Next, Run;
    assert p in s.games by { HasGame(s, p); }
    if s.games[p].Delegated? {
      var t := s.(games := s.games[p := OnL1(s.games[p].game)]);
      Home(s, p);
      StepKeepsInv(s, Vrf(Undelegate(p, p)));
      FromHome(t, p);
      assert WayOut(s, p) == [Vrf(Undelegate(p, p))] + WayOut(t, p);
      RunFirst(s, Vrf(Undelegate(p, p)), WayOut(t, p));
    } else {
      FromHome(s, p);
    }
  }

  lemma HasGame(s: State, p: Id)
    requires Inv(s) && p in s.claims
    ensures p in s.games
  {}
}
