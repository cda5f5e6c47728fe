/**
 The windows the program promises, over whole runs: however transactions interleave, a clock that starts with
 one transaction cannot be reset or skipped before another that waits for it.
 */
module TimeLocks {
  import opened Prelude
  import opened Odds
  import opened Reveal
  import opened Ledger
  import opened Handlers
  import opened Runs
  import opened Solvency
  import opened Payments
  import opened Permits

  /** A condition that holds in every state of a run, its ends included. */
  predicate Throughout(s: State, steps: seq<Step>, holds: State -> bool)
    decreases |steps|
  {
    holds(s) && (steps != [] ==> Throughout(Next(s, steps[0]), steps[1..], holds))
  }

  // ---------------------------------------------------------------- a round's stall window

  function ClaimOpen(p: Id): State -> bool {
    (s: State) => p in s.claims
  }

  lemma VrfKeepsClaim(s: State, step: VrfStep)
    requires step.player in s.claims && ApplyVrf(s, step).Ok? && step.player in ApplyVrf(s, step).value.claims
    ensures ApplyVrf(s, step).value.claims[step.player] == s.claims[step.player]
  {
    hide RoundEffect, Verify, Award, PayRound, Drain, Move, CheckStalled, RequestReveal, RevealCallback, CashOut, CheckDelegable;
    hide FundRound, TakeBet;
  }

  lemma StepKeepsClaim(s: State, step: Step, p: Id)
    requires p in s.claims && p in Next(s, step).claims
    ensures Next(s, step).claims[p] == s.claims[p]
  {
    hide ApplyVrf, ApplySession, ApplyLp, ApplyHouse, ApplyAdmin, MoneyKept;
    if Apply(s, step).Ok? && step.Vrf? {
      if step.v.player == p {
        VrfKeepsClaim(s, step.v);
      } else {
        Elsewhere(s.claims, Next(s, step).claims, step.v.player, p);
      }
    }
  }

  lemma {:induction false} RunKeepsClaim(s: State, steps: seq<Step>, p: Id)
    requires Throughout(s, steps, ClaimOpen(p))
    ensures p in s.claims && p in Run(s, steps).claims && Run(s, steps).claims[p] == s.claims[p]
    decreases |steps|
  {
    hide Next, MoneyKept;
    if steps != [] {
      RunKeepsClaim(Next(s, steps[0]), steps[1..], p);
      StepKeepsClaim(s, steps[0], p);
    }
  }

  /**
   In a funded state an open claim's bet is given back exactly when the window is over, the game is on L1 and
   unfinished, and the player asks, or the house does where nothing was revealed or asked.
   */
  lemma RefundExactly(s: State, p: Id, caller: Id)
    requires Inv(s) && Funded(s) && p in s.claims
    ensures p in s.games
    ensures RefundStalledVrf(s, p, caller).Ok? <==>
            && SatAdd(s.claims[p].startSlot, STALL_SLOTS) < s.slot
            && s.games[p].OnL1? && s.games[p].game.status == VRF_PLAYING
            && (caller == p || (caller == s.vault.houseAuthority && s.games[p].game.safe == 0 && !s.games[p].game.pending))
  {
    ClaimOf(s, p);
    RefundTerms(s, p, caller);
    BetFunded(s, p);
    hide *;
    RefundPermitted(s, p, caller);
  }

  lemma BetFunded(s: State, p: Id)
    requires Inv(s) && Funded(s) && p in s.claims
    ensures s.claims[p].bet <= Assets(s.lamports)
  {
    ClaimCovered(s, p);
    ClaimFunded(s, p);
  }

  /**
   From the slot a round is opened in, and for as long as its claim stays open, whatever else happens: no
   refund within the stall window, and no owner's release within the abandon window.
   */
  lemma NoEarlyRefund(s: State, p: Id, key: Id, mines: nat, bet: nat, steps: seq<Step>, caller: Id)
    requires StartGameVrf(s, p, key, mines, bet).Ok?
    requires Throughout(StartGameVrf(s, p, key, mines, bet).value, steps, ClaimOpen(p))
    ensures var u := Run(StartGameVrf(s, p, key, mines, bet).value, steps);
            && (RefundStalledVrf(u, p, caller).Ok? ==> SatAdd(s.slot, 25) < u.slot)
            && (AdminReleaseVrfClaim(u, p).Ok? ==> SatAdd(s.slot, 216_000) < u.slot)
  {
    var t := StartGameVrf(s, p, key, mines, bet).value;
    StartsNow(s, p, key, mines, bet);
    hide Run, StartGameVrf, Throughout, MoneyKept, RoundEffect;
    RunKeepsClaim(t, steps, p);
    WindowsAre(Run(t, steps), p, caller);
  }

  lemma StartsNow(s: State, p: Id, key: Id, mines: nat, bet: nat)
    requires StartGameVrf(s, p, key, mines, bet).Ok?
    ensures p in StartGameVrf(s, p, key, mines, bet).value.claims
    ensures StartGameVrf(s, p, key, mines, bet).value.claims[p].startSlot == s.slot
  {
    hide FundRound, TakeBet, RoundEffect;
  }

  lemma WindowsAre(s: State, p: Id, caller: Id)
    requires p in s.claims
    ensures RefundStalledVrf(s, p, caller).Ok? ==> SatAdd(s.claims[p].startSlot, 25) < s.slot
    ensures AdminReleaseVrfClaim(s, p).Ok? ==> SatAdd(s.claims[p].startSlot, 216_000) < s.slot
  {
    hide Move, Drain, Assets, RoundEffect, CloseRound;
  }

  // ---------------------------------------------------------------- a withdrawal's cooldown

  function Waiting(u: Id): State -> bool {
    (s: State) => u in s.positions && 0 < s.positions[u].pending
  }

  lemma LpKeepsRequest(s: State, step: LpStep)
    requires !step.Donate? && Waiting(step.user)(s) && ApplyLp(s, step).Ok? && Waiting(step.user)(ApplyLp(s, step).value)
    ensures ApplyLp(s, step).value.positions[step.user].unlock == s.positions[step.user].unlock
    ensures ApplyLp(s, step).value.positions[step.user].pending == s.positions[step.user].pending
  {
    hide LpEffect, DepositToUnits, AdmitDeposit, UnitsToAssets, Move, Drain, Assets;
  }

  lemma StepKeepsRequest(s: State, step: Step, u: Id)
    requires Waiting(u)(s) && Waiting(u)(Next(s, step))
    ensures Next(s, step).positions[u].unlock == s.positions[u].unlock
    ensures Next(s, step).positions[u].pending == s.positions[u].pending
  {
    hide ApplyVrf, ApplySession, ApplyLp, ApplyHouse, ApplyAdmin, MoneyKept;
    if Apply(s, step).Ok? && step.Lp? {
      if step.l.Donate? {
        DonationLeaves(s, step.l);
      } else if step.l.user == u {
        LpKeepsRequest(s, step.l);
      } else {
        Elsewhere(s.positions, Next(s, step).positions, step.l.user, u);
      }
    }
  }

  lemma DonationLeaves(s: State, step: LpStep)
    requires step.Donate? && ApplyLp(s, step).Ok?
    ensures ApplyLp(s, step).value.positions == s.positions
  {
    hide LpEffect, Move;
  }

  lemma {:induction false} RunKeepsRequest(s: State, steps: seq<Step>, u: Id)
    requires Throughout(s, steps, Waiting(u))
    ensures Waiting(u)(s) && Waiting(u)(Run(s, steps))
    ensures Run(s, steps).positions[u].unlock == s.positions[u].unlock
    ensures Run(s, steps).positions[u].pending == s.positions[u].pending
    decreases |steps|
  {
    hide Next, MoneyKept;
    if steps != [] {
      RunKeepsRequest(Next(s, steps[0]), steps[1..], u);
      StepKeepsRequest(s, steps[0], u);
    }
  }

  /**
   A withdrawal asked for at slot x under a cooldown of k waits until slot x + k, whatever happens meanwhile
   and even if the cooldown is changed, and is then for exactly the units asked for.
   */
  lemma NoEarlyWithdrawal(s: State, u: Id, n: nat, steps: seq<Step>)
    requires RequestWithdraw(s, u, n).Ok? && Throughout(RequestWithdraw(s, u, n).value, steps, Waiting(u))
    ensures var t := Run(RequestWithdraw(s, u, n).value, steps);
            && u in t.positions && t.positions[u].pending == n
            && (CompleteWithdraw(t, u).Ok? ==> SatAdd(s.slot, s.v2.cooldown) <= t.slot)
  {
    var asked := RequestWithdraw(s, u, n).value;
    hide Run, MoneyKept, Throughout, UnitsToAssets, Move, LpEffect, Assets;
    RunKeepsRequest(asked, steps, u);
  }

  function HouseWaiting(): State -> bool {
    (s: State) => 0 < s.v2.housePending
  }

  lemma HouseKeepsRequest(s: State, step: HouseStep)
    requires 0 < s.v2.housePending && ApplyHouse(s, step).Ok? && 0 < ApplyHouse(s, step).value.v2.housePending
    ensures ApplyHouse(s, step).value.v2.houseUnlock == s.v2.houseUnlock
    ensures ApplyHouse(s, step).value.v2.housePending == s.v2.housePending
  {
    hide HouseEffect, DepositToUnits, UnitsToAssets, Move, EnforceMinHealth, EnforceHouseFloor, UserUnitsTotal, MayReceive;
    hide Assets;
  }

  lemma VrfKeepsHouse(s: State, step: VrfStep)
    requires ApplyVrf(s, step).Ok?
    ensures ApplyVrf(s, step).value.v2 == s.v2.(outstanding := ApplyVrf(s, step).value.v2.outstanding)
  {
    hide RoundEffect, Verify, Award, PayRound, Drain, Move, CheckStalled, RequestReveal, RevealCallback, CashOut, CheckDelegable;
    hide FundRound, TakeBet, MoneyKept;
  }

  lemma SessionKeepsHouse(s: State, step: SessionStep)
    requires ApplySession(s, step).Ok?
    ensures ApplySession(s, step).value.v2 == s.v2.(outstanding := ApplySession(s, step).value.v2.outstanding)
  {
    hide SessionEffect, Fund, EnsureStats, TakeBet, Move, Drain, CalcMultiplier, MulDivFloor, SettleGame, MoneyKept;
    if step.Prove? {
      ProofKeeps(s, step.player, step.layout, step.digest, step.referral);
    }
  }

  /** A proof releases the obligation and marks the session settled. */
  lemma ProofKeeps(s: State, p: Id, layout: set<nat>, digest: Digest, passed: Option<Account>)
    requires SettleGame(s, p, layout, digest, passed).Ok?
    ensures p in s.sessions
    ensures var t := SettleGame(s, p, layout, digest, passed).value;
            t.v2 == Release(s.v2, s.sessions[p].maxPayout) && t.sessions == s.sessions[p := s.sessions[p].(settled := true)]
  {
    hide SessionEffect, PayReferrer, PayTreasury, CalcHealth, MulDivFloor, CheckLayout, Assets, MoneyKept;
  }

  lemma LpKeepsHouse(s: State, step: LpStep)
    requires ApplyLp(s, step).Ok?
    ensures var v2 := ApplyLp(s, step).value.v2; v2.houseUnlock == s.v2.houseUnlock && v2.housePending == s.v2.housePending
  {
    hide LpEffect, DepositToUnits, AdmitDeposit, UnitsToAssets, Move, Drain, Assets, Fund;
  }

  lemma StepKeepsHouseRequest(s: State, step: Step)
    requires 0 < s.v2.housePending && 0 < Next(s, step).v2.housePending
    ensures Next(s, step).v2.houseUnlock == s.v2.houseUnlock && Next(s, step).v2.housePending == s.v2.housePending
  {
    hide ApplyVrf, ApplySession, ApplyLp, ApplyHouse, MoneyKept, SetReferrer, ClaimReferral;
    if Apply(s, step).Ok? {
      match step {
        case Vrf(v) => VrfKeepsHouse(s, v);
        case Legacy(g) => SessionKeepsHouse(s, g);
        case Lp(l) => LpKeepsHouse(s, l);
        case House(h) => HouseKeepsRequest(s, h);
        case Admin(_) => AdminKeepsHouse(s, step.a);
      }
    }
  }

  lemma AdminKeepsHouse(s: State, step: AdminStep)
    requires ApplyAdmin(s, step).Ok?
    ensures var v2 := ApplyAdmin(s, step).value.v2; v2.houseUnlock == s.v2.houseUnlock && v2.housePending == s.v2.housePending
  {
    hide AdminEffect, EnsureStats, Fund, Move;
  }

  lemma {:induction false} RunKeepsHouseRequest(s: State, steps: seq<Step>)
    requires Throughout(s, steps, HouseWaiting())
    ensures 0 < Run(s, steps).v2.housePending
    ensures Run(s, steps).v2.houseUnlock == s.v2.houseUnlock && Run(s, steps).v2.housePending == s.v2.housePending
    decreases |steps|
  {
    hide Next, MoneyKept;
    if steps != [] {
      RunKeepsHouseRequest(Next(s, steps[0]), steps[1..]);
      StepKeepsHouseRequest(s, steps[0]);
    }
  }

  /** The same for the house's own units. */
  lemma NoEarlyHouseWithdrawal(s: State, n: nat, steps: seq<Step>)
    requires HouseRequestWithdraw(s, n).Ok? && Throughout(HouseRequestWithdraw(s, n).value, steps, HouseWaiting())
    ensures var t := Run(HouseRequestWithdraw(s, n).value, steps);
            && t.v2.housePending == n
            && (HouseCompleteWithdraw(t).Ok? ==> SatAdd(s.slot, s.v2.cooldown) <= t.slot)
  {
    var asked := HouseRequestWithdraw(s, n).value;
    hide Run, MoneyKept, Throughout, UnitsToAssets, Move, HouseEffect, Assets, EnforceHouseFloor, UserUnitsTotal;
    RunKeepsHouseRequest(asked, steps);
  }

  // ---------------------------------------------------------------- a session's expiry

  function SessionOpen(p: Id): State -> bool {
    (s: State) => p in s.sessions
  }

  lemma SessionKeepsStart(s: State, step: SessionStep)
    requires step.player in s.sessions && ApplySession(s, step).Ok? && step.player in ApplySession(s, step).value.sessions
    ensures var g, g' := s.sessions[step.player], ApplySession(s, step).value.sessions[step.player];
            g'.startSlot == g.startSlot && g'.bet == g.bet && g'.mines == g.mines && g'.commitment == g.commitment
  {
    hide SessionEffect, StartGame, Move, Drain, CalcMultiplier, MulDivFloor, SettleGame, MoneyKept, Assets;
    if step.Prove? {
      ProofKeeps(s, step.player, step.layout, step.digest, step.referral);
    } else if step.Open? {
      NoSecondSession(s, step);
    }
  }

  lemma NoSecondSession(s: State, step: SessionStep)
    requires step.Open? && step.player in s.sessions
    ensures ApplySession(s, step).Err?
  {}

  lemma StepKeepsStart(s: State, step: Step, p: Id)
    requires p in s.sessions && p in Next(s, step).sessions
    ensures var g, g' := s.sessions[p], Next(s, step).sessions[p];
            g'.startSlot == g.startSlot && g'.bet == g.bet && g'.mines == g.mines && g'.commitment == g.commitment
  {
    hide ApplyVrf, ApplySession, ApplyLp, ApplyHouse, ApplyAdmin, MoneyKept;
    if Apply(s, step).Ok? && step.Legacy? {
      if step.g.player == p {
        SessionKeepsStart(s, step.g);
      } else {
        Elsewhere(s.sessions, Next(s, step).sessions, step.g.player, p);
      }
    }
  }

  lemma {:induction false} RunKeepsStart(s: State, steps: seq<Step>, p: Id)
    requires Throughout(s, steps, SessionOpen(p))
    ensures p in s.sessions && p in Run(s, steps).sessions
    ensures var g, g' := s.sessions[p], Run(s, steps).sessions[p];
            g'.startSlot == g.startSlot && g'.bet == g.bet && g'.mines == g.mines && g'.commitment == g.commitment
    decreases |steps|
  {
    hide Next, MoneyKept;
    if steps != [] {
      RunKeepsStart(Next(s, steps[0]), steps[1..], p);
      StepKeepsStart(s, steps[0], p);
    }
  }

  /**
   A commit-reveal session, from the slot it is opened in and for as long as its account stays open: tiles
   only within its 300 slots, a refund only after them, and no cleanup of an unsettled one within 38; and a
   settlement only against the commitment it was opened with.
   */
  lemma SessionWindows(s: State, p: Id, mines: nat, bet: nat, commitment: Digest, steps: seq<Step>,
                       tile: nat, isMine: bool, layout: set<nat>, digest: Digest, passed: Option<Account>)
    requires StartGame(s, p, mines, bet, commitment).Ok?
    requires Throughout(StartGame(s, p, mines, bet, commitment).value, steps, SessionOpen(p))
    ensures var u := Run(StartGame(s, p, mines, bet, commitment).value, steps);
            && (RevealTile(u, p, tile, isMine).Ok? ==> u.slot <= SatAdd(s.slot, 300))
            && (RefundExpired(u, p).Ok? ==> SatAdd(s.slot, 300) < u.slot)
            && (CloseUnsettledGame(u, p).Ok? ==> SatAdd(s.slot, 38) < u.slot)
            && (SettleGame(u, p, layout, digest, passed).Ok? ==> digest == commitment && |layout| == mines)
  {
    var t := StartGame(s, p, mines, bet, commitment).value;
    SessionStartsNow(s, p, mines, bet, commitment);
    hide Run, StartGame, Throughout, MoneyKept, SessionEffect;
    RunKeepsStart(t, steps, p);
    SessionWindowsAre(Run(t, steps), p, tile, isMine, layout, digest, passed);
  }

  lemma SessionStartsNow(s: State, p: Id, mines: nat, bet: nat, commitment: Digest)
    requires StartGame(s, p, mines, bet, commitment).Ok?
    ensures var t := StartGame(s, p, mines, bet, commitment).value;
            p in t.sessions && t.sessions[p].startSlot == s.slot && t.sessions[p].mines == mines
            && t.sessions[p].commitment == commitment
  {
    hide Fund, EnsureStats, TakeBet, SessionEffect, MoneyKept;
  }

  lemma SessionWindowsAre(s: State, p: Id, tile: nat, isMine: bool, layout: set<nat>, digest: Digest, passed: Option<Account>)
    requires p in s.sessions
    ensures RevealTile(s, p, tile, isMine).Ok? ==> s.slot <= SatAdd(s.sessions[p].startSlot, 300)
    ensures RefundExpired(s, p).Ok? ==> SatAdd(s.sessions[p].startSlot, 300) < s.slot
    ensures CloseUnsettledGame(s, p).Ok? ==> SatAdd(s.sessions[p].startSlot, 38) < s.slot
    ensures SettleGame(s, p, layout, digest, passed).Ok? ==>
              digest == s.sessions[p].commitment && |layout| == s.sessions[p].mines
  {
    hide SessionEffect, Move, Drain, PayReferrer, PayTreasury, CalcHealth, CalcMultiplier, MulDivFloor, Assets, MoneyKept;
  }
}
