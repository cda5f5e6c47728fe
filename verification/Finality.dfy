/** A landed loss is final, across both replicas and every order of transactions. */
module Finality {
  import opened Prelude
  import opened Reveal
  import opened Ledger
  import opened Handlers
  import opened Runs

  /** The player's round has been lost, wherever its live game is. */
  predicate Losing(s: State, p: Id) {
    p in s.claims && p in s.games && s.games[p].game.status == VRF_LOST
  }

  /** The same loss, still unsettled. */
  predicate StillLost(s: State, t: State, p: Id)
    requires Losing(s, p)
  {
    p in t.claims && t.claims[p] == s.claims[p] && p in t.games && t.games[p].game == s.games[p].game
  }

  /** The two ways a lost claim may end: settled for nothing, or released by the owner after a day. */
  predicate LawfulEnd(s: State, step: Step, p: Id) {
    p in s.claims && p in s.games &&
    match step
    case Vrf(Settle(q, _)) =>
      p == q && Verify(s.claims[p], s.games[p].game).Ok?
      && Award(s.claims[p], Verify(s.claims[p], s.games[p].game).value) == Ok(0)
    case Vrf(AdminRelease(q)) => p == q && s.slot > SatAdd(s.claims[p].startSlot, ABANDON_SLOTS)
    case _ => false
  }

  /** The first transaction after which the loss is gone ends it lawfully. */
  predicate EndsLawfully(s: State, steps: seq<Step>, p: Id)
    decreases |steps|
  {
    steps != [] &&
    if Losing(s, p) && !StillLost(s, Next(s, steps[0]), p) then LawfulEnd(s, steps[0], p)
    else EndsLawfully(Next(s, steps[0]), steps[1..], p)
  }

  lemma NoPlayAfterLoss(s: State, p: Id, key: Id, tile: nat, randomness: Randomness)
    requires Inv(s) && Losing(s, p)
    ensures RequestRevealVrf(s, p, key, tile).Err? && RevealCallbackVrf(s, p, randomness).Err? && CashOutVrf(s, p, key).Err?
  {
    hide RoundEffect, RequestReveal, RevealCallback, CashOut, Honest, Written;
    assert RoundSound(s, p);
    TerminalIsSticky(s.games[p].game, key, tile, randomness);
  }

  lemma NoRefundAfterLoss(s: State, p: Id, key: Id, validator: Option<Id>)
    requires Losing(s, p)
    ensures DelegateVrf(s, p, validator).Err? && RefundStalledVrf(s, p, key).Err?
  {
    hide Move, CloseRound, RoundEffect;
  }

  /**
   Every way out is closed: wherever the lost game is, it cannot be handed to the rollup again,
   played, cashed out or refunded, although a blank L1 copy reads as a game in play.
   */
  lemma LossIsRefused(s: State, p: Id, key: Id, validator: Option<Id>, tile: nat, randomness: Randomness)
    requires Inv(s) && Losing(s, p)
    ensures DelegateVrf(s, p, validator).Err? && RefundStalledVrf(s, p, key).Err?
    ensures RequestRevealVrf(s, p, key, tile).Err? && RevealCallbackVrf(s, p, randomness).Err? && CashOutVrf(s, p, key).Err?
    ensures RawStatus(Blank) == VRF_PLAYING
  {
    hide Inv, DelegateVrf, RefundStalledVrf, RequestRevealVrf, RevealCallbackVrf, CashOutVrf;
    NoRefundAfterLoss(s, p, key, validator);
    NoPlayAfterLoss(s, p, key, tile, randomness);
  }

  lemma VrfKeepsLoss(s: State, step: VrfStep)
    requires Inv(s) && Losing(s, step.player) && ApplyVrf(s, step).Ok?
    ensures StillLost(s, ApplyVrf(s, step).value, step.player) || LawfulEnd(s, Vrf(step), step.player)
  {
    hide Inv, Verify, Award, PayReferrer, PayTreasury, Move, Drain, RoundEffect, StartGameVrf, RefundStalledVrf;
    hide RequestRevealVrf, RevealCallbackVrf, CashOutVrf, DelegateVrf;
    var p := step.player;
    LossIsRefused(s, p, match step case TakeWin(_, k) => k case Refund(_, k) => k case Request(_, k, _) => k case _ => 0,
                  if step.Delegate? then step.passed else None, if step.Request? then step.tile else 0,
                  if step.Callback? then step.randomness else seq(32, _ => 0));
    match step {
      case Start(_, _, _, _) => NoSecondRound(s, step);
      case Settle(_, _) => SettlesForNothing(s, step);
      case _ =>
    }
  }

  lemma NoSecondRound(s: State, step: VrfStep)
    requires step.Start? && step.player in s.claims
    ensures ApplyVrf(s, step).Err?
  {}

  lemma SettlesForNothing(s: State, step: VrfStep)
    requires step.Settle? && Losing(s, step.player) && ApplyVrf(s, step).Ok?
    ensures LawfulEnd(s, Vrf(step), step.player)
  {
    hide PayReferrer, PayTreasury, Move, Drain, RoundEffect;
  }

  lemma StepKeepsLoss(s: State, step: Step, p: Id)
    requires Inv(s) && Losing(s, p)
    ensures StillLost(s, Next(s, step), p) || LawfulEnd(s, step, p)
  {
    hide Inv, ApplyVrf, ApplySession, ApplyLp, ApplyHouse, ApplyAdmin, LawfulEnd, MoneyKept;
    if Apply(s, step).Ok? && step.Vrf? {
      var q := step.v.player;
      if q == p {
        VrfKeepsLoss(s, step.v);
      } else {
        Elsewhere(s.claims, Next(s, step).claims, q, p);
        Elsewhere(s.games, Next(s, step).games, q, p);
      }
    }
  }

  /** A loss survives every run unchanged until it is settled for nothing or released after a day. */
  lemma {:induction false} LossIsFinal(s: State, steps: seq<Step>, p: Id)
    requires Inv(s) && Losing(s, p)
    ensures StillLost(s, Run(s, steps), p) || EndsLawfully(s, steps, p)
    decreases |steps|
  {
    hide Inv, Next, LawfulEnd;
    if steps != [] {
      StepKeepsInv(s, steps[0]);
      StepKeepsLoss(s, steps[0], p);
      if StillLost(s, Next(s, steps[0]), p) {
        LossIsFinal(Next(s, steps[0]), steps[1..], p);
      }
    }
  }

  // ---------------------------------------------------------------- what L1 sees of a game that is away

  predicate Refreshes(step: Step, p: Id) {
    step == Vrf(VrfStep.Commit(p)) || (step.Vrf? && step.v.Undelegate? && step.v.player == p)
  }

  /** L1 holds `image` of p's game, which is in the rollup. */
  predicate Shows(s: State, p: Id, image: Image) {
    p in s.games && s.games[p].Delegated? && s.games[p].image == image
  }

  lemma VrfKeepsImage(s: State, step: VrfStep, image: Image)
    requires Shows(s, step.player, image) && !Refreshes(Vrf(step), step.player) && ApplyVrf(s, step).Ok?
    ensures Shows(ApplyVrf(s, step).value, step.player, image)
  {
    hide RoundEffect, FundRound, TakeBet, Move, Drain, Verify, Award, PayRound, CloseRound, Assets;
    hide RequestReveal, RevealCallback, CashOut;
  }

  lemma StepKeepsImage(s: State, step: Step, p: Id, image: Image)
    requires Shows(s, p, image) && !Refreshes(step, p)
    ensures Shows(Next(s, step), p, image)
  {
    hide ApplyVrf, ApplySession, ApplyLp, ApplyHouse, ApplyAdmin, MoneyKept;
    if Apply(s, step).Ok? && step.Vrf? {
      if step.v.player == p {
        VrfKeepsImage(s, step.v, image);
      } else {
        Elsewhere(s.games, Next(s, step).games, step.v.player, p);
      }
    }
  }

  lemma {:induction false} RunKeepsImage(s: State, steps: seq<Step>, p: Id, image: Image)
    requires Shows(s, p, image) && forall step | step in steps :: !Refreshes(step, p)
    ensures Shows(Run(s, steps), p, image)
    decreases |steps|
  {
    hide Next, Shows, Refreshes, MoneyKept;
    if steps != [] {
      StepKeepsImage(s, steps[0], p, image);
      RunKeepsImage(Next(s, steps[0]), steps[1..], p, image);
    }
  }

  /**
   L1's copy of a game that is away is stale, but never wrong about when: blank from the hand-off on, the live
   game of the last commit from then on, over any run without a further commit or the game's return.
   */
  lemma ImageIsLastCommit(s: State, p: Id, validator: Option<Id>, steps: seq<Step>)
    requires forall step | step in steps :: !Refreshes(step, p)
    ensures DelegateVrf(s, p, validator).Ok? ==> Shows(Run(DelegateVrf(s, p, validator).value, steps), p, Blank)
    ensures CommitVrf(s, p).Ok? ==>
              p in s.games && Shows(Run(CommitVrf(s, p).value, steps), p, Bytes(s.games[p].game))
  {
    hide Run, MoneyKept, RoundEffect, CheckDelegable;
    if DelegateVrf(s, p, validator).Ok? {
      RunKeepsImage(DelegateVrf(s, p, validator).value, steps, p, Blank);
    }
    if CommitVrf(s, p).Ok? {
      RunKeepsImage(CommitVrf(s, p).value, steps, p, Bytes(s.games[p].game));
    }
  }

  // ---------------------------------------------------------------- after an owner's release

  /** A reveal account whose claim is gone. */
  predicate Stranded(s: State, p: Id) {
    p in s.games && p !in s.claims
  }

  lemma StepKeepsStranded(s: State, step: Step, p: Id)
    requires Stranded(s, p)
    ensures Stranded(Next(s, step), p)
  {
    hide ApplySession, ApplyLp, ApplyHouse, ApplyAdmin, MoneyKept, StartGameVrf, Move, Drain, Verify, Award;
    hide PayReferrer, PayTreasury, RequestReveal, RevealCallback, CashOut, CheckDelegable;
    if Apply(s, step).Ok? && step.Vrf? {
      if step.v.player != p {
        Elsewhere(s.claims, Next(s, step).claims, step.v.player, p);
        Elsewhere(s.games, Next(s, step).games, step.v.player, p);
      } else if step.v.Start? {
        StrandedCannotStart(s, p, step.v.session, step.v.mines, step.v.bet);
      }
    }
  }

  lemma StrandedCannotStart(s: State, p: Id, session: Id, mines: nat, bet: nat)
    requires Stranded(s, p)
    ensures StartGameVrf(s, p, session, mines, bet) == Err(AccountInUse)
  {}

  /**
   The owner's release leaves the reveal account behind, and no later transaction frees it: that
   player can never open a VRF round again, even after the rollup has given the account back.
   */
  lemma {:induction false} ReleasedPlayerIsLockedOut(s: State, steps: seq<Step>, p: Id, session: Id, mines: nat, bet: nat)
    requires Stranded(s, p)
    ensures StartGameVrf(Run(s, steps), p, session, mines, bet) == Err(AccountInUse)
    decreases |steps|
  {
    hide Next;
    if steps == [] {
      StrandedCannotStart(s, p, session, mines, bet);
    } else {
      StepKeepsStranded(s, steps[0], p);
      ReleasedPlayerIsLockedOut(Next(s, steps[0]), steps[1..], p, session, mines, bet);
    }
  }

  lemma ReleaseStrands(s: State, p: Id)
    requires Inv(s) && AdminReleaseVrfClaim(s, p).Ok?
    ensures Stranded(AdminReleaseVrfClaim(s, p).value, p)
  {
    hide Move, Drain, RoundEffect, Honest;
  }
}
