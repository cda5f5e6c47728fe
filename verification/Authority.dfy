/**
 Who may act on a round. While a game is in the rollup, nobody but its player and its session key can move
 it: strangers can neither click, cash out nor bring it home, over any run.
 */
module Authority {
  import opened Prelude
  import opened Reveal
  import opened Ledger
  import opened Handlers
  import opened Runs

  /** A transaction that does not carry p's signature, nor that of p's session key. */
  predicate ByOthers(step: Step, p: Id, key: Id) {
    match step
    case Vrf(Request(q, signer, _)) => signer !in {p, key}
    case Vrf(TakeWin(q, signer)) => signer !in {p, key}
    case Vrf(Undelegate(q, signer)) => signer !in {p, key}
    case Vrf(Refund(q, caller)) => caller !in {p, key}
    case _ => true
  }

  /** The same game, or the game with its one pending request answered by the oracle. */
  ghost predicate Answered(g: VrfGame, g': VrfGame) {
    g' == g || (g.pending && exists r: Randomness :: RevealCallback(g, r) == Ok(g'))
  }

  lemma AnswerSettles(g: VrfGame, g': VrfGame)
    requires g != g' && Answered(g, g')
    ensures !g'.pending && g'.session == g.session && g'.player == g.player
  {
    hide DecideMine;
  }

  lemma AnsweredOnce(g: VrfGame, g': VrfGame, g'': VrfGame)
    requires Answered(g, g') && Answered(g', g'')
    ensures Answered(g, g'')
  {
    if g' != g {
      AnswerSettles(g, g');
    }
  }

  /** p's game in the rollup, under p's session key. */
  predicate Away(s: State, p: Id, key: Id) {
    p in s.games && s.games[p].Delegated? && s.games[p].game.player == p && s.games[p].game.session == key
  }

  /** Untouched: still away, at most answered, and its claim open unless the owner released it. */
  ghost predicate Untouched(s: State, t: State, p: Id, key: Id, released: bool)
    requires Away(s, p, key)
  {
    && Away(t, p, key) && Answered(s.games[p].game, t.games[p].game)
    && (p in s.claims && !released ==> p in t.claims && t.claims[p] == s.claims[p])
  }

  lemma OwnRoundUntouched(s: State, step: VrfStep, key: Id)
    requires Away(s, step.player, key) && ByOthers(Vrf(step), step.player, key) && ApplyVrf(s, step).Ok?
    ensures Untouched(s, ApplyVrf(s, step).value, step.player, key, step.AdminRelease?)
  {
    hide RoundEffect, FundRound, TakeBet, Verify, Award, PayRound, CloseRound, RequestReveal, RevealCallback, CashOut;
    hide Move, Drain, Assets;
    var g := s.games[step.player].game;
    match step {
      case Request(_, signer, tile) => StrangerCannotPlay(g, signer, tile);
      case TakeWin(_, signer) => StrangerCannotPlay(g, signer, 0);
      case Callback(_, r) => AnsweredBy(g, r);
      case _ =>
    }
  }

  lemma StrangerCannotPlay(g: VrfGame, signer: Id, tile: nat)
    requires signer !in {g.player, g.session}
    ensures RequestReveal(g, signer, tile).Err? && CashOut(g, signer).Err?
  {}

  lemma AnsweredBy(g: VrfGame, r: Randomness)
    requires RevealCallback(g, r).Ok?
    ensures Answered(g, RevealCallback(g, r).value)
    ensures RevealCallback(g, r).value.session == g.session && RevealCallback(g, r).value.player == g.player
  {
    hide DecideMine;
  }

  /** Moving a game between the ledgers changes where it is, and not the game. */
  lemma PlaceKeepsGame(s: State, step: VrfStep)
    requires (step.Delegate? || step.Commit? || step.Undelegate?) && ApplyVrf(s, step).Ok?
    ensures var p, t := step.player, ApplyVrf(s, step).value;
            && p in s.games && p in t.games && t == s.(games := t.games) && t.games[p].game == s.games[p].game
            && (step.Undelegate? <==> t.games[p].OnL1?)
  {
    hide RoundEffect, CheckDelegable;
  }

  predicate IsRelease(step: Step, p: Id) {
    step == Vrf(AdminRelease(p))
  }

  lemma StepUntouched(s: State, step: Step, p: Id, key: Id)
    requires Away(s, p, key) && ByOthers(step, p, key)
    ensures Untouched(s, Next(s, step), p, key, IsRelease(step, p))
  {
    hide ApplyVrf, ApplySession, ApplyLp, ApplyHouse, ApplyAdmin, MoneyKept, RevealCallback;
    if Apply(s, step).Ok? && step.Vrf? {
      if step.v.player == p {
        OwnRoundUntouched(s, step.v, key);
      } else {
        Elsewhere(s.games, Next(s, step).games, step.v.player, p);
        Elsewhere(s.claims, Next(s, step).claims, step.v.player, p);
      }
    }
  }

  /**
   Over every run without a signature of the player or the session key: the game stays in the rollup, its
   state changes by one answer to a pending request at most, and its claim stays open unless the owner
   releases it.
   */
  lemma {:induction false} StrangersCannotTouch(s: State, steps: seq<Step>, p: Id, key: Id)
    requires Away(s, p, key) && forall step | step in steps :: ByOthers(step, p, key)
    ensures Untouched(s, Run(s, steps), p, key, exists step :: step in steps && IsRelease(step, p))
    decreases |steps|
  {
    hide Next, ByOthers, Answered, MoneyKept, Away;
    if steps == [] {
      NothingTouches(s, p, key);
    } else {
      var t := Next(s, steps[0]);
      StepUntouched(s, steps[0], p, key);
      StrangersCannotTouch(t, steps[1..], p, key);
      var u := Run(t, steps[1..]);
      AnsweredOnce(s.games[p].game, t.games[p].game, u.games[p].game) by { AreAway(s, t, u, p, key); }
      AreAway(s, t, u, p, key);
      if !exists step :: step in steps && IsRelease(step, p) {
        assert !IsRelease(steps[0], p);
        assert forall step | step in steps[1..] :: step in steps;
      }
    }
  }

  lemma NothingTouches(s: State, p: Id, key: Id)
    requires Away(s, p, key)
    ensures Untouched(s, s, p, key, false)
  {}

  lemma AreAway(s: State, t: State, u: State, p: Id, key: Id)
    requires Away(s, p, key) && Away(t, p, key) && Away(u, p, key)
    ensures p in s.games && p in t.games && p in u.games
  {}
}
