/** Transactions, runs of transactions, and the invariant every run keeps. */
module Runs {
  import opened Prelude
  import opened Odds
  import opened Reveal
  import opened Sums
  import opened Ledger
  import opened Handlers

  // ================================================================ transactions

  datatype VrfStep =
    | Start(player: Id, session: Id, mines: nat, bet: nat)
    | Delegate(player: Id, passed: Option<Id>)
    | Request(player: Id, signer: Id, tile: nat)
    | Callback(player: Id, randomness: Randomness)
    | TakeWin(player: Id, signer: Id)
    | Commit(player: Id)
    | Undelegate(player: Id, signer: Id)
    | Settle(player: Id, referral: Option<Account>)
    | Refund(player: Id, caller: Id)
    | AdminRelease(player: Id)

  datatype SessionStep =
    | Open(player: Id, mines: nat, bet: nat, commitment: Digest)
    | Tile(player: Id, tile: nat, isMine: bool)
    | TakeCash(player: Id)
    | Prove(player: Id, layout: set<nat>, digest: Digest, referral: Option<Account>)
    | Expire(player: Id)
    | Close(player: Id)
    | CloseUnsettled(player: Id)

  datatype LpStep =
    | Donate(funder: Id, amount: nat)
    | Deposit(user: Id, amount: nat)
    | RequestOut(user: Id, units: nat)
    | CancelOut(user: Id)
    | CompleteOut(user: Id)
    | ClosePosition(user: Id)

  datatype HouseStep =
    | HouseIn(amount: nat)
    | HouseRequest(units: nat)
    | HouseCancel
    | HouseComplete
    | Unlock(destination: Account, executable: bool)
    | TreasuryOut(destination: Account, executable: bool, amount: nat)

  datatype AdminStep =
    | Refer(player: Id, referrer: Id)
    | ClaimCut(referrer: Id)
    | Configure(vault: VaultUpdate)
    | ConfigureV2(v2: V2Update)
    | Wait(slots: nat)

  datatype Step = Vrf(v: VrfStep) | Legacy(g: SessionStep) | Lp(l: LpStep) | House(h: HouseStep) | Admin(a: AdminStep)

  function ApplyVrf(s: State, step: VrfStep): (r: Result<State>)
    ensures RoundEffect(s, r, step.player)
  {
    hide StartGameVrf, DelegateVrf, RequestRevealVrf, RevealCallbackVrf, CashOutVrf;
    hide CommitVrf, UndelegateVrf, SettleVrf, RefundStalledVrf, AdminReleaseVrfClaim;
    match step
    case Start(p, k, m, b) => StartGameVrf(s, p, k, m, b)
    case Delegate(p, v) => DelegateVrf(s, p, v)
    case Request(p, k, t) => RequestRevealVrf(s, p, k, t)
    case Callback(p, r) => RevealCallbackVrf(s, p, r)
    case TakeWin(p, k) => CashOutVrf(s, p, k)
    case Commit(p) => CommitVrf(s, p)
    case Undelegate(p, k) => UndelegateVrf(s, p, k)
    case Settle(p, r) => SettleVrf(s, p, r)
    case Refund(p, c) => RefundStalledVrf(s, p, c)
    case AdminRelease(p) => AdminReleaseVrfClaim(s, p)
  }

  function ApplySession(s: State, step: SessionStep): (r: Result<State>)
    ensures SessionEffect(s, r, step.player)
  {
    hide StartGame, RevealTile, CashOutGame, SettleGame, RefundExpired, CloseGame, CloseUnsettledGame;
    match step
    case Open(p, m, b, c) => StartGame(s, p, m, b, c)
    case Tile(p, t, m) => RevealTile(s, p, t, m)
    case TakeCash(p) => CashOutGame(s, p)
    case Prove(p, l, d, r) => SettleGame(s, p, l, d, r)
    case Expire(p) => RefundExpired(s, p)
    case Close(p) => CloseGame(s, p)
    case CloseUnsettled(p) => CloseUnsettledGame(s, p)
  }

  function ApplyLp(s: State, step: LpStep): (r: Result<State>)
    ensures LpEffect(s, r, if step.Donate? then step.funder else step.user)
  {
    hide FundVault, LpDeposit, RequestWithdraw, CancelWithdraw, CompleteWithdraw, CloseLpPosition;
    match step
    case Donate(f, n) => FundVault(s, f, n)
    case Deposit(u, n) => LpDeposit(s, u, n)
    case RequestOut(u, n) => RequestWithdraw(s, u, n)
    case CancelOut(u) => CancelWithdraw(s, u)
    case CompleteOut(u) => CompleteWithdraw(s, u)
    case ClosePosition(u) => CloseLpPosition(s, u)
  }

  function ApplyHouse(s: State, step: HouseStep): (r: Result<State>)
    ensures HouseEffect(s, r)
  {
    hide HouseDeposit, HouseRequestWithdraw, HouseCancelWithdraw, HouseCompleteWithdraw;
    hide UnlockOperatorPosition, WithdrawToTreasury;
    match step
    case HouseIn(n) => HouseDeposit(s, n)
    case HouseRequest(n) => HouseRequestWithdraw(s, n)
    case HouseCancel => HouseCancelWithdraw(s)
    case HouseComplete => HouseCompleteWithdraw(s)
    case Unlock(d, x) => UnlockOperatorPosition(s, d, x)
    case TreasuryOut(d, x, n) => WithdrawToTreasury(s, d, x, n)
  }

  function ApplyAdmin(s: State, step: AdminStep): (r: Result<State>)
    ensures AdminEffect(s, r) && (r.Ok? && ConfigSound(s) ==> ConfigSound(r.value))
  {
    hide SetReferrer, ClaimReferral, UpdateVault, UpdateV2Config;
    match step
    case Refer(p, r) => SetReferrer(s, p, r)
    case ClaimCut(r) => ClaimReferral(s, r)
    case Configure(u) => UpdateVault(s, u)
    case ConfigureV2(u) => UpdateV2Config(s, u)
    case Wait(n) => Ok(s.(slot := s.slot + n))
  }

  /** No handler creates or destroys a lamport, whoever the recipients are, or spends the vault's rent. */
  function Apply(s: State, step: Step): (r: Result<State>)
    ensures r.Ok? ==> MoneyKept(s.lamports, r.value.lamports)
  {
    match step
    case Vrf(v) => ApplyVrf(s, v)
    case Legacy(g) => ApplySession(s, g)
    case Lp(l) => ApplyLp(s, l)
    case House(h) => ApplyHouse(s, h)
    case Admin(a) => ApplyAdmin(s, a)
  }

  /** A failed transaction changes nothing. */
  function Next(s: State, step: Step): (t: State)
    ensures MoneyKept(s.lamports, t.lamports)
  {
    var r := Apply(s, step);
    if r.Ok? then r.value else s
  }

  function Run(s: State, steps: seq<Step>): (t: State)
    ensures MoneyKept(s.lamports, t.lamports)
    decreases |steps|
  {
    if steps == [] then s else Run(Next(s, steps[0]), steps[1..])
  }

  lemma RunFirst(s: State, step: Step, rest: seq<Step>)
    ensures Run(s, [step] + rest) == Run(Next(s, step), rest)
  {
    hide Next, MoneyKept;
    assert ([step] + rest)[1..] == rest;
  }

  lemma RunStep(s: State, steps: seq<Step>)
    requires steps != []
    ensures Run(s, steps) == Run(Next(s, steps[0]), steps[1..])
  {
    hide Next, MoneyKept;
  }

  lemma RunNothing(s: State)
    ensures Run(s, []) == s
  {
    hide MoneyKept;
  }

  lemma RunOne(s: State, a: Step)
    ensures Run(s, [a]) == Next(s, a)
  {
    hide Next, Run, MoneyKept;
    assert [a] == [a] + [];
    RunFirst(s, a, []);
    RunNothing(Next(s, a));
  }

  lemma RunTwo(s: State, a: Step, b: Step)
    ensures Run(s, [a, b]) == Next(Next(s, a), b)
  {
    hide Next, Run, MoneyKept;
    assert [a, b] == [a] + [b];
    RunFirst(s, a, [b]);
    RunOne(Next(s, a), b);
  }

  // ================================================================ the invariant

  /** Exactly-once reservation: the accumulator is the sum of what is still owed. */
  ghost predicate ReservationsExact(s: State) {
    s.v2.outstanding == Sum(s.claims, ReservedOf) + Sum(s.sessions, ObligationOf)
  }

  ghost predicate SessionsSound(s: State) {
    forall p | p in s.sessions :: SessionSound(s, p)
  }

  ghost predicate UnitsConserved(s: State) {
    && s.v2.totalUnits == OperatorUnits(s.v2) + Sum(s.positions, UnitsOf)
    && s.v2.totalPending == Sum(s.positions, PendingOf)
    && s.v2.totalUnits <= U128_MAX
  }

  /** Lamports fit a u64 in all, and the vault keeps its rent minimum. */
  ghost predicate MoneySound(s: State) {
    Total(s.lamports) <= U64_MAX && Rent(VAULT_SPACE) <= Bal(s.lamports, VaultPda)
  }

  /** A player's claim belongs to the round its game is playing, on the terms L1 wrote. */
  ghost predicate RoundSound(s: State, p: Id) {
    && (p in s.games ==> Honest(s.games[p].game) && s.games[p].game.player == p)
    && (p in s.claims ==>
          && p in s.games && p in s.stats && Written(s.claims[p])
          && s.games[p].game.mines == s.claims[p].mines && s.games[p].game.edge == s.claims[p].edge)
  }

  ghost predicate RoundsSound(s: State) {
    s.claims.Keys <= s.games.Keys && forall p | p in s.games :: RoundSound(s, p)
  }

  ghost predicate Inv(s: State) {
    ReservationsExact(s) && SessionsSound(s) && UnitsConserved(s) && MoneySound(s) && ConfigSound(s) && RoundsSound(s)
  }

  /** The ledger right after `initialize_v2`. Games from before it reserved nothing. */
  ghost predicate Genesis(s: State) {
    && VaultConfigOk(s.vault)
    && Total(s.lamports) <= U64_MAX && Rent(VAULT_SPACE) <= Bal(s.lamports, VaultPda)
    && InitializeV2(Assets(s.lamports)) == Ok(s.v2)
    && s.claims == map[] && s.games == map[] && s.positions == map[]
    && SessionsSound(s) && forall p | p in s.sessions :: s.sessions[p].maxPayout == 0
  }

  lemma {:induction false} NothingOwed(m: map<Id, Session>)
    requires forall p | p in m :: m[p].maxPayout == 0
    ensures Sum(m, ObligationOf) == 0
    decreases |m|
  {
    if m != map[] {
      NothingOwed(m - {Pick(m)});
    }
  }

  lemma GenesisInv(s: State)
    requires Genesis(s)
    ensures Inv(s)
  {
    NothingOwed(s.sessions);
    BalanceBounded(s.lamports, VaultPda);
  }


  /** At the start a unit is a lamport: one SOL of them is the seed nobody can withdraw, the rest the house's. */
  lemma GenesisShares(s: State)
    requires Genesis(s)
    ensures s.v2.totalUnits == Assets(s.lamports) == s.v2.seedUnits + s.v2.houseUnits && s.v2.seedUnits == 1_000_000_000
    ensures s.v2.housePending == 0 && s.v2.totalPending == 0 && s.v2.outstanding == 0 && !s.v2.vrfEnabled
    ensures s.v2.minHealth == 1_000 && s.v2.minHouseShare == 5_000 && s.v2.maxUserPosition == 1_000
    ensures s.v2.cooldown == 648_000 && s.v2.minDeposit == 10_000_000
  {}

  // ---------------------------------------------------------------- one entry at a time

  /** If all but one entry agree, the sums differ by that entry. */
  lemma SumChange<V(!new)>(m: map<Id, V>, m': map<Id, V>, w: (Id, V) -> nat, k: Id)
    requires m - {k} == m' - {k}
    ensures Sum(m, w) + (if k in m' then w(k, m'[k]) else 0) == Sum(m', w) + (if k in m then w(k, m[k]) else 0)
  {
    if k in m {
      SumRemove(m, w, k);
    } else {
      assert m - {k} == m;
    }
    if k in m' {
      SumRemove(m', w, k);
    } else {
      assert m' - {k} == m';
    }
  }

  lemma ClaimIsReserved(s: State, p: Id)
    requires ReservationsExact(s)
    ensures Reserved(s, p) <= s.v2.outstanding
  {
    if p in s.claims {
      SumAtLeast(s.claims, ReservedOf, p);
    }
  }

  lemma SessionIsReserved(s: State, p: Id)
    requires ReservationsExact(s)
    ensures Owed(s, p) <= s.v2.outstanding
  {
    if p in s.sessions {
      SumAtLeast(s.sessions, ObligationOf, p);
    }
  }

  lemma PositionWithinTotals(s: State, u: Id)
    requires UnitsConserved(s)
    ensures Units(s, u) <= s.v2.totalUnits - OperatorUnits(s.v2) && Pending(s, u) <= s.v2.totalPending
  {
    if u in s.positions {
      SumAtLeast(s.positions, UnitsOf, u);
      SumAtLeast(s.positions, PendingOf, u);
    }
  }

  // ---------------------------------------------------------------- reservations, units, configuration

  /** Every game-end path gives its reservation back once, and no release ever saturates. */
  lemma StepKeepsReservations(s: State, step: Step)
    requires ReservationsExact(s) && SessionsSound(s)
    ensures ReservationsExact(Next(s, step)) && SessionsSound(Next(s, step))
  {
    hide ApplyVrf, ApplySession, ApplyLp, ApplyHouse, ApplyAdmin, MoneyKept;
    var t := Next(s, step);
    if Apply(s, step).Ok? {
      match step {
        case Vrf(v) =>
          ClaimIsReserved(s, v.player);
          SumChange(s.claims, t.claims, ReservedOf, v.player);
        case Legacy(g) =>
          SessionIsReserved(s, g.player);
          SumChange(s.sessions, t.sessions, ObligationOf, g.player);
          forall p | p in t.sessions
            ensures SessionSound(t, p)
          {
            assert p != g.player ==> p in t.sessions - {g.player};
          }
        case Lp(_) =>
        case House(_) =>
        case Admin(_) =>
      }
    }
  }

  /** Units are conserved by every handler. */
  lemma StepKeepsUnits(s: State, step: Step)
    requires UnitsConserved(s)
    ensures UnitsConserved(Next(s, step))
  {
    hide ApplyVrf, ApplySession, ApplyLp, ApplyHouse, ApplyAdmin, MoneyKept;
    var t := Next(s, step);
    if Apply(s, step).Ok? && step.Lp? {
      var u := if step.l.Donate? then step.l.funder else step.l.user;
      SumChange(s.positions, t.positions, UnitsOf, u);
      SumChange(s.positions, t.positions, PendingOf, u);
    }
  }

  lemma StepKeepsConfig(s: State, step: Step)
    requires ConfigSound(s)
    ensures ConfigSound(Next(s, step))
  {
    hide ApplyVrf, ApplySession, ApplyLp, ApplyHouse, ApplyAdmin, MoneyKept;
  }

  lemma StartKeepsRound(s: State, p: Id, session: Id, mines: nat, bet: nat)
    requires ConfigSound(s) && StartGameVrf(s, p, session, mines, bet).Ok?
    ensures RoundSound(StartGameVrf(s, p, session, mines, bet).value, p)
  {
    hide FundRound, Move, Quote, Reserve, Assets, WorstCasePayout, RoundEffect, Honest;
    OpenHonest(p, session, mines, s.vault.edge);
  }

  lemma PlayKeepsRound(s: State, step: VrfStep)
    requires RoundSound(s, step.player) && ApplyVrf(s, step).Ok?
    requires step.Request? || step.Callback? || step.TakeWin?
    ensures RoundSound(ApplyVrf(s, step).value, step.player)
  {
    hide Honest, RoundEffect;
    var g := s.games[step.player].game;
    match step {
      case Request(p, k, tile) => RequestHonest(g, k, tile);
      case Callback(p, r) => CallbackHonest(g, r);
      case TakeWin(p, k) => CashOutHonest(g, k);
    }
  }

  lemma VrfKeepsRound(s: State, step: VrfStep)
    requires ConfigSound(s) && RoundSound(s, step.player) && ApplyVrf(s, step).Ok?
    ensures RoundSound(ApplyVrf(s, step).value, step.player)
  {
    hide StartGameVrf, Honest, Verify, Award, PayReferrer, PayTreasury, Move, Drain, AdminSpendable, RoundEffect;
    hide RequestRevealVrf, RevealCallbackVrf, CashOutVrf, CheckDelegable;
    match step {
      case Start(p, k, m, b) => StartKeepsRound(s, p, k, m, b);
      case Request(_, _, _) => PlayKeepsRound(s, step);
      case Callback(_, _) => PlayKeepsRound(s, step);
      case TakeWin(_, _) => PlayKeepsRound(s, step);
      case _ =>
    }
  }

  lemma StepKeepsRounds(s: State, step: Step)
    requires ConfigSound(s) && RoundsSound(s)
    ensures RoundsSound(Next(s, step))
  {
    hide ApplyVrf, ApplySession, ApplyLp, ApplyHouse, ApplyAdmin, MoneyKept, Honest, Written;
    var t := Next(s, step);
    if Apply(s, step).Ok? && step.Vrf? {
      var p := step.v.player;
      VrfKeepsRound(s, step.v);
      forall q
        ensures q in t.claims ==> q in t.games
        ensures q in t.games ==> RoundSound(t, q)
      {
        if q != p {
          Elsewhere(s.games, t.games, p, q);
          Elsewhere(s.claims, t.claims, p, q);
        }
      }
    }
  }

  lemma Elsewhere<V>(m: map<Id, V>, m': map<Id, V>, p: Id, q: Id)
    requires m - {p} == m' - {p} && q != p
    ensures q in m <==> q in m'
    ensures q in m ==> m'[q] == m[q]
  {
    assert q in m <==> q in m - {p};
    assert q in m' <==> q in m' - {p};
  }

  // ---------------------------------------------------------------- every run

  lemma StepKeepsInv(s: State, step: Step)
    requires Inv(s)
    ensures Inv(Next(s, step))
  {
    StepKeepsReservations(s, step);
    StepKeepsUnits(s, step);
    StepKeepsConfig(s, step);
    StepKeepsRounds(s, step);
  }

  lemma {:induction false} RunKeepsInv(s: State, steps: seq<Step>)
    requires Inv(s)
    ensures Inv(Run(s, steps))
    decreases |steps|
  {
    if steps != [] {
      StepKeepsInv(s, steps[0]);
      RunKeepsInv(Next(s, steps[0]), steps[1..]);
    }
  }

  /** Whatever transactions follow `initialize_v2`, in whatever order, the invariant holds. */
  lemma ReachableInv(s: State, steps: seq<Step>)
    requires Genesis(s)
    ensures Inv(Run(s, steps))
  {
    GenesisInv(s);
    RunKeepsInv(s, steps);
  }
}
