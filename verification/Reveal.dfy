/**
 The play side of a VRF round as a value: the reveal state the rollup writes click by click,
 the replay L1 runs over the recorded randomness, and the agreement of the two.
 */
module Reveal {
  import opened Prelude
  import opened Arith
  import opened Odds
  import HouseEdge

  const VRF_PLAYING: nat := 0
  const VRF_WON: nat := 1
  const VRF_LOST: nat := 2
  const NO_TILE: nat := 255
  const MAX_VRF_REVEALS: nat := 16

  type Byte = b: nat | b < 256
  type Randomness = r: seq<Byte> | |r| == 32 witness seq(32, _ => 0)

  datatype VrfReveal = VrfReveal(tile: nat, randomness: Randomness)
  type Reveals = r: seq<VrfReveal> | |r| == MAX_VRF_REVEALS witness NoReveals()

  function NoReveals(): seq<VrfReveal> {
    seq(MAX_VRF_REVEALS, _ => VrfReveal(0, seq(32, _ => 0)))
  }

  /** The escrow claim. It lives on L1, is written once at start and is never delegated. */
  datatype Claim = Claim(bet: nat, reserved: nat, mines: nat, edge: nat, startSlot: nat, settled: bool)

  /** The reveal state. A tile mask is the set of its one bits. */
  datatype VrfGame = VrfGame(
    status: nat, player: nat, session: nat, mines: nat, edge: nat, safe: nat, count: nat,
    pending: bool, pendingTile: nat, revealed: set<nat>, mined: set<nat>, mult: nat, records: Reveals)

  // ---------------------------------------------------------------- the draw

  function LeNat(bs: seq<Byte>): nat {
    if bs == [] then 0 else bs[0] + 256 * LeNat(bs[1..])
  }

  function LeBytes(x: nat, k: nat): seq<Byte> {
    if k == 0 then [] else [x % 256] + LeBytes(x / 256, k - 1)
  }

  /** `u64::from_le_bytes` of the first eight bytes. */
  function Draw(randomness: Randomness): nat {
    LeNat(randomness[..8])
  }

  /** Eight uniform bytes are one uniform draw below 2^64: reading and writing them are inverse. */
  lemma {:induction false} DrawIsUniform(bs: seq<Byte>, x: nat)
    ensures LeNat(bs) < Pow(256, |bs|) && LeBytes(LeNat(bs), |bs|) == bs
    ensures x < Pow(256, |bs|) ==> |LeBytes(x, |bs|)| == |bs| && LeNat(LeBytes(x, |bs|)) == x
    decreases |bs|
  {
    if bs != [] {
      DrawIsUniform(bs[1..], x / 256);
      HouseEdge.ResidueIs(LeNat(bs), 256, LeNat(bs[1..]), bs[0]);
      assert [bs[0]] + bs[1..] == bs;
      var rest := LeBytes(x / 256, |bs| - 1);
      assert LeBytes(x, |bs|)[1..] == rest;
    }
  }

  predicate DecideMine(randomness: Randomness, safe: nat, mines: nat) {
    var remaining := SatSub(GRID_SIZE, safe);
    remaining != 0 && Draw(randomness) % remaining < mines
  }

  /** With as many tiles left as mines, every draw is a mine. */
  lemma LastTilesAreMines(randomness: Randomness, safe: nat, mines: nat)
    requires 1 <= mines && safe < GRID_SIZE && GRID_SIZE <= safe + mines
    ensures DecideMine(randomness, safe, mines)
  {}

  /** The program's decision is the priced one, on the draw of the first eight bytes. */
  lemma DecideMineIsPriced(randomness: Randomness, safe: nat, mines: nat)
    ensures DecideMine(randomness, safe, mines) <==> HouseEdge.IsMine(GRID_SIZE, Draw(randomness), safe, mines)
    ensures Draw(randomness) < 0x1_0000_0000_0000_0000
  {
    DrawIsUniform(randomness[..8], 0);
    assert Pow(256, 4) == 0x1_0000_0000;
    assert Pow(256, 8) == 0x1_0000_0000_0000_0000;
  }

  // ---------------------------------------------------------------- play

  function OpenGame(player: nat, session: nat, mines: nat, edge: nat): VrfGame {
    VrfGame(VRF_PLAYING, player, session, mines, edge, 0, 0, false, NO_TILE, {}, {}, BPS, NoReveals())
  }

  function RequestReveal(g: VrfGame, signer: nat, tile: nat): Result<VrfGame> {
    if signer != g.session then Err(BadSessionKey) else
    :- Need(g.status == VRF_PLAYING, GameNotPlaying);
    :- Need(tile < GRID_SIZE, InvalidTileIndex);
    :- Need(!g.pending, RevealPending);
    :- Need(tile !in g.revealed, TileAlreadyRevealed);
    Ok(g.(pending := true, pendingTile := tile))
  }

  /** The locked tile and its randomness take the next slot; the request is answered. */
  function Recorded(g: VrfGame, randomness: Randomness): VrfGame
    requires g.count < MAX_VRF_REVEALS
  {
    g.(records := g.records[g.count := VrfReveal(g.pendingTile, randomness)], count := g.count + 1,
       revealed := g.revealed + {g.pendingTile}, pending := false, pendingTile := NO_TILE)
  }

  /** The oracle's callback: record the randomness, then decide the locked tile. */
  function RevealCallback(g: VrfGame, randomness: Randomness): Result<VrfGame> {
    if !g.pending then Err(NoRevealPending) else
    :- Need(g.pendingTile < GRID_SIZE, MathOverflow);
    :- Need(g.count < MAX_VRF_REVEALS, TooManyReveals);
    var recorded := Recorded(g, randomness);
    if DecideMine(randomness, g.safe, g.mines) then
      Ok(recorded.(mined := g.mined + {g.pendingTile}, status := VRF_LOST))
    else
      var mult :- CalcMultiplier(g.safe + 1, g.mines, g.edge);
      var cleared := g.safe + 1 >= SatSub(GRID_SIZE, g.mines);
      Ok(recorded.(safe := g.safe + 1, mult := mult, status := if cleared then VRF_WON else g.status))
  }

  function CashOut(g: VrfGame, signer: nat): Result<VrfGame> {
    if signer != g.session && signer != g.player then Err(BadSessionKey) else
    :- Need(g.status == VRF_PLAYING, GameNotPlaying);
    :- Need(!g.pending, RevealPending);
    :- Need(g.safe > 0, NoTilesRevealed);
    Ok(g.(status := VRF_WON))
  }

  // ---------------------------------------------------------------- replay

  datatype Replayed = Replayed(safe: nat, lost: bool)

  /** L1's pass over the first n records: the safe count and whether a mine ended it. */
  function Replay(rs: Reveals, n: nat, mines: nat, i: nat, safe: nat): Result<Replayed>
    requires i <= n <= MAX_VRF_REVEALS
    decreases n - i
  {
    if i == n then Ok(Replayed(safe, false))
    else if rs[i].tile >= GRID_SIZE then Err(InvalidTileIndex)
    else if DecideMine(rs[i].randomness, safe, mines) then Ok(Replayed(safe, true))
    else Replay(rs, n, mines, i + 1, safe + 1)
  }

  datatype Verdict = Verdict(lost: bool, safe: nat, mult: nat)

  /** Everything `settle_vrf` checks before it moves money. */
  function Verify(c: Claim, g: VrfGame): Result<Verdict> {
    if c.settled then Err(GameAlreadySettled) else
    :- Need(g.status == VRF_WON || g.status == VRF_LOST, GameNotPlaying);
    :- Need(g.mines == c.mines, ReplayMismatch);
    :- Need(g.edge == c.edge, ReplayMismatch);
    :- Need(g.count <= MAX_VRF_REVEALS, TooManyReveals);
    var Replayed(safe, lost) :- Replay(g.records, g.count, g.mines, 0, 0);
    :- Need(safe == g.safe, ReplayMismatch);
    :- Need(g.status == if lost then VRF_LOST else VRF_WON, ReplayMismatch);
    :- Need(lost || safe > 0, ReplayMismatch);
    var mult :- CalcMultiplier(safe, g.mines, g.edge);
    :- Need(g.mult == mult, ReplayMismatch);
    Ok(Verdict(lost, safe, mult))
  }

  /** The payout of a verified round, under the hard cap. */
  function Award(c: Claim, v: Verdict): Result<nat> {
    if v.lost then Ok(0)
    else
      var p :- MulDivFloor(c.bet, v.mult, BPS);
      :- Need(p <= c.reserved, PayoutExceedsReserved);
      Ok(p)
  }

  predicate SafePrefix(rs: Reveals, n: nat, mines: nat)
    requires n <= MAX_VRF_REVEALS
  {
    forall i | 0 <= i < n :: !DecideMine(rs[i].randomness, i, mines)
  }

  predicate TilesInRange(rs: Reveals, n: nat)
    requires n <= MAX_VRF_REVEALS
  {
    forall i | 0 <= i < n :: rs[i].tile < GRID_SIZE
  }

  /** What the replay finds: the longest safe prefix of the draws, and whether a mine cut it short. */
  ghost predicate Finds(rs: Reveals, n: nat, mines: nat, safe: nat, lost: bool)
    requires n <= MAX_VRF_REVEALS
  {
    && safe <= n
    && SafePrefix(rs, safe, mines)
    && TilesInRange(rs, safe)
    && if lost then safe < n && rs[safe].tile < GRID_SIZE && DecideMine(rs[safe].randomness, safe, mines)
               else safe == n
  }

  lemma {:induction false} ReplayMeaning(rs: Reveals, n: nat, mines: nat, i: nat, safe: nat, lost: bool)
    requires i <= n <= MAX_VRF_REVEALS && SafePrefix(rs, i, mines) && TilesInRange(rs, i)
    ensures Replay(rs, n, mines, i, i) == Ok(Replayed(safe, lost)) <==> i <= safe && Finds(rs, n, mines, safe, lost)
    decreases n - i
  {
    if i == n {
    } else if rs[i].tile >= GRID_SIZE || DecideMine(rs[i].randomness, i, mines) {
    } else {
      ReplayMeaning(rs, n, mines, i + 1, safe, lost);
    }
  }

  // ---------------------------------------------------------------- soundness on any bytes

  /** A claim as `start_game_vrf` writes it. */
  predicate Written(c: Claim) {
    && MIN_MINES <= c.mines <= MAX_MINES
    && c.edge <= MAX_HOUSE_EDGE_BPS
    && WorstCasePayout(c.bet, c.mines, c.edge) == Ok(c.reserved)
    && c.reserved <= U64_MAX
    && !c.settled
  }

  /** The replay never counts past the last safe tile: more records than that must contain a mine. */
  lemma ReplayStopsAtLastSafeTile(rs: Reveals, n: nat, mines: nat, safe: nat, lost: bool)
    requires MIN_MINES <= mines <= MAX_MINES && n <= MAX_VRF_REVEALS
    requires Replay(rs, n, mines, 0, 0) == Ok(Replayed(safe, lost))
    ensures Finds(rs, n, mines, safe, lost) && safe + mines <= GRID_SIZE
    ensures GRID_SIZE < n + mines ==> lost
  {
    ReplayMeaning(rs, n, mines, 0, safe, lost);
    if GRID_SIZE < n + mines {
      LastTilesAreMines(rs[GRID_SIZE - mines].randomness, GRID_SIZE - mines, mines);
    }
  }

  /** A verified outcome is the one the recorded draws spell out, at a safe count the board allows. */
  lemma VerifiedOutcome(c: Claim, g: VrfGame)
    requires MIN_MINES <= c.mines <= MAX_MINES && Verify(c, g).Ok?
    ensures var v := Verify(c, g).value;
            && Finds(g.records, g.count, c.mines, v.safe, v.lost)
            && v.safe + c.mines <= GRID_SIZE
            && (!v.lost ==> 1 <= v.safe)
            && CalcMultiplier(v.safe, c.mines, c.edge) == Ok(v.mult)
  {
    hide DecideMine, CalcMultiplier;
    var v := Verify(c, g).value;
    var replayed := Replay(g.records, g.count, g.mines, 0, 0);
    assert replayed.value.safe == v.safe && replayed.value.lost == v.lost;
    ReplayStopsAtLastSafeTile(g.records, g.count, c.mines, v.safe, v.lost);
  }

  /** Committed bytes whose summary is what their records spell out, on the claim's own terms. */
  ghost predicate Consistent(c: Claim, g: VrfGame) {
    && !c.settled && g.mines == c.mines && g.edge == c.edge && g.count <= 16
    && (g.status == VRF_WON || g.status == VRF_LOST) && g.safe + c.mines <= 16 && c.edge <= BPS
    && Finds(g.records, g.count, c.mines, g.safe, g.status == VRF_LOST)
    && (g.status == VRF_WON ==> 1 <= g.safe) && g.mult == Multiplier(GRID_SIZE, g.safe, c.mines, c.edge)
  }

  /** L1 accepts committed bytes exactly when they are consistent, and then takes them at their word. */
  lemma VerifyExactly(c: Claim, g: VrfGame)
    requires MIN_MINES <= c.mines <= MAX_MINES && c.edge <= BPS
    ensures Verify(c, g).Ok? <==> Consistent(c, g)
    ensures Verify(c, g).Ok? ==> Verify(c, g).value == Verdict(g.status == VRF_LOST, g.safe, g.mult)
  {
    if g.safe + c.mines <= GRID_SIZE {
      PriceIs(g.safe, c.mines, c.edge);
    }
    hide DecideMine, Multiplier, CalcMultiplier, Finds, TilesInRange, SafePrefix;
    if Verify(c, g).Ok? {
      VerifiedOutcome(c, g);
      VerifiedSummary(c, g);
    } else if Consistent(c, g) {
      NothingFound(g.records, c.mines);
      ReplayMeaning(g.records, g.count, c.mines, 0, g.safe, g.status == VRF_LOST);
    }
  }

  lemma PriceIs(safe: nat, mines: nat, edge: nat)
    requires safe + mines <= GRID_SIZE && edge <= BPS
    ensures CalcMultiplier(safe, mines, edge) == Ok(Multiplier(GRID_SIZE, safe, mines, edge))
  {}

  lemma NothingFound(rs: Reveals, mines: nat)
    ensures SafePrefix(rs, 0, mines) && TilesInRange(rs, 0)
  {}

  lemma VerifiedSummary(c: Claim, g: VrfGame)
    requires Verify(c, g).Ok?
    ensures var v := Verify(c, g).value;
            && !c.settled && g.mines == c.mines && g.edge == c.edge && g.count <= 16
            && g.status == (if v.lost then VRF_LOST else VRF_WON) && g.safe == v.safe && g.mult == v.mult
  {
    hide Replay, CalcMultiplier;
  }

  /** For any claim and verdict, an award is nothing, or the price where the reservation covers it. */
  lemma AwardIsCapped(c: Claim, v: Verdict)
    ensures Award(c, v).Ok? <==> v.lost || (c.bet * v.mult / BPS <= c.reserved && c.bet * v.mult / BPS <= U64_MAX)
    ensures Award(c, v).Ok? ==> Award(c, v).value == (if v.lost then 0 else c.bet * v.mult / BPS)
  {}

  /**
   Whatever bytes the rollup committed: a verified round pays nothing on a loss, or exactly the
   price of the replayed safe count. The cap never fires.
   */
  lemma SettlementSound(c: Claim, g: VrfGame)
    requires Written(c) && Verify(c, g).Ok?
    ensures var v := Verify(c, g).value;
            && v.safe + c.mines <= GRID_SIZE
            && Award(c, v) == Ok(if v.lost then 0 else Payout(c.bet, v.safe, c.mines, c.edge))
            && Award(c, v).value <= c.reserved
  {
    VerifiedOutcome(c, g);
    var v := Verify(c, g).value;
    if !v.lost {
      PayoutWithinWorstCase(c.bet, v.safe, c.mines, c.edge);
    }
  }

  // ---------------------------------------------------------------- what play keeps

  function TilesOf(rs: Reveals, n: nat): set<nat>
    requires n <= MAX_VRF_REVEALS
  {
    set i | 0 <= i < n :: rs[i].tile
  }

  /** The rollup's summary is exactly what its recorded randomness says. */
  ghost predicate Honest(g: VrfGame) {
    && MIN_MINES <= g.mines <= MAX_MINES && g.edge <= MAX_HOUSE_EDGE_BPS
    && g.status <= VRF_LOST
    && g.safe + g.mines <= GRID_SIZE
    && g.count == g.safe + (if g.status == VRF_LOST then 1 else 0)
    && Finds(g.records, g.count, g.mines, g.safe, g.status == VRF_LOST)
    && (g.status != VRF_WON ==> g.safe + g.mines < GRID_SIZE)
    && (g.status == VRF_WON ==> 1 <= g.safe)
    && g.mult == Multiplier(GRID_SIZE, g.safe, g.mines, g.edge)
    && (g.pending ==> g.status == VRF_PLAYING && g.pendingTile < GRID_SIZE && g.pendingTile !in g.revealed)
    && g.revealed == TilesOf(g.records, g.count) && |g.revealed| == g.count
    && g.mined == if g.status == VRF_LOST then {g.records[g.safe].tile} else {}
  }

  lemma OpenHonest(player: nat, session: nat, mines: nat, edge: nat)
    requires MIN_MINES <= mines <= MAX_MINES && edge <= MAX_HOUSE_EDGE_BPS
    ensures Honest(OpenGame(player, session, mines, edge))
  {}

  /** One more record after a safe prefix either extends it or ends it. */
  lemma RecordExtends(rs: Reveals, n: nat, mines: nat, next: VrfReveal, rs': Reveals)
    requires n < MAX_VRF_REVEALS && Finds(rs, n, mines, n, false)
    requires next.tile < GRID_SIZE && rs' == rs[n := next]
    ensures var mine := DecideMine(next.randomness, n, mines);
            Finds(rs', n + 1, mines, if mine then n else n + 1, mine)
    ensures TilesOf(rs', n + 1) == TilesOf(rs, n) + {next.tile}
  {
    assert forall i | 0 <= i < n :: rs'[i] == rs[i];
    forall t | t in TilesOf(rs, n) + {next.tile}
      ensures t in TilesOf(rs', n + 1)
    {
      if t == next.tile {
        assert rs'[n].tile == t;
      } else {
        var i :| 0 <= i < n && rs[i].tile == t;
        assert rs'[i].tile == t;
      }
    }
  }

  /** A reveal in flight is always answered: the callback cannot run out of slots or overflow. */
  lemma CallbackHonest(g: VrfGame, randomness: Randomness)
    requires Honest(g)
    ensures RevealCallback(g, randomness).Ok? <==> g.pending
    ensures g.pending ==>
              var g' := RevealCallback(g, randomness).value;
              && Honest(g')
              && g'.revealed == g.revealed + {g.pendingTile}
              && (g'.status == VRF_LOST <==> DecideMine(randomness, g.safe, g.mines))
              && (g'.status == VRF_WON <==> g'.safe == GRID_SIZE - g.mines)
  {
    hide DecideMine, Multiplier, Finds, TilesOf;
    if g.pending {
      var next := VrfReveal(g.pendingTile, randomness);
      RecordExtends(g.records, g.count, g.mines, next, g.records[g.count := next]);
    }
  }

  lemma RequestHonest(g: VrfGame, signer: nat, tile: nat)
    requires Honest(g) && RequestReveal(g, signer, tile).Ok?
    ensures Honest(RequestReveal(g, signer, tile).value)
  {}

  lemma CashOutHonest(g: VrfGame, signer: nat)
    requires Honest(g) && CashOut(g, signer).Ok?
    ensures Honest(CashOut(g, signer).value)
  {}

  /**
   Settlement completeness: a finished round passes every pin, bound and replay check of its own
   claim, and the replay returns the incremental safe count, outcome and multiplier.
   */
  lemma HonestVerifies(c: Claim, g: VrfGame)
    requires Honest(g) && Written(c) && g.mines == c.mines && g.edge == c.edge
    requires g.status != VRF_PLAYING
    ensures Verify(c, g) == Ok(Verdict(g.status == VRF_LOST, g.safe, g.mult))
  {
    ReplayMeaning(g.records, g.count, g.mines, 0, g.safe, g.status == VRF_LOST);
  }

  /** No click is possible once the outcome is set, and no cash-out either. */
  lemma TerminalIsSticky(g: VrfGame, signer: nat, tile: nat, randomness: Randomness)
    requires Honest(g) && g.status != VRF_PLAYING
    ensures RequestReveal(g, signer, tile).Err? && RevealCallback(g, randomness).Err? && CashOut(g, signer).Err?
  {}
}
