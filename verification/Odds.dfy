/**
 The price of a round: the hypergeometric multiplier, the worst case it is reserved at,
 and the draw that decides one tile. Laws are stated for a board of n tiles; the program
 plays on GRID_SIZE of them.
 */
module Odds {
  import opened Prelude
  import opened Arith

  const GRID_SIZE: nat := 16
  const MIN_MINES: nat := 1
  const MAX_MINES: nat := 15
  const MAX_HOUSE_EDGE_BPS: nat := 1_000

  // ---------------------------------------------------------------- the specification

  /** n * (n-1) * ... * (n-k+1): the ways to click k tiles in order. */
  function Falling(n: nat, k: nat): nat
    requires k <= n
  {
    if k == 0 then 1 else Falling(n, k - 1) * (n - k + 1)
  }

  /** Pascal's triangle, the reference the documentation prices against. */
  function Choose(n: nat, k: nat): nat {
    if k == 0 then 1
    else if n == 0 then 0
    else Choose(n - 1, k - 1) + Choose(n - 1, k)
  }

  lemma {:induction false} FallingPositive(n: nat, k: nat)
    requires k <= n
    ensures 0 < Falling(n, k)
  {
    if k != 0 {
      FallingPositive(n, k - 1);
      MulMono2(1, Falling(n, k - 1), 1, n - k + 1);
    }
  }

  /** Fair odds of s safe clicks among n tiles with m mines, in basis points. */
  function RawBps(n: nat, s: nat, m: nat): nat
    requires s + m <= n
  {
    FallingPositive(n - m, s);
    BPS * Falling(n, s) / Falling(n - m, s)
  }

  /** The multiplier: fair odds less the house edge, each floored. Nothing revealed prices at 1x. */
  function Multiplier(n: nat, s: nat, m: nat, edge: nat): nat
    requires s + m <= n && edge <= BPS
  {
    if s == 0 then BPS else RawBps(n, s, m) * (BPS - edge) / BPS
  }

  /** What `calc_multiplier` returns on the program's board. */
  function CalcMultiplier(safe: nat, mines: nat, edge: nat): Result<nat> {
    if safe == 0 then Ok(BPS)
    else if mines + safe > GRID_SIZE then Err(InvalidMineCount)
    else if edge > BPS then Err(MathOverflow)
    else Ok(Multiplier(GRID_SIZE, safe, mines, edge))
  }

  function MulDivFloor(a: nat, num: nat, den: nat): Result<nat> {
    if den == 0 then Err(MathOverflow)
    else if a * num / den > U64_MAX then Err(MathOverflow)
    else Ok(a * num / den)
  }

  function WorstCasePayout(bet: nat, mines: nat, edge: nat): Result<nat> {
    var mult :- CalcMultiplier(SatSub(GRID_SIZE, mines), mines, edge);
    MulDivFloor(bet, mult, BPS)
  }

  // ---------------------------------------------------------------- the two loops

  /** The on-chain loop, with every checked u128/u64 step. */
  method CalcMultiplierOnChain(safe: nat, mines: nat, edge: nat) returns (r: Result<nat>)
    requires safe < 256 && mines < 256 && edge < 65_536
    ensures r == CalcMultiplier(safe, mines, edge)
  {
    if safe == 0 { return Ok(BPS); }
    if mines + safe > GRID_SIZE { return Err(InvalidMineCount); }
    var num, den := 1, 1;
    for i := 0 to safe
      invariant num == Falling(GRID_SIZE, i) && den == Falling(GRID_SIZE - mines, i)
    {
      FallingBound(GRID_SIZE, i + 1);
      FallingInBase(GRID_SIZE - mines, GRID_SIZE, i + 1);
      var tilesRemaining := GRID_SIZE - i;
      var safeRemaining := GRID_SIZE - mines - i;
      if safeRemaining <= 0 { return Err(InvalidMineCount); }
      if num * tilesRemaining > U128_MAX { return Err(MathOverflow); }
      num := num * tilesRemaining;
      if den * safeRemaining > U128_MAX { return Err(MathOverflow); }
      den := den * safeRemaining;
    }
    FallingBound(GRID_SIZE, safe);
    FallingPositive(GRID_SIZE - mines, safe);
    assert num * BPS == BPS * Falling(GRID_SIZE, safe);
    if num * BPS > U128_MAX || den == 0 { return Err(MathOverflow); }
    var rawBps := num * BPS / den;
    if edge > BPS { return Err(MathOverflow); }
    var edgeFactor := BPS - edge;
    MultiplierFits(safe, mines, edge);
    if rawBps * edgeFactor > U128_MAX { return Err(MathOverflow); }
    var finalBps := rawBps * edgeFactor / BPS;
    if finalBps > U64_MAX { return Err(MathOverflow); }
    return Ok(finalBps);
  }

  /** Division on JavaScript's BigInt truncates toward zero. */
  function TruncDiv(a: int, b: nat): int
    requires 0 < b
  {
    if a >= 0 then a / b else -((-a) / b)
  }

  /** The edge taken off, rounded toward zero on either side of it. */
  lemma TruncatedEdge(raw: nat, edge: int)
    ensures edge <= BPS ==> TruncDiv(raw * (BPS - edge), BPS) == raw * (BPS - edge) / BPS
    ensures edge > BPS ==> TruncDiv(raw * (BPS - edge), BPS) == -(raw * (edge - BPS) / BPS)
  {
    if edge <= BPS {
      MulMono(0, BPS - edge, raw);
    } else {
      MulMono(BPS - edge, 0, raw);
      assert -(raw * (BPS - edge)) == raw * (edge - BPS);
    }
  }

  lemma TruncatedNat(a: nat, b: nat)
    requires 0 < b
    ensures TruncDiv(a, b) == a / b
  {}

  /** The client's loop; `None` is the thrown RangeError. */
  method CalcMultiplierBps(safeReveals: int, mineCount: int, houseEdgeBps: int) returns (r: Option<int>)
    ensures r.None? <==> safeReveals < 0 || mineCount < 0 || mineCount + safeReveals > GRID_SIZE
    ensures r.Some? && safeReveals == 0 ==> r == Some(BPS)
    ensures r.Some? && 0 <= houseEdgeBps <= BPS ==> r == Some(Multiplier(GRID_SIZE, safeReveals, mineCount, houseEdgeBps))
    ensures r.Some? && safeReveals > 0 && houseEdgeBps < 0 ==>
              r == Some(RawBps(GRID_SIZE, safeReveals, mineCount) * (BPS - houseEdgeBps) / BPS)
    ensures r.Some? && safeReveals > 0 && houseEdgeBps > BPS ==>
              r == Some(-(RawBps(GRID_SIZE, safeReveals, mineCount) * (houseEdgeBps - BPS) / BPS))
  {
    hide TruncDiv;
    if safeReveals < 0 || mineCount < 0 || mineCount + safeReveals > GRID_SIZE { return None; }
    if safeReveals == 0 { return Some(BPS); }
    var num, den := 1, 1;
    var i := 0;
    while i < safeReveals
      invariant 0 <= i <= safeReveals
      invariant num == Falling(GRID_SIZE, i) && den == Falling(GRID_SIZE - mineCount, i)
    {
      var tilesRemaining := GRID_SIZE - i;
      var safeRemaining := GRID_SIZE - mineCount - i;
      if safeRemaining <= 0 { break; }
      num := num * tilesRemaining;
      den := den * safeRemaining;
      i := i + 1;
    }
    FallingPositive(GRID_SIZE - mineCount, safeReveals);
    TruncatedNat(num * BPS, den);
    var rawBps := TruncDiv(num * BPS, den);
    var edgeFactor := BPS - houseEdgeBps;
    assert rawBps == RawBps(GRID_SIZE, safeReveals, mineCount);
    TruncatedEdge(rawBps, houseEdgeBps);
    return Some(TruncDiv(rawBps * edgeFactor, BPS));
  }

  // ---------------------------------------------------------------- the closed form

  /** k! * C(n, k) counts the ordered selections. */
  lemma {:induction false} ChooseFalling(n: nat, k: nat)
    requires k <= n
    ensures Choose(n, k) * Falling(k, k) == Falling(n, k)
  {
    if k == 0 {
    } else if k == n {
      ChooseTop(n);
    } else {
      ChooseFalling(n - 1, k - 1);
      ChooseFalling(n - 1, k);
      FallingTop(k, k);
      FallingTop(n, k);
      PascalStep(n, k, Choose(n - 1, k - 1), Choose(n - 1, k), Falling(k - 1, k - 1), Falling(n - 1, k - 1));
    }
  }

  lemma PascalStep(n: nat, k: nat, c: nat, d: nat, f: nat, g: nat)
    requires k <= n && c * f == g && d * (k * f) == g * (n - k)
    ensures (c + d) * (k * f) == n * g
  {
    assert c * (k * f) == k * (c * f);
    assert (c + d) * (k * f) == k * g + g * (n - k);
  }

  /** The falling product may be opened at its largest factor instead. */
  lemma {:induction false} FallingTop(n: nat, k: nat)
    requires 0 < k <= n
    ensures Falling(n, k) == n * Falling(n - 1, k - 1)
  {
    if k == 1 {
      assert Falling(n, 0) == 1 && Falling(n - 1, 0) == 1;
    } else {
      FallingTop(n, k - 1);
      MulAssoc(n, Falling(n - 1, k - 2), n - k + 1);
    }
  }

  lemma {:induction false} ChooseTop(n: nat)
    ensures Choose(n, n) == 1
    ensures forall k :: k > n ==> Choose(n, k) == 0
  {
    if n > 0 {
      ChooseTop(n - 1);
      forall k | k > n
        ensures Choose(n, k) == 0
      {
        assert Choose(n - 1, k - 1) == 0 && Choose(n - 1, k) == 0;
      }
    }
  }

  lemma RawIsBinomial(n: nat, s: nat, m: nat)
    requires s + m <= n
    ensures 0 < Choose(n - m, s)
    ensures RawBps(n, s, m) == BPS * Choose(n, s) / Choose(n - m, s)
  {
    ChooseFalling(n, s);
    ChooseFalling(n - m, s);
    FallingPositive(n - m, s);
    FallingPositive(s, s);
    CommonFactor(Choose(n, s), Choose(n - m, s), Falling(s, s));
  }

  lemma CommonFactor(a: nat, b: nat, f: nat)
    requires 0 < b * f
    ensures 0 < b && BPS * (a * f) / (b * f) == BPS * a / b
  {
    assert 0 < b && 0 < f;
    DivCancel(BPS * a, b, f);
    assert BPS * a * f == BPS * (a * f);
  }

  /** The documented formula: floor(floor(BPS * C(n,s) / C(n-m,s)) * (BPS - edge) / BPS), for s >= 1. */
  lemma MultiplierIsBinomial(n: nat, s: nat, m: nat, edge: nat)
    requires 1 <= s && s + m <= n && edge <= BPS
    ensures 0 < Choose(n - m, s)
    ensures Multiplier(n, s, m, edge) == (BPS * Choose(n, s) / Choose(n - m, s)) * (BPS - edge) / BPS
  {
    RawIsBinomial(n, s, m);
  }

  // ---------------------------------------------------------------- order

  lemma {:induction false} FallingMono(n: nat, n': nat, k: nat)
    requires k <= n <= n'
    ensures Falling(n, k) <= Falling(n', k)
  {
    if k != 0 {
      FallingMono(n, n', k - 1);
      MulMono2(Falling(n, k - 1), Falling(n', k - 1), n - k + 1, n' - k + 1);
    }
  }

  lemma RawMonoInSafe(n: nat, s: nat, m: nat)
    requires s + 1 + m <= n
    ensures RawBps(n, s, m) <= RawBps(n, s + 1, m)
  {
    FallingPositive(n - m, s);
    DivScaleUp(BPS * Falling(n, s), Falling(n - m, s), n - s, n - m - s);
    MulAssoc(BPS, Falling(n, s), n - s);
  }

  /** More safe reveals never pay less. */
  lemma {:induction false} MultiplierMonoInSafe(n: nat, s: nat, s': nat, m: nat, edge: nat)
    requires 1 <= s <= s' && s' + m <= n && edge <= BPS
    ensures Multiplier(n, s, m, edge) <= Multiplier(n, s', m, edge)
    decreases s' - s
  {
    if s < s' {
      RawMonoInSafe(n, s, m);
      MulMono(RawBps(n, s, m), RawBps(n, s + 1, m), BPS - edge);
      DivMono(RawBps(n, s, m) * (BPS - edge), RawBps(n, s + 1, m) * (BPS - edge), BPS);
      MultiplierMonoInSafe(n, s + 1, s', m, edge);
    }
  }

  /** More mines never pay less. */
  lemma MultiplierMonoInMines(n: nat, s: nat, m: nat, m': nat, edge: nat)
    requires m <= m' && s + m' <= n && edge <= BPS
    ensures Multiplier(n, s, m, edge) <= Multiplier(n, s, m', edge)
  {
    FallingPositive(n - m', s);
    FallingMono(n - m', n - m, s);
    DivAntitone(BPS * Falling(n, s), Falling(n - m', s), Falling(n - m, s));
    MulMono(RawBps(n, s, m), RawBps(n, s, m'), BPS - edge);
    DivMono(RawBps(n, s, m) * (BPS - edge), RawBps(n, s, m') * (BPS - edge), BPS);
  }

  /** A larger edge never pays more. */
  lemma MultiplierAntitoneInEdge(n: nat, s: nat, m: nat, edge: nat, edge': nat)
    requires s + m <= n && edge <= edge' <= BPS
    ensures Multiplier(n, s, m, edge') <= Multiplier(n, s, m, edge)
  {
    MulMono(BPS - edge', BPS - edge, RawBps(n, s, m));
    DivMono(RawBps(n, s, m) * (BPS - edge'), RawBps(n, s, m) * (BPS - edge), BPS);
  }

  // ---------------------------------------------------------------- widths

  lemma {:induction false} FallingInBase(n: nat, n': nat, k: nat)
    requires k <= n <= n'
    ensures Falling(n, k) <= Pow(n', k)
  {
    if k != 0 {
      FallingInBase(n, n', k - 1);
      MulMono2(Falling(n, k - 1), Pow(n', k - 1), n - k + 1, n');
    }
  }

  lemma FallingBound(n: nat, k: nat)
    requires k <= n == GRID_SIZE
    ensures Falling(n, k) <= 20_922_789_888_000
    ensures Pow(n, k) <= 0x1_0000_0000_0000_0000
  {
    FallingGrows(n, k, n);
    PowGrows(n, k, n);
    assert Falling(16, 4) == 43_680;
    assert Falling(16, 8) == 518_918_400;
    assert Falling(16, 12) == 871_782_912_000;
    assert Pow(16, 4) == 0x1_0000;
    assert Pow(16, 8) == 0x1_0000_0000;
    assert Pow(16, 12) == 0x1_0000_0000_0000;
  }

  lemma {:induction false} FallingGrows(n: nat, k: nat, k': nat)
    requires k <= k' <= n
    ensures Falling(n, k) <= Falling(n, k')
    decreases k' - k
  {
    if k < k' {
      MulMono(1, n - k, Falling(n, k));
      FallingGrows(n, k + 1, k');
    }
  }

  lemma {:induction false} PowGrows(b: nat, e: nat, e': nat)
    requires 0 < b && e <= e'
    ensures Pow(b, e) <= Pow(b, e')
    decreases e' - e
  {
    if e < e' {
      MulMono(1, b, Pow(b, e));
      PowGrows(b, e + 1, e');
    }
  }

  /** On the program's board no intermediate leaves u128 and the result fits a u64. */
  lemma MultiplierFits(safe: nat, mines: nat, edge: nat)
    requires safe + mines <= GRID_SIZE && edge <= BPS
    ensures RawBps(GRID_SIZE, safe, mines) * (BPS - edge) <= U128_MAX
    ensures Multiplier(GRID_SIZE, safe, mines, edge) <= U64_MAX
  {
    FallingBound(GRID_SIZE, safe);
    FallingPositive(GRID_SIZE - mines, safe);
    var raw := RawBps(GRID_SIZE, safe, mines);
    DivAntitone(BPS * Falling(GRID_SIZE, safe), 1, Falling(GRID_SIZE - mines, safe));
    MulMono2(raw, 209_227_898_880_000_000, BPS - edge, BPS);
    DivAtMost(209_227_898_880_000_000, raw * (BPS - edge), BPS);
  }

  // ---------------------------------------------------------------- what a bet is worth

  /** The payout of a round that ends with `safe` revealed tiles. */
  function Payout(bet: nat, safe: nat, mines: nat, edge: nat): nat
    requires safe + mines <= GRID_SIZE && edge <= BPS
  {
    bet * Multiplier(GRID_SIZE, safe, mines, edge) / BPS
  }

  lemma PaysMore(bet: nat, x: nat, y: nat)
    requires x <= y
    ensures bet * x / BPS <= bet * y / BPS
  {
    MulMono(x, y, bet);
    DivMono(bet * x, bet * y, BPS);
  }

  /** The reservation covers every payout the round can still reach. */
  lemma PayoutWithinWorstCase(bet: nat, safe: nat, mines: nat, edge: nat)
    requires 1 <= safe && safe + mines <= GRID_SIZE && edge <= BPS
    requires WorstCasePayout(bet, mines, edge).Ok?
    ensures Payout(bet, safe, mines, edge) <= WorstCasePayout(bet, mines, edge).value
  {
    var top := GRID_SIZE - mines;
    MultiplierMonoInSafe(GRID_SIZE, safe, top, mines, edge);
    PaysMore(bet, Multiplier(GRID_SIZE, safe, mines, edge), Multiplier(GRID_SIZE, top, mines, edge));
  }

  /** Clearing a board that still hides a safe tile at least doubles the fair odds. */
  lemma FullClearDoubles(n: nat, m: nat)
    requires 1 <= m < n
    ensures 2 * BPS <= RawBps(n, n - m, m)
  {
    var s := n - m;
    FallingPositive(s, s);
    FallingMono(s, n, s - 1);
    MulMono2(Falling(s, s - 1), Falling(n, s - 1), 2, n - s + 1);
    assert BPS * Falling(n, s) >= 2 * BPS * Falling(s, s);
    DivAtLeast(2 * BPS, BPS * Falling(n, s), Falling(s, s));
  }

  /** The reservation is never smaller than the bet it can refund. */
  lemma WorstCaseCoversBet(bet: nat, mines: nat, edge: nat)
    requires MIN_MINES <= mines <= MAX_MINES && edge <= MAX_HOUSE_EDGE_BPS
    requires WorstCasePayout(bet, mines, edge).Ok?
    ensures bet <= WorstCasePayout(bet, mines, edge).value
  {
    var top := GRID_SIZE - mines;
    FullClearDoubles(GRID_SIZE, mines);
    MulMono(2 * BPS, RawBps(GRID_SIZE, top, mines), BPS - edge);
    DivAtLeast(BPS, RawBps(GRID_SIZE, top, mines) * (BPS - edge), BPS);
    PaysMore(bet, BPS, Multiplier(GRID_SIZE, top, mines, edge));
  }

  const REFUND_PARITY_EDGE_BPS: nat := 625

  lemma CheapestCashOut(edge: nat)
    requires edge <= BPS
    ensures Multiplier(GRID_SIZE, 1, 1, edge) == 10_666 * (BPS - edge) / BPS
  {
    assert Falling(16, 1) == 16 && Falling(15, 1) == 15;
  }

  /** Below the parity edge, and only there, cashing out any revealed tile returns at least the bet. */
  lemma CashOutPaysBet(edge: nat)
    requires edge <= BPS
    ensures edge < REFUND_PARITY_EDGE_BPS <==>
            forall bet: nat, safe: nat, mines: nat ::
              1 <= safe && 1 <= mines && safe + mines <= GRID_SIZE ==> bet <= Payout(bet, safe, mines, edge)
  {
    CheapestCashOut(edge);
    if edge < REFUND_PARITY_EDGE_BPS {
      DivAtLeast(BPS, 10_666 * (BPS - edge), BPS);
      forall bet: nat, safe: nat, mines: nat | 1 <= safe && 1 <= mines && safe + mines <= GRID_SIZE
        ensures bet <= Payout(bet, safe, mines, edge)
      {
        MultiplierMonoInSafe(GRID_SIZE, 1, safe, mines, edge);
        MultiplierMonoInMines(GRID_SIZE, 1, 1, mines, edge);
        PaysMore(bet, BPS, Multiplier(GRID_SIZE, safe, mines, edge));
      }
    } else {
      DivAtMost(BPS - 1, 10_666 * (BPS - edge), BPS);
      assert Payout(1, 1, 1, edge) == Multiplier(GRID_SIZE, 1, 1, edge) / BPS == 0;
      assert !(1 <= Payout(1, 1, 1, edge));
    }
  }
}
