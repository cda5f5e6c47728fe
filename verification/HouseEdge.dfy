/**
 The draw behind one click and what it is worth to an adaptive player. A draw x is uniform
 over [0, M); expectations are kept exact by summing over every draw sequence, so an expected
 payout E is carried as E * M^(remaining clicks).
 */
module HouseEdge {
  import opened Prelude
  import opened Arith
  import opened Odds

  /** The per-click decision on a draw x: a uniform slot among the hidden tiles, mines first. */
  predicate IsMine(n: nat, x: nat, safe: nat, mines: nat) {
    safe < n && x % (n - safe) < mines
  }

  // ---------------------------------------------------------------- counting mine draws

  /** How many of the draws 0..k-1 land on one of the m mines among r hidden tiles. */
  function MineDraws(k: nat, r: nat, m: nat): nat
    requires 0 < r
  {
    if k == 0 then 0 else MineDraws(k - 1, r, m) + if (k - 1) % r < m then 1 else 0
  }

  lemma ResidueIs(a: nat, r: nat, q: nat, t: nat)
    requires a == q * r + t && t < r
    ensures a / r == q && a % r == t
  {
    DivAtLeast(q, a, r);
    DivAtMost(q, a, r) by {
      assert (q + 1) * r == q * r + r;
    }
  }

  lemma NextDraw(q: nat, t: nat, r: nat, m: nat)
    requires t < r
    ensures MineDraws(q * r + t + 1, r, m) == MineDraws(q * r + t, r, m) + if t < m then 1 else 0
  {
    ResidueIs(q * r + t, r, q, t);
  }

  lemma OneMore(q: nat, r: nat)
    requires 0 < q
    ensures q * r == (q - 1) * r + r
  {}

  /** After q whole cycles and t draws of the next. */
  lemma {:induction false} MineDrawsInCycles(q: nat, t: nat, r: nat, m: nat)
    requires t < r && m <= r
    ensures MineDraws(q * r + t, r, m) == q * m + Min(t, m)
    decreases q, t
  {
    if t > 0 {
      hide MineDraws;
      MineDrawsInCycles(q, t - 1, r, m);
      NextDraw(q, t - 1, r, m);
    } else if q > 0 {
      hide MineDraws;
      MineDrawsInCycles(q - 1, r - 1, r, m);
      NextDraw(q - 1, r - 1, r, m);
      OneMore(q, r);
      OneMore(q, m);
    }
  }

  /** The exact count: whole cycles contribute m each, the last partial one at most m. */
  lemma MineDrawsExact(k: nat, r: nat, m: nat)
    requires 0 < r && m <= r
    ensures MineDraws(k, r, m) == (k / r) * m + Min(k % r, m)
  {
    hide MineDraws;
    DivMod(k, r);
    MineDrawsInCycles(k / r, k % r, r, m);
  }

  /** A modulo draw never favours the player: mines come up at least m times in r. */
  lemma MineDrawsAtLeastFair(k: nat, r: nat, m: nat)
    requires 0 < r && m <= r
    ensures k * m <= MineDraws(k, r, m) * r
  {
    hide MineDraws;
    MineDrawsExact(k, r, m);
    DivMod(k, r);
    CyclesCover(k, MineDraws(k, r, m), k / r, k % r, r, m);
  }

  lemma CyclesCover(k: nat, draws: nat, q: nat, t: nat, r: nat, m: nat)
    requires t < r && m <= r
    requires k == q * r + t && draws == q * m + Min(t, m)
    ensures k * m <= draws * r
  {
    var u := Min(t, m);
    LastCycle(t, r, m);
    MulDistribute(q * r, t, m);
    MulDistribute(q * m, u, r);
    MulSwap(q, r, m);
  }

  lemma LastCycle(t: nat, r: nat, m: nat)
    requires t < r && m <= r
    ensures t * m <= Min(t, m) * r
  {
    MulMono(m, r, t);
    MulMono(t, r, m);
  }

  lemma {:induction false} MineDrawsBounded(k: nat, r: nat, m: nat)
    requires 0 < r
    ensures MineDraws(k, r, m) <= k
  {
    if k != 0 {
      MineDrawsBounded(k - 1, r, m);
    }
  }

  // ---------------------------------------------------------------- strategies

  /** What a player does next: click again, take the multiplier, or ask for the bet back. */
  datatype Move = Click | CashOut | Refund

  /** Any function of the draws seen so far. */
  type Strategy = seq<nat> -> Move

  /** A round's fixed terms: board size, mines, bet, edge and the size of the draw's range. */
  datatype Terms = Terms(n: nat, mines: nat, bet: nat, edge: nat, range: nat) {
    predicate Valid() {
      1 <= mines < n && edge <= BPS && 0 < range
    }
    function Prize(safe: nat): nat
      requires Valid() && safe + mines <= n
    {
      bet * Multiplier(n, safe, mines, edge) / BPS
    }
    /** bet * (BPS - edge): the bound on the expected payout, scaled by BPS. */
    function Stake(): nat
      requires Valid()
    {
      bet * (BPS - edge)
    }
    function Left(safe: nat): nat
      requires safe + mines <= n
    {
      n - mines - safe
    }
  }

  /**
   The payouts of every continuation after `seen`, summed over all draw sequences: the expected
   payout times range^(clicks left). The first click is forced, and clearing the board pays.
   */
  ghost function Total(c: Terms, play: Strategy, seen: seq<nat>, safe: nat): nat
    requires c.Valid() && safe + c.mines <= c.n
    decreases c.n - safe, 1, 0
  {
    var whole := Pow(c.range, c.Left(safe));
    if safe + c.mines == c.n then whole * c.Prize(safe)
    else if safe >= 1 && play(seen) == CashOut then whole * c.Prize(safe)
    else if safe >= 1 && play(seen) == Refund then whole * c.bet
    else SumDraws(c, play, seen, safe, c.range)
  }

  /** The same sum over the draws 0..k-1 of the next click; a mine pays nothing. */
  ghost function SumDraws(c: Terms, play: Strategy, seen: seq<nat>, safe: nat, k: nat): nat
    requires c.Valid() && safe + c.mines < c.n
    decreases c.n - safe, 0, k
  {
    if k == 0 then 0
    else
      var last := if IsMine(c.n, k - 1, safe, c.mines) then 0 else Total(c, play, seen + [k - 1], safe + 1);
      SumDraws(c, play, seen, safe, k - 1) + last
  }

  // ---------------------------------------------------------------- odds of getting there

  /** The draws of the next click that spare the player. */
  function Survivors(c: Terms, safe: nat): nat
    requires c.Valid() && safe + c.mines < c.n
  {
    MineDrawsBounded(c.range, c.n - safe, c.mines);
    c.range - MineDraws(c.range, c.n - safe, c.mines)
  }

  /** The sequences of `safe` draws that spare the player throughout. */
  function Spared(c: Terms, safe: nat): nat
    requires c.Valid() && safe + c.mines <= c.n
  {
    if safe == 0 then 1 else Spared(c, safe - 1) * Survivors(c, safe - 1)
  }

  /** A click is survived at most as often as the board says. */
  lemma SurvivorsFair(c: Terms, safe: nat)
    requires c.Valid() && safe + c.mines < c.n
    ensures Survivors(c, safe) * (c.n - safe) <= c.range * (c.n - c.mines - safe)
  {
    var r := c.n - safe;
    MineDrawsAtLeastFair(c.range, r, c.mines);
    MulDistribute(Survivors(c, safe), MineDraws(c.range, r, c.mines), r);
    MulDistribute(r - c.mines, c.mines, c.range);
  }

  lemma {:induction false} SparedFair(c: Terms, safe: nat)
    requires c.Valid() && safe + c.mines <= c.n
    ensures Spared(c, safe) * Falling(c.n, safe) <= Pow(c.range, safe) * Falling(c.n - c.mines, safe)
  {
    if safe != 0 {
      SparedFair(c, safe - 1);
      SurvivorsFair(c, safe - 1);
      OneMoreClick(Spared(c, safe - 1), Falling(c.n, safe - 1), Pow(c.range, safe - 1), Falling(c.n - c.mines, safe - 1),
                   Survivors(c, safe - 1), c.n - safe + 1, c.range, c.n - c.mines - safe + 1);
    }
  }

  lemma OneMoreClick(a: nat, x: nat, b: nat, y: nat, s: nat, r: nat, range: nat, t: nat)
    requires a * x <= b * y && s * r <= range * t
    ensures a * s * (x * r) <= range * b * (y * t)
  {
    MulMono2(a * x, b * y, s * r, range * t);
    MulExchange(a, x, s, r);
    MulExchange(b, y, range, t);
  }

  lemma MulExchange(a: nat, x: nat, s: nat, r: nat)
    ensures a * x * (s * r) == a * s * (x * r) && a * x * (s * r) == s * a * (x * r)
  {}

  /** No more sequences survive `safe` clicks than survive the first. */
  lemma {:induction false} SparedAfterFirst(c: Terms, safe: nat)
    requires c.Valid() && 1 <= safe && safe + c.mines <= c.n
    ensures Spared(c, safe) <= Survivors(c, 0) * Pow(c.range, safe - 1)
  {
    if safe == 1 {
      assert Spared(c, 0) == 1;
    } else {
      SparedAfterFirst(c, safe - 1);
      MulMono2(Spared(c, safe - 1), Survivors(c, 0) * Pow(c.range, safe - 2), Survivors(c, safe - 1), c.range);
      MulSwap(Survivors(c, 0), Pow(c.range, safe - 2), c.range);
      MulAssoc(Survivors(c, 0), c.range, Pow(c.range, safe - 2));
    }
  }

  // ---------------------------------------------------------------- what a stop is worth

  /** Stopping with p after `safe` clicks: p is at most the stake at the odds of getting there. */
  ghost predicate Affordable(c: Terms, p: nat, safe: nat)
    requires c.Valid() && safe + c.mines <= c.n
  {
    p * BPS * Spared(c, safe) <= Pow(c.range, safe) * c.Stake()
  }

  lemma PrizeAffordable(c: Terms, safe: nat)
    requires c.Valid() && 1 <= safe && safe + c.mines <= c.n
    ensures Affordable(c, c.Prize(safe), safe)
  {
    var num, den := Falling(c.n, safe), Falling(c.n - c.mines, safe);
    FallingPositive(c.n, safe);
    FallingPositive(c.n - c.mines, safe);
    var raw := RawBps(c.n, safe, c.mines);
    var mult := Multiplier(c.n, safe, c.mines, c.edge);
    DivBounds(BPS * num, den);
    DivBounds(raw * (BPS - c.edge), BPS);
    DivBounds(c.bet * mult, BPS);
    PriceChain(c.Prize(safe), c.bet, mult, raw, BPS - c.edge, num, den);
    SparedFair(c, safe);
    AtTheOdds(c.Prize(safe), c.Stake(), num, den, Spared(c, safe), Pow(c.range, safe));
  }

  /** Fair odds bound the price, and survival is no likelier than fair. */
  lemma AtTheOdds(p: nat, stake: nat, num: nat, den: nat, spared: nat, whole: nat)
    requires 0 < num && p * (BPS * den) <= stake * num && spared * num <= whole * den
    ensures p * BPS * spared <= whole * stake
  {
    MulMono(spared * num, whole * den, p * BPS);
    MulMono(p * (BPS * den), stake * num, whole);
    MulExchange(p, BPS, spared, num);
    MulExchange(p, BPS, whole, den);
    assert spared * num * (p * BPS) == p * BPS * spared * num;
    assert whole * den * (p * BPS) == p * (BPS * den) * whole;
    assert stake * num * whole == whole * stake * num;
    MulCancel(p * BPS * spared, whole * stake, num);
  }

  lemma PriceChain(p: nat, bet: nat, mult: nat, raw: nat, f: nat, num: nat, den: nat)
    requires p * BPS <= bet * mult
    requires mult * BPS <= raw * f
    requires raw * den <= BPS * num
    ensures p * (BPS * den) <= bet * f * num
  {
    MulMono(p * BPS, bet * mult, den);
    MulMono(mult * BPS, raw * f, bet * den);
    MulMono(raw * den, BPS * num, bet * f);
    assert raw * f * (bet * den) == raw * den * (bet * f);
    assert bet * mult * den * BPS == mult * BPS * (bet * den);
    assert BPS * num * (bet * f) == bet * f * num * BPS;
    MulCancel(bet * mult * den, bet * f * num, BPS);
  }

  /**
   When refunds give nothing away: the first click is lost at least as often as the edge asks, or the
   board has a single safe tile and no refund after a reveal can arise.
   */
  predicate RefundsFair(c: Terms)
    requires c.Valid()
  {
    c.n - c.mines == 1 || c.range * c.edge <= MineDraws(c.range, c.n, c.mines) * BPS
  }

  lemma RefundAffordable(c: Terms, safe: nat)
    requires c.Valid() && RefundsFair(c) && 1 <= safe && safe + c.mines < c.n
    ensures Affordable(c, c.bet, safe)
  {
    var draws := MineDraws(c.range, c.n, c.mines);
    SparedAfterFirst(c, safe);
    MulDistribute(Survivors(c, 0), draws, BPS);
    MulDistribute(BPS - c.edge, c.edge, c.range);
    assert Survivors(c, 0) * BPS <= c.range * (BPS - c.edge);
    FirstClickPays(c.bet, Spared(c, safe), Survivors(c, 0), Pow(c.range, safe - 1), c.range, BPS - c.edge);
  }

  lemma FirstClickPays(bet: nat, spared: nat, first: nat, rest: nat, range: nat, f: nat)
    requires spared <= first * rest && first * BPS <= range * f
    ensures bet * BPS * spared <= range * rest * (bet * f)
  {
    MulMono(spared, first * rest, bet * BPS);
    MulMono(first * BPS, range * f, rest * bet);
    assert first * rest * (bet * BPS) == first * BPS * (rest * bet);
    assert range * f * (rest * bet) == range * rest * (bet * f);
  }

  // ---------------------------------------------------------------- backward induction

  /** Strategies without refunds, or terms under which refunds give nothing away. */
  ghost predicate MayPlay(c: Terms, play: Strategy)
    requires c.Valid()
  {
    RefundsFair(c) || forall seen :: play(seen) != Refund
  }

  /** Everything a round can pay, weighted by the draws, in units of the stake. */
  ghost function Cap(c: Terms): nat
    requires c.Valid()
  {
    Pow(c.range, c.n - c.mines) * c.Stake()
  }

  /** The claim of the induction: what is left to win, at the odds of getting here, is within the stake. */
  ghost predicate Bounded(c: Terms, total: nat, safe: nat)
    requires c.Valid() && safe + c.mines <= c.n
  {
    total * (BPS * Spared(c, safe)) <= Cap(c)
  }

  /** From `safe` reveals on, no strategy beats the odds that got it there. */
  lemma {:induction false} TotalBounded(c: Terms, play: Strategy, seen: seq<nat>, safe: nat)
    requires c.Valid() && safe + c.mines <= c.n && MayPlay(c, play)
    ensures Bounded(c, Total(c, play, seen, safe), safe)
    decreases c.n - safe, 1, 0
  {
    hide Cap, Bounded, Affordable, Spared, RefundsFair;
    if safe + c.mines == c.n || (safe >= 1 && play(seen) == CashOut) {
      PrizeAffordable(c, safe);
      LeafBounded(c, c.Prize(safe), safe);
    } else if safe >= 1 && play(seen) == Refund {
      RefundAffordable(c, safe);
      LeafBounded(c, c.bet, safe);
    } else {
      SumBounded(c, play, seen, safe, c.range);
      ClickBounded(c, Total(c, play, seen, safe), safe);
    }
  }

  /** Taking an affordable p now is within bounds. */
  lemma LeafBounded(c: Terms, p: nat, safe: nat)
    requires c.Valid() && safe + c.mines <= c.n && Affordable(c, p, safe)
    ensures Bounded(c, Pow(c.range, c.Left(safe)) * p, safe)
  {
    var whole := Pow(c.range, c.Left(safe));
    PowAdd(c.range, c.Left(safe), safe);
    LeafProducts(whole, p, Spared(c, safe), Pow(c.range, safe), c.Stake());
  }

  lemma LeafProducts(whole: nat, p: nat, spared: nat, rest: nat, stake: nat)
    requires p * BPS * spared <= rest * stake
    ensures whole * p * (BPS * spared) <= whole * rest * stake
  {
    MulMono(p * BPS * spared, rest * stake, whole);
    MulAssoc(whole, rest, stake);
    assert whole * p * (BPS * spared) == p * BPS * spared * whole;
  }

  /** The draws below k, of which `count` survive, against `count` times the bound on one survivor. */
  ghost predicate DrawsBounded(sum: nat, den: nat, count: nat, cap: nat) {
    sum * den <= count * cap && (count == 0 ==> sum == 0)
  }

  /** Clicking is within bounds once its surviving draws are. */
  lemma ClickBounded(c: Terms, total: nat, safe: nat)
    requires c.Valid() && safe + c.mines < c.n
    requires DrawsBounded(total, BPS * Spared(c, safe + 1), Survivors(c, safe), Cap(c))
    ensures Bounded(c, total, safe)
  {
    hide Cap;
    ShareAmongSurvivors(total, Spared(c, safe), Survivors(c, safe), Cap(c));
  }

  lemma ShareAmongSurvivors(total: nat, spared: nat, survivors: nat, cap: nat)
    requires total * (BPS * (spared * survivors)) <= survivors * cap && (survivors == 0 ==> total == 0)
    ensures total * (BPS * spared) <= cap
  {
    if survivors == 0 {
      assert total * (BPS * spared) == 0;
    } else {
      assert total * (BPS * (spared * survivors)) == total * (BPS * spared) * survivors;
      MulCancel(total * (BPS * spared), cap, survivors);
    }
  }

  lemma {:induction false} SumBounded(c: Terms, play: Strategy, seen: seq<nat>, safe: nat, k: nat)
    requires c.Valid() && safe + c.mines < c.n && MayPlay(c, play)
    ensures MineDraws(k, c.n - safe, c.mines) <= k
    ensures DrawsBounded(SumDraws(c, play, seen, safe, k), BPS * Spared(c, safe + 1),
                         k - MineDraws(k, c.n - safe, c.mines), Cap(c))
    decreases c.n - safe, 0, k
  {
    hide Cap, Spared, DrawsBounded, RefundsFair;
    MineDrawsBounded(k, c.n - safe, c.mines);
    var den := BPS * Spared(c, safe + 1);
    if k == 0 {
      NoDraws(den, Cap(c));
    } else {
      SumBounded(c, play, seen, safe, k - 1);
      if !IsMine(c.n, k - 1, safe, c.mines) {
        var t := Total(c, play, seen + [k - 1], safe + 1);
        TotalBounded(c, play, seen + [k - 1], safe + 1);
        AddDraw(SumDraws(c, play, seen, safe, k - 1), t, den, k - 1 - MineDraws(k - 1, c.n - safe, c.mines), Cap(c));
      }
    }
  }

  lemma NoDraws(den: nat, cap: nat)
    ensures DrawsBounded(0, den, 0, cap)
  {}

  lemma AddDraw(before: nat, t: nat, den: nat, count: nat, cap: nat)
    requires DrawsBounded(before, den, count, cap) && t * den <= cap
    ensures DrawsBounded(before + t, den, count + 1, cap)
  {
    MulDistribute(before, t, den);
    MulDistribute(count, 1, cap);
  }

  /** The house edge: summed over all draws, a round pays at most bet * (BPS - edge) / BPS on average. */
  ghost predicate WithinEdge(c: Terms, play: Strategy)
    requires c.Valid()
  {
    Total(c, play, [], 0) * BPS <= Pow(c.range, c.n - c.mines) * c.bet * (BPS - c.edge)
  }

  /** The edge holds against every strategy, every board and every draw range; refunds as `RefundsFair` says. */
  lemma NoStrategyBeatsTheEdge(c: Terms, play: Strategy)
    requires c.Valid() && MayPlay(c, play)
    ensures WithinEdge(c, play)
  {
    TotalBounded(c, play, [], 0);
    MulAssoc(Pow(c.range, c.n - c.mines), c.bet, BPS - c.edge);
    assert Spared(c, 0) == 1;
  }

  // ---------------------------------------------------------------- where refunds are an advantage

  function ClickThenRefund(): Strategy {
    (seen: seq<nat>) => if |seen| == 0 then Click else Refund
  }

  lemma {:induction false} RefundDraws(c: Terms, k: nat)
    requires c.Valid() && 1 < c.n - c.mines
    ensures MineDraws(k, c.n, c.mines) <= k
    ensures SumDraws(c, ClickThenRefund(), [], 0, k) ==
            (k - MineDraws(k, c.n, c.mines)) * (Pow(c.range, c.n - c.mines - 1) * c.bet)
  {
    MineDrawsBounded(k, c.n, c.mines);
    if k != 0 {
      RefundDraws(c, k - 1);
      MineDrawsBounded(k - 1, c.n, c.mines);
      MulDistribute(k - 1 - MineDraws(k - 1, c.n, c.mines), 1, Pow(c.range, c.n - c.mines - 1) * c.bet);
      assert |[] + [k - 1]| == 1;
    }
  }

  /** Otherwise one click and a refund beats the edge. */
  lemma RefundBeatsTheEdge(c: Terms)
    requires c.Valid() && 0 < c.bet && !RefundsFair(c)
    ensures !WithinEdge(c, ClickThenRefund())
  {
    hide MineDraws;
    RefundDraws(c, c.range);
    var draws := MineDraws(c.range, c.n, c.mines);
    var rest := Pow(c.range, c.n - c.mines - 1);
    PowPositive(c.range, c.n - c.mines - 1);
    MulDistribute(c.range - draws, draws, BPS);
    MulDistribute(BPS - c.edge, c.edge, c.range);
    Outweighs(rest * c.bet, c.range - draws, c.range, BPS - c.edge, rest, c.bet);
  }

  lemma Outweighs(unit: nat, survivors: nat, range: nat, f: nat, rest: nat, bet: nat)
    requires unit == rest * bet && 0 < rest && 0 < bet && range * f < survivors * BPS
    ensures range * rest * bet * f < survivors * unit * BPS
  {
    MulMono2(1, rest, 1, bet);
    MulMono(range * f + 1, survivors * BPS, unit);
    MulDistribute(range * f, 1, unit);
    assert range * f * unit == range * rest * bet * f;
    assert survivors * BPS * unit == survivors * unit * BPS;
  }

  /**
   The exact condition, for every board, mine count, edge, bet and draw range: the edge holds against
   all strategies, refunds included, if and only if refunds are fair.
   */
  lemma EdgeHoldsExactly(c: Terms)
    requires c.Valid() && 0 < c.bet
    ensures (forall play: Strategy :: WithinEdge(c, play)) <==> RefundsFair(c)
  {
    hide WithinEdge, RefundsFair;
    if RefundsFair(c) {
      forall play: Strategy
        ensures WithinEdge(c, play)
      {
        NoStrategyBeatsTheEdge(c, play);
      }
    } else {
      RefundBeatsTheEdge(c);
    }
  }

  /** On any board it is enough that the edge is no more than the chance of losing the first click. */
  lemma FairByCount(c: Terms)
    requires c.Valid() && c.n * c.edge <= BPS * c.mines
    ensures RefundsFair(c)
  {
    hide MineDraws;
    MineDrawsAtLeastFair(c.range, c.n, c.mines);
    MulMono(c.n * c.edge, BPS * c.mines, c.range);
    MulMono(c.range * c.mines, MineDraws(c.range, c.n, c.mines) * c.n, BPS);
    assert c.range * c.edge * c.n == c.n * c.edge * c.range;
    assert BPS * c.mines * c.range == c.range * c.mines * BPS;
    MulSwap(MineDraws(c.range, c.n, c.mines), c.n, BPS);
    MulCancel(c.range * c.edge, MineDraws(c.range, c.n, c.mines) * BPS, c.n);
  }

  /** On the program's board and eight-byte draw: fifteen mines, or 16 * edge at most BPS * mines. */
  lemma ProgramRefundsFair(c: Terms)
    requires c.Valid() && c.n == GRID_SIZE && c.range == 0x1_0000_0000_0000_0000
    ensures RefundsFair(c) <==> c.mines == 15 || 16 * c.edge <= BPS * c.mines
  {
    hide MineDraws;
    MineDrawsExact(c.range, 16, c.mines);
    assert MineDraws(c.range, 16, c.mines) == 0x1000_0000_0000_0000 * c.mines;
  }
}
