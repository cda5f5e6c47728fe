/**
 What the house-edge bound is about: the plain sum, over every sequence of draws, of what a player who
 meets those draws is paid. The end of this file ties a draw to the program's own request and callback;
 `RoundRun` shows that a round on the ledger pays exactly the path payout summed here.
 */
module Fairness {
  import opened Prelude
  import opened Arith
  import opened Odds
  import opened Reveal
  import opened HouseEdge

  // ---------------------------------------------------------------- one sequence of draws

  /** The payout when the clicks draw `draws` in order, from the i-th decision on. */
  function PathPayout(c: Terms, play: Strategy, draws: seq<nat>, i: nat): nat
    requires c.Valid() && i + c.mines <= c.n && |draws| == c.n - c.mines
    decreases c.n - i
  {
    if i + c.mines == c.n then c.Prize(i)
    else if i >= 1 && play(draws[..i]) == HouseEdge.CashOut then c.Prize(i)
    else if i >= 1 && play(draws[..i]) == HouseEdge.Refund then c.bet
    else if IsMine(c.n, draws[i], i, c.mines) then 0
    else PathPayout(c, play, draws, i + 1)
  }

  /** The payouts of every way to extend `seen` to a full sequence, added up. */
  ghost function SumPaths(c: Terms, play: Strategy, seen: seq<nat>): nat
    requires c.Valid() && |seen| + c.mines <= c.n
    decreases c.n - |seen|, c.range + 1
  {
    if |seen| + c.mines == c.n then PathPayout(c, play, seen, 0) else SumNext(c, play, seen, c.range)
  }

  ghost function SumNext(c: Terms, play: Strategy, seen: seq<nat>, k: nat): nat
    requires c.Valid() && |seen| + c.mines < c.n && k <= c.range
    decreases c.n - |seen|, k
  {
    if k == 0 then 0 else SumNext(c, play, seen, k - 1) + SumPaths(c, play, seen + [k - 1])
  }

  /** Every full sequence that starts with `seen` pays v. */
  ghost predicate Decided(c: Terms, play: Strategy, seen: seq<nat>, v: nat)
    requires c.Valid()
  {
    forall draws: seq<nat> | |draws| == c.n - c.mines && seen <= draws :: PathPayout(c, play, draws, 0) == v
  }

  /** No sequence that starts with `seen` was decided before the end of it. */
  ghost predicate Alive(c: Terms, play: Strategy, seen: seq<nat>)
    requires c.Valid() && |seen| + c.mines <= c.n
  {
    forall draws: seq<nat> | |draws| == c.n - c.mines && seen <= draws ::
      PathPayout(c, play, draws, 0) == PathPayout(c, play, draws, |seen|)
  }

  lemma {:induction false} DecidedSum(c: Terms, play: Strategy, seen: seq<nat>, v: nat)
    requires c.Valid() && |seen| + c.mines <= c.n && Decided(c, play, seen, v)
    ensures SumPaths(c, play, seen) == Pow(c.range, c.Left(|seen|)) * v
    decreases c.n - |seen|, c.range + 1
  {
    hide PathPayout;
    if |seen| + c.mines < c.n {
      DecidedNext(c, play, seen, v, c.range);
      assert c.range * (Pow(c.range, c.Left(|seen|) - 1) * v) == c.range * Pow(c.range, c.Left(|seen|) - 1) * v;
    }
  }

  lemma {:induction false} DecidedNext(c: Terms, play: Strategy, seen: seq<nat>, v: nat, k: nat)
    requires c.Valid() && |seen| + c.mines < c.n && k <= c.range && Decided(c, play, seen, v)
    ensures SumNext(c, play, seen, k) == k * (Pow(c.range, c.Left(|seen|) - 1) * v)
    decreases c.n - |seen|, k
  {
    hide PathPayout;
    if k != 0 {
      DecidedNext(c, play, seen, v, k - 1);
      DecidedSum(c, play, seen + [k - 1], v);
      var unit := Pow(c.range, c.Left(|seen|) - 1) * v;
      assert k * unit == (k - 1) * unit + unit;
    }
  }

  /** The backward recursion of the bound computes the plain sum over all sequences. */
  lemma {:induction false} SumIsTotal(c: Terms, play: Strategy, seen: seq<nat>)
    requires c.Valid() && |seen| + c.mines <= c.n && Alive(c, play, seen)
    ensures SumPaths(c, play, seen) == Total(c, play, seen, |seen|)
    decreases c.n - |seen|, c.range + 1
  {
    var safe := |seen|;
    if safe + c.mines == c.n {
      assert seen <= seen;
      assert Pow(c.range, 0) == 1;
    } else if safe >= 1 && play(seen) != Click {
      var v := if play(seen) == HouseEdge.CashOut then c.Prize(safe) else c.bet;
      StopsHere(c, play, seen, v);
      DecidedSum(c, play, seen, v);
    } else {
      SumNextIsDraws(c, play, seen, c.range);
    }
  }

  lemma StopsHere(c: Terms, play: Strategy, seen: seq<nat>, v: nat)
    requires c.Valid() && 1 <= |seen| && |seen| + c.mines < c.n && Alive(c, play, seen)
    requires play(seen) != Click && v == if play(seen) == HouseEdge.CashOut then c.Prize(|seen|) else c.bet
    ensures Decided(c, play, seen, v)
  {
    forall draws: seq<nat> | |draws| == c.n - c.mines && seen <= draws
      ensures PathPayout(c, play, draws, 0) == v
    {
      assert draws[..|seen|] == seen;
    }
  }

  /** After a further draw the round is lost, or alive with one more safe tile. */
  lemma OneDraw(c: Terms, play: Strategy, seen: seq<nat>, x: nat)
    requires c.Valid() && |seen| + c.mines < c.n && Alive(c, play, seen) && (|seen| >= 1 ==> play(seen) == Click)
    ensures if IsMine(c.n, x, |seen|, c.mines) then Decided(c, play, seen + [x], 0) else Alive(c, play, seen + [x])
  {
    forall draws: seq<nat> | |draws| == c.n - c.mines && seen + [x] <= draws
      ensures seen <= draws && draws[..|seen|] == seen && draws[|seen|] == x
      ensures PathPayout(c, play, draws, 0) ==
              if IsMine(c.n, x, |seen|, c.mines) then 0 else PathPayout(c, play, draws, |seen| + 1)
    {
      assert draws[..|seen|] == draws[..|seen| + 1][..|seen|] == seen;
      assert draws[|seen|] == draws[..|seen| + 1][|seen|] == x;
    }
  }

  lemma {:induction false} SumNextIsDraws(c: Terms, play: Strategy, seen: seq<nat>, k: nat)
    requires c.Valid() && |seen| + c.mines < c.n && k <= c.range && Alive(c, play, seen) && (|seen| >= 1 ==> play(seen) == Click)
    ensures SumNext(c, play, seen, k) == SumDraws(c, play, seen, |seen|, k)
    decreases c.n - |seen|, k
  {
    hide PathPayout, IsMine, Alive, Decided;
    if k != 0 {
      SumNextIsDraws(c, play, seen, k - 1);
      OneDraw(c, play, seen, k - 1);
      if IsMine(c.n, k - 1, |seen|, c.mines) {
        DecidedSum(c, play, seen + [k - 1], 0);
      } else {
        SumIsTotal(c, play, seen + [k - 1]);
      }
    }
  }

  /** The house edge, over the plain sum of all draw sequences. */
  ghost predicate AverageWithinEdge(c: Terms, play: Strategy)
    requires c.Valid()
  {
    SumPaths(c, play, []) * BPS <= Pow(c.range, c.n - c.mines) * c.bet * (BPS - c.edge)
  }

  lemma AverageIsTotal(c: Terms, play: Strategy)
    requires c.Valid()
    ensures AverageWithinEdge(c, play) <==> WithinEdge(c, play)
  {
    hide Total, SumPaths;
    SumIsTotal(c, play, []);
  }

  /** It holds for every strategy without refunds, and for all strategies exactly when refunds are fair. */
  lemma AverageBelowStake(c: Terms, play: Strategy)
    requires c.Valid()
    ensures (forall seen :: play(seen) != HouseEdge.Refund) ==> AverageWithinEdge(c, play)
    ensures 0 < c.bet ==> ((forall other: Strategy :: AverageWithinEdge(c, other)) <==> RefundsFair(c))
  {
    hide AverageWithinEdge, WithinEdge, RefundsFair;
    if forall seen :: play(seen) != HouseEdge.Refund {
      NoStrategyBeatsTheEdge(c, play);
      AverageIsTotal(c, play);
    }
    if 0 < c.bet {
      EdgeHoldsExactly(c);
      forall other: Strategy
        ensures AverageWithinEdge(c, other) <==> WithinEdge(c, other)
      {
        AverageIsTotal(c, other);
      }
    }
  }

  // ---------------------------------------------------------------- one click, by the program's own steps

  /** The terms of a claim, on the program's board and eight-byte draw. */
  function TermsOf(c: Claim): Terms {
    Terms(GRID_SIZE, c.mines, c.bet, c.edge, 0x1_0000_0000_0000_0000)
  }

  function Draws(rs: seq<Randomness>): seq<nat> {
    seq(|rs|, i requires 0 <= i < |rs| => Draw(rs[i]))
  }

  lemma TermsFit(c: Claim)
    requires Written(c)
    ensures TermsOf(c).Valid()
  {}

  /** A game in play after i safe clicks on the first i tiles. */
  ghost predicate At(c: Claim, g: VrfGame, tiles: seq<nat>, i: nat) {
    && Honest(g) && g.mines == c.mines && g.edge == c.edge && g.status == VRF_PLAYING && !g.pending
    && i <= |tiles| && g.safe == i && g.revealed == set t | t in tiles[..i]
  }

  predicate DistinctTiles(tiles: seq<nat>) {
    (forall t | t in tiles :: t < GRID_SIZE) && forall i, j | 0 <= i < j < |tiles| :: tiles[i] != tiles[j]
  }

  /** One click of an honest round goes through, and moves the game as the priced draw says. */
  lemma ClickGoesThrough(c: Claim, g: VrfGame, tiles: seq<nat>, i: nat, randomness: Randomness)
    requires At(c, g, tiles, i) && DistinctTiles(tiles) && i < |tiles|
    ensures RequestReveal(g, g.session, tiles[i]).Ok?
    ensures var asked := RequestReveal(g, g.session, tiles[i]).value;
            && RevealCallback(asked, randomness).Ok?
            && var g' := RevealCallback(asked, randomness).value;
            && Honest(g') && g'.mines == c.mines && g'.edge == c.edge
            && if IsMine(GRID_SIZE, Draw(randomness), i, c.mines) then g'.status == VRF_LOST
               else g'.safe == i + 1 && if i + 1 + c.mines == GRID_SIZE then g'.status == VRF_WON else At(c, g', tiles, i + 1)
  {
    hide RequestReveal, RevealCallback, Honest, IsMine, DistinctTiles;
    RequestGoesThrough(c, g, tiles, i);
    AnswerGoesThrough(c, RequestReveal(g, g.session, tiles[i]).value, tiles, i, randomness);
  }

  /** The round of At, with the i-th tile locked. */
  ghost predicate Asked(c: Claim, g: VrfGame, tiles: seq<nat>, i: nat) {
    && Honest(g) && g.mines == c.mines && g.edge == c.edge
    && i < |tiles| && g.pending && g.pendingTile == tiles[i] && g.safe == i && g.revealed == set t | t in tiles[..i]
  }

  lemma RequestGoesThrough(c: Claim, g: VrfGame, tiles: seq<nat>, i: nat)
    requires At(c, g, tiles, i) && DistinctTiles(tiles) && i < |tiles|
    ensures RequestReveal(g, g.session, tiles[i]).Ok? && Asked(c, RequestReveal(g, g.session, tiles[i]).value, tiles, i)
  {
    TileIsFree(g, tiles, i);
    hide DistinctTiles, Honest;
    RequestHonest(g, g.session, tiles[i]);
  }

  lemma AnswerGoesThrough(c: Claim, g: VrfGame, tiles: seq<nat>, i: nat, randomness: Randomness)
    requires Asked(c, g, tiles, i)
    ensures RevealCallback(g, randomness).Ok?
    ensures var g' := RevealCallback(g, randomness).value;
            && Honest(g') && g'.mines == c.mines && g'.edge == c.edge
            && if IsMine(GRID_SIZE, Draw(randomness), i, c.mines) then g'.status == VRF_LOST
               else g'.safe == i + 1 && if i + 1 + c.mines == GRID_SIZE then g'.status == VRF_WON else At(c, g', tiles, i + 1)
  {
    hide RevealCallback, Honest, DecideMine, IsMine;
    CallbackHonest(g, randomness);
    CallbackMoves(g, randomness);
    DecideMineIsPriced(randomness, i, c.mines);
    assert tiles[..i + 1] == tiles[..i] + [tiles[i]];
  }

  lemma TileIsFree(g: VrfGame, tiles: seq<nat>, i: nat)
    requires DistinctTiles(tiles) && i < |tiles| && g.revealed == set t | t in tiles[..i]
    ensures tiles[i] < GRID_SIZE && tiles[i] !in g.revealed
  {
    assert tiles[i] in tiles;
  }

  lemma CallbackMoves(g: VrfGame, randomness: Randomness)
    requires Honest(g) && RevealCallback(g, randomness).Ok?
    ensures var g' := RevealCallback(g, randomness).value;
            && g'.mines == g.mines && g'.edge == g.edge && !g'.pending && g'.status <= VRF_LOST
            && g'.safe == g.safe + if g'.status == VRF_LOST then 0 else 1
  {
    hide DecideMine, Finds, Multiplier, TilesOf;
  }
}
