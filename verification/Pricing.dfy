/**
 The share price of the pool. Minting and burning round in the pool's favour, so the price never
 falls, and what a group of holders can take out is bounded by what it owns and puts in.
 */
module Pricing {
  import opened Prelude
  import opened Arith
  import opened Sums
  import opened Ledger
  import opened Handlers
  import opened Runs

  /** Transactions of holders and of the operator; games and treasury withdrawals are not among them. */
  predicate PoolStep(step: Step) {
    step.Lp? || step.Admin? || (step.House? && !step.h.TreasuryOut?)
  }

  function Pot(s: State): nat { Assets(s.lamports) }

  /** Assets per unit has not fallen, by cross-multiplication. */
  predicate PriceKept(s: State, t: State) {
    Pot(s) * t.v2.totalUnits <= Pot(t) * s.v2.totalUnits
  }

  predicate PriceFlat(s: State, t: State) {
    Pot(s) * t.v2.totalUnits == Pot(t) * s.v2.totalUnits
  }

  /** The transaction's floor division leaves no remainder, so it moves exactly its share of the pot. */
  predicate Divides(s: State, step: Step) {
    var pot, units := Pot(s), s.v2.totalUnits;
    match step
    case Lp(Donate(_, n)) => false
    case Lp(Deposit(_, n)) => pot != 0 && n * units % pot == 0
    case House(HouseIn(n)) => pot != 0 && n * units % pot == 0
    case Lp(CompleteOut(u)) => units != 0 && Pending(s, u) * pot % units == 0
    case House(HouseComplete) => units != 0 && s.v2.housePending * pot % units == 0
    case House(Unlock(_, _)) =>
      && units != 0 && OperatorUnits(s.v2) * pot % units == 0
      && OperatorUnits(s.v2) * pot / units <= UnlockCap(s)
    case _ => true
  }

  // ---------------------------------------------------------------- one division at a time

  /** A deposit of n buys floor(n * units / pot). */
  lemma MintPrice(pot: nat, units: nat, n: nat)
    requires 0 < pot
    ensures pot * (units + n * units / pot) <= (pot + n) * units
    ensures pot * (units + n * units / pot) == (pot + n) * units <==> n * units % pot == 0
  {
    DivMod(n * units, pot);
    var minted := n * units / pot;
    assert pot * (units + minted) == pot * units + minted * pot;
    assert (pot + n) * units == pot * units + n * units;
  }

  /** Burning k of the units pays at most floor(k * pot / units). */
  lemma BurnPrice(pot: nat, units: nat, k: nat, out: nat)
    requires 0 < units && k <= units && out <= pot && out <= k * pot / units
    ensures pot * (units - k) <= (pot - out) * units
    ensures pot * (units - k) == (pot - out) * units <==> k * pot % units == 0 && out == k * pot / units
  {
    DivMod(k * pot, units);
    var whole := k * pot / units;
    MulMono(out, whole, units);
    assert pot * (units - k) == pot * units - k * pot;
    assert (pot - out) * units == pot * units - out * units;
    if out < whole {
      MulMono(out + 1, whole, units);
      assert (out + 1) * units == out * units + units;
    }
  }

  // ---------------------------------------------------------------- one transaction

  lemma DepositPrice(s: State, u: Id, n: nat)
    requires MoneySound(s) && 0 < s.v2.totalUnits && LpDeposit(s, u, n).Ok?
    ensures PriceKept(s, LpDeposit(s, u, n).value)
    ensures PriceFlat(s, LpDeposit(s, u, n).value) <==> Divides(s, Lp(Deposit(u, n)))
  {
    hide UnitsToAssets, CalcHealth, EnforceHouseFloor, EnforcePositionCap, EnforceMinHealth, UserUnitsTotal, LpEffect;
    MintPrice(Pot(s), s.v2.totalUnits, n);
  }

  lemma HouseInPrice(s: State, n: nat)
    requires MoneySound(s) && 0 < s.v2.totalUnits && HouseDeposit(s, n).Ok?
    ensures PriceKept(s, HouseDeposit(s, n).value)
    ensures PriceFlat(s, HouseDeposit(s, n).value) <==> Divides(s, House(HouseIn(n)))
  {
    hide HouseEffect;
    MintPrice(Pot(s), s.v2.totalUnits, n);
  }

  lemma CompletePrice(s: State, u: Id)
    requires MoneySound(s) && 0 < s.v2.totalUnits && CompleteWithdraw(s, u).Ok?
    ensures PriceKept(s, CompleteWithdraw(s, u).value)
    ensures PriceFlat(s, CompleteWithdraw(s, u).value) <==> Divides(s, Lp(CompleteOut(u)))
  {
    hide LpEffect;
    var k := s.positions[u].pending;
    BurnPrice(Pot(s), s.v2.totalUnits, k, k * Pot(s) / s.v2.totalUnits);
  }

  lemma HouseCompletePrice(s: State)
    requires MoneySound(s) && 0 < s.v2.totalUnits && HouseCompleteWithdraw(s).Ok?
    ensures PriceKept(s, HouseCompleteWithdraw(s).value)
    ensures PriceFlat(s, HouseCompleteWithdraw(s).value) <==> Divides(s, House(HouseComplete))
  {
    hide HouseEffect;
    var k := s.v2.housePending;
    BurnPrice(Pot(s), s.v2.totalUnits, k, k * Pot(s) / s.v2.totalUnits);
  }

  lemma ShareValue(units: nat, assets: nat, totalUnits: nat)
    requires 0 < totalUnits && UnitsToAssets(units, assets, totalUnits).Ok?
    ensures UnitsToAssets(units, assets, totalUnits).value == units * assets / totalUnits
  {
    if units == 0 {
      assert units * assets == 0;
    }
  }

  /** What the operator may take: its share, short of what is reserved and what users are withdrawing. */
  function UnlockCap(s: State): nat
    requires 0 < s.v2.totalUnits
  {
    SatSub(SatSub(Pot(s), s.v2.outstanding), s.v2.totalPending * Pot(s) / s.v2.totalUnits)
  }

  lemma UnlockMoves(s: State, d: Account, x: bool)
    requires MoneySound(s) && 0 < s.v2.totalUnits && UnlockOperatorPosition(s, d, x).Ok?
    ensures var t, k := UnlockOperatorPosition(s, d, x).value, OperatorUnits(s.v2);
            && k <= s.v2.totalUnits && t.v2.totalUnits == s.v2.totalUnits - k
            && Pot(t) == Pot(s) - Min(k * Pot(s) / s.v2.totalUnits, UnlockCap(s))
  {
    hide HouseEffect, EnforceMinHealth, UnitsToAssets;
    ShareValue(OperatorUnits(s.v2), Pot(s), s.v2.totalUnits);
    ShareValue(s.v2.totalPending, Pot(s), s.v2.totalUnits);
  }

  lemma UnlockPrice(s: State, d: Account, x: bool)
    requires MoneySound(s) && 0 < s.v2.totalUnits && UnlockOperatorPosition(s, d, x).Ok?
    ensures PriceKept(s, UnlockOperatorPosition(s, d, x).value)
    ensures PriceFlat(s, UnlockOperatorPosition(s, d, x).value) <==> Divides(s, House(Unlock(d, x)))
  {
    hide UnlockOperatorPosition, Pot, OperatorUnits, HouseEffect;
    var k := OperatorUnits(s.v2);
    UnlockMoves(s, d, x);
    BurnPrice(Pot(s), s.v2.totalUnits, k, Min(k * Pot(s) / s.v2.totalUnits, UnlockCap(s)));
  }

  predicate Quiet(step: Step) {
    match step
    case Lp(l) => l.RequestOut? || l.CancelOut? || l.ClosePosition?
    case House(h) => h.HouseRequest? || h.HouseCancel?
    case Admin(_) => true
    case _ => false
  }

  lemma QuietLp(s: State, step: LpStep)
    requires Quiet(Lp(step)) && ApplyLp(s, step).Ok?
    ensures Pot(ApplyLp(s, step).value) == Pot(s) && ApplyLp(s, step).value.v2.totalUnits == s.v2.totalUnits
  {
    hide MoneyKept, LpEffect, LpDeposit, CompleteWithdraw, FundVault;
  }

  lemma QuietHouse(s: State, step: HouseStep)
    requires Quiet(House(step)) && ApplyHouse(s, step).Ok?
    ensures Pot(ApplyHouse(s, step).value) == Pot(s) && ApplyHouse(s, step).value.v2.totalUnits == s.v2.totalUnits
  {
    hide HouseEffect, EnforceHouseFloor, HouseDeposit, HouseCompleteWithdraw, UnlockOperatorPosition, WithdrawToTreasury;
  }

  lemma QuietStep(s: State, step: Step)
    requires Quiet(step) && Apply(s, step).Ok?
    ensures Pot(Next(s, step)) == Pot(s) && Next(s, step).v2.totalUnits == s.v2.totalUnits
  {
    hide ApplyAdmin, ApplyLp, ApplyHouse, ApplyVrf, ApplySession, MoneyKept, LpEffect, HouseEffect;
    match step {
      case Lp(l) => QuietLp(s, l);
      case House(h) => QuietHouse(s, h);
      case Admin(_) =>
    }
  }

  /** No pool transaction lowers the price, and it stays put exactly when the division is exact. */
  lemma StepPrice(s: State, step: Step)
    requires MoneySound(s) && 0 < s.v2.totalUnits && PoolStep(step) && Apply(s, step).Ok?
    ensures PriceKept(s, Next(s, step))
    ensures PriceFlat(s, Next(s, step)) <==> Divides(s, step)
  {
    if Quiet(step) {
      hide Apply, Next;
      QuietStep(s, step);
    } else {
      hide LpDeposit, CompleteWithdraw, HouseDeposit, HouseCompleteWithdraw, UnlockOperatorPosition, Divides, MoneyKept;
      hide PriceKept, PriceFlat;
      match step {
        case Lp(Deposit(u, n)) => DepositPrice(s, u, n);
        case Lp(CompleteOut(u)) => CompletePrice(s, u);
        case House(HouseIn(n)) => HouseInPrice(s, n);
        case House(HouseComplete) => HouseCompletePrice(s);
        case House(Unlock(d, x)) => UnlockPrice(s, d, x);
        case Lp(Donate(f, n)) => DonationPrice(s, f, n);
      }
    }
  }

  lemma DonationPrice(s: State, f: Id, n: nat)
    requires MoneySound(s) && 0 < s.v2.totalUnits && FundVault(s, f, n).Ok?
    ensures PriceKept(s, FundVault(s, f, n).value) && !PriceFlat(s, FundVault(s, f, n).value)
    ensures !Divides(s, Lp(Donate(f, n)))
  {
    DonatePrice(Pot(s), s.v2.totalUnits, n);
  }

  lemma DonatePrice(pot: nat, units: nat, n: nat)
    requires 0 < units && 0 < n
    ensures pot * units < (pot + n) * units
  {
    assert (pot + n) * units == pot * units + n * units;
    MulMono2(1, n, 1, units);
  }

  // ---------------------------------------------------------------- whole runs

  /** Units are outstanding at every point of the run. */
  predicate UnitsThroughout(s: State, steps: seq<Step>)
    decreases |steps|
  {
    0 < s.v2.totalUnits && (steps != [] ==> UnitsThroughout(Next(s, steps[0]), steps[1..]))
  }

  lemma PriceChains(a: nat, x: nat, b: nat, y: nat, c: nat, z: nat)
    requires 0 < y && a * y <= b * x && b * z <= c * y
    ensures a * z <= c * x
  {
    MulMono(a * y, b * x, z);
    MulMono(b * z, c * y, x);
    assert a * y * z == a * z * y;
    assert b * x * z == b * z * x;
    assert c * y * x == c * x * y;
    MulCancel(a * z, c * x, y);
  }

  /** Over any run of pool transactions the price never falls. */
  lemma {:induction false} RunPrice(s: State, steps: seq<Step>)
    requires MoneySound(s) && UnitsThroughout(s, steps) && forall step | step in steps :: PoolStep(step)
    ensures PriceKept(s, Run(s, steps))
    decreases |steps|
  {
    if steps != [] {
      hide Apply, MoneyKept, PoolStep;
      var t := Next(s, steps[0]);
      if Apply(s, steps[0]).Ok? {
        StepPrice(s, steps[0]);
      }
      NextMoneySound(s, steps[0]);
      RunPrice(t, steps[1..]);
      var u := Run(t, steps[1..]);
      PriceChains(Pot(s), s.v2.totalUnits, Pot(t), t.v2.totalUnits, Pot(u), u.v2.totalUnits);
    }
  }

  lemma NextMoneySound(s: State, step: Step)
    requires MoneySound(s)
    ensures MoneySound(Next(s, step))
  {
    hide Apply;
  }

  // ---------------------------------------------------------------- groups of holders

  /** Some users, and possibly the operator with its seed and pending units. */
  datatype Group = Group(users: set<Id>, operator: bool)

  function OutsideUnits(g: Group, id: Id, p: Position): nat {
    if id in g.users then 0 else UnitsOf(id, p)
  }

  function OutsideOf(g: Group): (Id, Position) -> nat {
    (id: Id, p: Position) => OutsideUnits(g, id, p)
  }

  /** The units held by everyone else. */
  ghost function Outside(s: State, g: Group): nat {
    Sum(s.positions, OutsideOf(g)) + if g.operator then 0 else OperatorUnits(s.v2)
  }

  lemma OutsideWithinUnits(s: State, g: Group)
    requires UnitsConserved(s)
    ensures Outside(s, g) <= s.v2.totalUnits
  {
    SumMono(s.positions, OutsideOf(g), UnitsOf);
  }

  /** Assets per unit, exactly. */
  ghost function Price(s: State): real
    requires 0 < s.v2.totalUnits
  {
    Over(Pot(s), s.v2.totalUnits)
  }

  /** A share of the pot, exactly. */
  function Over(part: int, whole: nat): real
    requires 0 < whole
  {
    (part as real) / (whole as real)
  }

  /** The group's share of the pot, exactly: what is left after everyone else's. */
  ghost function Value(s: State, g: Group): real
    requires 0 < s.v2.totalUnits
  {
    (Pot(s) as real) - (Outside(s, g) as real) * Price(s)
  }

  /** Transactions by the group, and donations by anybody. */
  predicate By(step: Step, g: Group) {
    match step
    case Lp(Donate(_, _)) => true
    case Lp(l) => l.user in g.users
    case House(_) => g.operator
    case Admin(_) => true
    case _ => false
  }

  function FlowIn(s: State, step: Step, g: Group): nat {
    if By(step, g) then SatSub(Pot(Next(s, step)), Pot(s)) else 0
  }

  function FlowOut(s: State, step: Step, g: Group): nat {
    if By(step, g) then SatSub(Pot(s), Pot(Next(s, step))) else 0
  }

  /** Everything the group, or a donor, put into the pot over a run. */
  function PutIn(s: State, steps: seq<Step>, g: Group): nat
    decreases |steps|
  {
    if steps == [] then 0 else FlowIn(s, steps[0], g) + PutIn(Next(s, steps[0]), steps[1..], g)
  }

  /** Everything the group took out. */
  function TakenOut(s: State, steps: seq<Step>, g: Group): nat
    decreases |steps|
  {
    if steps == [] then 0 else FlowOut(s, steps[0], g) + TakenOut(Next(s, steps[0]), steps[1..], g)
  }

  lemma PriceReal(a: nat, x: nat, b: nat, y: nat)
    requires 0 < x && 0 < y
    ensures a * y <= b * x ==> (a as real) / (x as real) <= (b as real) / (y as real)
    ensures a * y == b * x <==> (a as real) / (x as real) == (b as real) / (y as real)
  {
    var p, q := (a as real) / (x as real), (b as real) / (y as real);
    assert p * (x as real) == a as real && q * (y as real) == b as real;
    assert (a * y) as real == p * (x as real) * (y as real);
    assert (b * x) as real == q * (y as real) * (x as real);
    RealCancel(p, q, (x as real) * (y as real));
  }

  lemma RealCancel(p: real, q: real, c: real)
    requires 0.0 < c
    ensures p * c <= q * c ==> p <= q
    ensures p * c == q * c ==> p == q
  {}

  /** The group's own transactions leave everyone else's units alone. */
  lemma OutsideKept(s: State, step: Step, g: Group)
    requires PoolStep(step) && By(step, g)
    ensures Outside(Next(s, step), g) == Outside(s, g)
  {
    hide ApplyHouse, ApplyAdmin, MoneyKept, FundVault, LpDeposit, RequestWithdraw, CancelWithdraw, CompleteWithdraw;
    hide CloseLpPosition;
    if Apply(s, step).Ok? && step.Lp? {
      if step.l.Donate? {
        DonationKeepsUnits(s, step.l.funder, step.l.amount);
      } else {
        SumChange(s.positions, Next(s, step).positions, OutsideOf(g), step.l.user);
      }
    }
  }

  lemma DonationKeepsUnits(s: State, f: Id, n: nat)
    requires FundVault(s, f, n).Ok?
    ensures FundVault(s, f, n).value.positions == s.positions && FundVault(s, f, n).value.v2 == s.v2
  {
    hide Move, LpEffect;
  }

  /** The group's share after one of its own transactions: at most what it was, plus what went in, less what came out. */
  lemma OwnStepValue(s: State, step: Step, g: Group)
    requires MoneySound(s) && 0 < s.v2.totalUnits && 0 < Next(s, step).v2.totalUnits
    requires PoolStep(step) && By(step, g)
    ensures Value(Next(s, step), g) + (FlowOut(s, step, g) as real) <= Value(s, g) + (FlowIn(s, step, g) as real)
  {
    hide Apply, PoolStep, By, Divides, MoneyKept, Outside, MoneySound, Value, Price, FlowIn, FlowOut;
    var t := Next(s, step);
    if Apply(s, step).Ok? {
      StepPrice(s, step);
    }
    OutsideKept(s, step, g);
    PricesCompare(s, t);
    FlowsAreTheDifference(s, step, g);
    hide Pot;
    ValueIs(s, g);
    ValueIs(t, g);
    OwnShare(Value(s, g), Value(t, g), Pot(s) as real, Pot(t) as real, FlowIn(s, step, g) as real, FlowOut(s, step, g) as real,
             Outside(s, g) as real, Price(s), Price(t));
  }

  lemma ValueIs(s: State, g: Group)
    requires 0 < s.v2.totalUnits
    ensures Value(s, g) == (Pot(s) as real) - (Outside(s, g) as real) * Price(s)
  {}

  lemma FlowsAreTheDifference(s: State, step: Step, g: Group)
    requires By(step, g)
    ensures (Pot(Next(s, step)) as real) - (Pot(s) as real) == (FlowIn(s, step, g) as real) - (FlowOut(s, step, g) as real)
  {
    hide Apply, Next, By;
  }

  lemma OwnShare(v: real, w: real, a: real, b: real, put: real, took: real, units: real, p: real, q: real)
    requires v == a - units * p && w == b - units * q && b - a == put - took
    requires 0.0 <= units && p <= q
    ensures w + took <= v + put
  {
    assert units * p <= units * q;
  }

  /** An outsider's transaction leaves the group's units alone. */
  lemma InsideKept(s: State, step: Step, g: Group)
    requires PoolStep(step) && !By(step, g)
    ensures Next(s, step).v2.totalUnits - Outside(Next(s, step), g) == s.v2.totalUnits - Outside(s, g)
  {
    hide ApplyLp, ApplyHouse, ApplyAdmin, MoneyKept;
    if Apply(s, step).Ok? && step.Lp? {
      SumChange(s.positions, Next(s, step).positions, OutsideOf(g), step.l.user);
    }
  }

  lemma ValueOfUnits(s: State, g: Group)
    requires 0 < s.v2.totalUnits
    ensures Value(s, g) == Price(s) * ((s.v2.totalUnits - Outside(s, g)) as real)
  {
    var p, units := Price(s), s.v2.totalUnits as real;
    assert p * units == Pot(s) as real;
    assert ((s.v2.totalUnits - Outside(s, g)) as real) == units - (Outside(s, g) as real);
  }

  /** An outsider's transaction moves the group's share upwards, and not at all exactly when it divides. */
  lemma OutsiderStepValue(s: State, step: Step, g: Group)
    requires MoneySound(s) && 0 < s.v2.totalUnits && 0 < Next(s, step).v2.totalUnits
    requires PoolStep(step) && !By(step, g) && Apply(s, step).Ok? && UnitsConserved(s)
    ensures Value(s, g) <= Value(Next(s, step), g)
    ensures Value(Next(s, step), g) == Value(s, g) <==> Divides(s, step) || Outside(s, g) == s.v2.totalUnits
  {
    hide Apply, PoolStep, By, Divides, MoneyKept, Outside, MoneySound, Value, Price, Next, UnitsConserved;
    var t := Next(s, step);
    OutsideWithinUnits(s, g);
    StepPrice(s, step);
    InsideKept(s, step, g);
    ValueOfUnits(s, g);
    ValueOfUnits(t, g);
    PricesCompare(s, t);
    var inside := s.v2.totalUnits - Outside(s, g);
    SharesCompare(Value(s, g), Value(t, g), Price(s), Price(t), inside as real);
  }

  lemma PricesCompare(s: State, t: State)
    requires 0 < s.v2.totalUnits && 0 < t.v2.totalUnits && PriceKept(s, t)
    ensures Price(s) <= Price(t)
    ensures Price(s) == Price(t) <==> PriceFlat(s, t)
  {
    PriceReal(Pot(s), s.v2.totalUnits, Pot(t), t.v2.totalUnits);
    PriceReal(Pot(t), t.v2.totalUnits, Pot(s), s.v2.totalUnits);
  }

  lemma SharesCompare(v: real, w: real, p: real, q: real, c: real)
    requires v == p * c && w == q * c && 0.0 <= c && p <= q
    ensures v <= w
    ensures w == v <==> p == q || c == 0.0
  {}

  // ---------------------------------------------------------------- what rounding leaves behind

  /**
   What a transaction leaves to the holders it finds: the remainder of its floor division, spread over
   the units it ends with or started from. Capped at its free share, the operator's exit leaves more.
   */
  function Left(s: State, step: Step): real
    requires 0 < s.v2.totalUnits
  {
    var pot, units := Pot(s), s.v2.totalUnits;
    match step
    case Lp(Donate(_, n)) => n as real
    case Lp(Deposit(_, n)) => MintLeft(pot, units, n)
    case House(HouseIn(n)) => MintLeft(pot, units, n)
    case Lp(CompleteOut(u)) => Over(Pending(s, u) * pot % units, units)
    case House(HouseComplete) => Over(s.v2.housePending * pot % units, units)
    case House(Unlock(_, _)) =>
      Over(OperatorUnits(s.v2) * pot - Min(OperatorUnits(s.v2) * pot / units, UnlockCap(s)) * units, units)
    case _ => 0.0
  }

  function MintLeft(pot: nat, units: nat, n: nat): real
    requires 0 < units
  {
    if pot == 0 then 0.0 else Over(n * units % pot, units + n * units / pot)
  }

  /** The units a transaction finds and leaves standing. */
  function Kept(s: State, t: State): nat {
    Min(s.v2.totalUnits, t.v2.totalUnits)
  }

  lemma MintLeaves(pot: nat, units: nat, n: nat)
    requires 0 < pot && 0 < units
    ensures (units as real) * (Over(pot + n, units + n * units / pot) - Over(pot, units)) == MintLeft(pot, units, n)
  {
    var minted := n * units / pot;
    DivMod(n * units, pot);
    assert units * (pot + n) - pot * (units + minted) == n * units % pot by {
      assert units * (pot + n) == units * pot + n * units;
      assert pot * (units + minted) == units * pot + minted * pot;
    }
    RiseByProducts(pot, units, pot + n, units + minted, n * units % pot);
  }

  /** units * (b / y - a / units) is what units * b exceeds a * y by, over y. */
  lemma RiseByProducts(a: nat, units: nat, b: nat, y: nat, rest: int)
    requires 0 < units && 0 < y && units * b - a * y == rest
    ensures (units as real) * (Over(b, y) - Over(a, units)) == Over(rest, y)
  {
    var u, p, q := units as real, Over(a, units), Over(b, y);
    assert u * p == a as real && q * (y as real) == b as real;
    assert (units * b) as real == u * (b as real) && (a * y) as real == (a as real) * (y as real);
    RiseReal(u, p, q, y as real, a as real, b as real, rest as real);
  }

  lemma RiseReal(u: real, p: real, q: real, y: real, a: real, b: real, rest: real)
    requires y > 0.0 && u * p == a && q * y == b && u * b - a * y == rest
    ensures u * (q - p) == rest / y
  {
    assert u * (q - p) * y == u * (q * y) - u * p * y;
    QuotientReal(u * (q - p), y, rest);
  }

  lemma QuotientReal(x: real, y: real, z: real)
    requires y > 0.0 && x * y == z
    ensures x == z / y
  {}

  lemma OverTimes(a: int, b: nat)
    requires 0 < b
    ensures Over(a, b) * (b as real) == a as real
  {}

  lemma RealProduct(a: nat, b: nat)
    ensures (a * b) as real == (a as real) * (b as real)
  {}

  lemma BurnLeaves(pot: nat, units: nat, k: nat, out: nat)
    requires k < units && out <= pot && out * units <= k * pot
    ensures ((units - k) as real) * (Over(pot - out, units - k) - Over(pot, units)) == Over(k * pot - out * units, units)
  {
    OverTimes(pot, units);
    OverTimes(pot - out, units - k);
    RealProduct(k, pot);
    RealProduct(out, units);
    assert Over(k * pot - out * units, units) ==
           ((k as real) * (pot as real) - (out as real) * (units as real)) / (units as real);
    hide Over;
    BurnReal(units as real, k as real, pot as real, out as real, Over(pot, units), Over(pot - out, units - k));
  }

  lemma BurnReal(u: real, k: real, a: real, out: real, p: real, q: real)
    requires u > 0.0 && p * u == a && q * (u - k) == a - out
    ensures (u - k) * (q - p) == (k * a - out * u) / u
  {
    FallReal(u, k, a, out, p);
    assert (u - k) * (q - p) == (u - k) * q - (u - k) * p;
  }

  lemma FallReal(u: real, k: real, a: real, out: real, p: real)
    requires u > 0.0 && p * u == a
    ensures (a - out) - (u - k) * p == (k * a - out * u) / u
  {
    assert ((a - out) - (u - k) * p) * u == a * u - out * u - u * (p * u) + k * (p * u);
    QuotientReal((a - out) - (u - k) * p, u, k * a - out * u);
  }

  lemma FloorLeaves(x: nat, units: nat)
    requires 0 < units
    ensures x - x / units * units == x % units && x / units * units <= x
  {
    DivMod(x, units);
  }

  /** The price rises by what was left, over the units it was left to. */
  ghost predicate Rises(s: State, t: State, left: real) {
    0 < s.v2.totalUnits && 0 < t.v2.totalUnits && (Kept(s, t) as real) * (Price(t) - Price(s)) == left
  }

  /** n lamports came in for their floored share of units. */
  ghost predicate Minted(s: State, t: State, n: nat) {
    0 < Pot(s) && t.v2.totalUnits == s.v2.totalUnits + n * s.v2.totalUnits / Pot(s) && Pot(t) == Pot(s) + n
  }

  /** k units went, for `out` lamports. */
  ghost predicate Burnt(s: State, t: State, k: nat, out: nat) {
    && k <= s.v2.totalUnits && out <= Pot(s)
    && t.v2.totalUnits == s.v2.totalUnits - k && Pot(t) == Pot(s) - out
  }

  lemma DepositMints(s: State, u: Id, n: nat)
    requires MoneySound(s) && 0 < s.v2.totalUnits && LpDeposit(s, u, n).Ok?
    ensures Minted(s, LpDeposit(s, u, n).value, n)
  {
    hide AdmitDeposit, LpEffect, MoneyKept;
  }

  lemma HouseInMints(s: State, n: nat)
    requires MoneySound(s) && 0 < s.v2.totalUnits && HouseDeposit(s, n).Ok?
    ensures Minted(s, HouseDeposit(s, n).value, n)
  {
    hide HouseEffect, MoneyKept;
  }

  lemma CompleteBurns(s: State, u: Id)
    requires MoneySound(s) && 0 < s.v2.totalUnits && CompleteWithdraw(s, u).Ok?
    ensures Burnt(s, CompleteWithdraw(s, u).value, Pending(s, u), Pending(s, u) * Pot(s) / s.v2.totalUnits)
  {
    hide LpEffect, MoneyKept;
  }

  lemma HouseCompleteBurns(s: State)
    requires MoneySound(s) && 0 < s.v2.totalUnits && HouseCompleteWithdraw(s).Ok?
    ensures Burnt(s, HouseCompleteWithdraw(s).value, s.v2.housePending, s.v2.housePending * Pot(s) / s.v2.totalUnits)
  {
    hide HouseEffect, MoneyKept;
  }

  lemma MintRises(s: State, t: State, n: nat)
    requires 0 < s.v2.totalUnits && Minted(s, t, n)
    ensures Rises(s, t, MintLeft(Pot(s), s.v2.totalUnits, n))
  {
    hide Pot, MintLeft, Over;
    var minted: nat := n * s.v2.totalUnits / Pot(s);
    assert Kept(s, t) == s.v2.totalUnits;
    MintLeaves(Pot(s), s.v2.totalUnits, n);
  }

  lemma BurnRises(s: State, t: State, k: nat, out: nat)
    requires 0 < s.v2.totalUnits && 0 < t.v2.totalUnits && Burnt(s, t, k, out) && out * s.v2.totalUnits <= k * Pot(s)
    ensures Rises(s, t, Over(k * Pot(s) - out * s.v2.totalUnits, s.v2.totalUnits))
  {
    hide Pot, Over;
    BurnLeaves(Pot(s), s.v2.totalUnits, k, out);
  }

  /** A floored withdrawal leaves its remainder. */
  lemma FlooredBurnRises(s: State, t: State, k: nat)
    requires 0 < s.v2.totalUnits && 0 < t.v2.totalUnits && Burnt(s, t, k, k * Pot(s) / s.v2.totalUnits)
    ensures Rises(s, t, Over(k * Pot(s) % s.v2.totalUnits, s.v2.totalUnits))
  {
    hide Pot, Rises, Burnt;
    FloorLeaves(k * Pot(s), s.v2.totalUnits);
    BurnRises(s, t, k, k * Pot(s) / s.v2.totalUnits);
  }

  lemma UnlockRises(s: State, d: Account, x: bool)
    requires MoneySound(s) && 0 < s.v2.totalUnits && UnlockOperatorPosition(s, d, x).Ok?
    requires 0 < UnlockOperatorPosition(s, d, x).value.v2.totalUnits
    ensures Rises(s, UnlockOperatorPosition(s, d, x).value, Left(s, House(Unlock(d, x))))
  {
    hide UnlockOperatorPosition, Pot, OperatorUnits, HouseEffect, Over, UnlockCap, Rises;
    UnlockMoves(s, d, x);
    var k, units := OperatorUnits(s.v2), s.v2.totalUnits;
    var actual := Min(k * Pot(s) / units, UnlockCap(s));
    ShareBounds(k, units, Pot(s), actual);
    BurnRises(s, UnlockOperatorPosition(s, d, x).value, k, actual);
  }

  lemma ShareBounds(k: nat, units: nat, pot: nat, out: nat)
    requires 0 < units && k <= units && out <= k * pot / units
    ensures out <= pot && out * units <= k * pot
  {
    FloorLeaves(k * pot, units);
    MulMono(out, k * pot / units, units);
    MulMono(k, units, pot);
    MulCancel(out, pot, units);
  }

  lemma DonationRises(s: State, f: Id, n: nat)
    requires MoneySound(s) && 0 < s.v2.totalUnits && FundVault(s, f, n).Ok?
    ensures Rises(s, FundVault(s, f, n).value, n as real)
  {
    hide LpEffect, MoneyKept;
    var t, u := FundVault(s, f, n).value, s.v2.totalUnits as real;
    assert t.v2 == s.v2 && Pot(t) == Pot(s) + n;
    assert u * Price(t) == Pot(t) as real && u * Price(s) == Pot(s) as real;
    assert u * (Price(t) - Price(s)) == u * Price(t) - u * Price(s);
  }

  lemma LpLeaves(s: State, step: LpStep)
    requires MoneySound(s) && 0 < s.v2.totalUnits && !Quiet(Lp(step)) && ApplyLp(s, step).Ok?
    requires 0 < ApplyLp(s, step).value.v2.totalUnits
    ensures Rises(s, ApplyLp(s, step).value, Left(s, Lp(step)))
  {
    hide LpDeposit, CompleteWithdraw, FundVault, LpEffect, MoneyKept, Rises, Minted, Burnt, Over, MintLeft;
    var t := ApplyLp(s, step).value;
    match step {
      case Deposit(u, n) => DepositMints(s, u, n); MintRises(s, t, n);
      case CompleteOut(u) => CompleteBurns(s, u); FlooredBurnRises(s, t, Pending(s, u));
      case Donate(f, n) => DonationRises(s, f, n);
    }
  }

  lemma HouseLeaves(s: State, step: HouseStep)
    requires MoneySound(s) && 0 < s.v2.totalUnits && PoolStep(House(step)) && !Quiet(House(step)) && ApplyHouse(s, step).Ok?
    requires 0 < ApplyHouse(s, step).value.v2.totalUnits
    ensures Rises(s, ApplyHouse(s, step).value, Left(s, House(step)))
  {
    hide HouseDeposit, HouseCompleteWithdraw, UnlockOperatorPosition, HouseEffect, MoneyKept;
    hide Rises, Minted, Burnt, Over, MintLeft;
    var t := ApplyHouse(s, step).value;
    match step {
      case HouseIn(n) => HouseInMints(s, n); MintRises(s, t, n);
      case HouseComplete => HouseCompleteBurns(s); FlooredBurnRises(s, t, s.v2.housePending);
      case Unlock(d, x) => UnlockRises(s, d, x);
    }
  }

  /** Exactly: every pool transaction raises the price by what it leaves to the holders it finds. */
  lemma StepLeaves(s: State, step: Step)
    requires MoneySound(s) && 0 < s.v2.totalUnits && PoolStep(step) && Apply(s, step).Ok? && 0 < Next(s, step).v2.totalUnits
    ensures Rises(s, Next(s, step), Left(s, step))
  {
    hide ApplyLp, ApplyHouse, MoneyKept;
    if Quiet(step) {
      hide Apply, Next;
      QuietStep(s, step);
    } else {
      hide Rises, Left;
      match step {
        case Lp(l) => LpLeaves(s, l);
        case House(h) => HouseLeaves(s, h);
      }
    }
  }

  /** A group gains from an outsider at most what the outsider leaves. */
  lemma OutsiderLeaves(s: State, step: Step, g: Group)
    requires MoneySound(s) && UnitsConserved(s) && 0 < s.v2.totalUnits && 0 < Next(s, step).v2.totalUnits
    requires PoolStep(step) && !By(step, g) && Apply(s, step).Ok?
    ensures Value(s, g) <= Value(Next(s, step), g) <= Value(s, g) + Left(s, step)
  {
    hide Apply, PoolStep, By, Divides, MoneyKept, Outside, MoneySound, Value, Price, Next, UnitsConserved, Left;
    var t := Next(s, step);
    OutsideWithinUnits(s, g);
    StepKeepsUnits(s, step);
    OutsideWithinUnits(t, g);
    StepPrice(s, step);
    StepLeaves(s, step);
    InsideKept(s, step, g);
    ValueOfUnits(s, g);
    ValueOfUnits(t, g);
    PricesCompare(s, t);
    var inside := s.v2.totalUnits - Outside(s, g);
    assert inside == t.v2.totalUnits - Outside(t, g) && 0 <= inside <= Kept(s, t);
    PartOfTheRise(Value(s, g), Value(t, g), Price(s), Price(t), inside as real, Kept(s, t) as real, Left(s, step));
  }

  lemma PartOfTheRise(v: real, w: real, p: real, q: real, inside: real, kept: real, left: real)
    requires v == p * inside && w == q * inside && p <= q && 0.0 <= inside <= kept && kept * (q - p) == left
    ensures v <= w <= v + left
  {
    assert w - v == inside * (q - p) <= kept * (q - p);
  }

  /** A rounded deposit leaves less than the price of one unit, a rounded withdrawal less than one lamport. */
  lemma LeftIsSmall(s: State, step: Step)
    requires 0 < s.v2.totalUnits
    ensures Mints(step) ==> 0.0 <= Left(s, step) <= Price(s)
    ensures Burns(step) ==> 0.0 <= Left(s, step) < 1.0
  {
    match step {
      case Lp(Deposit(_, n)) => MintLeftIsSmall(Pot(s), s.v2.totalUnits, n);
      case House(HouseIn(n)) => MintLeftIsSmall(Pot(s), s.v2.totalUnits, n);
      case Lp(CompleteOut(u)) => OverIsSmall(Pending(s, u) * Pot(s) % s.v2.totalUnits, s.v2.totalUnits);
      case House(HouseComplete) => OverIsSmall(s.v2.housePending * Pot(s) % s.v2.totalUnits, s.v2.totalUnits);
      case _ =>
    }
  }

  predicate Mints(step: Step) {
    (step.Lp? && step.l.Deposit?) || (step.House? && step.h.HouseIn?)
  }

  predicate Burns(step: Step) {
    (step.Lp? && step.l.CompleteOut?) || (step.House? && step.h.HouseComplete?)
  }

  lemma OverIsSmall(part: nat, whole: nat)
    requires part < whole
    ensures 0.0 <= Over(part, whole) < 1.0
  {}

  lemma MintLeftIsSmall(pot: nat, units: nat, n: nat)
    requires 0 < units
    ensures 0.0 <= MintLeft(pot, units, n) <= Over(pot, units)
  {
    if pot != 0 {
      SmallerFraction(n * units % pot, units + n * units / pot, pot, units);
    }
  }

  lemma SmallerFraction(a: nat, x: nat, b: nat, y: nat)
    requires a <= b && 0 < y <= x
    ensures 0.0 <= Over(a, x) <= Over(b, y)
  {
    var p, q := Over(a, x), Over(b, y);
    assert p * (x as real) == a as real && q * (y as real) == b as real;
    assert q * (y as real) <= q * (x as real);
    RealCancel(p, q, x as real);
  }

  // ---------------------------------------------------------------- no arbitrage

  /** What outsiders' transactions leave to the holders they find, over a run. */
  function LeftByOutsiders(s: State, steps: seq<Step>, g: Group): real
    requires UnitsThroughout(s, steps)
    decreases |steps|
  {
    if steps == [] then 0.0
    else
      (if By(steps[0], g) || Apply(s, steps[0]).Err? then 0.0 else Left(s, steps[0]))
      + LeftByOutsiders(Next(s, steps[0]), steps[1..], g)
  }

  /**
   No arbitrage: over any run of pool transactions with units outstanding throughout, whoever acts in it,
   a group takes out and still holds at most the value it started with, what it and the donors put in, and
   what the outsiders' rounding left to the holders they found.
   */
  lemma {:induction false} GroupCannotProfit(s: State, steps: seq<Step>, g: Group)
    requires MoneySound(s) && UnitsConserved(s) && UnitsThroughout(s, steps)
    requires forall step | step in steps :: PoolStep(step)
    ensures 0 < Run(s, steps).v2.totalUnits && 0.0 <= Value(Run(s, steps), g)
    ensures (TakenOut(s, steps, g) as real) + Value(Run(s, steps), g)
            <= Value(s, g) + (PutIn(s, steps, g) as real) + LeftByOutsiders(s, steps, g)
    decreases |steps|
  {
    hide Apply, PoolStep, By, Divides, MoneyKept, Outside, MoneySound, Value, Next, UnitsConserved, FlowIn, FlowOut, Left;
    if steps == [] {
      ValueNonNegative(s, g);
    } else {
      var t := Next(s, steps[0]);
      NextMoneySound(s, steps[0]);
      StepKeepsUnits(s, steps[0]);
      StepValue(s, steps[0], g);
      GroupCannotProfit(t, steps[1..], g);
    }
  }

  /** Outsiders' deposits and withdrawals, and none of the operator's exits among them. */
  function Roundings(s: State, steps: seq<Step>, g: Group, kind: Step -> bool): nat
    decreases |steps|
  {
    if steps == [] then 0
    else (if !By(steps[0], g) && Apply(s, steps[0]).Ok? && kind(steps[0]) then 1 else 0)
         + Roundings(Next(s, steps[0]), steps[1..], g, kind)
  }

  /** Anything but a deposit, a withdrawal, a donation or the operator's exit leaves nothing. */
  lemma QuietLeavesNothing(s: State, step: Step)
    requires 0 < s.v2.totalUnits && PoolStep(step) && !Mints(step) && !Burns(step)
    requires !(step.House? && step.h.Unlock?) && !(step.Lp? && step.l.Donate?)
    ensures Left(s, step) == 0.0
  {}

  /** What one transaction adds to the rounding, at a price no lower than today's. */
  lemma StepRounding(s: State, step: Step, g: Group, price: real)
    requires 0 < s.v2.totalUnits && PoolStep(step) && Price(s) <= price && (step.House? && step.h.Unlock? ==> g.operator)
    ensures !By(step, g) ==> Left(s, step) <= (if Burns(step) then 1.0 else 0.0) + (if Mints(step) then price else 0.0)
  {
    hide Left, Price;
    LeftIsSmall(s, step);
    if !By(step, g) && !Mints(step) && !Burns(step) {
      QuietLeavesNothing(s, step);
    }
  }

  /** The bound on a run's rounding at a given price of one unit. */
  predicate RoundingWithin(s: State, steps: seq<Step>, g: Group, price: real)
    requires UnitsThroughout(s, steps)
  {
    LeftByOutsiders(s, steps, g) <= (Roundings(s, steps, g, Burns) as real) + (Roundings(s, steps, g, Mints) as real) * price
  }

  lemma RoundingGrows(s: State, steps: seq<Step>, g: Group, price: real)
    requires steps != [] && UnitsThroughout(s, steps) && RoundingWithin(Next(s, steps[0]), steps[1..], g, price)
    requires !By(steps[0], g) ==>
               Left(s, steps[0]) <= (if Burns(steps[0]) then 1.0 else 0.0) + (if Mints(steps[0]) then price else 0.0)
    ensures RoundingWithin(s, steps, g, price)
  {
    hide Apply, Next, By, Left, Mints, Burns, MoneyKept, Roundings, LeftByOutsiders, UnitsThroughout;
    var step, t := steps[0], Next(s, steps[0]);
    assert 0 < s.v2.totalUnits && UnitsThroughout(t, steps[1..]) by { UnitsStep(s, steps); }
    var rounds := !By(step, g) && Apply(s, step).Ok?;
    LeftStep(s, steps, g);
    RoundingsStep(s, steps, g, Burns);
    RoundingsStep(s, steps, g, Mints);
    AddRounding(LeftByOutsiders(t, steps[1..], g), if rounds then Left(s, step) else 0.0, price,
                Roundings(t, steps[1..], g, Burns), Roundings(t, steps[1..], g, Mints),
                if rounds && Burns(step) then 1 else 0, if rounds && Mints(step) then 1 else 0);
  }

  lemma UnitsStep(s: State, steps: seq<Step>)
    requires steps != [] && UnitsThroughout(s, steps)
    ensures 0 < s.v2.totalUnits && UnitsThroughout(Next(s, steps[0]), steps[1..])
  {
    hide Next;
  }

  lemma LeftStep(s: State, steps: seq<Step>, g: Group)
    requires steps != [] && 0 < s.v2.totalUnits && UnitsThroughout(s, steps)
    ensures UnitsThroughout(Next(s, steps[0]), steps[1..])
    ensures LeftByOutsiders(s, steps, g) ==
            (if By(steps[0], g) || Apply(s, steps[0]).Err? then 0.0 else Left(s, steps[0]))
            + LeftByOutsiders(Next(s, steps[0]), steps[1..], g)
  {
    hide Apply, Next, By, Left, MoneyKept;
  }

  lemma RoundingsStep(s: State, steps: seq<Step>, g: Group, kind: Step -> bool)
    requires steps != []
    ensures Roundings(s, steps, g, kind) ==
            (if !By(steps[0], g) && Apply(s, steps[0]).Ok? && kind(steps[0]) then 1 else 0)
            + Roundings(Next(s, steps[0]), steps[1..], g, kind)
  {
    hide Apply, Next, By, MoneyKept;
  }

  /** All rounding by others is worth at most a lamport a withdrawal, and a unit's final price a deposit. */
  lemma {:induction false} RoundingIsSmall(s: State, steps: seq<Step>, g: Group)
    requires MoneySound(s) && UnitsThroughout(s, steps)
    requires forall step | step in steps :: PoolStep(step) && (step.House? && step.h.Unlock? ==> g.operator)
    ensures 0 < Run(s, steps).v2.totalUnits && RoundingWithin(s, steps, g, Price(Run(s, steps)))
    decreases |steps|
  {
    hide Apply, Next, By, PoolStep, Left, Price, Mints, Burns, MoneyKept, MoneySound, PriceKept, PriceFlat, Run;
    if steps == [] {
      RunNothing(s);
    } else {
      hide RoundingWithin;
      RunStep(s, steps);
      NextMoneySound(s, steps[0]);
      RoundingIsSmall(Next(s, steps[0]), steps[1..], g);
      RunPrice(s, steps);
      PricesCompare(s, Run(s, steps));
      StepRounding(s, steps[0], g, Price(Run(s, steps)));
      RoundingGrows(s, steps, g, Price(Run(s, steps)));
    }
  }

  lemma AddRounding(rest: real, left: real, price: real, burns: nat, mints: nat, b: nat, m: nat)
    requires rest <= (burns as real) + (mints as real) * price
    requires left <= (b as real) + (if m == 1 then price else 0.0) && m <= 1
    ensures left + rest <= ((b + burns) as real) + ((m + mints) as real) * price
  {
    assert (1 + mints) as real == 1.0 + mints as real;
    assert (1.0 + mints as real) * price == price + (mints as real) * price;
  }

  lemma DividesLeavesNothing(s: State, step: Step)
    requires 0 < s.v2.totalUnits && PoolStep(step) && Divides(s, step)
    ensures Left(s, step) == 0.0
  {
    hide OperatorUnits, UnlockCap, Pending, Pot;
    if step.House? && step.h.Unlock? {
      FloorLeaves(OperatorUnits(s.v2) * Pot(s), s.v2.totalUnits);
    }
  }

  /** Where the outsiders' divisions are exact nothing is left, and the bound is the plain one. */
  lemma {:induction false} NothingLeft(s: State, steps: seq<Step>, g: Group)
    requires UnitsThroughout(s, steps) && OutsidersExact(s, steps, g) && forall step | step in steps :: PoolStep(step)
    ensures LeftByOutsiders(s, steps, g) == 0.0
    decreases |steps|
  {
    hide Next, Apply, By, MoneyKept, Left, Divides, PoolStep;
    if steps != [] {
      if Divides(s, steps[0]) {
        DividesLeavesNothing(s, steps[0]);
      }
      NothingLeft(Next(s, steps[0]), steps[1..], g);
    }
  }

  /** Outsiders' transactions succeed only where the division is exact. */
  predicate OutsidersExact(s: State, steps: seq<Step>, g: Group)
    decreases |steps|
  {
    steps != [] ==>
      && (By(steps[0], g) || Apply(s, steps[0]).Err? || Divides(s, steps[0]))
      && OutsidersExact(Next(s, steps[0]), steps[1..], g)
  }

  lemma ValueNonNegative(s: State, g: Group)
    requires UnitsConserved(s) && 0 < s.v2.totalUnits
    ensures 0.0 <= Value(s, g)
  {
    hide Outside, Value, UnitsConserved;
    OutsideWithinUnits(s, g);
    ValueOfUnits(s, g);
    assert 0.0 <= Price(s);
    hide Price;
    Product(Price(s), (s.v2.totalUnits - Outside(s, g)) as real);
  }

  lemma Product(p: real, c: real)
    requires 0.0 <= p && 0.0 <= c
    ensures 0.0 <= p * c
  {}

  lemma StepValue(s: State, step: Step, g: Group)
    requires MoneySound(s) && UnitsConserved(s) && 0 < s.v2.totalUnits && 0 < Next(s, step).v2.totalUnits && PoolStep(step)
    ensures Value(Next(s, step), g) + (FlowOut(s, step, g) as real)
            <= Value(s, g) + (FlowIn(s, step, g) as real)
               + (if By(step, g) || Apply(s, step).Err? then 0.0 else Left(s, step))
  {
    hide Apply, PoolStep, By, Divides, MoneyKept, Outside, MoneySound, Value, UnitsConserved, Left;
    if By(step, g) {
      OwnStepValue(s, step, g);
    } else if Apply(s, step).Ok? {
      OutsiderLeaves(s, step, g);
    }
  }
}
