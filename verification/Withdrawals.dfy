/** Leaving the pool: the exact conditions under which a holder is paid, and what a cancellation undoes. */
module Withdrawals {
  import opened Prelude
  import opened Arith
  import opened Sums
  import opened Ledger
  import opened Handlers
  import opened Runs
  import opened Settlement

  /** A product the program computes in a u128. */
  predicate Fits(units: nat, assets: nat) {
    units * assets <= U128_MAX
  }

  /**
   Only the cooldown stands between a pending withdrawal and its payment: no total can underflow and
   the vault cannot be short, so the one failure left is a share too wide for a u128.
   */
  lemma UserIsPaid(s: State, u: Id)
    requires Inv(s) && u in s.positions
    ensures CompleteWithdraw(s, u).Ok? <==>
            0 < s.positions[u].pending && s.positions[u].unlock <= s.slot && Fits(s.positions[u].pending, Assets(s.lamports))
  {
    hide UnitsToAssets, LpEffect, MoneyKept, RoundsSound, ReservationsExact, ConfigSound, SessionsSound;
    PositionWithinTotals(s, u);
    BalanceBounded(s.lamports, VaultPda);
    ShareWithinAssets(s.positions[u].pending, Assets(s.lamports), s.v2.totalUnits);
  }

  lemma HouseIsPaid(s: State)
    requires Inv(s)
    ensures HouseCompleteWithdraw(s).Ok? <==>
            0 < s.v2.housePending && s.v2.houseUnlock <= s.slot && Fits(s.v2.housePending, Assets(s.lamports))
  {
    hide UnitsToAssets, HouseEffect, MoneyKept, RoundsSound, ReservationsExact, ConfigSound, SessionsSound;
    BalanceBounded(s.lamports, VaultPda);
    ShareWithinAssets(s.v2.housePending, Assets(s.lamports), s.v2.totalUnits);
  }

  /** A user asks for any positive part of their units, one request at a time, and never overflows a total. */
  lemma RequestSucceeds(s: State, u: Id, n: nat)
    requires Inv(s) && u in s.positions
    ensures RequestWithdraw(s, u, n).Ok? <==> s.positions[u].pending == 0 && 0 < n <= s.positions[u].units
  {
    hide LpEffect, RoundsSound, ReservationsExact, ConfigSound, SessionsSound, MoneySound;
    if s.positions[u].pending == 0 && n <= s.positions[u].units {
      RoomToRequest(s, u);
    }
  }

  /** Everyone's pending units and one user's free units are all among the units there are. */
  lemma RoomToRequest(s: State, u: Id)
    requires UnitsConserved(s) && u in s.positions
    ensures s.v2.totalPending + s.positions[u].units <= s.v2.totalUnits
  {
    SumRemove(s.positions, UnitsOf, u);
    SumRemove(s.positions, PendingOf, u);
    SumMono(s.positions - {u}, PendingOf, UnitsOf);
  }

  /** A cancellation takes a request back completely; only the stale unlock slot is cleared. */
  lemma CancelUndoesRequest(s: State, u: Id, n: nat)
    requires Inv(s) && RequestWithdraw(s, u, n).Ok?
    ensures CancelWithdraw(RequestWithdraw(s, u, n).value, u) ==
            Ok(s.(positions := s.positions[u := s.positions[u].(unlock := 0)]))
  {
    hide LpEffect, RoundsSound, ReservationsExact, ConfigSound, SessionsSound, MoneySound;
    PositionWithinTotals(s, u);
    var t, pos := RequestWithdraw(s, u, n).value, s.positions[u];
    assert t.positions[u := Position(pos.units, 0, 0)] == s.positions[u := pos.(unlock := 0)];
  }

  lemma HouseCancelUndoesRequest(s: State, n: nat)
    requires Inv(s) && HouseRequestWithdraw(s, n).Ok?
    ensures HouseCancelWithdraw(HouseRequestWithdraw(s, n).value) == Ok(s.(v2 := s.v2.(houseUnlock := 0)))
  {
    hide EnforceHouseFloor, HouseEffect, RoundsSound, ReservationsExact, ConfigSound, SessionsSound, MoneySound;
  }

  // ---------------------------------------------------------------- in and out again

  /** k parts of `whole` out of `all`, floored. */
  function Share(k: nat, whole: nat, all: nat): nat
    requires 0 < all
  {
    k * whole / all
  }

  /** The rent of a first deposit's position account. */
  function OpeningRent(s: State, u: Id): nat {
    if u in s.positions then 0 else SatSub(Rent(POSITION_SPACE), Bal(s.lamports, PositionPda(u)))
  }

  function PositionOf(s: State, u: Id): Position {
    if u in s.positions then s.positions[u] else Position(0, 0, 0)
  }

  lemma OpeningPays(s: State, u: Id)
    requires MoneySound(s) && EnsurePosition(s, u).Ok?
    ensures var t := EnsurePosition(s, u).value;
            && Total(t.lamports) == Total(s.lamports) && Assets(t.lamports) == Assets(s.lamports)
            && t.positions == s.positions[u := PositionOf(s, u)]
            && Bal(t.lamports, Wallet(u)) == Bal(s.lamports, Wallet(u)) - OpeningRent(s, u)
  {}

  /** A deposit, the first or a later one: the floored share in units, for the amount and any opening rent. */
  lemma DepositBuys(s: State, u: Id, n: nat)
    requires MoneySound(s) && 0 < s.v2.totalUnits && LpDeposit(s, u, n).Ok?
    ensures var t, pos := LpDeposit(s, u, n).value, PositionOf(s, u);
            && var minted := t.v2.totalUnits - s.v2.totalUnits;
            && 0 < Assets(s.lamports) && minted == Share(n, s.v2.totalUnits, Assets(s.lamports))
            && t.positions == s.positions[u := pos.(units := pos.units + minted)]
            && Assets(t.lamports) == Assets(s.lamports) + n
            && Bal(t.lamports, Wallet(u)) == Bal(s.lamports, Wallet(u)) - n - OpeningRent(s, u)
  {
    hide AdmitDeposit, LpEffect, MoneyKept, EnsurePosition, OpeningRent, PositionOf;
    OpeningPays(s, u);
  }

  lemma CompletionPays(s: State, u: Id)
    requires MoneySound(s) && 0 < s.v2.totalUnits && CompleteWithdraw(s, u).Ok?
    ensures var t, out := CompleteWithdraw(s, u).value, Share(s.positions[u].pending, Assets(s.lamports), s.v2.totalUnits);
            && t.positions == s.positions[u := Position(s.positions[u].units, 0, 0)]
            && t.v2.totalUnits == s.v2.totalUnits - s.positions[u].pending
            && Assets(t.lamports) == Assets(s.lamports) - out && Bal(t.lamports, Wallet(u)) == Bal(s.lamports, Wallet(u)) + out
  {
    hide LpEffect, MoneyKept;
  }

  /** Buying and selling back rounds twice in the pool's favour, by less than one unit's price and a lamport. */
  lemma TwoFloors(pot: nat, units: nat, n: nat, minted: nat)
    requires 0 < pot && 0 < units && minted == Share(n, units, pot)
    ensures LessThanAUnit(n - Share(minted, pot + n, units + minted), pot, units + minted)
  {
    DivMod(n * units, pot);
    Distribute(minted, pot, n, units);
    RoundsDown(minted * (pot + n), n, units + minted, pot);
  }

  lemma Distribute(minted: nat, pot: nat, n: nat, units: nat)
    ensures minted * (pot + n) == minted * pot + minted * n
    ensures n * (units + minted) == n * units + minted * n
  {}

  /** Flooring something just short of n * all by less than pot loses less than pot / all + 1. */
  lemma RoundsDown(due: nat, n: nat, all: nat, pot: nat)
    requires 0 < all && due <= n * all < due + pot
    ensures LessThanAUnit(n - due / all, pot, all)
  {
    DivMod(due, all);
    var back := due / all;
    assert (n - back) * all == n * all - back * all;
    MulCancel(back, n, all);
  }

  /** Ask for k units, wait, and be paid, with nobody else acting. */
  function AskAndTake(s: State, u: Id, k: nat): Result<State> {
    var asked :- RequestWithdraw(s, u, k);
    CompleteWithdraw(asked.(slot := asked.slot + asked.v2.cooldown), u)
  }

  lemma AskAndTakePays(s: State, u: Id, k: nat)
    requires MoneySound(s) && 0 < s.v2.totalUnits && AskAndTake(s, u, k).Ok?
    ensures var t, out := AskAndTake(s, u, k).value, Share(k, Assets(s.lamports), s.v2.totalUnits);
            && u in s.positions && u in t.positions && t.positions[u].units == s.positions[u].units - k
            && t.v2.totalUnits == s.v2.totalUnits - k
            && Assets(t.lamports) == Assets(s.lamports) - out && Bal(t.lamports, Wallet(u)) == Bal(s.lamports, Wallet(u)) + out
  {
    hide CompleteWithdraw, LpEffect, MoneyKept;
    var asked := RequestWithdraw(s, u, k).value;
    CompletionPays(asked.(slot := asked.slot + asked.v2.cooldown), u);
  }

  /** A deposit, and its units straight out again. */
  function InAndOut(s: State, u: Id, n: nat): Result<State> {
    var bought :- LpDeposit(s, u, n);
    AskAndTake(bought, u, SatSub(bought.v2.totalUnits, s.v2.totalUnits))
  }

  /** Less than the price of one unit, and a lamport. */
  predicate LessThanAUnit(cost: int, pot: nat, units: nat) {
    0 <= cost && cost * units < pot + units
  }

  /**
   Round trip: a deposit taken straight out again never profits, costs less than the price of one unit
   plus one lamport beyond a first deposit's rent, and leaves the user's other units and all units as they were.
   */
  lemma InAndOutCosts(s: State, u: Id, n: nat)
    requires MoneySound(s) && 0 < s.v2.totalUnits && InAndOut(s, u, n).Ok?
    ensures var t := InAndOut(s, u, n).value;
            && var cost := Bal(s.lamports, Wallet(u)) - OpeningRent(s, u) - Bal(t.lamports, Wallet(u));
            && LessThanAUnit(cost, Assets(s.lamports), LpDeposit(s, u, n).value.v2.totalUnits)
            && Assets(t.lamports) == Assets(s.lamports) + cost
            && t.v2.totalUnits == s.v2.totalUnits
            && u in t.positions && t.positions[u].units == PositionOf(s, u).units
  {
    hide Share, LessThanAUnit, LpDeposit, AskAndTake, MoneyKept, Assets, Bal, LpEffect;
    var bought := LpDeposit(s, u, n).value;
    var minted := bought.v2.totalUnits - s.v2.totalUnits;
    DepositBuys(s, u, n);
    DepositKeepsMoney(s, u, n);
    AskAndTakePays(bought, u, minted);
    TwoFloors(Assets(s.lamports), s.v2.totalUnits, n, minted);
  }

  lemma DepositKeepsMoney(s: State, u: Id, n: nat)
    requires MoneySound(s) && LpDeposit(s, u, n).Ok?
    ensures MoneySound(LpDeposit(s, u, n).value)
  {
    hide LpDeposit;
  }
}
