/**
  Aggregating option Greeks over legs and positions, services/market_data/greeks.py.
 */
module GreeksAggregation {
  import opened Prelude
  import opened Numbers

  datatype Greek = Delta | Gamma | Theta | Vega | Rho

  const GREEKS := [Delta, Gamma, Theta, Vega, Rho]

  /** A stored value may be absent, null, or a number; null cannot be converted and raises. */
  datatype Reading = Absent | Null | Number(value: real)

  type Snapshot = map<Greek, Reading>

  /** A direction that is no text, or a quantity that cannot be compared or converted, is None. */
  datatype Leg = Leg(symbol: string, short: Option<bool>, quantity: Option<real>)

  /** `legs` is the broker metadata of a position, if it has any. */
  datatype Position = Position(id: nat, legs: Option<seq<Leg>>)

  /** The cached or stored snapshot of a symbol; an empty one counts as none. */
  type Lookup = string -> Option<Snapshot>

  type Totals = map<Greek, real>

  // ---------------------------------------------------------------- specification

  /** Whole contracts, fractions cut off. */
  function Contracts(quantity: real): nat {
    if quantity < 0.0 then (-quantity).Floor else quantity.Floor
  }

  predicate Legible(leg: Leg) {
    leg.short.Some? && leg.quantity.Some?
  }

  predicate Sells(leg: Leg)
    requires Legible(leg)
  {
    leg.short.value || leg.quantity.value < 0.0
  }

  function Signed(leg: Leg): real
    requires Legible(leg)
  {
    if Sells(leg) then -(Contracts(leg.quantity.value) as real) else Contracts(leg.quantity.value) as real
  }

  function ReadingOf(s: Snapshot, g: Greek): Reading {
    if g in s then s[g] else Absent
  }

  /** The leg is counted: it names a symbol and a snapshot exists. */
  predicate Counted(leg: Leg, look: Lookup) {
    leg.symbol != "" && look(leg.symbol).Some? && look(leg.symbol).value != map[]
  }

  /** The direction is read of every leg, the quantity and the Greeks only where a symbol is named. */
  predicate Readable(leg: Leg, look: Lookup) {
    && leg.short.Some?
    && (leg.symbol != "" ==> leg.quantity.Some?)
    && (Counted(leg, look) ==> forall g :: ReadingOf(look(leg.symbol).value, g) != Null)
  }

  function Contribution(s: Snapshot, g: Greek, signed: real): real {
    if ReadingOf(s, g).Number? then ReadingOf(s, g).value * signed else 0.0
  }

  function LegValue(look: Lookup, g: Greek): Leg -> real {
    (leg: Leg) =>
      if Counted(leg, look) && Legible(leg) then Contribution(look(leg.symbol).value, g, Signed(leg)) else 0.0
  }

  function Sum<T>(s: seq<T>, f: T -> real): real {
    if s == [] then 0.0 else Sum(s[..|s| - 1], f) + f(s[|s| - 1])
  }

  /** The position yields Greeks: it has legs and none of them raises. */
  predicate Usable(p: Position, look: Lookup) {
    p.legs.Some? && p.legs.value != [] && forall leg :: leg in p.legs.value ==> Readable(leg, look)
  }

  function PositionValue(look: Lookup, g: Greek): Position -> real {
    (p: Position) => if Usable(p, look) then 100.0 * Sum(p.legs.value, LegValue(look, g)) else 0.0
  }

  // ---------------------------------------------------------------- the service

  const ZEROS: Totals := map[Delta := 0.0, Gamma := 0.0, Theta := 0.0, Vega := 0.0, Rho := 0.0]

  function IndexOf(g: Greek): (i: nat)
    ensures i < |GREEKS| && GREEKS[i] == g
  {
    match g case Delta => 0 case Gamma => 1 case Theta => 2 case Vega => 3 case Rho => 4
  }

  lemma ZerosEverywhere()
    ensures forall g :: g in ZEROS && ZEROS[g] == 0.0
  {
    forall g: Greek
      ensures g in ZEROS && ZEROS[g] == 0.0
    {
      match g case Delta => case Gamma => case Theta => case Vega => case Rho =>
    }
  }

  predicate AddedIf(done: bool, totals: Totals, totals': Totals, g: Greek, amount: real) {
    g in totals && g in totals' && totals'[g] == totals[g] + if done then amount else 0.0
  }

  /** Adds one leg's snapshot to the totals, Greek by Greek; false stands for the conversion raising. */
  method AddSnapshot(totals: Totals, s: Snapshot, signed: real) returns (ok: bool, totals': Totals)
    requires forall g :: g in totals
    ensures ok <==> forall g :: ReadingOf(s, g) != Null
    ensures forall g :: g in totals'
    ensures ok ==> forall g :: totals'[g] == totals[g] + Contribution(s, g, signed)
  {
    totals' := totals;
    for i := 0 to |GREEKS|
      invariant forall g :: IndexOf(g) < i ==> ReadingOf(s, g) != Null
      invariant forall g :: AddedIf(IndexOf(g) < i, totals, totals', g, Contribution(s, g, signed))
    {
      var greek := GREEKS[i];
      var reading := ReadingOf(s, greek);
      if reading == Null {
        forall g
          ensures g in totals'
        {
          assert AddedIf(IndexOf(g) < i, totals, totals', g, Contribution(s, g, signed));
        }
        return false, totals';
      }
      var value := if reading.Number? then reading.value else 0.0;
      ghost var before := totals';
      assert AddedIf(IndexOf(greek) < i, totals, before, greek, Contribution(s, greek, signed));
      totals' := totals'[greek := totals'[greek] + value * signed];
      forall g
        ensures AddedIf(IndexOf(g) < i + 1, totals, totals', g, Contribution(s, g, signed))
      {
        assert AddedIf(IndexOf(g) < i, totals, before, g, Contribution(s, g, signed));
        assert g != greek ==> IndexOf(g) != i;
      }
    }
    ok := true;
    forall g ensures g in totals' && totals'[g] == totals[g] + Contribution(s, g, signed) {
      assert AddedIf(IndexOf(g) < |GREEKS|, totals, totals', g, Contribution(s, g, signed));
    }
  }

  /** One leg of the loop; false stands for a conversion or comparison raising. */
  method AddLeg(totals: Totals, leg: Leg, look: Lookup) returns (ok: bool, totals': Totals)
    requires forall g :: g in totals
    ensures ok <==> Readable(leg, look)
    ensures ok ==> forall g :: g in totals' && totals'[g] == totals[g] + LegValue(look, g)(leg)
  {
    if leg.short.None? { return false, totals; }
    if leg.symbol == "" { return true, totals; }
    if leg.quantity.None? { return false, totals; }
    var sell := leg.short.value || leg.quantity.value < 0.0;
    var quantity := Contracts(leg.quantity.value);
    var snapshot := look(leg.symbol);
    if snapshot.None? || snapshot.value == map[] { return true, totals; }
    var multiplier := if sell then -1.0 else 1.0;
    var signed := multiplier * quantity as real;
    assert signed == Signed(leg);
    ok, totals' := AddSnapshot(totals, snapshot.value, signed);
  }

  /** The totals are the sums over these legs. */
  ghost predicate Totalled(totals: Totals, legs: seq<Leg>, look: Lookup) {
    forall g :: g in totals && totals[g] == Sum(legs, LegValue(look, g))
  }

  lemma TotalledGrows(totals: Totals, more: Totals, legs: seq<Leg>, leg: Leg, look: Lookup)
    requires Totalled(totals, legs, look)
    requires forall g :: g in more && more[g] == totals[g] + LegValue(look, g)(leg)
    ensures Totalled(more, legs + [leg], look)
  {
    assert (legs + [leg])[..|legs|] == legs;
  }

  method AggregateLegs(legs: seq<Leg>, look: Lookup) returns (ok: bool, totals: Totals)
    ensures ok <==> forall leg :: leg in legs ==> Readable(leg, look)
    ensures ok ==> Totalled(totals, legs, look)
  {
    ok, totals := true, ZEROS;
    ZerosEverywhere();
    for i := 0 to |legs|
      invariant ok && Totalled(totals, legs[..i], look)
      invariant forall leg :: leg in legs[..i] ==> Readable(leg, look)
    {
      assert legs[..i + 1] == legs[..i] + [legs[i]];
      ghost var before := totals;
      ok, totals := AddLeg(totals, legs[i], look);
      if !ok { return; }
      TotalledGrows(before, totals, legs[..i], legs[i], look);
    }
    assert legs[..|legs|] == legs;
  }

  method GetPositionGreeks(p: Position, look: Lookup) returns (greeks: Option<Totals>)
    ensures greeks.Some? <==> Usable(p, look)
    ensures greeks.Some? ==> forall g :: g in greeks.value && greeks.value[g] == PositionValue(look, g)(p)
  {
    if p.legs.None? || p.legs.value == [] { return None; }
    var ok, totals := AggregateLegs(p.legs.value, look);
    if !ok { return None; }
    return Some(map g | g in totals :: totals[g] * 100.0);
  }

  method GetPortfolioGreeks(positions: seq<Position>, look: Lookup) returns (portfolio: Totals, count: nat)
    ensures forall g :: g in portfolio && portfolio[g] == Sum(positions, PositionValue(look, g))
    ensures count as real == Sum(positions, (p: Position) => if Usable(p, look) then 1.0 else 0.0)
  {
    portfolio, count := ZEROS, 0;
    ZerosEverywhere();
    ghost var one := (p: Position) => if Usable(p, look) then 1.0 else 0.0;
    for i := 0 to |positions|
      invariant forall g :: g in portfolio && portfolio[g] == Sum(positions[..i], PositionValue(look, g))
      invariant count as real == Sum(positions[..i], one)
    {
      assert positions[..i + 1][..i] == positions[..i];
      var greeks := GetPositionGreeks(positions[i], look);
      if greeks.Some? {
        portfolio := map g | g in portfolio :: portfolio[g] + greeks.value[g];
        count := count + 1;
      }
    }
    assert positions[..|positions|] == positions;
    SameFunctionSameSum(positions, one, (p: Position) => if Usable(p, look) then 1.0 else 0.0);
  }

  // ---------------------------------------------------------------- sums

  lemma {:induction false} SameFunctionSameSum<T>(s: seq<T>, f: T -> real, h: T -> real)
    requires forall x :: x in s ==> f(x) == h(x)
    ensures Sum(s, f) == Sum(s, h)
  {
    if s != [] {
      SameFunctionSameSum(s[..|s| - 1], f, h);
    }
  }

  lemma {:induction false} SumAppend<T>(a: seq<T>, b: seq<T>, f: T -> real)
    ensures Sum(a + b, f) == Sum(a, f) + Sum(b, f)
  {
    if b == [] {
      assert a + b == a;
    } else {
      SumAppend(a, b[..|b| - 1], f);
      assert (a + b)[..|a + b| - 1] == a + b[..|b| - 1];
    }
  }

  lemma SumOne<T>(x: T, f: T -> real)
    ensures Sum([x], f) == f(x)
  {
    assert [x][..0] == [];
  }

  lemma SumMiddle<T>(a: seq<T>, x: T, b: seq<T>, f: T -> real)
    ensures Sum(a + [x] + b, f) == Sum(a + b, f) + f(x)
  {
    SumAppend(a + [x], b, f);
    SumAppend(a, [x], f);
    SumOne(x, f);
    SumAppend(a, b, f);
  }

  /** A sum does not depend on the order of its terms. */
  lemma {:induction false} SumPermutes<T>(a: seq<T>, b: seq<T>, f: T -> real)
    requires multiset(a) == multiset(b)
    ensures Sum(a, f) == Sum(b, f)
    decreases |a|
  {
    if a == [] {
      assert |multiset(b)| == 0;
    } else {
      var front, x := a[..|a| - 1], a[|a| - 1];
      assert a == front + [x];
      assert x in multiset(b);
      var i :| 0 <= i < |b| && b[i] == x;
      var left, right := b[..i], b[i + 1..];
      assert b == left + [x] + right;
      SumMiddle(left, x, right, f);
      CancelOne(multiset(front), multiset(left + right), x);
      SumPermutes(front, left + right, f);
    }
  }

  lemma CancelOne<T>(a: multiset<T>, b: multiset<T>, x: T)
    requires a + multiset{x} == b + multiset{x}
    ensures a == b
  {
    assert (a + multiset{x}) - multiset{x} == a;
    assert (b + multiset{x}) - multiset{x} == b;
  }

  lemma {:induction false} SumNegates<T, U>(s: seq<T>, t: seq<U>, f: T -> real, h: U -> real)
    requires |s| == |t| && forall i :: 0 <= i < |s| ==> h(t[i]) == -f(s[i])
    ensures Sum(t, h) == -Sum(s, f)
  {
    if s != [] {
      SumNegates(s[..|s| - 1], t[..|t| - 1], f, h);
    }
  }

  // ---------------------------------------------------------------- laws

  /** All legs of all positions that yield Greeks. */
  function UsableLegs(positions: seq<Position>, look: Lookup): seq<Leg> {
    if positions == [] then []
    else
      var p := positions[|positions| - 1];
      var before := UsableLegs(positions[..|positions| - 1], look);
      if Usable(p, look) then before + p.legs.value else before
  }

  /** The portfolio is 100 times the signed sum over one flat list of legs. */
  lemma {:induction false} PortfolioIsSignedLegSum(positions: seq<Position>, look: Lookup, g: Greek)
    ensures Sum(positions, PositionValue(look, g)) == 100.0 * Sum(UsableLegs(positions, look), LegValue(look, g))
  {
    if positions != [] {
      var p := positions[|positions| - 1];
      var before := UsableLegs(positions[..|positions| - 1], look);
      PortfolioIsSignedLegSum(positions[..|positions| - 1], look, g);
      if Usable(p, look) {
        SumAppend(before, p.legs.value, LegValue(look, g));
      }
    }
  }

  /** Reordering the legs of a position changes neither its Greeks nor whether it has any. */
  lemma LegOrderIrrelevant(id: nat, a: seq<Leg>, b: seq<Leg>, look: Lookup, g: Greek)
    requires multiset(a) == multiset(b)
    ensures Usable(Position(id, Some(a)), look) <==> Usable(Position(id, Some(b)), look)
    ensures PositionValue(look, g)(Position(id, Some(a))) == PositionValue(look, g)(Position(id, Some(b)))
  {
    assert |multiset(a)| == |a| && |multiset(b)| == |b|;
    forall x
      ensures x in a <==> x in b
    {
      assert x in a <==> x in multiset(a);
      assert x in b <==> x in multiset(b);
    }
    SumPermutes(a, b, LegValue(look, g));
  }

  lemma PositionOrderIrrelevant(a: seq<Position>, b: seq<Position>, look: Lookup, g: Greek)
    requires multiset(a) == multiset(b)
    ensures Sum(a, PositionValue(look, g)) == Sum(b, PositionValue(look, g))
  {
    SumPermutes(a, b, PositionValue(look, g));
  }

  /** The same contracts held the other way round. */
  function Opposite(leg: Leg): Leg {
    if Legible(leg) then Leg(leg.symbol, Some(!Sells(leg)), Some(Contracts(leg.quantity.value) as real)) else leg
  }

  function OppositePosition(p: Position, id: nat): Position {
    if p.legs.None? then Position(id, None)
    else Position(id, Some(seq(|p.legs.value|, i requires 0 <= i < |p.legs.value| => Opposite(p.legs.value[i]))))
  }

  lemma OppositeLegNegates(leg: Leg, look: Lookup, g: Greek)
    ensures Legible(Opposite(leg)) <==> Legible(leg)
    ensures Legible(leg) ==> Signed(Opposite(leg)) == -Signed(leg)
    ensures LegValue(look, g)(Opposite(leg)) == -LegValue(look, g)(leg)
    ensures Readable(Opposite(leg), look) <==> Readable(leg, look)
  {
    if Legible(leg) {
      assert Contracts(Contracts(leg.quantity.value) as real) == Contracts(leg.quantity.value);
    }
    if Counted(leg, look) && Legible(leg) {
      var r := ReadingOf(look(leg.symbol).value, g);
      if r.Number? {
        assert (-Signed(leg)) * r.value == -(Signed(leg) * r.value);
      }
    }
  }

  /** A position and its leg-by-leg opposite cancel. */
  lemma OppositeCancels(p: Position, id: nat, look: Lookup, g: Greek)
    ensures PositionValue(look, g)(p) + PositionValue(look, g)(OppositePosition(p, id)) == 0.0
  {
    if p.legs.Some? {
      var legs, other := p.legs.value, OppositePosition(p, id).legs.value;
      forall i | 0 <= i < |legs|
        ensures LegValue(look, g)(other[i]) == -LegValue(look, g)(legs[i])
        ensures Readable(other[i], look) <==> Readable(legs[i], look)
      {
        OppositeLegNegates(legs[i], look, g);
      }
      assert Usable(p, look) <==> Usable(OppositePosition(p, id), look) by {
        assert forall i :: 0 <= i < |legs| ==> legs[i] in legs && other[i] in other;
      }
      SumNegates(legs, other, LegValue(look, g), LegValue(look, g));
    }
  }

  /** Adding both to a portfolio, anywhere, leaves every Greek as it was. */
  lemma HedgedPairIsNeutral(before: seq<Position>, after: seq<Position>, p: Position, id: nat, look: Lookup, g: Greek)
    requires multiset(after) == multiset(before) + multiset{p, OppositePosition(p, id)}
    ensures Sum(after, PositionValue(look, g)) == Sum(before, PositionValue(look, g))
  {
    var pair := [p, OppositePosition(p, id)];
    assert multiset(before + pair) == multiset(after);
    SumPermutes(after, before + pair, PositionValue(look, g));
    SumAppend(before, pair, PositionValue(look, g));
    assert pair == [p] + [OppositePosition(p, id)];
    SumAppend([p], [OppositePosition(p, id)], PositionValue(look, g));
    SumOne(p, PositionValue(look, g));
    SumOne(OppositePosition(p, id), PositionValue(look, g));
    OppositeCancels(p, id, look, g);
  }

  // ---------------------------------------------------------------- the sign and the size of one leg

  /** Whole contracts: the size of the quantity with its fraction cut off. */
  predicate WholePart(n: nat, quantity: real) {
    n as real <= Abs(quantity) < n as real + 1.0
  }

  /** A position of one leg: long adds, short or a negative quantity subtracts, a hundred per contract. */
  lemma SingleLegGreek(id: nat, leg: Leg, look: Lookup, g: Greek, n: nat)
    requires leg.symbol != "" && leg.short.Some? && leg.quantity.Some? && WholePart(n, leg.quantity.value)
    requires look(leg.symbol).Some? && g in look(leg.symbol).value && look(leg.symbol).value[g].Number?
    requires Readable(leg, look)
    ensures var value := PositionValue(look, g)(Position(id, Some([leg])));
            var size := 100.0 * (look(leg.symbol).value[g].value * n as real);
            value == if leg.short.value || leg.quantity.value < 0.0 then -size else size
  {
    assert Contracts(leg.quantity.value) == n;
    SumOne(leg, LegValue(look, g));
    var r := look(leg.symbol).value[g].value;
    assert r * -(n as real) == -(r * n as real);
    assert Usable(Position(id, Some([leg])), look);
  }
}
