/**
  The conflict check that precedes every order: no option symbol of the new order may
  be a leg of an open position or of an order still working at the broker.
 */
module ConflictCheck {
  import opened Prelude
  import opened Text
  import opened OccSymbols
  import L = OrderLifecycle

  datatype NewOrder = NewOrder(
    underlying: string, expiry: Date,
    shortPut: Option<real>, longPut: Option<real>, shortCall: Option<real>, longCall: Option<real>)

  /** `legs` is absent when the stored metadata carries none. */
  datatype HeldPosition = HeldPosition(id: nat, state: L.LifecycleState, legs: Option<seq<string>>)

  datatype BrokerOrder = BrokerOrder(id: nat, status: L.BrokerStatus, legs: Option<seq<string>>)

  datatype Verdict = Clear | Conflicting(symbols: set<string>, position: Option<nat>, order: Option<nat>)

  predicate Holding(p: HeldPosition) {
    p.state in {L.OpenFull, L.OpenPartial}
  }

  predicate InMarket(o: BrokerOrder) {
    o.status in {L.Received, L.Routed, L.Live, L.InFlight}
  }

  /** A missing or zero strike counts as absent. */
  predicate Present(strike: Option<real>) {
    strike.Some? && strike.value != 0.0
  }

  function Spread(o: NewOrder, right: Right, short: Option<real>, long: Option<real>): set<Contract> {
    if Present(short) && Present(long)
    then {Contract(o.underlying, o.expiry, right, short.value), Contract(o.underlying, o.expiry, right, long.value)}
    else {}
  }

  /** The contracts the new order would trade: a side counts only with both its strikes. */
  function NewContracts(o: NewOrder): set<Contract> {
    Spread(o, Put, o.shortPut, o.longPut) + Spread(o, Call, o.shortCall, o.longCall)
  }

  /** The symbol is a non-blank leg of this position or order. */
  predicate HasLeg(legs: Option<seq<string>>, symbol: string) {
    symbol != "" && legs.Some? && exists i :: 0 <= i < |legs.value| && Strip(legs.value[i]) == symbol
  }

  predicate HeldBy(positions: seq<HeldPosition>, symbol: string) {
    exists i :: 0 <= i < |positions| && Holding(positions[i]) && HasLeg(positions[i].legs, symbol)
  }

  predicate WorkedBy(orders: seq<BrokerOrder>, symbol: string) {
    exists i :: 0 <= i < |orders| && InMarket(orders[i]) && HasLeg(orders[i].legs, symbol)
  }

  predicate HeldById(positions: seq<HeldPosition>, symbol: string, id: nat) {
    exists i :: 0 <= i < |positions| && Holding(positions[i]) && HasLeg(positions[i].legs, symbol)
        && positions[i].id == id
  }

  predicate WorkedById(orders: seq<BrokerOrder>, symbol: string, id: nat) {
    exists i :: 0 <= i < |orders| && InMarket(orders[i]) && HasLeg(orders[i].legs, symbol) && orders[i].id == id
  }

  predicate NewSymbol(o: NewOrder, s: string) {
    exists c :: c in NewContracts(o) && Print(c) == s
  }

  method NewSymbols(o: NewOrder) returns (symbols: set<string>)
    ensures forall s :: s in symbols <==> NewSymbol(o, s)
  {
    symbols := {};
    if Present(o.shortPut) && Present(o.longPut) {
      var short := Contract(o.underlying, o.expiry, Put, o.shortPut.value);
      var long := Contract(o.underlying, o.expiry, Put, o.longPut.value);
      assert short in NewContracts(o) && long in NewContracts(o);
      symbols := symbols + {Print(short), Print(long)};
    }
    if Present(o.shortCall) && Present(o.longCall) {
      var short := Contract(o.underlying, o.expiry, Call, o.shortCall.value);
      var long := Contract(o.underlying, o.expiry, Call, o.longCall.value);
      assert short in NewContracts(o) && long in NewContracts(o);
      symbols := symbols + {Print(short), Print(long)};
    }
  }

  /** One row's legs, added to the symbol set and to the symbol-to-row map. */
  method CollectLegs(legs: seq<string>, id: nat, known: set<string>, owner: map<string, nat>)
    returns (known': set<string>, owner': map<string, nat>)
    ensures forall s :: s in known' <==> s in known || HasLeg(Some(legs), s)
    ensures forall s :: s in owner' <==> s in owner || HasLeg(Some(legs), s)
    ensures forall s :: s in owner' ==>
              (s in owner && owner'[s] == owner[s]) || (HasLeg(Some(legs), s) && owner'[s] == id)
  {
    known', owner' := known, owner;
    for i := 0 to |legs|
      invariant forall s :: s in known' <==> s in known || HasLeg(Some(legs[..i]), s)
      invariant forall s :: s in owner' <==> s in owner || HasLeg(Some(legs[..i]), s)
      invariant forall s :: s in owner' ==>
                  (s in owner && owner'[s] == owner[s]) || (HasLeg(Some(legs[..i]), s) && owner'[s] == id)
    {
      forall s
        ensures HasLeg(Some(legs[..i + 1]), s) <==> HasLeg(Some(legs[..i]), s) || (s != "" && Strip(legs[i]) == s)
      {
        LegsGrow(legs, i, s);
      }
      var symbol := Strip(legs[i]);
      if symbol != "" {
        known' := known' + {symbol};
        owner' := owner'[symbol := id];
      }
    }
    assert legs[..|legs|] == legs;
  }

  lemma LegsGrow(legs: seq<string>, i: nat, s: string)
    requires i < |legs|
    ensures HasLeg(Some(legs[..i + 1]), s) <==> HasLeg(Some(legs[..i]), s) || (s != "" && Strip(legs[i]) == s)
  {
    var more := legs[..i + 1];
    if HasLeg(Some(legs[..i]), s) {
      var k :| 0 <= k < i && Strip(legs[..i][k]) == s;
      assert Strip(more[k]) == s;
    }
    if s != "" && Strip(legs[i]) == s {
      assert Strip(more[i]) == s;
    }
    if HasLeg(Some(more), s) {
      var k :| 0 <= k < |more| && Strip(more[k]) == s;
      assert k < i ==> legs[..i][k] == more[k];
    }
  }

  method ExistingSymbols(positions: seq<HeldPosition>, orders: seq<BrokerOrder>)
    returns (known: set<string>, positionOf: map<string, nat>, orderOf: map<string, nat>)
    ensures forall s :: s in known <==> HeldBy(positions, s) || WorkedBy(orders, s)
    ensures forall s :: s in positionOf <==> HeldBy(positions, s)
    ensures forall s :: s in positionOf ==> HeldById(positions, s, positionOf[s])
    ensures forall s :: s in orderOf <==> WorkedBy(orders, s)
    ensures forall s :: s in orderOf ==> WorkedById(orders, s, orderOf[s])
  {
    known, positionOf := HeldSymbols(positions);
    known, orderOf := WorkedSymbols(orders, known);
  }

  /** The legs of open positions. */
  method HeldSymbols(positions: seq<HeldPosition>) returns (known: set<string>, positionOf: map<string, nat>)
    ensures forall s :: s in known <==> HeldBy(positions, s)
    ensures forall s :: s in positionOf <==> HeldBy(positions, s)
    ensures forall s :: s in positionOf ==> HeldById(positions, s, positionOf[s])
  {
    known, positionOf := {}, map[];
    for i := 0 to |positions|
      invariant forall s :: s in known <==> HeldBy(positions[..i], s)
      invariant forall s :: s in positionOf <==> HeldBy(positions[..i], s)
      invariant forall s :: s in positionOf ==> HeldById(positions, s, positionOf[s])
    {
      forall s
        ensures HeldBy(positions[..i + 1], s)
           <==> HeldBy(positions[..i], s) || (Holding(positions[i]) && HasLeg(positions[i].legs, s))
      {
        HeldGrows(positions, i, s);
      }
      if Holding(positions[i]) && positions[i].legs.Some? {
        ghost var before := positionOf;
        known, positionOf := CollectLegs(positions[i].legs.value, positions[i].id, known, positionOf);
        assert positions[i].legs == Some(positions[i].legs.value);
        forall s | s in positionOf
          ensures HeldById(positions, s, positionOf[s])
        {
          if HasLeg(Some(positions[i].legs.value), s) && positionOf[s] == positions[i].id {
            assert HeldById(positions, s, positionOf[s]);
          } else {
            assert HeldById(positions, s, before[s]);
          }
        }
      }
    }
    assert positions[..|positions|] == positions;
  }

  /** The legs of orders in the market, added to the symbols known already. */
  method WorkedSymbols(
      orders: seq<BrokerOrder>, held: set<string>) returns (known: set<string>, orderOf: map<string, nat>)
    ensures forall s :: s in known <==> s in held || WorkedBy(orders, s)
    ensures forall s :: s in orderOf <==> WorkedBy(orders, s)
    ensures forall s :: s in orderOf ==> WorkedById(orders, s, orderOf[s])
  {
    known, orderOf := held, map[];
    for i := 0 to |orders|
      invariant forall s :: s in known <==> s in held || WorkedBy(orders[..i], s)
      invariant forall s :: s in orderOf <==> WorkedBy(orders[..i], s)
      invariant forall s :: s in orderOf ==> WorkedById(orders, s, orderOf[s])
    {
      forall s
        ensures WorkedBy(orders[..i + 1], s)
           <==> WorkedBy(orders[..i], s) || (InMarket(orders[i]) && HasLeg(orders[i].legs, s))
      {
        WorkedGrows(orders, i, s);
      }
      if InMarket(orders[i]) && orders[i].legs.Some? {
        ghost var before := orderOf;
        known, orderOf := CollectLegs(orders[i].legs.value, orders[i].id, known, orderOf);
        assert orders[i].legs == Some(orders[i].legs.value);
        forall s | s in orderOf
          ensures WorkedById(orders, s, orderOf[s])
        {
          if HasLeg(Some(orders[i].legs.value), s) && orderOf[s] == orders[i].id {
            assert WorkedById(orders, s, orderOf[s]);
          } else {
            assert WorkedById(orders, s, before[s]);
          }
        }
      }
    }
    assert orders[..|orders|] == orders;
  }

  lemma HeldGrows(positions: seq<HeldPosition>, i: nat, s: string)
    requires i < |positions|
    ensures HeldBy(positions[..i + 1], s)
            <==> HeldBy(positions[..i], s) || (Holding(positions[i]) && HasLeg(positions[i].legs, s))
  {
    var more := positions[..i + 1];
    if HeldBy(positions[..i], s) {
      var k :| 0 <= k < i && Holding(positions[..i][k]) && HasLeg(positions[..i][k].legs, s);
      assert more[k] == positions[..i][k];
    }
    if Holding(positions[i]) && HasLeg(positions[i].legs, s) {
      assert more[i] == positions[i];
    }
    if HeldBy(more, s) {
      var k :| 0 <= k < |more| && Holding(more[k]) && HasLeg(more[k].legs, s);
      assert k < i ==> positions[..i][k] == more[k];
    }
  }

  lemma WorkedGrows(orders: seq<BrokerOrder>, i: nat, s: string)
    requires i < |orders|
    ensures WorkedBy(orders[..i + 1], s)
            <==> WorkedBy(orders[..i], s) || (InMarket(orders[i]) && HasLeg(orders[i].legs, s))
  {
    var more := orders[..i + 1];
    if WorkedBy(orders[..i], s) {
      var k :| 0 <= k < i && InMarket(orders[..i][k]) && HasLeg(orders[..i][k].legs, s);
      assert more[k] == orders[..i][k];
    }
    if InMarket(orders[i]) && HasLeg(orders[i].legs, s) {
      assert more[i] == orders[i];
    }
    if WorkedBy(more, s) {
      var k :| 0 <= k < |more| && InMarket(more[k]) && HasLeg(more[k].legs, s);
      assert k < i ==> orders[..i][k] == more[k];
    }
  }

  /** The symbol clashes with something held or working. */
  predicate Clashes(positions: seq<HeldPosition>, orders: seq<BrokerOrder>, s: string) {
    HeldBy(positions, s) || WorkedBy(orders, s)
  }

  /** `owner` is that of one of the symbols, or none of them has one. */
  predicate NamesOwner(conflicts: set<string>, ownerOf: map<string, nat>, owner: Option<nat>) {
    match owner
    case Some(id) => exists s :: s in conflicts && s in ownerOf && ownerOf[s] == id
    case None => forall s :: s in conflicts ==> s !in ownerOf
  }

  /** A position and an order that hold one of the symbols, if any do. */
  method ConflictSources(conflicts: set<string>, positionOf: map<string, nat>, orderOf: map<string, nat>)
    returns (position: Option<nat>, order: Option<nat>)
    ensures NamesOwner(conflicts, positionOf, position) && NamesOwner(conflicts, orderOf, order)
  {
    position, order := None, None;
    var left := conflicts;
    while left != {}
      invariant left <= conflicts
      invariant NamesOwner(conflicts - left, positionOf, position) && NamesOwner(conflicts - left, orderOf, order)
      decreases |left|
    {
      var symbol :| symbol in left;
      assert conflicts - (left - {symbol}) == conflicts - left + {symbol};
      if symbol in positionOf {
        position := Some(positionOf[symbol]);
      }
      if symbol in orderOf {
        order := Some(orderOf[symbol]);
      }
      left := left - {symbol};
    }
    assert conflicts - left == conflicts;
  }

  method CheckForConflictingPositions(o: NewOrder, positions: seq<HeldPosition>, orders: seq<BrokerOrder>)
    returns (verdict: Verdict)
    ensures verdict.Clear? <==> forall s :: NewSymbol(o, s) ==> !Clashes(positions, orders, s)
    ensures verdict.Conflicting? ==>
              && (forall s :: s in verdict.symbols <==> NewSymbol(o, s) && Clashes(positions, orders, s))
              && (verdict.position.Some? ==>
                   exists s :: s in verdict.symbols && HeldById(positions, s, verdict.position.value))
              && (verdict.position.None? ==> forall s :: s in verdict.symbols ==> !HeldBy(positions, s))
              && (verdict.order.Some? ==>
                   exists s :: s in verdict.symbols && WorkedById(orders, s, verdict.order.value))
              && (verdict.order.None? ==> forall s :: s in verdict.symbols ==> !WorkedBy(orders, s))
  {
    var symbols := NewSymbols(o);
    if symbols == {} { return Clear; }
    var known, positionOf, orderOf := ExistingSymbols(positions, orders);
    var conflicts := symbols * known;
    if conflicts == {} {
      forall s | s in symbols
        ensures s !in known
      {
        assert s !in conflicts;
      }
      return Clear;
    }
    var position, order := ConflictSources(conflicts, positionOf, orderOf);
    var some :| some in conflicts;
    assert NewSymbol(o, some) && Clashes(positions, orders, some);
    return Conflicting(conflicts, position, order);
  }

  // ---------------------------------------------------------------- exactness

  /** The contracts a new order trades, from its own four strikes. */
  lemma NewContractsIff(o: NewOrder, c: Contract)
    ensures c in NewContracts(o) <==>
              && c.root == o.underlying && c.expiry == o.expiry
              && match c.right
                 case Put => OnSide(o.shortPut, o.longPut, c.strike)
                 case Call => OnSide(o.shortCall, o.longCall, c.strike)
  {
  }

  /** Both strikes of the side are given and not zero, and this is one of them. */
  predicate OnSide(short: Option<real>, long: Option<real>, strike: real) {
    && short.Some? && short.value != 0.0 && long.Some? && long.value != 0.0
    && (strike == short.value || strike == long.value)
  }

  /** Every leg on record was printed from a contract, whatever blanks surround it. */
  ghost predicate LegsPrinted(legs: Option<seq<string>>) {
    legs.Some? ==> forall i :: 0 <= i < |legs.value| ==> exists c :: Written(legs.value[i], c)
  }

  ghost predicate Written(leg: string, c: Contract) {
    Printable(c) && WholeThousandths(c.strike) && Strip(leg) == Print(c)
  }

  ghost predicate HasContract(legs: Option<seq<string>>, c: Contract) {
    legs.Some? && exists i :: 0 <= i < |legs.value| && Written(legs.value[i], c)
  }

  lemma LegIffContract(legs: Option<seq<string>>, c: Contract)
    requires LegsPrinted(legs) && Printable(c) && WholeThousandths(c.strike)
    ensures HasLeg(legs, Print(c)) <==> HasContract(legs, c)
  {
    PrintLayout(c);
    if HasLeg(legs, Print(c)) {
      var i :| 0 <= i < |legs.value| && Strip(legs.value[i]) == Print(c);
      assert Written(legs.value[i], c);
    }
  }

  /**
    For printable contracts the check compares contracts, not text: a new contract
    clashes exactly when the same root, expiry, right and strike is a leg of an open
    position or of a working order.
   */
  lemma ClashIffSameContract(positions: seq<HeldPosition>, orders: seq<BrokerOrder>, c: Contract)
    requires forall i :: 0 <= i < |positions| ==> LegsPrinted(positions[i].legs)
    requires forall i :: 0 <= i < |orders| ==> LegsPrinted(orders[i].legs)
    requires Printable(c) && WholeThousandths(c.strike)
    ensures Clashes(positions, orders, Print(c)) <==>
              || (exists i :: 0 <= i < |positions| && Holding(positions[i]) && HasContract(positions[i].legs, c))
              || (exists i :: 0 <= i < |orders| && InMarket(orders[i]) && HasContract(orders[i].legs, c))
  {
    forall i | 0 <= i < |positions|
      ensures HasLeg(positions[i].legs, Print(c)) <==> HasContract(positions[i].legs, c)
    {
      LegIffContract(positions[i].legs, c);
    }
    forall i | 0 <= i < |orders|
      ensures HasLeg(orders[i].legs, Print(c)) <==> HasContract(orders[i].legs, c)
    {
      LegIffContract(orders[i].legs, c);
    }
  }

  /** The check stops an order exactly when one of its contracts is a leg held or working. */
  lemma OrderClearIff(o: NewOrder, positions: seq<HeldPosition>, orders: seq<BrokerOrder>)
    requires forall i :: 0 <= i < |positions| ==> LegsPrinted(positions[i].legs)
    requires forall i :: 0 <= i < |orders| ==> LegsPrinted(orders[i].legs)
    requires forall c :: c in NewContracts(o) ==> Printable(c) && WholeThousandths(c.strike)
    ensures (forall s :: NewSymbol(o, s) ==> !Clashes(positions, orders, s)) <==>
              forall c :: c in NewContracts(o) ==>
                && (forall i :: 0 <= i < |positions| && Holding(positions[i]) ==> !HasContract(positions[i].legs, c))
                && (forall i :: 0 <= i < |orders| && InMarket(orders[i]) ==> !HasContract(orders[i].legs, c))
  {
    forall c | c in NewContracts(o)
      ensures NewSymbol(o, Print(c))
      ensures Clashes(positions, orders, Print(c)) <==>
                || (exists i :: 0 <= i < |positions| && Holding(positions[i]) && HasContract(positions[i].legs, c))
                || (exists i :: 0 <= i < |orders| && InMarket(orders[i]) && HasContract(orders[i].legs, c))
    {
      ClashIffSameContract(positions, orders, c);
    }
  }

  /** A leg on record stands for one contract only. */
  lemma WrittenIsUnique(leg: string, a: Contract, b: Contract)
    requires Written(leg, a) && Written(leg, b)
    ensures a == b
  {
    PrintInjective(a, b);
  }

  // ---------------------------------------------------------------- which positions and orders count

  /** Orders in the market are those in a status the system names that is not terminal. */
  lemma InMarketIff(o: BrokerOrder)
    ensures InMarket(o) <==> !o.status.Unlisted? && !L.Terminal(o.status)
  {
  }

  /** Held positions are the open ones that no close has moved yet. */
  lemma HoldingIff(p: HeldPosition)
    ensures Holding(p) <==> p.state in L.OPENED && p.state != L.Closing
  {
  }
}
