/**
  Reconciling stored positions with the broker's legs, scripts/reconcile_positions.py.

  Each position is matched through its opening order to the legs the broker still
  holds; a position in the wrong state gets a correction, and the corrections are SQL
  statements.  The statements are given their meaning on tables, so that the plan can
  be applied and the reconciliation run again.
 */
module Reconciliation {
  import opened Prelude
  import L = OrderLifecycle

  type State = L.LifecycleState
  type PositionId = nat
  type Time = nat

  datatype LegData = LegData(symbol: string, strike: real, quantity: int, direction: string)

  datatype Expiration = Expiration(name: string, puts: seq<LegData>, calls: seq<LegData>)

  datatype BrokerLeg = BrokerLeg(expiration: string, put: bool, strike: real, quantity: int, direction: string)

  datatype StoredPosition = StoredPosition(id: PositionId, state: State, openingOrder: Option<string>)

  datatype HistoricOrder = HistoricOrder(id: string, legs: seq<string>)

  datatype MatchInfo = MatchInfo(
    id: PositionId, state: State, order: string, legs: set<string>, open: set<string>, correct: State)

  datatype Reason = NoOpeningOrder | OldAndClosed | OldAndOpen

  datatype Unmatched = Unmatched(position: StoredPosition, reason: Reason)

  datatype Action = ClosePositionAndTrades | ReopenPosition | UpdateState | CloseTradesOnly

  datatype ClosedAt = KeepClosedAt | SetNow | SetNull

  datatype Statement =
    | SetState(position: PositionId, state: State, closedAt: ClosedAt)
    | CloseTrades(owner: PositionId)

  datatype Correction = Correction(
    id: PositionId, current: State, correct: State, action: Option<Action>, sql: seq<Statement>)

  type Orders = map<string, set<string>>

  // ---------------------------------------------------------------- matching, specified per position

  predicate Blank(order: Option<string>) {
    order == None || order == Some("")
  }

  /** The opening order is in the history. */
  predicate Matchable(p: StoredPosition, orders: Orders) {
    !Blank(p.openingOrder) && p.openingOrder.value in orders
  }

  /** All legs gone, all legs left, or some. */
  function CorrectState(legs: set<string>, held: set<string>): State {
    if legs * held == {} then L.Closed
    else if legs <= held then L.OpenFull
    else L.OpenPartial
  }

  function InfoFor(p: StoredPosition, orders: Orders, held: set<string>): MatchInfo
    requires Matchable(p, orders)
  {
    var legs := orders[p.openingOrder.value];
    MatchInfo(p.id, p.state, p.openingOrder.value, legs, legs * held, CorrectState(legs, held))
  }

  function UnmatchedFor(p: StoredPosition): Unmatched {
    Unmatched(p, if Blank(p.openingOrder) then NoOpeningOrder
                 else if p.state == L.Closed then OldAndClosed
                 else OldAndOpen)
  }

  function MatchedOf(ps: seq<StoredPosition>, orders: Orders, held: set<string>): seq<MatchInfo> {
    if ps == [] then []
    else
      var last := ps[|ps| - 1];
      var before := MatchedOf(ps[..|ps| - 1], orders, held);
      if Matchable(last, orders) then before + [InfoFor(last, orders, held)] else before
  }

  function UnmatchedOf(ps: seq<StoredPosition>, orders: Orders): seq<Unmatched> {
    if ps == [] then []
    else
      var last := ps[|ps| - 1];
      var before := UnmatchedOf(ps[..|ps| - 1], orders);
      if Matchable(last, orders) then before else before + [UnmatchedFor(last)]
  }

  function Needing(matches: seq<MatchInfo>): seq<MatchInfo> {
    if matches == [] then []
    else
      var last := matches[|matches| - 1];
      var before := Needing(matches[..|matches| - 1]);
      if last.state != last.correct then before + [last] else before
  }

  function FixFor(m: MatchInfo): Correction {
    if m.correct == L.Closed && m.state != L.Closed then
      Correction(m.id, m.state, m.correct, Some(ClosePositionAndTrades),
          [SetState(m.id, L.Closed, SetNow), CloseTrades(m.id)])
    else if m.correct != L.Closed && m.state == L.Closed then
      Correction(m.id, m.state, m.correct, Some(ReopenPosition), [SetState(m.id, m.correct, SetNull)])
    else if m.correct != m.state then
      Correction(m.id, m.state, m.correct, Some(UpdateState), [SetState(m.id, m.correct, KeepClosedAt)])
    else Correction(m.id, m.state, m.correct, None, [])
  }

  function FixesFor(matches: seq<MatchInfo>): seq<Correction> {
    if matches == [] then [] else FixesFor(matches[..|matches| - 1]) + [FixFor(matches[|matches| - 1])]
  }

  function CleanupFor(u: Unmatched): Correction {
    Correction(u.position.id, u.position.state, L.Closed, Some(CloseTradesOnly), [CloseTrades(u.position.id)])
  }

  function CleanupsFor(unmatched: seq<Unmatched>): seq<Correction> {
    if unmatched == [] then []
    else
      var last := unmatched[|unmatched| - 1];
      var before := CleanupsFor(unmatched[..|unmatched| - 1]);
      if last.reason == OldAndClosed
      then before + [CleanupFor(last)]
      else before
  }

  /** The whole correction plan. */
  function Plan(ps: seq<StoredPosition>, orders: Orders, held: set<string>): seq<Correction> {
    FixesFor(Needing(MatchedOf(ps, orders, held))) + CleanupsFor(UnmatchedOf(ps, orders))
  }

  // ---------------------------------------------------------------- the script

  function RecordOf(expiration: string, put: bool, d: LegData): BrokerLeg {
    BrokerLeg(expiration, put, d.strike, d.quantity, d.direction)
  }

  predicate HasSymbol(data: seq<LegData>, s: string) {
    exists i :: 0 <= i < |data| && data[i].symbol == s
  }

  /** The record of the last leg with that symbol. */
  function LastWith(data: seq<LegData>, s: string): LegData
    requires HasSymbol(data, s)
  {
    var last := data[|data| - 1];
    if last.symbol == s then last
    else
      assert HasSymbol(data[..|data| - 1], s) by {
        var i :| 0 <= i < |data| && data[i].symbol == s;
        assert data[..|data| - 1][i].symbol == s;
      }
      LastWith(data[..|data| - 1], s)
  }

  predicate Names(e: Expiration, s: string) {
    e.name != "equity" && (HasSymbol(e.puts, s) || HasSymbol(e.calls, s))
  }

  /** An expiration's record of a symbol: calls come after puts. */
  function RecordIn(e: Expiration, s: string): BrokerLeg
    requires Names(e, s)
  {
    if HasSymbol(e.calls, s) then RecordOf(e.name, false, LastWith(e.calls, s))
    else RecordOf(e.name, true, LastWith(e.puts, s))
  }

  predicate LastNaming(expirations: seq<Expiration>, n: nat, s: string, i: nat)
    requires n <= |expirations|
  {
    i < n && Names(expirations[i], s) && forall j :: i < j < n ==> !Names(expirations[j], s)
  }

  ghost predicate RecordsLast(expirations: seq<Expiration>, n: nat, s: string, leg: BrokerLeg)
    requires n <= |expirations|
  {
    exists i: nat :: LastNaming(expirations, n, s, i) && leg == RecordIn(expirations[i], s)
  }

  ghost predicate LoadedFrom(expirations: seq<Expiration>, legs: map<string, BrokerLeg>) {
    && (forall s :: s in legs <==> exists i :: 0 <= i < |expirations| && Names(expirations[i], s))
    && (forall s :: s in legs ==> RecordsLast(expirations, |expirations|, s, legs[s]))
  }

  /** Legs by symbol, a later record replacing an earlier one; the equity section is skipped. */
  method LoadLegs(expirations: seq<Expiration>) returns (legs: map<string, BrokerLeg>)
    ensures LoadedFrom(expirations, legs)
  {
    legs := map[];
    for i := 0 to |expirations|
      invariant forall s :: s in legs <==> exists k :: 0 <= k < i && Names(expirations[k], s)
      invariant forall s :: s in legs ==> RecordsLast(expirations, i, s, legs[s])
    {
      var e := expirations[i];
      ghost var before := legs;
      if e.name != "equity" {
        var withPuts := AddLegs(legs, e.name, true, e.puts);
        legs := AddLegs(withPuts, e.name, false, e.calls);
      }
      assert forall s :: s in legs <==> s in before || Names(e, s);
      forall s | s in legs
        ensures RecordsLast(expirations, i + 1, s, legs[s])
      {
        RecordCarriesOver(expirations, i, before, s, legs[s]);
      }
    }
  }

  lemma RecordCarriesOver(
      expirations: seq<Expiration>, i: nat, before: map<string, BrokerLeg>, s: string, leg: BrokerLeg)
    requires i < |expirations| && (s in before || Names(expirations[i], s))
    requires s in before ==> RecordsLast(expirations, i, s, before[s])
    requires leg == if Names(expirations[i], s) then RecordIn(expirations[i], s) else before[s]
    ensures RecordsLast(expirations, i + 1, s, leg)
  {
    if Names(expirations[i], s) {
      assert LastNaming(expirations, i + 1, s, i);
    } else {
      var k: nat :| LastNaming(expirations, i, s, k) && before[s] == RecordIn(expirations[k], s);
      assert LastNaming(expirations, i + 1, s, k);
    }
  }

  method AddLegs(legs: map<string, BrokerLeg>, expiration: string, put: bool, data: seq<LegData>)
    returns (legs': map<string, BrokerLeg>)
    ensures forall s :: s in legs' <==> s in legs || HasSymbol(data, s)
    ensures forall s :: s in legs' ==>
              legs'[s] == if HasSymbol(data, s) then RecordOf(expiration, put, LastWith(data, s)) else legs[s]
  {
    legs' := legs;
    for i := 0 to |data|
      invariant forall s :: s in legs' <==> s in legs || HasSymbol(data[..i], s)
      invariant forall s :: s in legs' ==>
        legs'[s] == if HasSymbol(data[..i], s) then RecordOf(expiration, put, LastWith(data[..i], s)) else legs[s]
    {
      forall s
        ensures HasSymbol(data[..i + 1], s) <==> HasSymbol(data[..i], s) || s == data[i].symbol
        ensures HasSymbol(data[..i + 1], s) ==>
                  LastWith(data[..i + 1], s) == if s == data[i].symbol then data[i] else LastWith(data[..i], s)
      {
        LastGrows(data, i, s);
      }
      legs' := legs'[data[i].symbol := RecordOf(expiration, put, data[i])];
    }
    assert data[..|data|] == data;
  }

  lemma LastGrows(data: seq<LegData>, i: nat, s: string)
    requires i < |data|
    ensures HasSymbol(data[..i + 1], s) <==> HasSymbol(data[..i], s) || s == data[i].symbol
    ensures HasSymbol(data[..i + 1], s) ==>
              LastWith(data[..i + 1], s) == if s == data[i].symbol then data[i] else LastWith(data[..i], s)
  {
    assert data[..i + 1][..i] == data[..i] && data[..i + 1][i] == data[i];
    if HasSymbol(data[..i], s) {
      var k :| 0 <= k < i && data[..i][k].symbol == s;
      assert data[..i + 1][k].symbol == s;
    }
    if HasSymbol(data[..i + 1], s) && s != data[i].symbol {
      var k :| 0 <= k < i + 1 && data[..i + 1][k].symbol == s;
      assert data[..i][k].symbol == s;
    }
  }

  ghost predicate IndexedFrom(history: seq<HistoricOrder>, orders: Orders) {
    && (forall id :: id in orders <==> exists i :: 0 <= i < |history| && history[i].id == id)
    && (forall i :: 0 <= i < |history| && (forall j :: i < j < |history| ==> history[j].id != history[i].id) ==>
         orders[history[i].id] == set s | s in history[i].legs)
  }

  /** Orders by id; a repeated id keeps its last order. */
  method IndexOrders(history: seq<HistoricOrder>) returns (orders: Orders)
    ensures IndexedFrom(history, orders)
  {
    orders := map[];
    for n := 0 to |history|
      invariant forall id :: id in orders <==> exists i :: 0 <= i < n && history[i].id == id
      invariant forall i :: 0 <= i < n && (forall j :: i < j < n ==> history[j].id != history[i].id) ==>
                  orders[history[i].id] == set s | s in history[i].legs
    {
      orders := orders[history[n].id := set s | s in history[n].legs];
    }
  }

  method MatchPositions(ps: seq<StoredPosition>, orders: Orders, held: set<string>)
    returns (matched: seq<MatchInfo>, unmatched: seq<Unmatched>)
    ensures matched == MatchedOf(ps, orders, held) && unmatched == UnmatchedOf(ps, orders)
  {
    matched, unmatched := [], [];
    for i := 0 to |ps|
      invariant matched == MatchedOf(ps[..i], orders, held) && unmatched == UnmatchedOf(ps[..i], orders)
    {
      assert ps[..i + 1][..i] == ps[..i];
      var p := ps[i];
      if Blank(p.openingOrder) {
        unmatched := unmatched + [Unmatched(p, NoOpeningOrder)];
        continue;
      }
      if p.openingOrder.value !in orders {
        unmatched := unmatched + [Unmatched(p, if p.state == L.Closed then OldAndClosed else OldAndOpen)];
        continue;
      }
      var legs := orders[p.openingOrder.value];
      var open := set s | s in legs && s in held;
      assert open == legs * held;
      CountsDecide(legs, held);
      var correct := if |open| == 0 then L.Closed else if |open| == |legs| then L.OpenFull else L.OpenPartial;
      matched := matched + [MatchInfo(p.id, p.state, p.openingOrder.value, legs, open, correct)];
    }
    assert ps[..|ps|] == ps;
  }

  /** Counting the open legs tells none, all or some apart. */
  lemma CountsDecide(legs: set<string>, held: set<string>)
    ensures |legs * held| == 0 <==> legs * held == {}
    ensures |legs * held| == |legs| <==> legs <= held
  {
    var gone := legs - held;
    assert legs == legs * held + gone;
    assert |legs| == |legs * held| + |gone|;
  }

  method AccountForLegs(
      matched: seq<MatchInfo>, legs: map<string, BrokerLeg>) returns (accounted: set<string>, unaccounted: set<string>)
    ensures forall s :: s in accounted <==> exists i :: 0 <= i < |matched| && s in matched[i].open
    ensures unaccounted == legs.Keys - accounted
  {
    accounted := {};
    for i := 0 to |matched|
      invariant forall s :: s in accounted <==> exists k :: 0 <= k < i && s in matched[k].open
    {
      accounted := accounted + matched[i].open;
    }
    unaccounted := legs.Keys - accounted;
  }

  method BuildPlan(matched: seq<MatchInfo>, unmatched: seq<Unmatched>) returns (plan: seq<Correction>)
    ensures plan == FixesFor(Needing(matched)) + CleanupsFor(unmatched)
  {
    var needing := [];
    for i := 0 to |matched|
      invariant needing == Needing(matched[..i])
    {
      assert matched[..i + 1][..i] == matched[..i];
      if matched[i].state != matched[i].correct {
        needing := needing + [matched[i]];
      }
    }
    assert matched[..|matched|] == matched;
    plan := [];
    for i := 0 to |needing|
      invariant plan == FixesFor(needing[..i])
    {
      assert needing[..i + 1][..i] == needing[..i];
      plan := plan + [FixFor(needing[i])];
    }
    assert needing[..|needing|] == needing;
    ghost var fixes := plan;
    for i := 0 to |unmatched|
      invariant plan == fixes + CleanupsFor(unmatched[..i])
    {
      assert unmatched[..i + 1][..i] == unmatched[..i];
      var p := unmatched[i].position;
      if unmatched[i].reason == OldAndClosed {
        plan := plan + [Correction(p.id, p.state, L.Closed, Some(CloseTradesOnly), [CloseTrades(p.id)])];
      }
    }
    assert unmatched[..|unmatched|] == unmatched;
  }

  /** The script from end to end. */
  method Reconcile(expirations: seq<Expiration>, history: seq<HistoricOrder>, ps: seq<StoredPosition>)
    returns (legs: map<string, BrokerLeg>, orders: Orders, plan: seq<Correction>, accounted: set<string>,
        unaccounted: set<string>)
    ensures plan == Plan(ps, orders, legs.Keys)
    ensures forall c :: c in plan ==> c.action.Some?
    ensures LoadedFrom(expirations, legs) && IndexedFrom(history, orders)
    ensures accounted + unaccounted == legs.Keys && accounted !! unaccounted
    ensures forall s :: s in unaccounted <==>
              s in legs && forall p :: p in ps && Matchable(p, orders) ==> s !in orders[p.openingOrder.value]
    ensures forall db, ids, now, i ::
              0 <= i < |ids| && Lists(db, ids, ps) ==> SettlesAt(db, ids, orders, legs.Keys, plan, now, i)
  {
    legs := LoadLegs(expirations);
    orders := IndexOrders(history);
    var matched, unmatched := MatchPositions(ps, orders, legs.Keys);
    accounted, unaccounted := AccountForLegs(matched, legs);
    LegsArePartitioned(ps, orders, legs, accounted, unaccounted);
    plan := BuildPlan(matched, unmatched);
    EveryCorrectionHasAnAction(ps, orders, legs.Keys);
    forall db, ids, now, i | 0 <= i < |ids| && Lists(db, ids, ps)
      ensures SettlesAt(db, ids, orders, legs.Keys, plan, now, i)
    {
      PlanSettlesStates(db, ids, orders, legs.Keys, now, i);
    }
  }

  // ---------------------------------------------------------------- partitions

  /** Every position is listed once: matched or unmatched, never both. */
  lemma {:induction false} EveryPositionIsClassified(ps: seq<StoredPosition>, orders: Orders, held: set<string>)
    ensures |MatchedOf(ps, orders, held)| + |UnmatchedOf(ps, orders)| == |ps|
    ensures forall m :: m in MatchedOf(ps, orders, held)
              <==> exists p :: p in ps && Matchable(p, orders) && m == InfoFor(p, orders, held)
    ensures forall u :: u in UnmatchedOf(ps, orders)
              <==> u.position in ps && !Matchable(u.position, orders) && u == UnmatchedFor(u.position)
  {
    if ps != [] {
      var n := |ps| - 1;
      EveryPositionIsClassified(ps[..n], orders, held);
      assert ps == ps[..n] + [ps[n]];
    }
  }

  /** Accounted and unaccounted legs partition what the broker holds. */
  lemma LegsArePartitioned(
      ps: seq<StoredPosition>, orders: Orders, legs: map<string, BrokerLeg>, accounted: set<string>,
      unaccounted: set<string>)
    requires var matched := MatchedOf(ps, orders, legs.Keys);
             forall s :: s in accounted <==> exists i :: 0 <= i < |matched| && s in matched[i].open
    requires unaccounted == legs.Keys - accounted
    ensures accounted + unaccounted == legs.Keys && accounted !! unaccounted
    ensures forall s :: s in unaccounted <==>
              s in legs && forall p :: p in ps && Matchable(p, orders) ==> s !in orders[p.openingOrder.value]
  {
    var matched := MatchedOf(ps, orders, legs.Keys);
    EveryPositionIsClassified(ps, orders, legs.Keys);
    forall s | s in accounted
      ensures s in legs
    {
      var i :| 0 <= i < |matched| && s in matched[i].open;
      assert matched[i] in matched;
    }
    forall s | s in unaccounted
      ensures forall p :: p in ps && Matchable(p, orders) ==> s !in orders[p.openingOrder.value]
    {
      forall p | p in ps && Matchable(p, orders)
        ensures s !in orders[p.openingOrder.value]
      {
        var m := InfoFor(p, orders, legs.Keys);
        assert m in matched;
        var i :| 0 <= i < |matched| && matched[i] == m;
      }
    }
    forall s | s in legs && forall p :: p in ps && Matchable(p, orders) ==> s !in orders[p.openingOrder.value]
      ensures s in unaccounted
    {
      forall i | 0 <= i < |matched|
        ensures s !in matched[i].open
      {
        assert matched[i] in matched;
      }
    }
  }

  lemma {:induction false} NeedingDiffers(matches: seq<MatchInfo>)
    ensures forall m :: m in Needing(matches) <==> m in matches && m.state != m.correct
  {
    if matches != [] {
      var n := |matches| - 1;
      NeedingDiffers(matches[..n]);
      assert matches == matches[..n] + [matches[n]];
    }
  }

  lemma {:induction false} FixesHaveActions(matches: seq<MatchInfo>)
    requires forall m :: m in matches ==> m.state != m.correct
    ensures forall c :: c in FixesFor(matches) ==> c.action.Some? && c.sql != []
  {
    if matches != [] {
      var n := |matches| - 1;
      assert matches[n] in matches;
      FixesHaveActions(matches[..n]);
    }
  }

  lemma {:induction false} CleanupsHaveActions(unmatched: seq<Unmatched>)
    ensures forall c :: c in CleanupsFor(unmatched) ==>
              c.action == Some(CloseTradesOnly) && c.sql == [CloseTrades(c.id)]
  {
    if unmatched != [] {
      CleanupsHaveActions(unmatched[..|unmatched| - 1]);
    }
  }

  /** No correction is left without an action. */
  lemma EveryCorrectionHasAnAction(ps: seq<StoredPosition>, orders: Orders, held: set<string>)
    ensures forall c :: c in Plan(ps, orders, held) ==> c.action.Some? && c.sql != []
  {
    var matched := MatchedOf(ps, orders, held);
    NeedingDiffers(matched);
    FixesHaveActions(Needing(matched));
    CleanupsHaveActions(UnmatchedOf(ps, orders));
  }

  // ---------------------------------------------------------------- applying the plan

  datatype TradeStatus = Filled | Submitted | Live | ClosedTrade | OtherStatus(word: string)

  datatype PositionRow = PositionRow(state: State, closedAt: Option<Time>, openingOrder: Option<string>)

  datatype TradeRow = TradeRow(position: PositionId, status: TradeStatus, closeEvent: bool)

  datatype Database = Database(positions: map<PositionId, PositionRow>, trades: map<nat, TradeRow>)

  function UpdatedRow(row: PositionRow, id: PositionId, s: Statement, now: Time): PositionRow {
    if s.SetState? && s.position == id
    then row.(state := s.state,
              closedAt := match s.closedAt
                          case KeepClosedAt => row.closedAt
                          case SetNow => Some(now)
                          case SetNull => None)
    else row
  }

  function UpdatedTrade(row: TradeRow, s: Statement): TradeRow {
    if s.CloseTrades? && s.owner == row.position && row.status in {Filled, Submitted, Live}
    then row.(status := ClosedTrade, closeEvent := true)
    else row
  }

  function Execute(db: Database, s: Statement, now: Time): Database {
    Database(map id | id in db.positions :: UpdatedRow(db.positions[id], id, s, now),
             map t | t in db.trades :: UpdatedTrade(db.trades[t], s))
  }

  function ExecuteAll(db: Database, sql: seq<Statement>, now: Time): Database {
    if sql == [] then db else Execute(ExecuteAll(db, sql[..|sql| - 1], now), sql[|sql| - 1], now)
  }

  function Script(plan: seq<Correction>): seq<Statement> {
    if plan == [] then [] else Script(plan[..|plan| - 1]) + plan[|plan| - 1].sql
  }

  function ApplyPlan(db: Database, plan: seq<Correction>, now: Time): Database {
    ExecuteAll(db, Script(plan), now)
  }

  /** The rows as the mapping script lists them. */
  function Listing(db: Database, ids: seq<PositionId>): seq<StoredPosition>
    requires forall id :: id in ids ==> id in db.positions
  {
    seq(|ids|, i requires 0 <= i < |ids| && (forall id :: id in ids ==> id in db.positions) =>
      StoredPosition(ids[i], db.positions[ids[i]].state, db.positions[ids[i]].openingOrder))
  }

  ghost predicate DistinctIds(ps: seq<StoredPosition>) {
    forall i, j :: 0 <= i < j < |ps| ==> ps[i].id != ps[j].id
  }

  // one row at a time

  function RowAfter(row: PositionRow, id: PositionId, sql: seq<Statement>, now: Time): PositionRow {
    if sql == [] then row else UpdatedRow(RowAfter(row, id, sql[..|sql| - 1], now), id, sql[|sql| - 1], now)
  }

  function TradeAfter(row: TradeRow, sql: seq<Statement>): TradeRow {
    if sql == [] then row else UpdatedTrade(TradeAfter(row, sql[..|sql| - 1]), sql[|sql| - 1])
  }

  lemma {:induction false} ExecuteAllByRow(db: Database, sql: seq<Statement>, now: Time)
    ensures var after := ExecuteAll(db, sql, now);
            && after.positions.Keys == db.positions.Keys && after.trades.Keys == db.trades.Keys
            && (forall id :: id in db.positions ==> after.positions[id] == RowAfter(db.positions[id], id, sql, now))
            && (forall t :: t in db.trades ==> after.trades[t] == TradeAfter(db.trades[t], sql))
  {
    if sql != [] {
      ExecuteAllByRow(db, sql[..|sql| - 1], now);
    }
  }

  lemma {:induction false} RowAfterAppend(
      row: PositionRow, id: PositionId, a: seq<Statement>, b: seq<Statement>, now: Time)
    ensures RowAfter(row, id, a + b, now) == RowAfter(RowAfter(row, id, a, now), id, b, now)
  {
    if b == [] {
      assert a + b == a;
    } else {
      RowAfterAppend(row, id, a, b[..|b| - 1], now);
      assert (a + b)[..|a + b| - 1] == a + b[..|b| - 1];
    }
  }

  lemma {:induction false} RowAfterOthers(row: PositionRow, id: PositionId, sql: seq<Statement>, now: Time)
    requires forall s :: s in sql && s.SetState? ==> s.position != id
    ensures RowAfter(row, id, sql, now) == row
  {
    if sql != [] {
      RowAfterOthers(row, id, sql[..|sql| - 1], now);
    }
  }

  lemma {:induction false} TradeAfterCloses(row: TradeRow, sql: seq<Statement>)
    ensures TradeAfter(row, sql) == if CloseTrades(row.position) in sql && row.status in {Filled, Submitted, Live}
                                    then row.(status := ClosedTrade, closeEvent := true) else row
  {
    if sql != [] {
      var n := |sql| - 1;
      TradeAfterCloses(row, sql[..n]);
      assert sql == sql[..n] + [sql[n]];
    }
  }

  lemma {:induction false} ScriptAppend(a: seq<Correction>, b: seq<Correction>)
    ensures Script(a + b) == Script(a) + Script(b)
  {
    if b == [] {
      assert a + b == a;
      assert Script(a) + [] == Script(a);
    } else {
      var front, last := b[..|b| - 1], b[|b| - 1];
      calc {
        Script(a + b);
        { assert a + b == (a + front) + [last]; ScriptOfLast(a + front, last); }
        Script(a + front) + last.sql;
        { ScriptAppend(a, front); }
        Script(a) + Script(front) + last.sql;
        Script(a) + (Script(front) + last.sql);
        { assert b == front + [last]; ScriptOfLast(front, last); }
        Script(a) + Script(b);
      }
    }
  }

  lemma ScriptOfLast(a: seq<Correction>, last: Correction)
    ensures Script(a + [last]) == Script(a) + last.sql
  {
    assert (a + [last])[..|a|] == a;
  }

  /** The statement a position's own correction sets its row with, if it has one. */
  function OwnFix(p: StoredPosition, orders: Orders, held: set<string>): seq<Statement> {
    if Matchable(p, orders) && InfoFor(p, orders, held).correct != p.state
    then FixFor(InfoFor(p, orders, held)).sql
    else []
  }

  function FixScript(ps: seq<StoredPosition>, orders: Orders, held: set<string>): seq<Statement> {
    if ps == [] then [] else FixScript(ps[..|ps| - 1], orders, held) + OwnFix(ps[|ps| - 1], orders, held)
  }

  lemma FixesOfLast(a: seq<MatchInfo>, last: MatchInfo)
    ensures FixesFor(a + [last]) == FixesFor(a) + [FixFor(last)]
  {
    assert (a + [last])[..|a|] == a;
  }

  lemma {:induction false} FixScriptIsScript(ps: seq<StoredPosition>, orders: Orders, held: set<string>)
    ensures Script(FixesFor(Needing(MatchedOf(ps, orders, held)))) == FixScript(ps, orders, held)
  {
    if ps != [] {
      var front, last := ps[..|ps| - 1], ps[|ps| - 1];
      FixScriptIsScript(front, orders, held);
      var before := MatchedOf(front, orders, held);
      if Matchable(last, orders) {
        NeedOfLast(before, InfoFor(last, orders, held));
      } else {
        assert FixScript(front, orders, held) + [] == FixScript(front, orders, held);
      }
    }
  }

  /** One more match adds its fix to the script if its state is wrong, and nothing otherwise. */
  lemma NeedOfLast(before: seq<MatchInfo>, m: MatchInfo)
    ensures Script(FixesFor(Needing(before + [m])))
            == Script(FixesFor(Needing(before))) + if m.correct != m.state then FixFor(m).sql else []
  {
    assert (before + [m])[..|before|] == before;
    var need := Needing(before);
    if m.correct != m.state {
      assert Needing(before + [m]) == need + [m];
      FixesOfLast(need, m);
      ScriptOfLast(FixesFor(need), FixFor(m));
    } else {
      assert Script(FixesFor(need)) + [] == Script(FixesFor(need));
    }
  }

  lemma OwnFixSetsOwnRow(p: StoredPosition, orders: Orders, held: set<string>)
    ensures forall s :: s in OwnFix(p, orders, held) && s.SetState? ==> s.position == p.id
  {
  }

  lemma {:induction false} FixScriptSkipsOthers(
      ps: seq<StoredPosition>, orders: Orders, held: set<string>, id: PositionId)
    requires forall i :: 0 <= i < |ps| ==> ps[i].id != id
    ensures forall s :: s in FixScript(ps, orders, held) && s.SetState? ==> s.position != id
  {
    if ps != [] {
      var n := |ps| - 1;
      FixScriptSkipsOthers(ps[..n], orders, held, id);
      OwnFixSetsOwnRow(ps[n], orders, held);
    }
  }

  /** In the whole script, a row is set only by its own correction. */
  lemma {:induction false} OwnFixDecides(
      ps: seq<StoredPosition>, orders: Orders, held: set<string>, i: nat, row: PositionRow, now: Time)
    requires DistinctIds(ps) && i < |ps|
    ensures RowAfter(row, ps[i].id, FixScript(ps, orders, held), now)
              == RowAfter(row, ps[i].id, OwnFix(ps[i], orders, held), now)
  {
    var n := |ps| - 1;
    var before, last := FixScript(ps[..n], orders, held), OwnFix(ps[n], orders, held);
    RowAfterAppend(row, ps[i].id, before, last, now);
    if i < n {
      OwnFixDecides(ps[..n], orders, held, i, row, now);
      FixSparesOthers(RowAfter(row, ps[i].id, before, now), ps[i].id, ps[n], orders, held, now);
    } else {
      EarlierFixesSpare(row, ps, orders, held, now);
    }
  }

  lemma FixSparesOthers(
      row: PositionRow, id: PositionId, p: StoredPosition, orders: Orders, held: set<string>, now: Time)
    requires p.id != id
    ensures RowAfter(row, id, OwnFix(p, orders, held), now) == row
  {
    OwnFixSetsOwnRow(p, orders, held);
    RowAfterOthers(row, id, OwnFix(p, orders, held), now);
  }

  lemma EarlierFixesSpare(row: PositionRow, ps: seq<StoredPosition>, orders: Orders, held: set<string>, now: Time)
    requires ps != [] && DistinctIds(ps)
    ensures var n := |ps| - 1; RowAfter(row, ps[n].id, FixScript(ps[..n], orders, held), now) == row
  {
    var n := |ps| - 1;
    FixScriptSkipsOthers(ps[..n], orders, held, ps[n].id);
    RowAfterOthers(row, ps[n].id, FixScript(ps[..n], orders, held), now);
  }

  lemma {:induction false} CleanupScriptSetsNothing(unmatched: seq<Unmatched>)
    ensures forall s :: s in Script(CleanupsFor(unmatched)) ==> s.CloseTrades?
  {
    if unmatched != [] {
      var last := unmatched[|unmatched| - 1];
      var before := CleanupsFor(unmatched[..|unmatched| - 1]);
      CleanupScriptSetsNothing(unmatched[..|unmatched| - 1]);
      if last.reason == OldAndClosed {
        var c := Correction(last.position.id, last.position.state, L.Closed, Some(CloseTradesOnly),
            [CloseTrades(last.position.id)]);
        assert CleanupsFor(unmatched) == before + [c];
        assert (before + [c])[..|before|] == before;
      }
    }
  }

  /** A listed position's row after the plan. */
  lemma PlanSetsRow(db: Database, ids: seq<PositionId>, orders: Orders, held: set<string>, now: Time, i: nat)
    requires forall id :: id in ids ==> id in db.positions
    requires DistinctIds(Listing(db, ids)) && i < |ids|
    ensures var ps := Listing(db, ids);
            var after := ApplyPlan(db, Plan(ps, orders, held), now);
            && ids[i] in after.positions
            && after.positions[ids[i]] == RowAfter(db.positions[ids[i]], ids[i], OwnFix(ps[i], orders, held), now)
  {
    var ps := Listing(db, ids);
    var fixes := FixesFor(Needing(MatchedOf(ps, orders, held)));
    var cleanups := CleanupsFor(UnmatchedOf(ps, orders));
    var row := db.positions[ids[i]];
    assert ids[i] in ids;
    ScriptAppend(fixes, cleanups);
    FixScriptIsScript(ps, orders, held);
    ExecuteAllByRow(db, Script(fixes) + Script(cleanups), now);
    RowAfterAppend(row, ids[i], Script(fixes), Script(cleanups), now);
    OwnFixDecides(ps, orders, held, i, row, now);
    CleanupScriptSetsNothing(UnmatchedOf(ps, orders));
    RowAfterOthers(RowAfter(row, ids[i], Script(fixes), now), ids[i], Script(cleanups), now);
  }

  /** A correction sets its row once, whatever trades it closes besides. */
  lemma FixOnRow(row: PositionRow, m: MatchInfo, now: Time)
    requires m.correct != m.state
    ensures RowAfter(row, m.id, FixFor(m).sql, now) == UpdatedRow(row, m.id, FixFor(m).sql[0], now)
  {
    var sql := FixFor(m).sql;
    assert sql == [sql[0]] + sql[1..];
    RowAfterAppend(row, m.id, [sql[0]], sql[1..], now);
    RowAfterOthers(UpdatedRow(row, m.id, sql[0], now), m.id, sql[1..], now);
    assert [sql[0]][..0] == [];
  }

  lemma OwnFixResult(row: PositionRow, p: StoredPosition, orders: Orders, held: set<string>, now: Time)
    requires row.state == p.state
    ensures var after := RowAfter(row, p.id, OwnFix(p, orders, held), now);
            && after.openingOrder == row.openingOrder
            && after.state == (if Matchable(p, orders) then InfoFor(p, orders, held).correct else p.state)
            && after.closedAt == (if !Matchable(p, orders) || InfoFor(p, orders, held).correct == p.state
                 then row.closedAt
                                  else if InfoFor(p, orders, held).correct == L.Closed then Some(now)
                                  else if p.state == L.Closed then None
                                  else row.closedAt)
  {
    if Matchable(p, orders) && InfoFor(p, orders, held).correct != p.state {
      FixOnRow(row, InfoFor(p, orders, held), now);
    }
  }

  lemma KeysSurvive(db: Database, plan: seq<Correction>, now: Time)
    ensures ApplyPlan(db, plan, now).positions.Keys == db.positions.Keys
    ensures ApplyPlan(db, plan, now).trades.Keys == db.trades.Keys
  {
    ExecuteAllByRow(db, Script(plan), now);
  }

  // ---------------------------------------------------------------- what the plan leaves, by legs alone

  /** The positions were listed from these rows, each once. */
  ghost predicate Lists(db: Database, ids: seq<PositionId>, ps: seq<StoredPosition>) {
    Listable(db, ids) && ps == Listing(db, ids)
  }

  ghost predicate Listable(db: Database, ids: seq<PositionId>) {
    (forall id :: id in ids ==> id in db.positions) && DistinctIds(Listing(db, ids))
  }

  /** The opening order of a row is in the history. */
  predicate InHistory(row: PositionRow, orders: Orders) {
    row.openingOrder.Some? && row.openingOrder.value != "" && row.openingOrder.value in orders
  }

  /** Closed with no leg held, open in full with all of them, in part with some. */
  ghost predicate StateFits(state: State, legs: set<string>, held: set<string>) {
    && (state == L.Closed <==> forall leg :: leg in legs ==> leg !in held)
    && (state == L.OpenFull <==>
         (exists leg :: leg in legs && leg in held) && forall leg :: leg in legs ==> leg in held)
    && (state == L.OpenPartial <==>
         (exists leg :: leg in legs && leg in held) && exists leg :: leg in legs && leg !in held)
  }

  /** When the state changes, closing is stamped and reopening cleared. */
  predicate ClosedAtFits(before: PositionRow, after: PositionRow, now: Time) {
    after.closedAt == if after.state == before.state then before.closedAt
                      else if after.state == L.Closed then Some(now)
                      else if before.state == L.Closed then None
                      else before.closedAt
  }

  ghost predicate SettlesAt(
      db: Database, ids: seq<PositionId>, orders: Orders, held: set<string>, plan: seq<Correction>, now: Time, i: nat)
    requires i < |ids| && forall id :: id in ids ==> id in db.positions
  {
    var row := db.positions[ids[i]];
    var after := ApplyPlan(db, plan, now);
    && ids[i] in after.positions
    && after.positions[ids[i]].openingOrder == row.openingOrder
    && ClosedAtFits(row, after.positions[ids[i]], now)
    && if InHistory(row, orders) then StateFits(after.positions[ids[i]].state, orders[row.openingOrder.value], held)
       else after.positions[ids[i]] == row
  }

  /** Applying the plan leaves a position whose order is known in the state its legs call for, and others alone. */
  lemma PlanSettlesStates(
      db: Database, ids: seq<PositionId>, orders: Orders, held: set<string>, now: Time, i: nat)
    requires i < |ids| && Listable(db, ids)
    ensures SettlesAt(db, ids, orders, held, Plan(Listing(db, ids), orders, held), now, i)
  {
    var ps := Listing(db, ids);
    var row := db.positions[ids[i]];
    PlanSetsRow(db, ids, orders, held, now, i);
    OwnFixResult(row, ps[i], orders, held, now);
    if InHistory(row, orders) {
      LegsDecide(orders[row.openingOrder.value], held);
    } else {
      assert OwnFix(ps[i], orders, held) == [];
    }
  }

  lemma LegsDecide(legs: set<string>, held: set<string>)
    ensures StateFits(CorrectState(legs, held), legs, held)
  {
    assert legs * held == {} <==> forall leg :: leg in legs ==> leg !in held by {
      if legs * held != {} {
        var leg :| leg in legs * held;
        assert leg in legs && leg in held;
      } else {
        forall leg | leg in legs
          ensures leg !in held
        {
          assert leg !in legs * held;
        }
      }
    }
  }

  /** The plan closes the trades of a listed position: its legs are gone, or it is closed and its order forgotten. */
  ghost predicate TradesToClose(row: PositionRow, orders: Orders, held: set<string>) {
    if InHistory(row, orders)
    then row.state != L.Closed && forall leg :: leg in orders[row.openingOrder.value] ==> leg !in held
    else row.openingOrder.Some? && row.openingOrder.value != "" && row.state == L.Closed
  }

  lemma {:induction false} FixScriptCloses(
      ps: seq<StoredPosition>, orders: Orders, held: set<string>, id: PositionId)
    ensures CloseTrades(id) in FixScript(ps, orders, held)
            <==> exists p :: p in ps && p.id == id && Closes(p, orders, held)
  {
    if ps != [] {
      var n := |ps| - 1;
      FixScriptCloses(ps[..n], orders, held, id);
      assert ps == ps[..n] + [ps[n]];
      assert CloseTrades(id) in OwnFix(ps[n], orders, held) <==> ps[n].id == id && Closes(ps[n], orders, held);
    }
  }

  lemma {:induction false} CleanupCloses(unmatched: seq<Unmatched>, id: PositionId)
    ensures CloseTrades(id) in Script(CleanupsFor(unmatched))
            <==> exists u :: u in unmatched && u.reason == OldAndClosed && u.position.id == id
  {
    if unmatched != [] {
      var front, last := unmatched[..|unmatched| - 1], unmatched[|unmatched| - 1];
      CleanupCloses(front, id);
      assert unmatched == front + [last];
      if last.reason == OldAndClosed {
        ScriptOfLast(CleanupsFor(front), CleanupFor(last));
      }
    }
  }

  predicate OwnTradesClose(p: StoredPosition, orders: Orders, held: set<string>) {
    Closes(p, orders, held) || (!Matchable(p, orders) && UnmatchedFor(p).reason == OldAndClosed)
  }

  lemma PlanCloses(ps: seq<StoredPosition>, orders: Orders, held: set<string>, id: PositionId)
    ensures CloseTrades(id) in Script(Plan(ps, orders, held))
            <==> exists p :: p in ps && p.id == id
                             && OwnTradesClose(p, orders, held)
  {
    var fixes := FixesFor(Needing(MatchedOf(ps, orders, held)));
    var unmatched := UnmatchedOf(ps, orders);
    ScriptAppend(fixes, CleanupsFor(unmatched));
    FixScriptIsScript(ps, orders, held);
    FixScriptCloses(ps, orders, held, id);
    CleanupCloses(unmatched, id);
    EveryPositionIsClassified(ps, orders, held);
    if exists p :: p in ps && p.id == id && !Matchable(p, orders) && UnmatchedFor(p).reason == OldAndClosed {
      var p :| p in ps && p.id == id && !Matchable(p, orders) && UnmatchedFor(p).reason == OldAndClosed;
      assert UnmatchedFor(p) in unmatched;
    }
  }

  /** Which trades the plan closes, by the rows and the legs alone; nothing else about them changes. */
  lemma PlanClosesTradesIff(
      db: Database, ids: seq<PositionId>, orders: Orders, held: set<string>, now: Time, t: nat)
    requires Listable(db, ids) && t in db.trades
    ensures var after := ApplyPlan(db, Plan(Listing(db, ids), orders, held), now);
            var was := db.trades[t];
            && t in after.trades
            && after.trades[t] == if was.status in {Filled, Submitted, Live} && was.position in ids
                                     && TradesToClose(db.positions[was.position], orders, held)
                                  then was.(status := ClosedTrade, closeEvent := true) else was
  {
    var ps := Listing(db, ids);
    var was := db.trades[t];
    ExecuteAllByRow(db, Script(Plan(ps, orders, held)), now);
    TradeAfterCloses(was, Script(Plan(ps, orders, held)));
    PlanCloses(ps, orders, held, was.position);
    ListedClosesIff(db, ids, orders, held, was.position);
  }

  lemma ListedClosesIff(
      db: Database, ids: seq<PositionId>, orders: Orders, held: set<string>, id: PositionId)
    requires Listable(db, ids)
    ensures (exists p :: p in Listing(db, ids) && p.id == id
                         && OwnTradesClose(p, orders, held))
            <==> id in ids && TradesToClose(db.positions[id], orders, held)
  {
    var ps := Listing(db, ids);
    forall k | 0 <= k < |ids|
      ensures ps[k].id == ids[k] && ps[k] in ps
      ensures OwnTradesClose(ps[k], orders, held) <==> TradesToClose(db.positions[ids[k]], orders, held)
    {
      if InHistory(db.positions[ids[k]], orders) {
        LegsDecide(orders[ps[k].openingOrder.value], held);
      }
    }
  }

  /**
    After the plan is applied, running the reconciliation again on the same broker data
    finds the same positions matched and none of them in the wrong state.
   */
  lemma ReconciliationReachesFixpoint(db: Database, ids: seq<PositionId>, orders: Orders, held: set<string>, now: Time)
    requires forall id :: id in ids ==> id in db.positions
    requires DistinctIds(Listing(db, ids))
    ensures var after := ApplyPlan(db, Plan(Listing(db, ids), orders, held), now);
            && (forall id :: id in ids ==> id in after.positions)
            && var again := Listing(after, ids);
               && DistinctIds(again)
               && (forall i :: 0 <= i < |ids| ==>
                    (Matchable(again[i], orders) <==> Matchable(Listing(db, ids)[i], orders)))
               && Needing(MatchedOf(again, orders, held)) == []
  {
    var ps := Listing(db, ids);
    var plan := Plan(ps, orders, held);
    var after := ApplyPlan(db, plan, now);
    KeysSurvive(db, plan, now);
    var again := Listing(after, ids);
    forall i | 0 <= i < |ids|
      ensures again[i].openingOrder == ps[i].openingOrder && again[i].id == ps[i].id
      ensures Matchable(again[i], orders) ==> again[i].state == InfoFor(again[i], orders, held).correct
    {
      PlanSetsRow(db, ids, orders, held, now, i);
      OwnFixResult(db.positions[ids[i]], ps[i], orders, held, now);
    }
    assert DistinctIds(again);
    EveryPositionIsClassified(again, orders, held);
    forall m | m in MatchedOf(again, orders, held)
      ensures m.state == m.correct
    {
      var p :| p in again && Matchable(p, orders) && m == InfoFor(p, orders, held);
      var k :| 0 <= k < |again| && again[k] == p;
    }
    NothingNeeded(MatchedOf(again, orders, held));
  }

  lemma {:induction false} NothingNeeded(matches: seq<MatchInfo>)
    requires forall m :: m in matches ==> m.state == m.correct
    ensures Needing(matches) == []
  {
    if matches != [] {
      assert matches[|matches| - 1] in matches;
      NothingNeeded(matches[..|matches| - 1]);
    }
  }

  /** The plan moves this position into the closed state, stamping the time. */
  predicate Closes(p: StoredPosition, orders: Orders, held: set<string>) {
    Matchable(p, orders) && InfoFor(p, orders, held).correct == L.Closed && p.state != L.Closed
  }

  /**
    Applying one plan twice gives the same states and the same trades as applying it
    once; the closing time of a position the plan closes is the time of the last application.
   */
  lemma ApplyingTwice(db: Database, ids: seq<PositionId>, orders: Orders, held: set<string>, t1: Time, t2: Time, i: nat)
    requires forall id :: id in ids ==> id in db.positions
    requires DistinctIds(Listing(db, ids)) && i < |ids|
    ensures var ps := Listing(db, ids);
            var plan := Plan(ps, orders, held);
            var once := ApplyPlan(db, plan, t1);
            var twice := ApplyPlan(once, plan, t2);
            && ids[i] in once.positions && ids[i] in twice.positions
            && twice.positions[ids[i]] == once.positions[ids[i]].(
                 closedAt := if Closes(ps[i], orders, held) then Some(t2) else once.positions[ids[i]].closedAt)
            && (Closes(ps[i], orders, held) ==> once.positions[ids[i]].closedAt == Some(t1))
            && twice.trades == once.trades
  {
    var ps := Listing(db, ids);
    var fixes := FixesFor(Needing(MatchedOf(ps, orders, held)));
    var cleanups := CleanupsFor(UnmatchedOf(ps, orders));
    var plan := Plan(ps, orders, held);
    var once := ApplyPlan(db, plan, t1);
    var twice := ApplyPlan(once, plan, t2);
    var id := ids[i];
    assert id in ids;
    PlanSetsRow(db, ids, orders, held, t1, i);
    OwnFixResult(db.positions[id], ps[i], orders, held, t1);
    KeysSurvive(db, plan, t1);
    // the second application, on the row the first one left
    ScriptAppend(fixes, cleanups);
    FixScriptIsScript(ps, orders, held);
    ExecuteAllByRow(once, Script(plan), t2);
    RowAfterAppend(once.positions[id], id, Script(fixes), Script(cleanups), t2);
    OwnFixDecides(ps, orders, held, i, once.positions[id], t2);
    CleanupScriptSetsNothing(UnmatchedOf(ps, orders));
    RowAfterOthers(RowAfter(once.positions[id], id, Script(fixes), t2), id, Script(cleanups), t2);
    OwnFixAgain(once.positions[id], ps[i], orders, held, t2);
    TradesSettleAtOnce(db, plan, t1, t2);
  }

  lemma OwnFixAgain(row: PositionRow, p: StoredPosition, orders: Orders, held: set<string>, now: Time)
    requires Matchable(p, orders) ==> row.state == InfoFor(p, orders, held).correct
    requires Matchable(p, orders) && InfoFor(p, orders, held).correct != L.Closed && p.state == L.Closed ==>
               row.closedAt == None
    ensures RowAfter(row, p.id, OwnFix(p, orders, held), now)
         == row.(closedAt := if Closes(p, orders, held) then Some(now) else row.closedAt)
  {
    if Matchable(p, orders) && InfoFor(p, orders, held).correct != p.state {
      FixOnRow(row, InfoFor(p, orders, held), now);
    }
  }

  lemma TradesSettleAtOnce(db: Database, plan: seq<Correction>, t1: Time, t2: Time)
    ensures ApplyPlan(ApplyPlan(db, plan, t1), plan, t2).trades == ApplyPlan(db, plan, t1).trades
  {
    var once := ApplyPlan(db, plan, t1);
    ExecuteAllByRow(db, Script(plan), t1);
    ExecuteAllByRow(once, Script(plan), t2);
    forall t | t in db.trades
      ensures TradeAfter(once.trades[t], Script(plan)) == once.trades[t]
    {
      TradeAfterCloses(db.trades[t], Script(plan));
      TradeAfterCloses(once.trades[t], Script(plan));
    }
  }

  /** Two applications agree in full exactly when they share the clock or the plan closes nothing listed. */
  lemma ApplyingTwiceEqualsOnceIff(
      db: Database, ids: seq<PositionId>, orders: Orders, held: set<string>, t1: Time, t2: Time)
    requires forall id :: id in ids ==> id in db.positions
    requires DistinctIds(Listing(db, ids))
    ensures var ps := Listing(db, ids);
            var plan := Plan(ps, orders, held);
            var once := ApplyPlan(db, plan, t1);
            var twice := ApplyPlan(once, plan, t2);
            && (forall i :: 0 <= i < |ids| ==> ids[i] in once.positions && ids[i] in twice.positions)
            && ((forall i :: 0 <= i < |ids| ==> twice.positions[ids[i]] == once.positions[ids[i]])
                <==> t1 == t2 || forall i :: 0 <= i < |ids| ==> !Closes(ps[i], orders, held))
  {
    forall i | 0 <= i < |ids|
      ensures var ps := Listing(db, ids);
              var plan := Plan(ps, orders, held);
              var once := ApplyPlan(db, plan, t1);
              var twice := ApplyPlan(once, plan, t2);
              && ids[i] in once.positions && ids[i] in twice.positions
              && (twice.positions[ids[i]] == once.positions[ids[i]] <==> t1 == t2 || !Closes(ps[i], orders, held))
    {
      ApplyingTwice(db, ids, orders, held, t1, t2, i);
    }
  }
}
