/**
  The execute view, the execution service and the order monitor, row by row.

  Each method follows its source's branches and exception handlers over mutable
  tables; its postcondition is the corresponding step of OrderLifecycle, which says
  nothing about pending rows, clean-up or retries.
 */
module OrderService {
  import opened Prelude
  import opened OrderLifecycle
  import Safety = OrderSafety
  import P = ProfitTargets

  /** `marked`: the suggestion in memory already points at the new position. */
  datatype ExecResult = RaisedError(marked: bool) | NoRecords | DryRunDone | Created(position: PositionId)

  datatype Response = NotFound | Denied | ServerError | Reported | Done(position: PositionId)

  class TradingDesk {
    var suggestions: map<SuggestionId, Suggestion>
    var positions: map<PositionId, Position>
    var trades: map<TradeId, Trade>
    var orders: map<OrderId, BrokerStatus>
    ghost var batches: seq<TradeId>

    constructor (suggestions: map<SuggestionId, Suggestion>)
      ensures Now() == Safety.InitialTables(suggestions)
    {
      this.suggestions, positions, trades, orders, batches := suggestions, map[], map[], map[], [];
    }

    ghost function Now(): Tables
      reads this
    {
      Tables(suggestions, positions, trades, orders, batches)
    }

    // -------------------------------------------------------------- trading/api_views.py

    method ExecuteSuggestion(sid: SuggestionId, w: ExecWorld) returns (response: Response)
      requires Inv(Now()) && ExecEnabled(Now(), w)
      modifies this
      ensures Now() == Execute(old(Now()), sid, w)
      ensures response.Done? <==> Started(old(Now()), sid, w) && Completed(old(Now()), w)
      ensures response.Done? ==> response.position == w.newPosition
      ensures Inv(Now())
    {
      Safety.ExecuteKeepsInv(Now(), sid, w);
      if sid !in suggestions || suggestions[sid].status != AwaitingReview { return NotFound; }
      if !w.riskValid || !w.marketOpen { return Denied; }
      if !w.approveSaves { return ServerError; }
      response := ApproveAndExecute(sid, w);
    }

    /** From the saved approval on: every way out short of success tries to restore the status. */
    method ApproveAndExecute(sid: SuggestionId, w: ExecWorld) returns (response: Response)
      requires Started(Now(), sid, w) && ExecEnabled(Now(), w)
      requires TradesPoint(trades, positions) && SuggestionsPoint(suggestions, positions)
      modifies this
      ensures Now() == Execute(old(Now()), sid, w)
      ensures response.Done? <==> Completed(old(Now()), w)
      ensures response.Done? ==> response.position == w.newPosition
    {
      ghost var start := suggestions;
      SetStatus(sid, Approved);
      var result := ExecuteSuggestionAsync(sid, w);
      UpdateTwice(start, sid, start[sid].(status := Approved), suggestions[sid]);
      if result.Created? { return Done(result.position); }
      var stale := result.RaisedError? && result.marked;
      RestoreStatus(sid, w, result.DryRunDone?, stale);
      UpdateTwice(start, sid, start[sid].(status := Approved), suggestions[sid]);
      return if (w.revertSaves && !stale) || (result.DryRunDone? && w.dryRevertSaves) then Reported else ServerError;
    }

    /**
      The dry-run exit, the ordinary revert and the last-resort handler, in that order.
      The ordinary revert cannot save a suggestion that points at a deleted position.
     */
    method RestoreStatus(sid: SuggestionId, w: ExecWorld, dryRunDone: bool, stale: bool)
      requires sid in suggestions && suggestions[sid].status == Approved
      modifies this`suggestions
      ensures var restored := (dryRunDone && w.dryRevertSaves) || (w.revertSaves && !stale) || w.rescueSaves;
              suggestions == old(suggestions)[sid :=
                old(suggestions)[sid].(status := if restored then AwaitingReview else Approved)]
    {
      if dryRunDone && w.dryRevertSaves {
        SetStatus(sid, AwaitingReview);
        return;
      }
      if w.revertSaves && !stale {
        SetStatus(sid, AwaitingReview);
        return;
      }
      if suggestions[sid].status == Approved && w.rescueSaves {
        SetStatus(sid, AwaitingReview);
      }
    }

    method SetStatus(sid: SuggestionId, status: SuggestionStatus)
      requires sid in suggestions
      modifies this`suggestions
      ensures suggestions == old(suggestions)[sid := old(suggestions)[sid].(status := status)]
    {
      suggestions := suggestions[sid := suggestions[sid].(status := status)];
    }

    method RejectSuggestion(sid: SuggestionId, reason: string, saves: bool) returns (found: bool)
      modifies this`suggestions
      ensures Now() == Reject(old(Now()), sid, reason, saves)
      ensures found <==> sid in old(suggestions) && old(suggestions)[sid].status == AwaitingReview
    {
      found := sid in suggestions && suggestions[sid].status == AwaitingReview;
      if found && saves {
        suggestions := suggestions[sid := suggestions[sid].(status := Rejected, reason := reason)];
      }
    }

    // -------------------------------------------------------------- services/execution/order_service.py

    /** Checks, then places the order unless this is a dry run. */
    method ExecuteSuggestionAsync(sid: SuggestionId, w: ExecWorld) returns (result: ExecResult)
      requires sid in suggestions && suggestions[sid].status == Approved
      requires TradesPoint(trades, positions) && SuggestionsPoint(suggestions, positions) && ExecEnabled(Now(), w)
      modifies this
      ensures result.Created? <==> Completed(old(Now()), w)
      ensures result.Created? ==> result.position == w.newPosition
      ensures result.RaisedError? ==> (result.marked <==> MarkReached(old(Now()), w))
      ensures !result.RaisedError? && !result.Created? ==> !MarkReached(old(Now()), w)
      ensures result.DryRunDone? <==> ReadyToSubmit(w) && w.dryRun
      ensures orders == if OrderPlaced(old(Now()), w) then old(orders)[w.submission.id := Received] else old(orders)
      ensures batches == old(batches)
      ensures if result.Created? then HoldsNewPair(old(Now()), sid, w)
              else positions == old(positions) && trades == old(trades) && suggestions == old(suggestions)
    {
      if suggestions[sid].status != Approved { return RaisedError(false); }
      if !w.realPricing || !w.structureValid || !w.account || w.conflict || !w.session { return RaisedError(false); }
      if !w.pricingCurrent || !w.legsBuilt || !w.quantitiesPresent || !w.creditPositive { return RaisedError(false); }
      if w.dryRun { return DryRunDone; }
      result := PlaceOrder(sid, w);
    }

    ghost predicate HoldsNewPair(before: Tables, sid: SuggestionId, w: ExecWorld)
      requires sid in before.suggestions
      reads this
    {
      && positions == before.positions[w.newPosition :=
           Position(PendingEntry, Some(before.suggestions[sid].strategy), CarriedId(w), map[], false)]
      && trades == before.trades[w.newTrade :=
           Trade(w.newPosition, FinalRef(w), true, false, Submitted, None, None, [])]
      && suggestions == before.suggestions[sid :=
           before.suggestions[sid].(status := Executed, position := Some(w.newPosition))]
    }

    /** Pending rows first, then the broker call; any later failure removes the rows again. */
    method PlaceOrder(sid: SuggestionId, w: ExecWorld) returns (result: ExecResult)
      requires sid in suggestions && suggestions[sid].status == Approved
      requires TradesPoint(trades, positions) && SuggestionsPoint(suggestions, positions) && ExecEnabled(Now(), w)
      requires ReadyToSubmit(w) && !w.dryRun
      modifies this
      ensures !result.DryRunDone?
      ensures result.RaisedError? ==> (result.marked <==> MarkReached(old(Now()), w))
      ensures result.NoRecords? ==> !MarkReached(old(Now()), w)
      ensures result.Created? <==> Completed(old(Now()), w)
      ensures result.Created? ==> result.position == w.newPosition
      ensures orders == if OrderPlaced(old(Now()), w) then old(orders)[w.submission.id := Received] else old(orders)
      ensures batches == old(batches)
      ensures if result.Created? then HoldsNewPair(old(Now()), sid, w)
              else positions == old(positions) && trades == old(trades) && suggestions == old(suggestions)
    {
      var made := CreatePendingRecords(sid, w);
      if !made { return NoRecords; }
      var finished, marked := FinishOrRemove(sid, w, old(Now()));
      return if finished then Created(w.newPosition) else RaisedError(marked);
    }

    ghost predicate HoldsPendingPair(before: Tables, sid: SuggestionId, w: ExecWorld)
      requires sid in before.suggestions
      reads this
    {
      && positions == before.positions[w.newPosition :=
           Position(PendingEntry, Some(before.suggestions[sid].strategy), None, map[], false)]
      && trades == before.trades[w.newTrade :=
           Trade(w.newPosition, Placeholder(w.stamp), true, false, Pending, None, None, [])]
      && suggestions == before.suggestions && orders == before.orders && batches == before.batches
    }

    method FinishOrRemove(sid: SuggestionId, w: ExecWorld, ghost before: Tables) returns (finished: bool, marked: bool)
      requires sid in before.suggestions && HoldsPendingPair(before, sid, w)
      requires w.newPosition !in before.positions && w.newTrade !in before.trades
      requires forall t :: t in before.trades ==> before.trades[t].position != w.newPosition
      requires forall k :: k in before.suggestions ==> before.suggestions[k].position != Some(w.newPosition)
      modifies this
      ensures marked <==>
                && w.submission.Placed?
                && w.positionSaves && !OpeningOrderTaken(before.positions, CarriedId(w))
                && w.tradeSaves && !RefTaken(before.trades, FinalRef(w))
      ensures finished <==> marked && w.markSaves
      ensures orders == if w.submission.Placed? then before.orders[w.submission.id := Received] else before.orders
      ensures batches == before.batches
      ensures if finished then HoldsNewPair(before, sid, w)
              else positions == before.positions && trades == before.trades && suggestions == before.suggestions
    {
      ghost var pending := Now();
      PendingRowsHoldNoIds(before, pending, w);
      finished, marked := SubmitAndFinalize(sid, w);
      if finished {
        UpdateTwice(before.positions, w.newPosition, pending.positions[w.newPosition], positions[w.newPosition]);
        UpdateTwice(before.trades, w.newTrade, pending.trades[w.newTrade], trades[w.newTrade]);
      } else {
        RemovePendingPair(w, before.positions, before.trades);
      }
    }

    method RemovePendingPair(
        w: ExecWorld, ghost beforePositions: map<PositionId, Position>, ghost beforeTrades: map<TradeId, Trade>)
      requires w.newPosition !in beforePositions && w.newTrade !in beforeTrades
      requires positions.Keys == beforePositions.Keys + {w.newPosition}
                 && trades.Keys == beforeTrades.Keys + {w.newTrade}
      requires forall p :: p in beforePositions ==> positions[p] == beforePositions[p]
      requires forall t :: t in beforeTrades ==> trades[t] == beforeTrades[t] && trades[t].position != w.newPosition
      requires forall k :: k in suggestions ==> suggestions[k].position != Some(w.newPosition)
      modifies this`suggestions, this`positions, this`trades
      ensures suggestions == old(suggestions) && positions == beforePositions && trades == beforeTrades
    {
      DeletePendingRecords(w.newPosition, w.newTrade);
      assert positions == beforePositions;
      assert trades == beforeTrades;
    }

    /** The guarded block: submit, then finalise position, trade and suggestion in turn. */
    method SubmitAndFinalize(sid: SuggestionId, w: ExecWorld) returns (finished: bool, marked: bool)
      requires sid in suggestions && w.newPosition in positions && w.newTrade in trades
      requires positions[w.newPosition].openingOrder == None && trades[w.newTrade].ref.Placeholder?
      modifies this
      ensures marked <==>
                && w.submission.Placed?
                && w.positionSaves && !OpeningOrderTaken(old(positions), CarriedId(w))
                && w.tradeSaves && !RefTaken(old(trades), FinalRef(w))
      ensures finished <==> marked && w.markSaves
      ensures orders == if w.submission.Placed? then old(orders)[w.submission.id := Received] else old(orders)
      ensures batches == old(batches)
      ensures finished ==>
                && positions == old(positions)[w.newPosition :=
                     old(positions)[w.newPosition].(openingOrder := CarriedId(w))]
                && trades == old(trades)[w.newTrade :=
                     old(trades)[w.newTrade].(ref := FinalRef(w), status := Submitted)]
                && suggestions == old(suggestions)[sid :=
                     old(suggestions)[sid].(status := Executed, position := Some(w.newPosition))]
      ensures !finished ==>
                && suggestions == old(suggestions)
                && positions.Keys == old(positions).Keys && trades.Keys == old(trades).Keys
                && (forall p :: p in positions && p != w.newPosition ==> positions[p] == old(positions)[p])
                && (forall t :: t in trades && t != w.newTrade ==> trades[t] == old(trades)[t])
                && trades[w.newTrade].position == old(trades)[w.newTrade].position
    {
      if !w.submission.Placed? { return false, false; }
      orders := orders[w.submission.id := Received];
      var saved := FinalizePosition(w.newPosition, w);
      if !saved { return false, false; }
      saved := FinalizeTrade(w.newTrade, w);
      if !saved { return false, false; }
      if !w.markSaves { return false, true; }
      suggestions := suggestions[sid := suggestions[sid].(status := Executed, position := Some(w.newPosition))];
      return true, true;
    }

    /** One database transaction: both rows or neither. */
    method CreatePendingRecords(sid: SuggestionId, w: ExecWorld) returns (made: bool)
      requires sid in suggestions && w.newPosition !in positions && w.newTrade !in trades
      modifies this`positions, this`trades
      ensures made <==> w.recordsSave && !RefTaken(old(trades), Placeholder(w.stamp))
      ensures made ==>
                && positions == old(positions)[w.newPosition :=
                     Position(PendingEntry, Some(suggestions[sid].strategy), None, map[], false)]
                && trades == old(trades)[w.newTrade :=
                     Trade(w.newPosition, Placeholder(w.stamp), true, false, Pending, None, None, [])]
      ensures !made ==> positions == old(positions) && trades == old(trades)
    {
      made := w.recordsSave && !RefTaken(trades, Placeholder(w.stamp));
      if made {
        positions := positions[w.newPosition :=
            Position(PendingEntry, Some(suggestions[sid].strategy), None, map[], false)];
        trades := trades[w.newTrade :=
            Trade(w.newPosition, Placeholder(w.stamp), true, false, Pending, None, None, [])];
      }
    }

    method FinalizePosition(pid: PositionId, w: ExecWorld) returns (saved: bool)
      requires pid in positions && positions[pid].openingOrder == None
      modifies this`positions
      ensures saved <==> w.positionSaves && !OpeningOrderTaken(old(positions), CarriedId(w))
      ensures positions == if saved then old(positions)[pid := old(positions)[pid].(openingOrder := CarriedId(w))]
                else old(positions)
    {
      var id := CarriedId(w);
      saved := w.positionSaves && !OpeningOrderTaken(positions, id);
      if saved && id.Some? {
        positions := positions[pid := positions[pid].(openingOrder := id)];
      }
    }

    method FinalizeTrade(tid: TradeId, w: ExecWorld) returns (saved: bool)
      requires tid in trades && trades[tid].ref.Placeholder?
      modifies this`trades
      ensures saved <==> w.tradeSaves && !RefTaken(old(trades), FinalRef(w))
      ensures trades == if saved then old(trades)[tid := old(trades)[tid].(ref := FinalRef(w), status := Submitted)]
                else old(trades)
    {
      saved := w.tradeSaves && !RefTaken(trades, FinalRef(w));
      if saved {
        trades := trades[tid := trades[tid].(ref := FinalRef(w), status := Submitted)];
      }
    }

    method DeletePendingRecords(pid: PositionId, tid: TradeId)
      requires forall k :: k in suggestions ==> suggestions[k].position != Some(pid)
      requires forall t :: t in trades && trades[t].position == pid ==> t == tid
      modifies this`suggestions, this`positions, this`trades
      ensures suggestions == old(suggestions) && positions == old(positions) - {pid} && trades == old(trades) - {tid}
    {
      trades := trades - {tid};
      DeletePositionRow(pid);
      assert suggestions == old(suggestions);
    }

    /** The foreign keys' on_delete rules: trades cascade, suggestions are set to null. */
    method DeletePositionRow(pid: PositionId)
      modifies this`suggestions, this`positions, this`trades
      ensures Now() == DeletePosition(old(Now()), pid)
    {
      suggestions := map k | k in suggestions ::
        if suggestions[k].position == Some(pid) then suggestions[k].(position := None) else suggestions[k];
      positions := positions - {pid};
      trades := trades - (set t | t in trades && trades[t].position == pid);
    }

    // -------------------------------------------------------------- trading/tasks.py

    /** Polls the trades selected at the start, one after the other, and counts those updated. */
    method MonitorOrders(open: seq<TradeId>, worlds: seq<PollWorld>) returns (updates: nat)
      requires Inv(Now()) && Selects(open, trades)
      requires |open| == |worlds| && PollsEnabled(Now(), open, worlds)
      modifies this
      ensures Now() == PollAll(old(Now()), open, worlds)
      ensures updates == UpdatesOf(old(Now()), open, worlds)
      ensures Inv(Now())
    {
      updates := 0;
      ghost var start := Now();
      for i := 0 to |open|
        invariant Inv(Now())
        invariant PollsEnabled(Now(), open[i..], worlds[i..])
        invariant PollAll(Now(), open[i..], worlds[i..]) == PollAll(start, open, worlds)
        invariant updates + UpdatesOf(Now(), open[i..], worlds[i..]) == UpdatesOf(start, open, worlds)
      {
        assert open[i..][1..] == open[i + 1..] && worlds[i..][1..] == worlds[i + 1..];
        Safety.PollKeepsInv(Now(), open[i], worlds[i]);
        var updated := CheckTradeStatus(open[i], worlds[i]);
        if updated { updates := updates + 1; }
      }
    }

    method CheckTradeStatus(tid: TradeId, w: PollWorld) returns (updated: bool)
      requires OneOpeningEach(trades) && TradesPoint(trades, positions) && PollEnabled(Now(), w)
      modifies this
      ensures Now() == Poll(old(Now()), tid, w)
      ensures updated <==> PollUpdates(old(Now()), tid, w)
    {
      if tid !in trades || !Polled(trades[tid].status) { return false; }
      var trade := trades[tid];
      if trade.ref == TestMode || !w.accountMatches { return false; }
      var newStatus, filledAt, price := CheckOrderStatus(trade, w);
      var changed := newStatus != trade.status || (filledAt.Some? && trade.filledAt.None?)
          || (price.Some? && trade.fillPrice.None?);
      if !changed { return false; }
      if !w.tradeSaves { return false; }
      Safety.UpdateKeepsLinks(Now(), tid, Updated(Now(), trade, w));
      UpdateTradeRecord(tid, newStatus, filledAt, price);
      if newStatus == AtBroker(Filled) {
        HandleOrderFill(tid, w);
      }
      return true;
    }

    /** A missing account, session or order and any exception all read "error". */
    method CheckOrderStatus(trade: Trade, w: PollWorld)
      returns (status: TradeStatus, filledAt: Option<nat>, price: Option<real>)
      ensures status == Seen(Now(), trade, w)
      ensures filledAt == SeenFilledAt(Now(), trade, w) && price == SeenPrice(Now(), trade, w)
    {
      if !w.lookupWorks || !trade.ref.Ref? || trade.ref.id !in orders { return LookupError, None, None; }
      return AtBroker(orders[trade.ref.id]), w.terminalAt, if w.price == Some(0.0) then None else w.price;
    }

    method UpdateTradeRecord(tid: TradeId, status: TradeStatus, filledAt: Option<nat>, price: Option<real>)
      requires tid in trades && trades[tid].position in positions
      modifies this`suggestions, this`positions, this`trades
      ensures var was := old(trades)[tid];
              var row := was.(status := status,
                              filledAt := if filledAt.Some? then filledAt else was.filledAt,
                              fillPrice := if price.Some? then price else was.fillPrice);
              var s1 := old(Now()).(trades := old(trades)[tid := row]);
              Now() == if status == AtBroker(Expired) && was.opening
                  && old(positions)[was.position].state == PendingEntry
                       then DeletePosition(s1, was.position) else s1
    {
      var trade := trades[tid].(status := status);
      if filledAt.Some? { trade := trade.(filledAt := filledAt); }
      if price.Some? { trade := trade.(fillPrice := price); }
      trades := trades[tid := trade];
      if status == AtBroker(Expired) && trade.opening && positions[trade.position].state == PendingEntry {
        DeletePositionRow(trade.position);
      }
    }

    /** Submits profit targets for a filled trade and, if any was linked, opens a pending position. */
    method HandleOrderFill(tid: TradeId, w: PollWorld)
      requires OneOpeningEach(trades) && TradesPoint(trades, positions)
      requires tid in trades && |w.replies.orders| == |w.specs|
      modifies this
      ensures Now() == HandleFill(old(Now()), tid, w)
    {
      var trade := trades[tid];
      if trade.hasParent { return; }
      var position := positions[trade.position];
      if position.created { return; }
      var outcome := CreateTargetsFor(trade.position, tid, w);
      if outcome.Skipped? || outcome.Refused? { return; }
      if outcome.Raised? || outcome.orderIds == [] { return; }
      if !w.childrenSave { return; }
      trades := trades[tid := trades[tid].(children := outcome.orderIds)];
      if position.state == PendingEntry && w.stateSaves {
        positions := positions[trade.position := positions[trade.position].(state := OpenFull)];
      }
    }

    /** create_profit_targets_sync on the stored rows: the opening trade is looked up by position. */
    method CreateTargetsFor(pid: PositionId, ghost filled: TradeId, w: PollWorld) returns (outcome: P.Outcome)
      requires OneOpeningEach(trades) && pid in positions && |w.replies.orders| == |w.specs|
      modifies this
      ensures suggestions == old(suggestions)
      ensures var pos := old(positions)[pid];
              var ids := P.Accepted(w.replies.orders);
              if pos.strategy.None? || !w.strategyKnown || !HasEntry(old(trades), pid) || w.specs == [] then
                (outcome.Skipped? || outcome.Refused?) && Now() == old(Now())
              else
                var entry := EntryOf(old(trades), pid);
                var book := P.Recorded(P.Book(pos.details, pos.created, old(trades)[entry].children),
                                       P.ExpectedCount(pos.strategy.value), w.specs, w.replies, false);
                && outcome == (if ids != [] && !(w.replies.positionSaves && w.replies.tradeSaves)
                               then P.Raised else P.Success(ids))
                && orders == WithReceived(old(orders), ids)
                && batches == old(batches) + [filled]
                && positions == old(positions)[pid := pos.(details := book.details, created := book.created)]
                && trades == old(trades)[entry := old(trades)[entry].(children := book.children)]
    {
      var position := positions[pid];
      var opening := OpeningTradeOf(pid);
      var children := if opening.Some? then trades[opening.value].children else [];
      var record := new P.TargetRecord.Load(position.strategy, P.Book(position.details, position.created, children));
      outcome := record.CreateProfitTargets(w.strategyKnown, opening.Some?, w.specs, false, [], w.replies);
      if outcome.Skipped? || outcome.Refused? { return; }
      batches := batches + [filled];
      var accepted := AcceptedOrders(w.replies.orders);
      orders := WithReceived(orders, accepted);
      positions := positions[pid := position.(details := record.details, created := record.created)];
      trades := trades[opening.value := trades[opening.value].(children := record.children)];
    }

    /** The position's opening trade, if it has one; there is only one. */
    method OpeningTradeOf(pid: PositionId) returns (opening: Option<TradeId>)
      requires OneOpeningEach(trades)
      ensures opening == if HasEntry(trades, pid) then Some(EntryOf(trades, pid)) else None
    {
      if exists t :: t in trades && IsEntry(trades, pid, t) {
        var t :| t in trades && IsEntry(trades, pid, t);
        Safety.EntryIsUnique(Now(), t, EntryOf(trades, pid));
        return Some(t);
      }
      return None;
    }

    method AcceptedOrders(replies: seq<Option<OrderId>>) returns (ids: seq<OrderId>)
      ensures ids == P.Accepted(replies)
    {
      ids := [];
      for i := 0 to |replies|
        invariant ids == P.Accepted(replies[..i])
      {
        assert replies[..i + 1][..i] == replies[..i];
        if replies[i].Some? { ids := ids + [replies[i].value]; }
      }
      assert replies[..|replies|] == replies;
    }

    // -------------------------------------------------------------- services/positions/lifecycle/dte_manager.py

    /** The closing trade's row is written before the broker is asked, and completed afterwards. */
    method ClosePositionAtDte(pid: PositionId, w: CloseWorld) returns (closed: bool)
      requires CloseEnabled(Now(), w)
      modifies this
      ensures Now() == CloseAtDte(old(Now()), pid, w)
      ensures closed ==> pid in positions && positions[pid].state == Closing
    {
      if pid !in positions || !w.rowCreates || RefTaken(trades, Placeholder(w.stamp)) { return false; }
      trades := trades[w.newTrade := ClosingTrade(pid, Placeholder(w.stamp), Pending)];
      if w.order.None? {
        if w.rowSaves {
          trades := trades[w.newTrade := trades[w.newTrade].(status := AtBroker(Refused))];
        }
        return false;
      }
      orders := orders[w.order.value := Received];
      if !w.rowSaves || RefTaken(trades, Ref(w.order.value)) {
        PlaceholderTakesNoRef(old(trades), trades, w);
        return false;
      }
      PlaceholderTakesNoRef(old(trades), trades, w);
      trades := trades[w.newTrade := trades[w.newTrade].(ref := Ref(w.order.value), status := Submitted)];
      if !w.positionSaves { return false; }
      positions := positions[pid := positions[pid].(state := Closing)];
      return true;
    }
  }

  lemma PlaceholderTakesNoRef(before: map<TradeId, Trade>, after: map<TradeId, Trade>, w: CloseWorld)
    requires w.newTrade !in before && w.order.Some?
    requires w.newTrade in after && after == before[w.newTrade := after[w.newTrade]]
               && after[w.newTrade].ref.Placeholder?
    ensures RefTaken(after, Ref(w.order.value)) <==> RefTaken(before, Ref(w.order.value))
  {
    if RefTaken(before, Ref(w.order.value)) {
      var t :| t in before && before[t].ref == Ref(w.order.value);
      assert t in after && after[t] == before[t];
    }
  }

  lemma UpdateTwice<K, V>(m: map<K, V>, k: K, a: V, b: V)
    ensures m[k := a][k := b] == m[k := b]
  {
  }

  /** The pending rows take no broker id, so they do not disturb the unique-column checks. */
  lemma PendingRowsHoldNoIds(before: Tables, after: Tables, w: ExecWorld)
    requires w.newPosition !in before.positions && w.newTrade !in before.trades
    requires w.newPosition in after.positions
               && after.positions == before.positions[w.newPosition := after.positions[w.newPosition]]
    requires w.newTrade in after.trades && after.trades == before.trades[w.newTrade := after.trades[w.newTrade]]
    requires after.positions[w.newPosition].openingOrder == None && after.trades[w.newTrade].ref.Placeholder?
    ensures RefTaken(after.trades, FinalRef(w)) <==> RefTaken(before.trades, FinalRef(w))
    ensures OpeningOrderTaken(after.positions, CarriedId(w)) <==> OpeningOrderTaken(before.positions, CarriedId(w))
  {
    if RefTaken(before.trades, FinalRef(w)) {
      var t :| t in before.trades && before.trades[t].ref == FinalRef(w);
      assert t in after.trades && after.trades[t] == before.trades[t];
    }
    if OpeningOrderTaken(before.positions, CarriedId(w)) {
      var p :| p in before.positions && before.positions[p].openingOrder == CarriedId(w);
      assert p in after.positions && after.positions[p] == before.positions[p];
    }
  }

  /** The trades whose status the monitor's query lists, each once, in any order. */
  ghost predicate Selects(open: seq<TradeId>, trades: map<TradeId, Trade>) {
    && (forall t :: t in open <==> t in trades && Polled(trades[t].status))
    && (forall i, j :: 0 <= i < j < |open| ==> open[i] != open[j])
  }

  /** Something new was seen and stored. */
  predicate PollUpdates(s: Tables, tid: TradeId, w: PollWorld) {
    && tid in s.trades && Polled(s.trades[tid].status) && s.trades[tid].ref != TestMode
    && w.accountMatches && Changed(s, s.trades[tid], w) && w.tradeSaves
  }

  ghost predicate PollsEnabled(s: Tables, open: seq<TradeId>, worlds: seq<PollWorld>)
    requires |open| == |worlds|
    decreases |open|
  {
    open == [] || (PollEnabled(s, worlds[0]) && PollsEnabled(Poll(s, open[0], worlds[0]), open[1..], worlds[1..]))
  }

  /** Polling one trade after the other. */
  ghost function PollAll(s: Tables, open: seq<TradeId>, worlds: seq<PollWorld>): Tables
    requires |open| == |worlds| && PollsEnabled(s, open, worlds)
    decreases |open|
  {
    if open == [] then s else PollAll(Poll(s, open[0], worlds[0]), open[1..], worlds[1..])
  }

  /** How many of the polls update their trade. */
  ghost function UpdatesOf(s: Tables, open: seq<TradeId>, worlds: seq<PollWorld>): nat
    requires |open| == |worlds| && PollsEnabled(s, open, worlds)
    decreases |open|
  {
    if open == [] then 0
    else (if PollUpdates(s, open[0], worlds[0]) then 1 else 0)
         + UpdatesOf(Poll(s, open[0], worlds[0]), open[1..], worlds[1..])
  }
}
