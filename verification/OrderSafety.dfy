/**
  Whole-run properties of the order lifecycle: what every step keeps, and what that
  means for any interleaving of requests, polls, broker changes and failures.
 */
module OrderSafety {
  import opened Prelude
  import opened OrderLifecycle
  import P = ProfitTargets

  // ---------------------------------------------------------------- each step keeps the invariant

  /** Columns that identify a trade: which position, which broker order, which kind. */
  predicate SameIdentity(t: Trade, u: Trade) {
    t.position == u.position && t.ref == u.ref && t.opening == u.opening && t.hasParent == u.hasParent
  }

  /** The same rows, with changes only in columns that identify nothing. */
  ghost predicate SameRows(s: Tables, after: Tables) {
    && after.trades.Keys == s.trades.Keys && after.positions.Keys == s.positions.Keys
    && (forall t :: t in s.trades ==> SameIdentity(s.trades[t], after.trades[t]))
    && (forall p :: p in s.positions ==> after.positions[p].openingOrder == s.positions[p].openingOrder)
    && after.suggestions == s.suggestions
  }

  lemma EntryIsUnique(s: Tables, t: TradeId, u: TradeId)
    requires OneOpeningEach(s.trades) && t in s.trades && u in s.trades && s.trades[t].opening && s.trades[u].opening
    ensures s.trades[t].position == s.trades[u].position <==> t == u
  {
    assert BothOpen(s.trades[t], s.trades[u]) <==> s.trades[t].position == s.trades[u].position;
  }

  lemma SameRowsKeepRows(s: Tables, after: Tables)
    requires RowsConsistent(s) && SameRows(s, after)
    ensures RowsConsistent(after)
  {
    SameRowsKeepUnique(s, after);
    SameRowsKeepEntries(s, after);
  }

  lemma SameRowsKeepUnique(s: Tables, after: Tables)
    requires UniqueRefs(s.trades) && OneOpeningEach(s.trades) && SameRows(s, after)
    ensures UniqueRefs(after.trades) && OneOpeningEach(after.trades)
  {
    assert forall t, u :: t in s.trades && u in s.trades ==>
      (BothOpen(after.trades[t], after.trades[u]) <==> BothOpen(s.trades[t], s.trades[u]));
  }

  lemma SameRowsKeepEntries(s: Tables, after: Tables)
    requires EntriesExist(s.positions, s.trades) && SameRows(s, after)
    ensures EntriesExist(after.positions, after.trades)
  {
    forall p | p in after.positions
      ensures HasEntry(after.trades, p)
    {
      var t :| IsEntry(s.trades, p, t);
      assert IsEntry(after.trades, p, t);
    }
  }

  lemma SameRowsKeepIds(s: Tables, after: Tables)
    requires IdsAgree(s) && SameRows(s, after)
    ensures IdsAgree(after)
  {
  }

  lemma TradeInsertKeepsEntries(
      positions: map<PositionId, Position>, trades: map<TradeId, Trade>, tid: TradeId, row: Trade)
    requires EntriesExist(positions, trades) && tid !in trades
    ensures EntriesExist(positions, trades[tid := row])
  {
    forall p | p in positions
      ensures HasEntry(trades[tid := row], p)
    {
      var t :| IsEntry(trades, p, t);
      assert IsEntry(trades[tid := row], p, t);
    }
  }

  lemma TradeInsertKeepsRows(s: Tables, tid: TradeId, row: Trade)
    requires RowsConsistent(s) && tid !in s.trades && !RefTaken(s.trades, row.ref)
    requires row.position in s.positions && !row.opening
    ensures RowsConsistent(s.(trades := s.trades[tid := row]))
  {
    TradeInsertKeepsEntries(s.positions, s.trades, tid, row);
  }

  lemma PairInsertKeepsRows(s: Tables, pid: PositionId, pos: Position, tid: TradeId, row: Trade)
    requires RowsConsistent(s) && pid !in s.positions && tid !in s.trades
    requires !RefTaken(s.trades, row.ref) && !OpeningOrderTaken(s.positions, pos.openingOrder)
    requires row.position == pid && row.opening
    ensures RowsConsistent(s.(positions := s.positions[pid := pos], trades := s.trades[tid := row]))
  {
    var positions := s.positions[pid := pos];
    forall p | p in positions
      ensures HasEntry(s.trades[tid := row], p)
    {
      if p == pid {
        assert IsEntry(s.trades[tid := row], p, tid);
      } else {
        var t :| IsEntry(s.trades, p, t);
        assert IsEntry(s.trades[tid := row], p, t);
      }
    }
  }

  lemma TargetedEntriesCarryOver(s: Tables, after: Tables)
    requires OpenIsFilled(s)
    requires forall p :: p in after.positions && after.positions[p].state in OPENED ==>
               (p in s.positions && s.positions[p].state in OPENED) || exists t :: TargetedEntry(after, t, p)
    requires forall p, t :: p in after.positions && TargetedEntry(s, t, p) ==> TargetedEntry(after, t, p)
    ensures OpenIsFilled(after)
  {
    forall p | p in after.positions && after.positions[p].state in OPENED
      ensures exists t :: TargetedEntry(after, t, p)
    {
      if p in s.positions && s.positions[p].state in OPENED {
        var t :| TargetedEntry(s, t, p);
        assert TargetedEntry(after, t, p);
      }
    }
  }

  lemma ExecuteKeepsRows(s: Tables, sid: SuggestionId, w: ExecWorld)
    requires Inv(s) && ExecEnabled(s, w)
    ensures RowsConsistent(Execute(s, sid, w))
  {
    if Started(s, sid, w) && Completed(s, w) {
      var after := Execute(s, sid, w);
      PairInsertKeepsRows(s, w.newPosition, after.positions[w.newPosition], w.newTrade, after.trades[w.newTrade]);
    }
  }

  lemma ExecuteKeepsFills(s: Tables, sid: SuggestionId, w: ExecWorld)
    requires FilledIsBacked(s) && BatchesOnce(s) && OpenIsFilled(s) && ExecEnabled(s, w)
    ensures FilledIsBacked(Execute(s, sid, w)) && BatchesOnce(Execute(s, sid, w)) && OpenIsFilled(Execute(s, sid, w))
  {
    TargetedEntriesCarryOver(s, Execute(s, sid, w));
  }

  lemma ExecuteKeepsIds(s: Tables, sid: SuggestionId, w: ExecWorld)
    requires TradesPoint(s.trades, s.positions) && IdsAgree(s) && ClosesFollowEntry(s) && ExecEnabled(s, w)
    ensures IdsAgree(Execute(s, sid, w)) && ClosesFollowEntry(Execute(s, sid, w))
  {
  }

  lemma ExecuteKeepsInv(s: Tables, sid: SuggestionId, w: ExecWorld)
    requires Inv(s) && ExecEnabled(s, w)
    ensures Inv(Execute(s, sid, w))
  {
    ExecuteKeepsRows(s, sid, w);
    ExecuteKeepsFills(s, sid, w);
    ExecuteKeepsIds(s, sid, w);
  }

  lemma RejectKeepsInv(s: Tables, sid: SuggestionId, reason: string, saves: bool)
    requires Inv(s)
    ensures Inv(Reject(s, sid, reason, saves))
  {
    TargetedEntriesCarryOver(s, Reject(s, sid, reason, saves));
  }

  /** More orders, or changes to orders that are not filled. */
  lemma OrdersKeepInv(s: Tables, orders: map<OrderId, BrokerStatus>)
    requires Inv(s)
    requires forall id :: id in s.orders && s.orders[id] == Filled ==> id in orders && orders[id] == Filled
    ensures Inv(s.(orders := orders))
  {
    var after := s.(orders := orders);
    SameRowsKeepRows(s, after);
    SameRowsKeepIds(s, after);
    TargetedEntriesCarryOver(s, after);
  }

  lemma BrokerMoveKeepsInv(s: Tables, id: OrderId, to: BrokerStatus)
    requires Inv(s)
    ensures Inv(BrokerMove(s, id, to))
  {
    OrdersKeepInv(s, BrokerMove(s, id, to).orders);
  }

  // ---------------------------------------------------------------- closing trades

  /** A new trade that is neither an opening nor a filled one. */
  lemma CloseInsertKeepsInv(s: Tables, tid: TradeId, row: Trade)
    requires Inv(s) && tid !in s.trades && !RefTaken(s.trades, row.ref)
    requires !row.opening && row.status != AtBroker(Filled)
    requires row.position in s.positions && s.positions[row.position].state in OPENED
    ensures Inv(s.(trades := s.trades[tid := row]))
  {
    TradeInsertKeepsRows(s, tid, row);
    CloseInsertKeepsFills(s, tid, row);
  }

  lemma CloseInsertKeepsFills(s: Tables, tid: TradeId, row: Trade)
    requires FilledIsBacked(s) && BatchesOnce(s) && OpenIsFilled(s) && IdsAgree(s) && ClosesFollowEntry(s)
    requires tid !in s.trades && !row.opening && row.status != AtBroker(Filled)
    requires row.position in s.positions && s.positions[row.position].state in OPENED
    ensures var after := s.(trades := s.trades[tid := row]);
            && FilledIsBacked(after) && BatchesOnce(after) && OpenIsFilled(after) && IdsAgree(after)
            && ClosesFollowEntry(after)
  {
    TargetedEntriesCarryOver(s, s.(trades := s.trades[tid := row]));
  }

  /** Open, or with a filled entry and its batch all the same: the state save after the fill failed. */
  ghost predicate EntryDone(s: Tables, pid: PositionId)
    requires pid in s.positions
  {
    s.positions[pid].state in OPENED || exists t :: TargetedEntry(s, t, pid)
  }

  lemma ClosingKeepsFills(s: Tables, pid: PositionId)
    requires OpenIsFilled(s) && ClosesFollowEntry(s)
    requires pid in s.positions && EntryDone(s, pid)
    ensures var after := s.(positions := s.positions[pid := s.positions[pid].(state := Closing)]);
            OpenIsFilled(after) && ClosesFollowEntry(after)
  {
    var after := s.(positions := s.positions[pid := s.positions[pid].(state := Closing)]);
    forall p, t | TargetedEntry(s, t, p)
      ensures TargetedEntry(after, t, p)
    {
    }
    TargetedEntriesCarryOver(s, after);
  }

  lemma ClosingKeepsRows(s: Tables, pid: PositionId)
    requires RowsConsistent(s) && IdsAgree(s) && pid in s.positions
    ensures var after := s.(positions := s.positions[pid := s.positions[pid].(state := Closing)]);
            RowsConsistent(after) && IdsAgree(after)
  {
    var after := s.(positions := s.positions[pid := s.positions[pid].(state := Closing)]);
    SameRowsKeepRows(s, after);
    SameRowsKeepIds(s, after);
  }

  lemma ClosingKeepsInv(s: Tables, pid: PositionId)
    requires Inv(s) && pid in s.positions && EntryDone(s, pid)
    ensures Inv(s.(positions := s.positions[pid := s.positions[pid].(state := Closing)]))
  {
    ClosingKeepsRows(s, pid);
    ClosingKeepsFills(s, pid);
  }

  ghost predicate CloseShape(s: Tables, after: Tables, pid: PositionId, w: CloseWorld) {
    && pid in s.positions
    && w.newTrade in after.trades && after.trades == s.trades[w.newTrade := after.trades[w.newTrade]]
    && after.trades[w.newTrade].position == pid && !after.trades[w.newTrade].opening
    && after.trades[w.newTrade].status != AtBroker(Filled) && !RefTaken(s.trades, after.trades[w.newTrade].ref)
    && (forall id :: id in s.orders ==> id in after.orders && after.orders[id] == s.orders[id])
    && (after.positions == s.positions || after.positions == s.positions[pid := s.positions[pid].(state := Closing)])
    && after.suggestions == s.suggestions && after.batches == s.batches
  }

  lemma CloseHasShape(s: Tables, pid: PositionId, w: CloseWorld)
    requires CloseEnabled(s, w)
    ensures CloseAtDte(s, pid, w) == s || CloseShape(s, CloseAtDte(s, pid, w), pid, w)
  {
  }

  lemma CloseShapeKeepsInv(s: Tables, after: Tables, pid: PositionId, w: CloseWorld)
    requires Inv(s) && w.newTrade !in s.trades && CloseShape(s, after, pid, w)
    requires if after.positions == s.positions then s.positions[pid].state in OPENED else EntryDone(s, pid)
    ensures Inv(after)
  {
    var s1 := s.(positions := after.positions);
    if after.positions != s.positions {
      ClosingKeepsInv(s, pid);
    }
    CloseInsertKeepsInv(s1, w.newTrade, after.trades[w.newTrade]);
    var s2 := s1.(trades := after.trades);
    OrdersKeepInv(s2, after.orders);
    assert after == s2.(orders := after.orders);
  }

  /** The order goes out and the position is saved as closing. */
  predicate CloseMoves(s: Tables, pid: PositionId, w: CloseWorld) {
    CloseStarts(s, pid, w) && CloseRecorded(s, w) && w.positionSaves
  }

  /**
    A close keeps the invariant exactly when it does not start, the position is open, or
    its entry is done all the same and the close moves it.
   */
  lemma CloseKeepsInvIff(s: Tables, pid: PositionId, w: CloseWorld)
    requires Inv(s) && CloseEnabled(s, w)
    ensures Inv(CloseAtDte(s, pid, w)) <==> CloseStarts(s, pid, w) ==> CloseIsSafe(s, pid, w)
  {
    if CloseStarts(s, pid, w) {
      CloseHasShape(s, pid, w);
      if CloseIsSafe(s, pid, w) {
        ClosedStates(s, pid, w);
        CloseShapeKeepsInv(s, CloseAtDte(s, pid, w), pid, w);
      } else {
        UnsafeCloseBreaks(s, pid, w);
      }
    }
  }

  ghost predicate CloseIsSafe(s: Tables, pid: PositionId, w: CloseWorld)
    requires pid in s.positions
  {
    s.positions[pid].state in OPENED || (CloseMoves(s, pid, w) && EntryDone(s, pid))
  }

  lemma UnsafeCloseBreaks(s: Tables, pid: PositionId, w: CloseWorld)
    requires OpenIsFilled(s) && CloseEnabled(s, w) && CloseStarts(s, pid, w) && !CloseIsSafe(s, pid, w)
    ensures !OpenIsFilled(CloseAtDte(s, pid, w)) || !ClosesFollowEntry(CloseAtDte(s, pid, w))
  {
    ClosedStates(s, pid, w);
    if CloseMoves(s, pid, w) {
      CloseKeepsOpenFilledIff(s, pid, w);
    } else {
      CloseHasShape(s, pid, w);
      var after := CloseAtDte(s, pid, w);
      assert !after.trades[w.newTrade].opening && after.positions[pid].state !in OPENED;
    }
  }

  /**
    After a close every open or closing position still has a filled entry with a batch
    exactly when the closed one was open, had such an entry all the same, or stays as it was.
   */
  lemma CloseKeepsOpenFilledIff(s: Tables, pid: PositionId, w: CloseWorld)
    requires OpenIsFilled(s) && CloseEnabled(s, w)
    ensures OpenIsFilled(CloseAtDte(s, pid, w))
            <==> CloseMoves(s, pid, w) ==> exists t :: TargetedEntry(s, t, pid)
  {
    var after := CloseAtDte(s, pid, w);
    forall p, t
      ensures TargetedEntry(after, t, p) <==> TargetedEntry(s, t, p)
    {
      CloseKeepsTargets(s, pid, w, p, t);
    }
    ClosedStates(s, pid, w);
    if CloseMoves(s, pid, w) && exists t :: TargetedEntry(s, t, pid) {
      var t :| TargetedEntry(s, t, pid);
      assert TargetedEntry(after, t, pid);
    }
    forall p | p in s.positions && s.positions[p].state in OPENED
      ensures exists t :: TargetedEntry(after, t, p)
    {
      var t :| TargetedEntry(s, t, p);
      assert TargetedEntry(after, t, p);
    }
  }

  lemma CloseKeepsTargets(s: Tables, pid: PositionId, w: CloseWorld, p: PositionId, t: TradeId)
    requires CloseEnabled(s, w)
    ensures TargetedEntry(CloseAtDte(s, pid, w), t, p) <==> TargetedEntry(s, t, p)
  {
  }

  lemma ClosedStates(s: Tables, pid: PositionId, w: CloseWorld)
    requires CloseEnabled(s, w)
    ensures var after := CloseAtDte(s, pid, w);
            && after.positions.Keys == s.positions.Keys
            && forall p :: p in s.positions ==>
                 after.positions[p].state == if p == pid && CloseMoves(s, pid, w) then Closing else s.positions[p].state
  {
  }

  // ---------------------------------------------------------------- polls

  lemma RowUpdateKeepsRows(s: Tables, tid: TradeId, row: Trade)
    requires RowsConsistent(s) && IdsAgree(s) && tid in s.trades && SameIdentity(s.trades[tid], row)
    ensures RowsConsistent(s.(trades := s.trades[tid := row])) && IdsAgree(s.(trades := s.trades[tid := row]))
  {
    SameRowsKeepRows(s, s.(trades := s.trades[tid := row]));
    SameRowsKeepIds(s, s.(trades := s.trades[tid := row]));
  }

  lemma UpdateKeepsLinks(s: Tables, tid: TradeId, row: Trade)
    requires OneOpeningEach(s.trades) && TradesPoint(s.trades, s.positions)
    requires tid in s.trades && SameIdentity(s.trades[tid], row)
    ensures OneOpeningEach(s.trades[tid := row]) && TradesPoint(s.trades[tid := row], s.positions)
  {
    var after := s.trades[tid := row];
    assert forall t, u :: t in s.trades && u in s.trades ==>
      (BothOpen(after[t], after[u]) <==> BothOpen(s.trades[t], s.trades[u]));
  }

  lemma UpdateKeepsFills(s: Tables, tid: TradeId, row: Trade)
    requires FilledIsBacked(s) && BatchesOnce(s) && OpenIsFilled(s) && ClosesFollowEntry(s)
    requires tid in s.trades && s.trades[tid].status != AtBroker(Filled) && SameIdentity(s.trades[tid], row)
    requires row.status == AtBroker(Filled) ==>
               row.ref.Ref? && row.ref.id in s.orders && s.orders[row.ref.id] == Filled
    ensures var after := s.(trades := s.trades[tid := row]);
            FilledIsBacked(after) && BatchesOnce(after) && OpenIsFilled(after) && ClosesFollowEntry(after)
  {
    TargetedEntriesCarryOver(s, s.(trades := s.trades[tid := row]));
  }

  /** Writing the observed status of a polled trade. */
  lemma UpdateKeepsInv(s: Tables, tid: TradeId, w: PollWorld)
    requires Inv(s) && tid in s.trades && Polled(s.trades[tid].status)
    ensures Inv(s.(trades := s.trades[tid := Updated(s, s.trades[tid], w)]))
    ensures tid !in s.batches
  {
    var row := Updated(s, s.trades[tid], w);
    RowUpdateKeepsRows(s, tid, row);
    UpdateKeepsFills(s, tid, row);
  }

  lemma DeleteKeepsEntries(s: Tables, pid: PositionId)
    requires EntriesExist(s.positions, s.trades)
    ensures EntriesExist(DeletePosition(s, pid).positions, DeletePosition(s, pid).trades)
  {
    var after := DeletePosition(s, pid);
    forall p | p in after.positions
      ensures HasEntry(after.trades, p)
    {
      var t :| IsEntry(s.trades, p, t);
      assert IsEntry(after.trades, p, t);
    }
  }

  lemma DeleteKeepsRows(s: Tables, pid: PositionId)
    requires RowsConsistent(s)
    ensures RowsConsistent(DeletePosition(s, pid))
  {
    DeleteKeepsEntries(s, pid);
  }

  lemma DeleteKeepsFills(s: Tables, pid: PositionId)
    requires FilledIsBacked(s) && OpenIsFilled(s) && ClosesFollowEntry(s) && IdsAgree(s)
    ensures var after := DeletePosition(s, pid);
            FilledIsBacked(after) && OpenIsFilled(after) && ClosesFollowEntry(after) && IdsAgree(after)
  {
    TargetedEntriesCarryOver(s, DeletePosition(s, pid));
  }

  lemma DeleteSparesBatches(s: Tables, tid: TradeId, t: TradeId)
    requires Inv(s) && t in s.batches && tid in s.trades && s.trades[tid].opening
    requires s.trades[tid].status != AtBroker(Filled) && s.positions[s.trades[tid].position].state == PendingEntry
    ensures s.trades[t].position != s.trades[tid].position
  {
    if s.trades[t].opening {
      EntryIsUnique(s, t, tid);
    }
  }

  /** A pending position whose opening trade is `tid`, not filled, may be deleted. */
  lemma DeleteKeepsInv(s: Tables, tid: TradeId)
    requires Inv(s) && tid in s.trades && s.trades[tid].opening && s.trades[tid].status != AtBroker(Filled)
    requires s.positions[s.trades[tid].position].state == PendingEntry
    ensures Inv(DeletePosition(s, s.trades[tid].position))
  {
    DeleteKeepsRows(s, s.trades[tid].position);
    DeleteKeepsFills(s, s.trades[tid].position);
    forall t | t in s.batches
      ensures s.trades[t].position != s.trades[tid].position
    {
      DeleteSparesBatches(s, tid, t);
    }
    DeleteKeepsBatches(s, s.trades[tid].position);
  }

  lemma DeleteKeepsBatches(s: Tables, pid: PositionId)
    requires BatchesOnce(s) && forall t :: t in s.batches ==> s.trades[t].position != pid
    ensures BatchesOnce(DeletePosition(s, pid))
  {
  }

  /** What a batch leaves alone. */
  ghost predicate FillShape(s: Tables, after: Tables, tid: TradeId) {
    && SameRows(s, after)
    && (forall t :: t in s.trades ==> after.trades[t].status == s.trades[t].status)
    && (forall id :: id in s.orders ==> id in after.orders && after.orders[id] == s.orders[id])
    && after.batches == s.batches + [tid]
  }

  lemma HandleFillShape(s: Tables, tid: TradeId, w: PollWorld)
    requires tid in s.trades && PollEnabled(s, w) && SubmitsBatch(s, s.trades[tid], w)
    ensures FillShape(s, HandleFill(s, tid, w), tid)
    ensures StatesAfterFill(s, HandleFill(s, tid, w), tid, OpensPosition(s, tid, w))
  {
  }

  /** A change of that shape keeps the facts about trades. */
  lemma FillKeepsTradeFacts(s: Tables, after: Tables, tid: TradeId)
    requires FilledIsBacked(s) && BatchesOnce(s) && tid in s.trades && FillShape(s, after, tid)
    requires s.trades[tid].status == AtBroker(Filled) && tid !in s.batches
    ensures FilledIsBacked(after) && BatchesOnce(after)
  {
    forall t | t in after.trades && after.trades[t].status == AtBroker(Filled)
      ensures after.trades[t].ref.Ref? && after.trades[t].ref.id in after.orders
              && after.orders[after.trades[t].ref.id] == Filled
    {
      assert SameIdentity(s.trades[t], after.trades[t]);
    }
  }

  /** Only the fill of the opening trade itself opens a position: a closing trade's position is open already. */
  lemma FillKeepsOpen(s: Tables, after: Tables, tid: TradeId, opens: bool)
    requires OpenIsFilled(s) && ClosesFollowEntry(s) && TradesPoint(s.trades, s.positions)
    requires tid in s.trades && s.trades[tid].status == AtBroker(Filled) && FillShape(s, after, tid)
    requires opens ==> s.positions[s.trades[tid].position].state == PendingEntry
    requires StatesAfterFill(s, after, tid, opens)
    ensures OpenIsFilled(after)
  {
    if opens {
      OpenedByEntry(s, after, tid);
    }
    EntriesThroughFill(s, after, tid);
    TargetedEntriesCarryOver(s, after);
  }

  ghost predicate StatesAfterFill(s: Tables, after: Tables, tid: TradeId, opens: bool)
    requires tid in s.trades && SameRows(s, after)
  {
    forall p :: p in s.positions ==>
      after.positions[p].state == if p == s.trades[tid].position && opens then OpenFull else s.positions[p].state
  }

  /** A filled trade of a pending position is its entry. */
  lemma OpenedByEntry(s: Tables, after: Tables, tid: TradeId)
    requires ClosesFollowEntry(s) && TradesPoint(s.trades, s.positions) && FillShape(s, after, tid)
    requires tid in s.trades && s.trades[tid].status == AtBroker(Filled)
    requires s.positions[s.trades[tid].position].state == PendingEntry
    ensures TargetedEntry(after, tid, s.trades[tid].position)
  {
    assert s.trades[tid].opening;
    assert SameIdentity(s.trades[tid], after.trades[tid]);
  }

  lemma EntriesThroughFill(s: Tables, after: Tables, tid: TradeId)
    requires FillShape(s, after, tid)
    ensures forall p, t :: p in after.positions && TargetedEntry(s, t, p) ==> TargetedEntry(after, t, p)
  {
    forall p, t | p in after.positions && TargetedEntry(s, t, p)
      ensures TargetedEntry(after, t, p)
    {
      assert SameIdentity(s.trades[t], after.trades[t]);
    }
  }

  lemma ClosesThroughFill(s: Tables, after: Tables, tid: TradeId, opens: bool)
    requires ClosesFollowEntry(s) && FillShape(s, after, tid)
    requires tid in s.trades && StatesAfterFill(s, after, tid, opens)
    ensures ClosesFollowEntry(after)
  {
    forall t | t in after.trades && !after.trades[t].opening && after.trades[t].position in after.positions
      ensures after.positions[after.trades[t].position].state in OPENED
    {
      assert SameIdentity(s.trades[t], after.trades[t]);
    }
  }

  lemma HandleFillKeepsInv(s: Tables, tid: TradeId, w: PollWorld)
    requires Inv(s) && tid in s.trades && s.trades[tid].status == AtBroker(Filled) && tid !in s.batches
    requires PollEnabled(s, w)
    ensures Inv(HandleFill(s, tid, w))
  {
    if SubmitsBatch(s, s.trades[tid], w) {
      var after := HandleFill(s, tid, w);
      HandleFillShape(s, tid, w);
      SameRowsKeepRows(s, after);
      SameRowsKeepIds(s, after);
      FillKeepsTradeFacts(s, after, tid);
      FillKeepsOpen(s, after, tid, OpensPosition(s, tid, w));
      ClosesThroughFill(s, after, tid, OpensPosition(s, tid, w));
    }
  }

  /** What a poll can come to, s1 being the tables with the observed status written. */
  ghost predicate PollOutcome(s: Tables, tid: TradeId, w: PollWorld, after: Tables)
    requires PollEnabled(s, w)
  {
    && tid in s.trades && Polled(s.trades[tid].status)
    && var s1 := s.(trades := s.trades[tid := Updated(s, s.trades[tid], w)]);
       var seen := Seen(s, s.trades[tid], w);
       || after == s1
       || (seen == AtBroker(Filled) && after == HandleFill(s1, tid, w))
       || (seen == AtBroker(Expired) && s.trades[tid].opening
           && s.trades[tid].position in s.positions && s.positions[s.trades[tid].position].state == PendingEntry
           && after == DeletePosition(s1, s.trades[tid].position))
  }

  lemma PollCases(s: Tables, tid: TradeId, w: PollWorld)
    requires PollEnabled(s, w)
    ensures Poll(s, tid, w) == s || PollOutcome(s, tid, w, Poll(s, tid, w))
  {
  }

  lemma OutcomeKeepsInv(s: Tables, tid: TradeId, w: PollWorld, after: Tables)
    requires Inv(s) && PollEnabled(s, w) && PollOutcome(s, tid, w, after)
    ensures Inv(after)
  {
    var s1 := s.(trades := s.trades[tid := Updated(s, s.trades[tid], w)]);
    UpdateKeepsInv(s, tid, w);
    if after == s1 {
    } else if Seen(s, s.trades[tid], w) == AtBroker(Filled) {
      HandleFillKeepsInv(s1, tid, w);
    } else {
      DeleteKeepsInv(s1, tid);
    }
  }

  lemma PollKeepsInv(s: Tables, tid: TradeId, w: PollWorld)
    requires Inv(s) && PollEnabled(s, w)
    ensures Inv(Poll(s, tid, w))
  {
    PollCases(s, tid, w);
    if Poll(s, tid, w) != s {
      OutcomeKeepsInv(s, tid, w, Poll(s, tid, w));
    }
  }

  /** Only open positions are closed, as every caller but the single-position command sees to. */
  ghost predicate ClosesOpened(s: Tables, e: Event) {
    e.CloseRequest? && e.closed in s.positions ==> s.positions[e.closed].state in OPENED
  }

  ghost predicate AllClosesOpened(s: Tables, events: seq<Event>)
    requires CanRun(s, events)
    decreases |events|
  {
    events == [] || (ClosesOpened(s, events[0]) && AllClosesOpened(Step(s, events[0]), events[1..]))
  }

  lemma StepKeepsInv(s: Tables, e: Event)
    requires Inv(s) && Enabled(s, e) && ClosesOpened(s, e)
    ensures Inv(Step(s, e))
  {
    match e
    case ExecuteRequest(sid, w) => ExecuteKeepsInv(s, sid, w);
    case RejectRequest(sid, reason, saves) => RejectKeepsInv(s, sid, reason, saves);
    case PollTrade(tid, w) => PollKeepsInv(s, tid, w);
    case BrokerChange(id, to) => BrokerMoveKeepsInv(s, id, to);
    case CloseRequest(pid, w) => CloseKeepsInvIff(s, pid, w);
  }

  lemma {:induction false} RunKeepsInv(s: Tables, events: seq<Event>)
    requires Inv(s) && CanRun(s, events) && AllClosesOpened(s, events)
    ensures Inv(RunAll(s, events))
    decreases |events|
  {
    if events != [] {
      StepKeepsInv(s, events[0]);
      RunKeepsInv(Step(s, events[0]), events[1..]);
    }
  }

  // ---------------------------------------------------------------- safety over whole runs

  function InitialTables(suggestions: map<SuggestionId, Suggestion>): Tables {
    Tables(suggestions, map[], map[], map[], [])
  }

  /**
    Starting from any set of suggestions without positions, in every reachable state a
    position that is open or closing has a filled opening trade whose broker order is
    filled too and for which targets were submitted, and no trade has had a second
    batch of profit targets submitted for its fill.
   */
  lemma OpenPositionsAreFilled(suggestions: map<SuggestionId, Suggestion>, events: seq<Event>)
    requires forall k :: k in suggestions ==> suggestions[k].position == None
    requires CanRun(InitialTables(suggestions), events) && AllClosesOpened(InitialTables(suggestions), events)
    ensures var s := RunAll(InitialTables(suggestions), events);
            && (forall p :: p in s.positions && s.positions[p].state in OPENED ==>
                 exists t :: TargetedEntry(s, t, p) && s.trades[t].ref.Ref?
                             && s.trades[t].ref.id in s.orders && s.orders[s.trades[t].ref.id] == Filled)
            && (forall i, j :: 0 <= i < j < |s.batches| ==> s.batches[i] != s.batches[j])
            && (forall t :: t in s.batches ==> t in s.trades && s.trades[t].status == AtBroker(Filled))
  {
    RunKeepsInv(InitialTables(suggestions), events);
    var s := RunAll(InitialTables(suggestions), events);
    forall p | p in s.positions && s.positions[p].state in OPENED
      ensures exists t :: TargetedEntry(s, t, p) && s.trades[t].ref.Ref?
                          && s.trades[t].ref.id in s.orders && s.orders[s.trades[t].ref.id] == Filled
    {
      var t :| TargetedEntry(s, t, p);
    }
  }

  // ---------------------------------------------------------------- batches per position

  /** This poll submits a batch of targets: it sees the fill, saves it, and the position's flag is false. */
  ghost predicate AddsBatch(s: Tables, tid: TradeId, w: PollWorld) {
    && tid in s.trades && Polled(s.trades[tid].status) && s.trades[tid].ref != TestMode
    && w.accountMatches && w.tradeSaves && Seen(s, s.trades[tid], w) == AtBroker(Filled)
    && SubmitsBatch(s, s.trades[tid], w)
  }

  /** The batch is for the fill of a closing trade. */
  ghost predicate Resubmits(s: Tables, e: Event) {
    e.PollTrade? && AddsBatch(s, e.tid, e.poll) && !s.trades[e.tid].opening
  }

  lemma PollBatchesIff(s: Tables, tid: TradeId, w: PollWorld)
    requires PollEnabled(s, w)
    ensures Poll(s, tid, w).batches == if AddsBatch(s, tid, w) then s.batches + [tid] else s.batches
  {
    if tid in s.trades && Polled(s.trades[tid].status) {
      var s1 := s.(trades := s.trades[tid := Updated(s, s.trades[tid], w)]);
      UpdateKeepsEntries(s, tid, w);
      assert SubmitsBatch(s1, s1.trades[tid], w) <==> SubmitsBatch(s, s.trades[tid], w);
    }
  }

  /** An update moves no opening trade. */
  lemma UpdateKeepsEntries(s: Tables, tid: TradeId, w: PollWorld)
    requires tid in s.trades
    ensures var after := s.trades[tid := Updated(s, s.trades[tid], w)];
            forall p, t :: IsEntry(after, p, t) <==> IsEntry(s.trades, p, t)
    ensures forall p :: HasEntry(s.trades[tid := Updated(s, s.trades[tid], w)], p) <==> HasEntry(s.trades, p)
  {
    var after := s.trades[tid := Updated(s, s.trades[tid], w)];
    forall p
      ensures HasEntry(after, p) <==> HasEntry(s.trades, p)
    {
      if HasEntry(s.trades, p) {
        var t :| IsEntry(s.trades, p, t);
        assert IsEntry(after, p, t);
      }
      if HasEntry(after, p) {
        var t :| IsEntry(after, p, t);
        assert IsEntry(s.trades, p, t);
      }
    }
  }

  ghost predicate OneBatchPerPosition(s: Tables)
    requires BatchesOnce(s)
  {
    forall i, j :: 0 <= i < j < |s.batches| ==>
      s.trades[s.batches[i]].position != s.trades[s.batches[j]].position
  }

  ghost predicate OnlyEntriesBatched(s: Tables) {
    forall t :: t in s.batches ==> t in s.trades && s.trades[t].opening
  }

  /** A position has a second batch exactly when a closing trade led to one: its entry did before. */
  lemma OneBatchIffOnlyEntries(s: Tables)
    requires OneOpeningEach(s.trades) && TradesPoint(s.trades, s.positions)
    requires OpenIsFilled(s) && ClosesFollowEntry(s) && BatchesOnce(s)
    ensures OneBatchPerPosition(s) <==> OnlyEntriesBatched(s)
  {
    if OnlyEntriesBatched(s) {
      forall i, j | 0 <= i < j < |s.batches|
        ensures s.trades[s.batches[i]].position != s.trades[s.batches[j]].position
      {
        EntryIsUnique(s, s.batches[i], s.batches[j]);
      }
    } else {
      var t :| t in s.batches && !s.trades[t].opening;
      var e :| TargetedEntry(s, e, s.trades[t].position);
      var i :| 0 <= i < |s.batches| && s.batches[i] == t;
      var j :| 0 <= j < |s.batches| && s.batches[j] == e;
      assert i != j;
    }
  }

  /** A poll adds no rows, keeps every trade's identity and clears no flag. */
  lemma PollKeepsKinds(s: Tables, tid: TradeId, w: PollWorld)
    requires PollEnabled(s, w)
    ensures SameKinds(s, Poll(s, tid, w))
  {
    PollCases(s, tid, w);
    if Poll(s, tid, w) != s {
      OutcomeKeepsKinds(s, tid, w, Poll(s, tid, w));
    }
  }

  ghost predicate SameKinds(s: Tables, after: Tables) {
    && (forall t :: t in after.trades ==> t in s.trades && SameIdentity(s.trades[t], after.trades[t]))
    && (forall p :: p in after.positions ==>
         p in s.positions && (s.positions[p].created ==> after.positions[p].created))
  }

  lemma OutcomeKeepsKinds(s: Tables, tid: TradeId, w: PollWorld, after: Tables)
    requires PollEnabled(s, w) && PollOutcome(s, tid, w, after)
    ensures SameKinds(s, after)
  {
    var s1 := s.(trades := s.trades[tid := Updated(s, s.trades[tid], w)]);
    if after != s1 && Seen(s, s.trades[tid], w) == AtBroker(Filled) {
      FillKeepsKinds(s1, tid, w);
    }
  }

  lemma FillKeepsKinds(s: Tables, tid: TradeId, w: PollWorld)
    requires tid in s.trades && PollEnabled(s, w)
    ensures SameKinds(s, HandleFill(s, tid, w))
  {
  }

  /** A trade that led to a batch stays, and stays of its kind. */
  lemma PollKeepsBatchMembers(s: Tables, tid: TradeId, w: PollWorld, t: TradeId)
    requires Inv(s) && PollEnabled(s, w) && t in s.batches
    ensures t in Poll(s, tid, w).trades && SameIdentity(s.trades[t], Poll(s, tid, w).trades[t])
  {
    PollKeepsKinds(s, tid, w);
    if tid in s.trades && Polled(s.trades[tid].status) && s.trades[tid].opening
       && s.positions[s.trades[tid].position].state == PendingEntry {
      DeleteSparesBatches(s, tid, t);
    }
    PollDropsOnly(s, tid, w, t);
  }

  /** A poll drops a trade only with the pending position whose opening trade it polls. */
  lemma PollDropsOnly(s: Tables, tid: TradeId, w: PollWorld, t: TradeId)
    requires TradesPoint(s.trades, s.positions) && PollEnabled(s, w) && t in s.trades
    ensures t in Poll(s, tid, w).trades
            || (tid in s.trades && Polled(s.trades[tid].status) && s.trades[tid].opening
                && s.positions[s.trades[tid].position].state == PendingEntry
                && s.trades[t].position == s.trades[tid].position)
  {
  }

  lemma OtherStepsKeepBatches(s: Tables, e: Event, t: TradeId)
    requires Enabled(s, e) && !e.PollTrade? && t in s.trades
    ensures Step(s, e).batches == s.batches && t in Step(s, e).trades && Step(s, e).trades[t] == s.trades[t]
  {
  }

  ghost predicate MembersStay(s: Tables, after: Tables) {
    forall t :: t in s.batches ==> t in s.trades && t in after.trades && after.trades[t].opening == s.trades[t].opening
  }

  lemma PollKeepsMembers(s: Tables, tid: TradeId, w: PollWorld)
    requires Inv(s) && PollEnabled(s, w)
    ensures MembersStay(s, Poll(s, tid, w))
  {
    var after := Poll(s, tid, w);
    forall t | t in s.batches
      ensures t in after.trades && after.trades[t].opening == s.trades[t].opening
    {
      PollKeepsBatchMembers(s, tid, w, t);
    }
  }

  lemma PollBatches(s: Tables, tid: TradeId, w: PollWorld)
    requires Inv(s) && PollEnabled(s, w)
    ensures OnlyEntriesBatched(Poll(s, tid, w))
            <==> OnlyEntriesBatched(s) && !(AddsBatch(s, tid, w) && !s.trades[tid].opening)
  {
    PollBatchesIff(s, tid, w);
    PollKeepsMembers(s, tid, w);
    if AddsBatch(s, tid, w) {
      PollKeepsIdentity(s, tid, w);
      BatchesAppended(s, Poll(s, tid, w), [tid]);
    } else {
      BatchesSame(s, Poll(s, tid, w));
    }
  }

  lemma BatchesSame(s: Tables, after: Tables)
    requires after.batches == s.batches && MembersStay(s, after)
    ensures OnlyEntriesBatched(after) <==> OnlyEntriesBatched(s)
  {
  }

  lemma StepBatches(s: Tables, e: Event)
    requires Inv(s) && Enabled(s, e) && ClosesOpened(s, e)
    ensures OnlyEntriesBatched(Step(s, e)) <==> OnlyEntriesBatched(s) && !Resubmits(s, e)
  {
    if e.PollTrade? {
      PollBatches(s, e.tid, e.poll);
    } else {
      forall t | t in s.trades
        ensures Step(s, e).batches == s.batches && t in Step(s, e).trades && Step(s, e).trades[t] == s.trades[t]
      {
        OtherStepsKeepBatches(s, e, t);
      }
      OtherStepsKeepBatchList(s, e);
    }
  }

  lemma OtherStepsKeepBatchList(s: Tables, e: Event)
    requires Enabled(s, e) && !e.PollTrade?
    ensures Step(s, e).batches == s.batches
  {
  }

  lemma BatchesAppended(s: Tables, after: Tables, added: seq<TradeId>)
    requires after.batches == s.batches + added && MembersStay(s, after)
    requires forall t :: t in added ==>
               t in after.trades && t in s.trades && after.trades[t].opening == s.trades[t].opening
    ensures OnlyEntriesBatched(after) <==> OnlyEntriesBatched(s) && forall t :: t in added ==> s.trades[t].opening
  {
    assert forall t :: t in after.batches <==> t in s.batches || t in added;
  }

  lemma PollKeepsIdentity(s: Tables, tid: TradeId, w: PollWorld)
    requires AddsBatch(s, tid, w) && PollEnabled(s, w)
    ensures tid in Poll(s, tid, w).trades && SameIdentity(s.trades[tid], Poll(s, tid, w).trades[tid])
  {
  }

  ghost predicate NeverResubmits(s: Tables, events: seq<Event>)
    requires CanRun(s, events)
    decreases |events|
  {
    events == [] || (!Resubmits(s, events[0]) && NeverResubmits(Step(s, events[0]), events[1..]))
  }

  lemma {:induction false} RunBatches(s: Tables, events: seq<Event>)
    requires Inv(s) && CanRun(s, events) && AllClosesOpened(s, events)
    ensures OnlyEntriesBatched(RunAll(s, events)) <==> OnlyEntriesBatched(s) && NeverResubmits(s, events)
    decreases |events|
  {
    if events != [] {
      StepKeepsInv(s, events[0]);
      StepBatches(s, events[0]);
      RunBatches(Step(s, events[0]), events[1..]);
    }
  }

  /**
    Over any run, each position has at most one batch of targets if and only if no poll
    sees a closing trade fill while its position's flag is false and targets are on offer.
   */
  lemma OneBatchPerPositionIff(suggestions: map<SuggestionId, Suggestion>, events: seq<Event>)
    requires forall k :: k in suggestions ==> suggestions[k].position == None
    requires CanRun(InitialTables(suggestions), events) && AllClosesOpened(InitialTables(suggestions), events)
    ensures BatchesOnce(RunAll(InitialTables(suggestions), events))
    ensures OneBatchPerPosition(RunAll(InitialTables(suggestions), events))
            <==> NeverResubmits(InitialTables(suggestions), events)
  {
    RunKeepsInv(InitialTables(suggestions), events);
    RunBatches(InitialTables(suggestions), events);
    OneBatchIffOnlyEntries(RunAll(InitialTables(suggestions), events));
  }

  /** The failing family: any such fill submits a second batch for its position. */
  lemma ClosingFillResubmits(s: Tables, tid: TradeId, w: PollWorld)
    requires Inv(s) && PollEnabled(s, w)
    requires tid in s.trades && !s.trades[tid].opening && AddsBatch(s, tid, w)
    ensures BatchesOnce(Poll(s, tid, w)) && !OneBatchPerPosition(Poll(s, tid, w))
  {
    PollKeepsInv(s, tid, w);
    StepBatches(s, PollTrade(tid, w));
    OneBatchIffOnlyEntries(Poll(s, tid, w));
  }

  // ---------------------------------------------------------------- a run with a second batch

  lemma RunOne(s: Tables, e: Event, rest: seq<Event>)
    requires Enabled(s, e)
    ensures CanRun(s, [e] + rest) <==> CanRun(Step(s, e), rest)
    ensures CanRun(Step(s, e), rest) ==>
              && RunAll(s, [e] + rest) == RunAll(Step(s, e), rest)
              && (AllClosesOpened(s, [e] + rest) <==> ClosesOpened(s, e) && AllClosesOpened(Step(s, e), rest))
  {
    assert ([e] + rest)[1..] == rest;
  }

  /** An open position some of whose targets are missing. */
  predicate OpenUnfinished(s: Tables, pid: PositionId) {
    && pid in s.positions && s.positions[pid].state in OPENED
    && !s.positions[pid].created && s.positions[pid].strategy.Some?
  }

  /** Targets are on offer, and what the broker accepts is new. */
  predicate Offers(s: Tables, w: PollWorld, id: OrderId) {
    && w.accountMatches && w.lookupWorks && w.tradeSaves && w.strategyKnown && w.specs != []
    && |w.replies.orders| == |w.specs|
    && forall a :: a in P.Accepted(w.replies.orders) ==> a !in s.orders && a != id
  }

  function SecondBatchEvents(pid: PositionId, w: CloseWorld, poll: PollWorld): seq<Event>
    requires w.order.Some?
  {
    [CloseRequest(pid, w)] + ([BrokerChange(w.order.value, Filled)] + ([PollTrade(w.newTrade, poll)] + []))
  }

  /**
    From every state with such a position, a close, the fill of its order at the broker
    and one poll submit a second batch for the position.
   */
  lemma SecondBatchFollows(s: Tables, pid: PositionId, w: CloseWorld, poll: PollWorld)
    requires Inv(s) && OpenUnfinished(s, pid)
    requires CloseEnabled(s, w) && CloseMoves(s, pid, w) && Offers(s, poll, w.order.value)
    ensures CanRun(s, SecondBatchEvents(pid, w, poll)) && AllClosesOpened(s, SecondBatchEvents(pid, w, poll))
    ensures BatchesOnce(RunAll(s, SecondBatchEvents(pid, w, poll)))
    ensures !OneBatchPerPosition(RunAll(s, SecondBatchEvents(pid, w, poll)))
  {
    var id := w.order.value;
    var s1 := CloseAtDte(s, pid, w);
    var s2 := BrokerMove(s1, id, Filled);
    CloseKeepsInvIff(s, pid, w);
    BrokerMoveKeepsInv(s1, id, Filled);
    ClosingOrderFilled(s, pid, w, poll);
    ClosingFillResubmits(s2, w.newTrade, poll);
    var last, middle := PollTrade(w.newTrade, poll), BrokerChange(id, Filled);
    RunOne(s2, last, []);
    RunOne(s1, middle, [last] + []);
    RunOne(s, CloseRequest(pid, w), [middle] + ([last] + []));
  }

  lemma ClosingOrderFilled(s: Tables, pid: PositionId, w: CloseWorld, poll: PollWorld)
    requires EntriesExist(s.positions, s.trades) && OpenUnfinished(s, pid)
    requires CloseEnabled(s, w) && CloseMoves(s, pid, w) && Offers(s, poll, w.order.value)
    ensures var s2 := BrokerMove(CloseAtDte(s, pid, w), w.order.value, Filled);
            && PollEnabled(s2, poll) && w.newTrade in s2.trades && !s2.trades[w.newTrade].opening
            && AddsBatch(s2, w.newTrade, poll)
  {
    var s2 := BrokerMove(CloseAtDte(s, pid, w), w.order.value, Filled);
    var t :| IsEntry(s.trades, pid, t);
    assert IsEntry(s2.trades, pid, t);
  }

  const TRIDENT := Suggestion(AwaitingReview, "senex_trident", None, "")

  const WORKING_EXEC := ExecWorld(
    true, true, true, true, true, true, false, true, true, true, true, true, false, true, 1,
    Placed(10, true), true, true, true, true, true, true, 1, 1)

  const WORKING_CLOSE := CloseWorld(2, 2, true, Some(20), true, true)

  const TWO_SPECS := [P.Spec("put_spread_1", 40, 1.0), P.Spec("put_spread_2", 60, 1.0)]

  /** Everything works but the broker's answer to the second target. */
  function PollAccepting(id: OrderId): PollWorld {
    PollWorld(true, true, None, None, true, true, TWO_SPECS, P.Replies([Some(id), None], true, true), true, true)
  }

  lemma OneAccepted(id: OrderId)
    ensures P.Accepted([Some(id), None]) == [id]
  {
    var two: seq<Option<OrderId>> := [Some(id), None];
    assert two[..1] == [Some(id)] && two[..1][..0] == [];
    assert P.Accepted(two[..1]) == [] + [id];
    assert P.Accepted(two) == P.Accepted(two[..1]);
  }

  function EntryTables(orders: map<OrderId, BrokerStatus>): Tables {
    Tables(map[1 := Suggestion(Executed, "senex_trident", Some(1), "")],
           map[1 := Position(PendingEntry, Some("senex_trident"), Some(10), map[], false)],
           map[1 := Trade(1, Ref(10), true, false, Submitted, None, None, [])],
           orders, [])
  }

  lemma TridentExecuted()
    ensures ExecEnabled(InitialTables(map[1 := TRIDENT]), WORKING_EXEC)
    ensures Execute(InitialTables(map[1 := TRIDENT]), 1, WORKING_EXEC) == EntryTables(map[10 := Received])
    ensures BrokerMove(EntryTables(map[10 := Received]), 10, Filled) == EntryTables(map[10 := Filled])
  {
  }

  /** The entry's fill is stored and not yet handled. */
  function FilledTables(): Tables {
    var s := EntryTables(map[10 := Filled]);
    s.(trades := map[1 := s.trades[1].(status := AtBroker(Filled))])
  }

  lemma TridentPolled()
    ensures PollEnabled(EntryTables(map[10 := Filled]), PollAccepting(11))
    ensures Poll(EntryTables(map[10 := Filled]), 1, PollAccepting(11))
         == HandleFill(FilledTables(), 1, PollAccepting(11))
  {
    OneAccepted(11);
    var s := EntryTables(map[10 := Filled]);
    assert s.trades[1 := Updated(s, s.trades[1], PollAccepting(11))] == FilledTables().trades;
  }

  /** One target is accepted and the other refused: the position opens and its flag stays false. */
  lemma TridentHandled()
    ensures var s := HandleFill(FilledTables(), 1, PollAccepting(11));
            && OpenUnfinished(s, 1) && s.trades.Keys == {1} && s.trades[1].ref == Ref(10) && s.orders.Keys == {10, 11}
  {
    OneAccepted(11);
    assert IsEntry(FilledTables().trades, 1, 1);
    assert EntryOf(FilledTables().trades, 1) == 1;
    OneTargetOfThree(11);
  }

  lemma TridentOpens()
    ensures PollEnabled(EntryTables(map[10 := Filled]), PollAccepting(11))
    ensures var s := Poll(EntryTables(map[10 := Filled]), 1, PollAccepting(11));
            && OpenUnfinished(s, 1) && s.trades.Keys == {1} && s.trades[1].ref == Ref(10) && s.orders.Keys == {10, 11}
  {
    TridentPolled();
    TridentHandled();
  }

  lemma OneTargetOfThree(id: OrderId)
    ensures var book := P.Recorded(P.EMPTY_BOOK, P.ExpectedCount("senex_trident"), TWO_SPECS,
                                   P.Replies([Some(id), None], true, true), false);
            !book.created
  {
    OneAccepted(id);
    assert TWO_SPECS[0].spreadType != TWO_SPECS[1].spreadType;
    P.DistinctTargetsCount(TWO_SPECS, [Some(id), None]);
  }

  function AfterFill(): Tables {
    EntryTables(map[10 := Filled])
  }

  lemma AfterFillKeepsInv()
    ensures Inv(AfterFill())
  {
    ExecuteKeepsInv(InitialTables(map[1 := TRIDENT]), 1, WORKING_EXEC);
    TridentExecuted();
    BrokerMoveKeepsInv(EntryTables(map[10 := Received]), 10, Filled);
  }

  lemma TridentCanBeClosed()
    ensures PollEnabled(AfterFill(), PollAccepting(11))
    ensures var s := Poll(AfterFill(), 1, PollAccepting(11));
            && Inv(s) && OpenUnfinished(s, 1) && CloseEnabled(s, WORKING_CLOSE) && CloseMoves(s, 1, WORKING_CLOSE)
            && Offers(s, PollAccepting(21), 20)
  {
    AfterFillKeepsInv();
    TridentOpens();
    PollKeepsInv(AfterFill(), 1, PollAccepting(11));
    ReadyToClose(Poll(AfterFill(), 1, PollAccepting(11)));
  }

  lemma ReadyToClose(s: Tables)
    requires 1 in s.positions && s.trades.Keys == {1} && s.trades[1].ref == Ref(10) && s.orders.Keys == {10, 11}
    ensures CloseEnabled(s, WORKING_CLOSE) && CloseMoves(s, 1, WORKING_CLOSE) && Offers(s, PollAccepting(21), 20)
  {
    OneAccepted(21);
  }

  /** Six events from one fresh suggestion. */
  function SecondBatchRun(): seq<Event> {
    [ExecuteRequest(1, WORKING_EXEC)] + ([BrokerChange(10, Filled)]
    + ([PollTrade(1, PollAccepting(11))] + SecondBatchEvents(1, WORKING_CLOSE, PollAccepting(21))))
  }

  lemma SecondBatchAfterPoll()
    ensures var events := [PollTrade(1, PollAccepting(11))] + SecondBatchEvents(1, WORKING_CLOSE, PollAccepting(21));
            && CanRun(AfterFill(), events) && AllClosesOpened(AfterFill(), events)
            && BatchesOnce(RunAll(AfterFill(), events)) && !OneBatchPerPosition(RunAll(AfterFill(), events))
  {
    TridentCanBeClosed();
    SecondBatchFollows(Poll(AfterFill(), 1, PollAccepting(11)), 1, WORKING_CLOSE, PollAccepting(21));
    RunOne(AfterFill(), PollTrade(1, PollAccepting(11)), SecondBatchEvents(1, WORKING_CLOSE, PollAccepting(21)));
  }

  /** So a run from one fresh suggestion reaches a second batch for one position. */
  lemma SecondBatchIsReachable()
    ensures var s := InitialTables(map[1 := TRIDENT]);
            && CanRun(s, SecondBatchRun()) && AllClosesOpened(s, SecondBatchRun())
            && !NeverResubmits(s, SecondBatchRun())
  {
    var rest := [PollTrade(1, PollAccepting(11))] + SecondBatchEvents(1, WORKING_CLOSE, PollAccepting(21));
    TridentExecuted();
    SecondBatchAfterPoll();
    RunOne(EntryTables(map[10 := Received]), BrokerChange(10, Filled), rest);
    RunOne(InitialTables(map[1 := TRIDENT]), ExecuteRequest(1, WORKING_EXEC), [BrokerChange(10, Filled)] + rest);
    OneBatchPerPositionIff(map[1 := TRIDENT], SecondBatchRun());
  }

  // ---------------------------------------------------------------- closing only targeted positions

  /** As the hourly task does, and the repair command does not: only positions with all targets are closed. */
  ghost predicate ClosesTargeted(s: Tables, e: Event) {
    e.CloseRequest? && e.closed in s.positions ==> s.positions[e.closed].created
  }

  ghost predicate AllClosesTargeted(s: Tables, events: seq<Event>)
    requires CanRun(s, events)
    decreases |events|
  {
    events == [] || (ClosesTargeted(s, events[0]) && AllClosesTargeted(Step(s, events[0]), events[1..]))
  }

  ghost predicate ClosedAreTargeted(s: Tables) {
    forall t :: t in s.trades && !s.trades[t].opening && s.trades[t].position in s.positions ==>
      s.positions[s.trades[t].position].created
  }

  lemma PollKeepsClosedTargeted(s: Tables, tid: TradeId, w: PollWorld)
    requires TradesPoint(s.trades, s.positions) && ClosedAreTargeted(s) && PollEnabled(s, w)
    ensures ClosedAreTargeted(Poll(s, tid, w))
  {
    var after := Poll(s, tid, w);
    PollKeepsKinds(s, tid, w);
    forall t | t in after.trades && !after.trades[t].opening && after.trades[t].position in after.positions
      ensures after.positions[after.trades[t].position].created
    {
      assert SameIdentity(s.trades[t], after.trades[t]);
    }
  }

  lemma ExecuteKeepsClosedTargeted(s: Tables, sid: SuggestionId, w: ExecWorld)
    requires TradesPoint(s.trades, s.positions) && ClosedAreTargeted(s) && ExecEnabled(s, w)
    ensures ClosedAreTargeted(Execute(s, sid, w))
  {
  }

  lemma CloseKeepsClosedTargeted(s: Tables, pid: PositionId, w: CloseWorld)
    requires ClosedAreTargeted(s) && CloseEnabled(s, w) && (pid in s.positions ==> s.positions[pid].created)
    ensures ClosedAreTargeted(CloseAtDte(s, pid, w))
  {
    CloseHasShape(s, pid, w);
  }

  lemma StepKeepsClosedTargeted(s: Tables, e: Event)
    requires TradesPoint(s.trades, s.positions) && ClosedAreTargeted(s) && Enabled(s, e) && ClosesTargeted(s, e)
    ensures ClosedAreTargeted(Step(s, e)) && !Resubmits(s, e)
  {
    match e
    case PollTrade(tid, w) => PollKeepsClosedTargeted(s, tid, w);
    case ExecuteRequest(sid, w) => ExecuteKeepsClosedTargeted(s, sid, w);
    case CloseRequest(pid, w) => CloseKeepsClosedTargeted(s, pid, w);
    case RejectRequest(_, _, _) =>
    case BrokerChange(_, _) =>
  }

  lemma {:induction false} TargetedClosesNeverResubmit(s: Tables, events: seq<Event>)
    requires Inv(s) && ClosedAreTargeted(s)
    requires CanRun(s, events) && AllClosesOpened(s, events) && AllClosesTargeted(s, events)
    ensures NeverResubmits(s, events)
    decreases |events|
  {
    if events != [] {
      StepKeepsInv(s, events[0]);
      StepKeepsClosedTargeted(s, events[0]);
      TargetedClosesNeverResubmit(Step(s, events[0]), events[1..]);
    }
  }

  /** So while only positions with all their targets are closed, each has at most one batch. */
  lemma TargetedClosesKeepOneBatch(suggestions: map<SuggestionId, Suggestion>, events: seq<Event>)
    requires forall k :: k in suggestions ==> suggestions[k].position == None
    requires CanRun(InitialTables(suggestions), events) && AllClosesOpened(InitialTables(suggestions), events)
    requires AllClosesTargeted(InitialTables(suggestions), events)
    ensures BatchesOnce(RunAll(InitialTables(suggestions), events))
    ensures OneBatchPerPosition(RunAll(InitialTables(suggestions), events))
  {
    TargetedClosesNeverResubmit(InitialTables(suggestions), events);
    OneBatchPerPositionIff(suggestions, events);
  }

  // ---------------------------------------------------------------- what later runs leave alone

  /** The row of an opening trade, and its position, apart from targets recorded later and a closing. */
  ghost predicate SameEntry(s: Tables, after: Tables, tid: TradeId)
    requires tid in s.trades && s.trades[tid].position in s.positions
  {
    var pid := s.trades[tid].position;
    && tid in after.trades && after.trades[tid] == s.trades[tid].(children := after.trades[tid].children)
    && pid in after.positions
    && after.positions[pid].openingOrder == s.positions[pid].openingOrder
    && after.positions[pid].strategy == s.positions[pid].strategy
    && (after.positions[pid].state == s.positions[pid].state
        || (s.positions[pid].state in OPENED && after.positions[pid].state == Closing))
  }

  /** Nothing at all has changed in the two rows. */
  ghost predicate UntouchedEntry(s: Tables, after: Tables, tid: TradeId)
    requires tid in s.trades && s.trades[tid].position in s.positions
  {
    && tid in after.trades && after.trades[tid] == s.trades[tid]
    && s.trades[tid].position in after.positions
    && after.positions[s.trades[tid].position] == s.positions[s.trades[tid].position]
  }

  ghost predicate Opened(s: Tables, tid: TradeId)
    requires tid in s.trades && s.trades[tid].position in s.positions
  {
    s.positions[s.trades[tid].position].state in OPENED
  }

  ghost predicate LinksFollow(s: Tables) {
    OneOpeningEach(s.trades) && TradesPoint(s.trades, s.positions) && ClosesFollowEntry(s)
  }

  /** The fill of another trade. */
  lemma FillLeavesOpening(s: Tables, filled: TradeId, w: PollWorld, tid: TradeId)
    requires LinksFollow(s) && PollEnabled(s, w)
    requires filled in s.trades && tid in s.trades && s.trades[tid].opening && filled != tid
    ensures SameEntry(s, HandleFill(s, filled, w), tid)
    ensures !Opened(s, tid) ==> UntouchedEntry(s, HandleFill(s, filled, w), tid)
  {
    if s.trades[filled].opening {
      EntryIsUnique(s, filled, tid);
    }
    if SubmitsBatch(s, s.trades[filled], w) {
      EntryIsUnique(s, EntryOf(s.trades, s.trades[filled].position), tid);
    }
  }

  lemma UpdateLeavesOpening(s: Tables, polled: TradeId, row: Trade, tid: TradeId)
    requires LinksFollow(s)
    requires polled in s.trades && SameIdentity(s.trades[polled], row) && tid in s.trades && polled != tid
    ensures var s1 := s.(trades := s.trades[polled := row]);
            LinksFollow(s1) && UntouchedEntry(s, s1, tid)
  {
    var s1 := s.(trades := s.trades[polled := row]);
    assert forall t, u :: t in s.trades && u in s.trades ==>
      (BothOpen(s1.trades[t], s1.trades[u]) <==> BothOpen(s.trades[t], s.trades[u]));
  }

  lemma OutcomeLeavesOpening(s: Tables, polled: TradeId, w: PollWorld, tid: TradeId, after: Tables)
    requires LinksFollow(s) && PollEnabled(s, w) && PollOutcome(s, polled, w, after)
    requires tid in s.trades && s.trades[tid].opening && polled != tid
    ensures SameEntry(s, after, tid) && (!Opened(s, tid) ==> UntouchedEntry(s, after, tid))
  {
    var row := Updated(s, s.trades[polled], w);
    var s1 := s.(trades := s.trades[polled := row]);
    UpdateLeavesOpening(s, polled, row, tid);
    if after == s1 {
    } else if after == HandleFill(s1, polled, w) {
      FillLeavesOpening(s1, polled, w, tid);
      EntryThrough(s, s1, after, tid);
    } else {
      EntryIsUnique(s, polled, tid);
      DeleteLeavesOpening(s1, s.trades[polled].position, tid);
      EntryThrough(s, s1, after, tid);
    }
  }

  lemma DeleteLeavesOpening(s: Tables, pid: PositionId, tid: TradeId)
    requires tid in s.trades && s.trades[tid].position in s.positions && s.trades[tid].position != pid
    ensures UntouchedEntry(s, DeletePosition(s, pid), tid)
  {
  }

  lemma EntryThrough(s: Tables, s1: Tables, after: Tables, tid: TradeId)
    requires tid in s.trades && s.trades[tid].position in s.positions && UntouchedEntry(s, s1, tid)
    ensures SameEntry(s1, after, tid) ==> SameEntry(s, after, tid)
    ensures UntouchedEntry(s1, after, tid) ==> UntouchedEntry(s, after, tid) && SameEntry(s, after, tid)
    ensures Opened(s, tid) <==> Opened(s1, tid)
  {
  }

  lemma PollLeavesUnpolledOpening(s: Tables, polled: TradeId, w: PollWorld, tid: TradeId)
    requires LinksFollow(s) && PollEnabled(s, w)
    requires tid in s.trades && s.trades[tid].opening && !Polled(s.trades[tid].status)
    ensures SameEntry(s, Poll(s, polled, w), tid)
    ensures !Opened(s, tid) ==> UntouchedEntry(s, Poll(s, polled, w), tid)
  {
    PollCases(s, polled, w);
    if Poll(s, polled, w) != s {
      OutcomeLeavesOpening(s, polled, w, tid, Poll(s, polled, w));
    }
  }

  lemma CloseLeavesOpening(s: Tables, pid: PositionId, w: CloseWorld, tid: TradeId)
    requires TradesPoint(s.trades, s.positions) && CloseEnabled(s, w) && tid in s.trades
    requires pid in s.positions ==> s.positions[pid].state in OPENED
    ensures SameEntry(s, CloseAtDte(s, pid, w), tid)
    ensures !Opened(s, tid) ==> UntouchedEntry(s, CloseAtDte(s, pid, w), tid)
  {
  }

  lemma ExecuteLeavesOpening(s: Tables, sid: SuggestionId, w: ExecWorld, tid: TradeId)
    requires TradesPoint(s.trades, s.positions) && ExecEnabled(s, w) && tid in s.trades
    ensures SameEntry(s, Execute(s, sid, w), tid) && UntouchedEntry(s, Execute(s, sid, w), tid)
  {
  }

  lemma StepLeavesUnpolledOpening(s: Tables, e: Event, tid: TradeId)
    requires Inv(s) && Enabled(s, e) && ClosesOpened(s, e)
    requires tid in s.trades && s.trades[tid].opening && !Polled(s.trades[tid].status)
    ensures SameEntry(s, Step(s, e), tid)
    ensures !Opened(s, tid) ==> UntouchedEntry(s, Step(s, e), tid)
  {
    match e
    case PollTrade(polled, w) => PollLeavesUnpolledOpening(s, polled, w, tid);
    case CloseRequest(pid, w) => CloseLeavesOpening(s, pid, w, tid);
    case ExecuteRequest(sid, w) => ExecuteLeavesOpening(s, sid, w, tid);
    case RejectRequest(_, _, _) =>
    case BrokerChange(_, _) =>
  }

  /**
    Once an opening trade leaves the polled statuses, no run deletes its row or its
    position or changes more of them than the targets and a closing of an open position;
    if the position is not open, no run changes anything.  So a position whose opening
    trade filled is never deleted, and one whose trade froze in another status never opens.
   */
  lemma {:induction false} UnpolledOpeningIsFrozen(s: Tables, events: seq<Event>, tid: TradeId)
    requires Inv(s) && CanRun(s, events) && AllClosesOpened(s, events)
    requires tid in s.trades && s.trades[tid].opening && !Polled(s.trades[tid].status)
    ensures SameEntry(s, RunAll(s, events), tid)
    ensures !Opened(s, tid) ==> UntouchedEntry(s, RunAll(s, events), tid)
    decreases |events|
  {
    if events != [] {
      StepLeavesUnpolledOpening(s, events[0], tid);
      StepKeepsInv(s, events[0]);
      UnpolledOpeningIsFrozen(Step(s, events[0]), events[1..], tid);
    }
  }

  lemma FilledEntryIsNeverDeleted(s: Tables, events: seq<Event>, tid: TradeId)
    requires Inv(s) && CanRun(s, events) && AllClosesOpened(s, events)
    requires tid in s.trades && FilledEntry(s, tid, s.trades[tid].position)
    ensures var after := RunAll(s, events);
            FilledEntry(after, tid, s.trades[tid].position) && s.trades[tid].position in after.positions
  {
    UnpolledOpeningIsFrozen(s, events, tid);
  }

  /**
    The monitor polls a trade again exactly when the status it wrote is routed or live.
    A status of received, in flight, cancelled or a failed lookup ends the polling.
   */
  lemma PollEndsUnlessRoutedOrLive(s: Tables, tid: TradeId, w: PollWorld)
    requires TradesPoint(s.trades, s.positions) && PollEnabled(s, w)
    requires tid in s.trades && Polled(s.trades[tid].status) && s.trades[tid].ref != TestMode
    requires w.accountMatches && w.tradeSaves
    ensures var after := Poll(s, tid, w);
            (tid in after.trades && Polled(after.trades[tid].status))
            <==> Seen(s, s.trades[tid], w) in {AtBroker(Routed), AtBroker(Live)}
  {
    PollWritesSeen(s, tid, w);
  }

  /** The trade holds what was seen afterwards, unless its pending position has been deleted. */
  lemma PollWritesSeen(s: Tables, tid: TradeId, w: PollWorld)
    requires PollEnabled(s, w)
    requires tid in s.trades && Polled(s.trades[tid].status) && s.trades[tid].ref != TestMode
    requires w.accountMatches && w.tradeSaves
    ensures var after := Poll(s, tid, w);
            if tid in after.trades then after.trades[tid].status == Seen(s, s.trades[tid], w)
            else Seen(s, s.trades[tid], w) == AtBroker(Expired)
  {
  }

  // ---------------------------------------------------------------- what a poll writes

  /** The text in a trade's status column. */
  function StatusText(status: TradeStatus): string {
    match status
    case Pending => "pending"
    case Submitted => "submitted"
    case Working => "working"
    case LookupError => "error"
    case AtBroker(b) => BrokerText(b)
  }

  function BrokerText(b: BrokerStatus): string {
    match b
    case Received => "received"
    case Routed => "routed"
    case InFlight => "in flight"
    case Live => "live"
    case Filled => "filled"
    case Cancelled => "cancelled"
    case Refused => "rejected"
    case Expired => "expired"
    case Unlisted(word) => word
  }

  /** The monitor's query compares texts, and so does the model. */
  lemma PolledIffListed(status: TradeStatus)
    ensures Polled(status) <==> StatusText(status) in ["pending", "submitted", "routed", "live", "working"]
  {
    match status {
      case AtBroker(b) => BrokerWordsDiffer(b);
      case _ =>
    }
  }

  lemma BrokerWordsDiffer(b: BrokerStatus)
    ensures BrokerText(b) !in ["pending", "submitted", "working", "error"]
    ensures BrokerText(b) == "routed" <==> b == Routed
    ensures BrokerText(b) == "live" <==> b == Live
  {
    match b {
      case Unlisted(word) =>
        assert word !in RESERVED_WORDS;
      case Received => assert |BrokerText(b)| == 8 && BrokerText(b)[0] == 'r';
      case Routed =>
      case InFlight => assert |BrokerText(b)| == 9 && BrokerText(b)[0] == 'i';
      case Live =>
      case Filled => assert |BrokerText(b)| == 6 && BrokerText(b)[0] == 'f';
      case Cancelled => assert |BrokerText(b)| == 9 && BrokerText(b)[0] == 'c';
      case Refused => assert |BrokerText(b)| == 8 && BrokerText(b)[0] == 'r';
      case Expired => assert |BrokerText(b)| == 7 && BrokerText(b)[0] == 'e';
    }
  }

  /** The broker's answer brings a new status, or a time or a price not known so far. */
  predicate Informs(s: Tables, was: Trade, id: OrderId, w: PollWorld)
    requires id in s.orders
  {
    || was.status != AtBroker(s.orders[id])
    || (w.terminalAt.Some? && was.filledAt.None?)
    || (w.price.Some? && w.price.value != 0.0 && was.fillPrice.None?)
  }

  /** An expired entry of a pending position takes the position and its trades with it, and nothing else. */
  lemma PollOfExpiredEntry(s: Tables, tid: TradeId, id: OrderId, w: PollWorld)
    requires PollEnabled(s, w) && tid in s.trades && Polled(s.trades[tid].status)
    requires s.trades[tid].ref == Ref(id) && id in s.orders && w.accountMatches && w.lookupWorks && w.tradeSaves
    requires s.trades[tid].opening && s.trades[tid].position in s.positions
    requires s.orders[id] == Expired && s.positions[s.trades[tid].position].state == PendingEntry
    ensures var after := Poll(s, tid, w);
            var pid := s.trades[tid].position;
            && (forall p :: p in after.positions <==> p in s.positions && p != pid)
            && (forall t :: t in after.trades <==> t in s.trades && s.trades[t].position != pid)
            && (forall p :: p in after.positions ==> after.positions[p] == s.positions[p])
            && (forall t :: t in after.trades ==> after.trades[t] == s.trades[t])
  {
  }

  /** Any other answer is written as it is to the trade, whose position stays. */
  lemma PollWritesBrokerStatus(s: Tables, tid: TradeId, id: OrderId, w: PollWorld)
    requires PollEnabled(s, w) && tid in s.trades && Polled(s.trades[tid].status)
    requires s.trades[tid].ref == Ref(id) && id in s.orders && w.accountMatches && w.lookupWorks && w.tradeSaves
    requires s.trades[tid].position in s.positions
    requires !(s.orders[id] == Expired && s.trades[tid].opening
               && s.positions[s.trades[tid].position].state == PendingEntry)
    ensures var after := Poll(s, tid, w);
            var was := s.trades[tid];
            && tid in after.trades && was.position in after.positions
            && after.trades[tid].status == AtBroker(s.orders[id])
            && after.trades[tid].filledAt
               == (if Informs(s, was, id, w) && w.terminalAt.Some? then w.terminalAt else was.filledAt)
            && after.trades[tid].fillPrice
               == (if Informs(s, was, id, w) && w.price.Some? && w.price.value != 0.0 then w.price else was.fillPrice)
            && SameIdentity(was, after.trades[tid])
  {
    var row := Updated(s, s.trades[tid], w);
    AnswerIsRead(s, s.trades[tid], id, w);
    if Informs(s, s.trades[tid], id, w) {
      AnswerIsKept(s, tid, row, w);
    }
  }

  /** What the row is to say, given the broker's answer. */
  lemma AnswerIsRead(s: Tables, was: Trade, id: OrderId, w: PollWorld)
    requires was.ref == Ref(id) && id in s.orders && w.lookupWorks
    ensures Seen(s, was, w) == AtBroker(s.orders[id]) && (Changed(s, was, w) <==> Informs(s, was, id, w))
    ensures var row := Updated(s, was, w);
            && row.status == AtBroker(s.orders[id]) && SameIdentity(was, row)
            && row.filledAt == (if w.terminalAt.Some? then w.terminalAt else was.filledAt)
            && row.fillPrice == (if w.price.Some? && w.price.value != 0.0 then w.price else was.fillPrice)
  {
  }

  /** A row that is saved and not deleted stays in the table, whatever the fill writes to its children. */
  lemma AnswerIsKept(s: Tables, tid: TradeId, row: Trade, w: PollWorld)
    requires PollEnabled(s, w) && tid in s.trades && Polled(s.trades[tid].status)
    requires s.trades[tid].position in s.positions && s.trades[tid].ref != TestMode && w.accountMatches && w.tradeSaves
    requires row == Updated(s, s.trades[tid], w) && Changed(s, s.trades[tid], w)
    requires !(Seen(s, s.trades[tid], w) == AtBroker(Expired) && s.trades[tid].opening
               && s.positions[s.trades[tid].position].state == PendingEntry)
    ensures var after := Poll(s, tid, w);
            && tid in after.trades && s.trades[tid].position in after.positions
            && after.trades[tid] == row.(children := after.trades[tid].children)
  {
    var s1 := s.(trades := s.trades[tid := row]);
    FillWritesChildren(s1, tid, w);
  }

  /** Handling a fill changes trades in their children only, and drops no position. */
  lemma FillWritesChildren(s: Tables, tid: TradeId, w: PollWorld)
    requires tid in s.trades && PollEnabled(s, w)
    ensures var after := HandleFill(s, tid, w);
            && after.trades.Keys == s.trades.Keys && after.positions.Keys == s.positions.Keys
            && forall t :: t in s.trades ==> after.trades[t] == s.trades[t].(children := after.trades[t].children)
  {
  }

  /** The targets a fill leaves: those of the batch alone, with the trade that carries the position's entry. */
  lemma FillRecordsBatch(s: Tables, tid: TradeId, w: PollWorld)
    requires tid in s.trades && PollEnabled(s, w) && SubmitsBatch(s, s.trades[tid], w) && TargetsLinked(w)
    ensures var after := HandleFill(s, tid, w);
            var pid := s.trades[tid].position;
            var call := P.Call(w.specs, false, [], w.replies);
            && P.WellFormed(call)
            && (forall t :: t in after.positions[pid].details <==> P.HasAccepted(call, t))
            && P.RecordsAccepted(after.positions[pid].details, call)
            && after.trades[tid].children == P.Accepted(w.replies.orders)
            && after.trades[EntryOf(s.trades, pid)].children == P.Accepted(w.replies.orders)
            && (forall id :: id in P.Accepted(w.replies.orders) ==> id in after.orders && after.orders[id] == Received)
            && (forall p :: p in s.positions && p != pid ==> after.positions[p] == s.positions[p])
  {
    var pid := s.trades[tid].position;
    var pos := s.positions[pid];
    var book := P.Book(pos.details, pos.created, s.trades[EntryOf(s.trades, pid)].children);
    P.ReplacingCall(book, P.ExpectedCount(pos.strategy.value), P.Call(w.specs, false, [], w.replies));
  }

  /** What a close that starts leaves: the trade as far as the answers went, the order if there is one. */
  lemma CloseLeavesRow(s: Tables, pid: PositionId, w: CloseWorld)
    requires CloseEnabled(s, w) && pid in s.positions && w.rowCreates
    requires forall t :: t in s.trades ==> s.trades[t].ref != Placeholder(w.stamp)
    ensures var after := CloseAtDte(s, pid, w);
            var stored := && w.rowSaves
                          && forall t :: t in s.trades && w.order.Some? ==> s.trades[t].ref != Ref(w.order.value);
            && w.newTrade in after.trades
            && var row := after.trades[w.newTrade];
               && row.position == pid && !row.opening && !row.hasParent && row.children == []
               && row.filledAt == None && row.fillPrice == None
               && row.status == (if !stored then Pending else if w.order.Some? then Submitted else AtBroker(Refused))
               && row.ref == (if stored && w.order.Some? then Ref(w.order.value) else Placeholder(w.stamp))
               && (w.order.Some? ==> w.order.value in after.orders && after.orders[w.order.value] == Received)
               && after.positions[pid]
                  == (if stored && w.order.Some? && w.positionSaves
                      then s.positions[pid].(state := Closing) else s.positions[pid])
  {
  }

  /** A poll that meets a failed lookup strands the position: no later run opens it. */
  lemma FailedLookupStrandsPosition(s: Tables, tid: TradeId, w: PollWorld, events: seq<Event>)
    requires Inv(s) && PollEnabled(s, w)
    requires tid in s.trades && s.trades[tid].opening && Polled(s.trades[tid].status) && s.trades[tid].ref != TestMode
    requires w.accountMatches && w.tradeSaves && !w.lookupWorks
    requires s.positions[s.trades[tid].position].state == PendingEntry
    requires CanRun(Poll(s, tid, w), events) && AllClosesOpened(Poll(s, tid, w), events)
    ensures var after := RunAll(Poll(s, tid, w), events);
            && s.trades[tid].position in after.positions
            && after.positions[s.trades[tid].position] == s.positions[s.trades[tid].position]
            && tid in after.trades && after.trades[tid].status == LookupError
  {
    PollKeepsInv(s, tid, w);
    FailedLookupDecides(s, tid, w);
    StrandedFrom(s, Poll(s, tid, w), tid, events);
  }

  lemma StrandedFrom(s: Tables, s1: Tables, tid: TradeId, events: seq<Event>)
    requires Inv(s1) && CanRun(s1, events) && AllClosesOpened(s1, events)
    requires tid in s.trades && s.trades[tid].opening && s.trades[tid].position in s.positions
    requires s.positions[s.trades[tid].position].state == PendingEntry
    requires s1 == s.(trades := s.trades[tid := s.trades[tid].(status := LookupError)])
    ensures var after := RunAll(s1, events);
            && s.trades[tid].position in after.positions
            && after.positions[s.trades[tid].position] == s.positions[s.trades[tid].position]
            && tid in after.trades && after.trades[tid].status == LookupError
  {
    UnpolledOpeningIsFrozen(s1, events, tid);
  }

  lemma FailedLookupDecides(s: Tables, tid: TradeId, w: PollWorld)
    requires PollEnabled(s, w)
    requires tid in s.trades && Polled(s.trades[tid].status) && s.trades[tid].ref != TestMode
    requires w.accountMatches && w.tradeSaves && !w.lookupWorks
    ensures Poll(s, tid, w) == s.(trades := s.trades[tid := s.trades[tid].(status := LookupError)])
  {
  }

  /** The immediate outcome of a poll that sees the fill. */
  lemma FillDecides(s: Tables, tid: TradeId, w: PollWorld)
    requires TradesPoint(s.trades, s.positions) && IdsAgree(s) && PollEnabled(s, w)
    requires tid in s.trades && s.trades[tid].opening && Polled(s.trades[tid].status)
    requires s.positions[s.trades[tid].position].state == PendingEntry
    requires w.accountMatches && w.tradeSaves && Seen(s, s.trades[tid], w) == AtBroker(Filled)
    ensures var pid := s.trades[tid].position;
            var after := Poll(s, tid, w);
            && pid in after.positions && tid in after.trades
            && SameIdentity(s.trades[tid], after.trades[tid]) && !Polled(after.trades[tid].status)
            && after.positions[pid].state == (if OpensPosition(s, tid, w) then OpenFull else PendingEntry)
            && s.trades[tid].ref.Ref? && after.positions[pid].openingOrder == Some(s.trades[tid].ref.id)
  {
    UpdateKeepsEntries(s, tid, w);
    var s1 := s.(trades := s.trades[tid := Updated(s, s.trades[tid], w)]);
    assert OpensPosition(s1, tid, w) <==> OpensPosition(s, tid, w);
  }

  /**
    A poll that sees the fill opens the position exactly under OpensPosition; otherwise
    no later run opens it.
   */
  lemma FillOpensOrStrands(s: Tables, tid: TradeId, w: PollWorld, events: seq<Event>)
    requires Inv(s) && PollEnabled(s, w)
    requires tid in s.trades && s.trades[tid].opening && Polled(s.trades[tid].status)
    requires s.positions[s.trades[tid].position].state == PendingEntry
    requires w.accountMatches && w.tradeSaves && Seen(s, s.trades[tid], w) == AtBroker(Filled)
    requires CanRun(Poll(s, tid, w), events) && AllClosesOpened(Poll(s, tid, w), events)
    ensures var pid := s.trades[tid].position;
            var after := RunAll(Poll(s, tid, w), events);
            && pid in after.positions
            && (after.positions[pid].state in OPENED <==> OpensPosition(s, tid, w))
            && (!OpensPosition(s, tid, w) ==> after.positions[pid].state == PendingEntry)
            && s.trades[tid].ref.Ref? && after.positions[pid].openingOrder == Some(s.trades[tid].ref.id)
  {
    PollKeepsInv(s, tid, w);
    FillDecides(s, tid, w);
    UnpolledOpeningIsFrozen(Poll(s, tid, w), events, tid);
  }

  // ---------------------------------------------------------------- execution is all or nothing

  /** Position and trade tables of a completed request: one new row each, linked, with the carried order id. */
  ghost predicate OneNewPair(
      s: Tables, after: Tables, sid: SuggestionId, pid: PositionId, tid: TradeId, id: Option<OrderId>) {
    && pid !in s.positions && tid !in s.trades
    && after.positions.Keys == s.positions.Keys + {pid} && after.trades.Keys == s.trades.Keys + {tid}
    && (forall p :: p in s.positions ==> after.positions[p] == s.positions[p])
    && (forall t :: t in s.trades ==> after.trades[t] == s.trades[t])
    && after.trades[tid].position == pid && after.trades[tid].opening && after.trades[tid].status == Submitted
    && !after.trades[tid].hasParent && after.trades[tid].children == []
    && after.trades[tid].filledAt == None && after.trades[tid].fillPrice == None
    && after.trades[tid].ref == (if id.Some? then Ref(id.value) else Unknown)
    && after.positions[pid].state == PendingEntry && after.positions[pid].openingOrder == id
    && !after.positions[pid].created && after.positions[pid].details == map[]
    && sid in s.suggestions && after.suggestions.Keys == s.suggestions.Keys
    && after.positions[pid].strategy == Some(s.suggestions[sid].strategy)
    && after.suggestions[sid] == s.suggestions[sid].(status := Executed, position := Some(pid))
    && (forall k :: k in s.suggestions && k != sid ==> after.suggestions[k] == s.suggestions[k])
  }

  /**
    A pending suggestion ends executed with exactly one new position and one new opening
    trade, or with both tables unchanged.  In the second case it is pending again unless
    every attempt to save that status failed, and then it is stuck at approved.
    A dry run always takes the second way out.
   */
  lemma ExecuteIsAllOrNothing(s: Tables, sid: SuggestionId, w: ExecWorld)
    requires ExecEnabled(s, w)
    requires sid in s.suggestions && s.suggestions[sid].status == AwaitingReview
    ensures var after := Execute(s, sid, w);
            || OneNewPair(s, after, sid, w.newPosition, w.newTrade, CarriedId(w))
            || (&& after.positions == s.positions && after.trades == s.trades
                && after.suggestions.Keys == s.suggestions.Keys
                && (forall k :: k in s.suggestions && k != sid ==> after.suggestions[k] == s.suggestions[k])
                && (after.suggestions[sid] == s.suggestions[sid]
                    || after.suggestions[sid] == s.suggestions[sid].(status := Approved)))
    ensures Execute(s, sid, w).suggestions[sid].status == Executed <==> Started(s, sid, w) && Completed(s, w)
    ensures Execute(s, sid, w).suggestions[sid].status == Approved
            <==> Started(s, sid, w) && !Completed(s, w) && !Reverted(s, w)
    ensures w.dryRun ==> Execute(s, sid, w).positions == s.positions && Execute(s, sid, w).trades == s.trades
  {
    var after := Execute(s, sid, w);
    if Started(s, sid, w) && Completed(s, w) {
      assert after.positions.Keys == s.positions.Keys + {w.newPosition};
      assert after.trades.Keys == s.trades.Keys + {w.newTrade};
    }
  }

  /** Every check has to pass, every answer has to come and every save has to work. */
  lemma ExecutedIff(s: Tables, sid: SuggestionId, w: ExecWorld)
    requires ExecEnabled(s, w)
    requires sid in s.suggestions && s.suggestions[sid].status == AwaitingReview
    ensures Execute(s, sid, w).suggestions[sid].status == Executed <==>
              && w.riskValid && w.marketOpen && w.approveSaves
              && w.realPricing && w.structureValid && w.account && w.session && !w.conflict
              && w.pricingCurrent && w.legsBuilt && w.quantitiesPresent && w.creditPositive && !w.dryRun
              && w.recordsSave && (forall t :: t in s.trades ==> s.trades[t].ref != Placeholder(w.stamp))
              && w.submission.Placed? && w.positionSaves && w.tradeSaves && w.markSaves
              && (forall t :: t in s.trades ==>
                   s.trades[t].ref != if w.submission.carriesId then Ref(w.submission.id) else Unknown)
              && (forall p :: p in s.positions && w.submission.carriesId ==>
                   s.positions[p].openingOrder != Some(w.submission.id))
  {
  }

  /** A rejected suggestion was pending and its save worked; nothing else changes. */
  lemma RejectDecides(s: Tables, sid: SuggestionId, reason: string, saves: bool)
    ensures var after := Reject(s, sid, reason, saves);
            && after.positions == s.positions && after.trades == s.trades && after.orders == s.orders
            && after.suggestions.Keys == s.suggestions.Keys
            && forall k :: k in s.suggestions ==>
                 after.suggestions[k] == if k == sid && saves && s.suggestions[k].status == AwaitingReview
                                         then s.suggestions[k].(status := Rejected, reason := reason)
                                         else s.suggestions[k]
  {
  }

  /** The broker can hold an order no row knows: exactly when it accepted and a later save failed. */
  lemma ExecuteOrphansOrderIff(s: Tables, sid: SuggestionId, w: ExecWorld)
    requires ExecEnabled(s, w)
    ensures var after := Execute(s, sid, w);
            (after.orders != s.orders && after.trades == s.trades)
            <==> Started(s, sid, w) && OrderPlaced(s, w) && !Completed(s, w)
  {
    var after := Execute(s, sid, w);
    if Started(s, sid, w) && OrderPlaced(s, w) {
      assert w.submission.id in after.orders;
      if Completed(s, w) {
        assert w.newTrade in after.trades;
      }
    }
  }

  lemma StepLeavesApproved(s: Tables, e: Event, sid: SuggestionId)
    requires Enabled(s, e)
    requires sid in s.suggestions && s.suggestions[sid].status == Approved
    ensures sid in Step(s, e).suggestions && Step(s, e).suggestions[sid].status == Approved
  {
  }

  /** A suggestion stuck at approved can never be executed or rejected again. */
  lemma {:induction false} ApprovedIsStuck(s: Tables, events: seq<Event>, sid: SuggestionId)
    requires CanRun(s, events)
    requires sid in s.suggestions && s.suggestions[sid].status == Approved
    ensures sid in RunAll(s, events).suggestions && RunAll(s, events).suggestions[sid].status == Approved
    decreases |events|
  {
    if events != [] {
      StepLeavesApproved(s, events[0], sid);
      ApprovedIsStuck(Step(s, events[0]), events[1..], sid);
    }
  }
}
