/**
  The order lifecycle as a transition system over four tables: suggestions,
  positions, trades and the broker's orders.

  A step is one execute request, one rejection, one poll of one trade, one status
  change at the broker, or one attempt to close a position near expiration, which
  records a closing trade.  Each external answer (broker, account, session, database
  save) is part of the step, so every failure is a possible step.  This module states
  what a step does to the tables as a whole; OrderService carries the steps out row
  by row and is proved to agree.
 */
module OrderLifecycle {
  import opened Prelude
  import P = ProfitTargets

  type OrderId = P.OrderId
  type SuggestionId = nat
  type PositionId = nat
  type TradeId = nat

  datatype SuggestionStatus = AwaitingReview | Approved | Executed | Rejected | Lapsed

  datatype Suggestion = Suggestion(
    status: SuggestionStatus, strategy: string, position: Option<PositionId>, reason: string)

  datatype LifecycleState =
    PendingEntry | OpenFull | OpenPartial | Closing | Closed | Rolled | Adjusted | ExpiredWorthless

  datatype Position = Position(
    state: LifecycleState,
    strategy: Option<string>,
    openingOrder: Option<OrderId>,
    details: map<string, P.Target>,
    created: bool)

  /** Status words with a meaning of their own here, the application's and the broker's. */
  const RESERVED_WORDS := {
    "pending", "submitted", "working", "error", "received", "routed", "in flight", "live",
    "filled", "cancelled", "rejected", "expired"}

  type OtherWord = w: string | w !in RESERVED_WORDS witness "contingent"

  /** Order status words of the broker; filled, cancelled, refused and expired never change again. */
  datatype BrokerStatus =
    Received | Routed | InFlight | Live | Filled | Cancelled | Refused | Expired | Unlisted(word: OtherWord)

  /** A trade's status column: the application's own words, or a broker word in lower case. */
  datatype TradeStatus = Pending | Submitted | Working | LookupError | AtBroker(word: BrokerStatus)

  /** The unique broker_order_id column. */
  datatype OrderRef = Placeholder(stamp: nat) | Unknown | TestMode | Ref(id: OrderId)

  datatype Trade = Trade(
    position: PositionId,
    ref: OrderRef,
    opening: bool,
    hasParent: bool,
    status: TradeStatus,
    filledAt: Option<nat>,
    fillPrice: Option<real>,
    children: seq<OrderId>)

  /** `batches` records, in order, the trades whose fill made the monitor submit profit targets. */
  datatype Tables = Tables(
    suggestions: map<SuggestionId, Suggestion>,
    positions: map<PositionId, Position>,
    trades: map<TradeId, Trade>,
    orders: map<OrderId, BrokerStatus>,
    batches: seq<TradeId>)

  predicate Terminal(b: BrokerStatus) {
    b in {Filled, Cancelled, Refused, Expired}
  }

  /** The monitor selects trades in exactly these states. */
  predicate Polled(status: TradeStatus) {
    status in {Pending, Submitted, AtBroker(Routed), AtBroker(Live), Working}
  }

  // ---------------------------------------------------------------- execute

  datatype Submission = SubmitRaises | NoResponse | Placed(id: OrderId, carriesId: bool)

  /** Every answer an execute request can meet, in the order in which it meets them. */
  datatype ExecWorld = ExecWorld(
    riskValid: bool, marketOpen: bool, approveSaves: bool,
    realPricing: bool, structureValid: bool, account: bool, conflict: bool, session: bool,
    pricingCurrent: bool, legsBuilt: bool, quantitiesPresent: bool, creditPositive: bool,
    dryRun: bool, recordsSave: bool, stamp: nat, submission: Submission,
    positionSaves: bool, tradeSaves: bool, markSaves: bool,
    dryRevertSaves: bool, revertSaves: bool, rescueSaves: bool,
    newPosition: PositionId, newTrade: TradeId)

  /** All checks that precede the broker call pass. */
  predicate ReadyToSubmit(w: ExecWorld) {
    && w.realPricing && w.structureValid && w.account && !w.conflict && w.session
    && w.pricingCurrent && w.legsBuilt && w.quantitiesPresent && w.creditPositive
  }

  function CarriedId(w: ExecWorld): Option<OrderId> {
    if w.submission.Placed? && w.submission.carriesId then Some(w.submission.id) else None
  }

  function FinalRef(w: ExecWorld): OrderRef {
    if CarriedId(w).Some? then Ref(CarriedId(w).value) else Unknown
  }

  /** The unique column would reject this reference. */
  predicate RefTaken(trades: map<TradeId, Trade>, ref: OrderRef) {
    exists t :: t in trades && trades[t].ref == ref
  }

  predicate OpeningOrderTaken(positions: map<PositionId, Position>, id: Option<OrderId>) {
    id.Some? && exists p :: p in positions && positions[p].openingOrder == id
  }

  /** The request gets as far as the broker accepting the order. */
  predicate OrderPlaced(s: Tables, w: ExecWorld) {
    && ReadyToSubmit(w) && !w.dryRun
    && w.recordsSave && !RefTaken(s.trades, Placeholder(w.stamp))
    && w.submission.Placed?
  }

  /** Position and trade are finalised, so the suggestion is about to be marked executed. */
  predicate MarkReached(s: Tables, w: ExecWorld) {
    && OrderPlaced(s, w)
    && w.positionSaves && !OpeningOrderTaken(s.positions, CarriedId(w))
    && w.tradeSaves && !RefTaken(s.trades, FinalRef(w))
  }

  predicate Completed(s: Tables, w: ExecWorld) {
    MarkReached(s, w) && w.markSaves
  }

  /**
    After a failed mark the suggestion in memory points at the position just deleted,
    and saving an object with such a reference is refused: only the last-resort handler,
    which reads the suggestion afresh, can then restore the status.
   */
  predicate Reverted(s: Tables, w: ExecWorld) {
    || (w.revertSaves && !MarkReached(s, w)) || w.rescueSaves
    || (ReadyToSubmit(w) && w.dryRun && w.dryRevertSaves)
  }

  /** The request passes the view's own checks and the approval is saved. */
  predicate Started(s: Tables, sid: SuggestionId, w: ExecWorld) {
    && sid in s.suggestions && s.suggestions[sid].status == AwaitingReview
    && w.riskValid && w.marketOpen && w.approveSaves
  }

  /** Row ids and broker order ids are assigned fresh. */
  ghost predicate ExecEnabled(s: Tables, w: ExecWorld) {
    && w.newPosition !in s.positions && w.newTrade !in s.trades
    && (w.submission.Placed? ==> w.submission.id !in s.orders)
  }

  function Execute(s: Tables, sid: SuggestionId, w: ExecWorld): Tables {
    if !Started(s, sid, w) then s
    else
      var sug := s.suggestions[sid];
      var orders := if OrderPlaced(s, w) then s.orders[w.submission.id := Received] else s.orders;
      if Completed(s, w) then
        s.(suggestions := s.suggestions[sid := sug.(status := Executed, position := Some(w.newPosition))],
           positions := s.positions[w.newPosition :=
               Position(PendingEntry, Some(sug.strategy), CarriedId(w), map[], false)],
           trades := s.trades[w.newTrade := Trade(w.newPosition, FinalRef(w), true, false, Submitted, None, None, [])],
           orders := orders)
      else
        s.(suggestions := s.suggestions[sid := sug.(status := if Reverted(s, w) then AwaitingReview else Approved)],
           orders := orders)
  }

  function Reject(s: Tables, sid: SuggestionId, reason: string, saves: bool): Tables {
    if sid in s.suggestions && s.suggestions[sid].status == AwaitingReview && saves
    then s.(suggestions := s.suggestions[sid := s.suggestions[sid].(status := Rejected, reason := reason)])
    else s
  }

  // ---------------------------------------------------------------- poll

  datatype PollWorld = PollWorld(
    accountMatches: bool, lookupWorks: bool, terminalAt: Option<nat>, price: Option<real>,
    tradeSaves: bool,
    strategyKnown: bool, specs: seq<P.Spec>, replies: P.Replies,
    childrenSave: bool, stateSaves: bool)

  /** A failed lookup is reported as the status "error". */
  function Seen(s: Tables, trade: Trade, w: PollWorld): TradeStatus {
    if w.lookupWorks && trade.ref.Ref? && trade.ref.id in s.orders
    then AtBroker(s.orders[trade.ref.id])
    else LookupError
  }

  function SeenFilledAt(s: Tables, trade: Trade, w: PollWorld): Option<nat> {
    if Seen(s, trade, w) == LookupError then None else w.terminalAt
  }

  function SeenPrice(s: Tables, trade: Trade, w: PollWorld): Option<real> {
    if Seen(s, trade, w) == LookupError || w.price == Some(0.0) then None else w.price
  }

  predicate Changed(s: Tables, trade: Trade, w: PollWorld) {
    || Seen(s, trade, w) != trade.status
    || (SeenFilledAt(s, trade, w).Some? && trade.filledAt.None?)
    || (SeenPrice(s, trade, w).Some? && trade.fillPrice.None?)
  }

  function Updated(s: Tables, trade: Trade, w: PollWorld): Trade {
    var at := SeenFilledAt(s, trade, w);
    var price := SeenPrice(s, trade, w);
    trade.(status := Seen(s, trade, w),
           filledAt := if at.Some? then at else trade.filledAt,
           fillPrice := if price.Some? then price else trade.fillPrice)
  }

  function TradesOf(s: Tables, pid: PositionId): set<TradeId> {
    set t | t in s.trades && s.trades[t].position == pid
  }

  /** Deleting a position cascades to its trades and clears references to it. */
  function DeletePosition(s: Tables, pid: PositionId): Tables {
    s.(suggestions := map k | k in s.suggestions ::
         if s.suggestions[k].position == Some(pid) then s.suggestions[k].(position := None) else s.suggestions[k],
       positions := s.positions - {pid},
       trades := s.trades - TradesOf(s, pid))
  }

  predicate IsEntry(trades: map<TradeId, Trade>, pid: PositionId, t: TradeId) {
    t in trades && trades[t].opening && trades[t].position == pid
  }

  ghost predicate HasEntry(trades: map<TradeId, Trade>, pid: PositionId) {
    exists t :: IsEntry(trades, pid, t)
  }

  /** The opening trade that profit targets of a position are recorded with. */
  ghost function EntryOf(trades: map<TradeId, Trade>, pid: PositionId): (t: TradeId)
    requires HasEntry(trades, pid)
    ensures IsEntry(trades, pid, t)
  {
    var t :| IsEntry(trades, pid, t);
    t
  }

  /**
    A fill on this row leads to a batch of profit-target orders being submitted.  The
    kind of trade is not looked at: only its parent and the position's flag.
   */
  ghost predicate SubmitsBatch(s: Tables, trade: Trade, w: PollWorld) {
    && !trade.hasParent
    && trade.position in s.positions
    && !s.positions[trade.position].created
    && s.positions[trade.position].strategy.Some?
    && w.strategyKnown && HasEntry(s.trades, trade.position) && w.specs != []
  }

  function WithReceived(orders: map<OrderId, BrokerStatus>, ids: seq<OrderId>): map<OrderId, BrokerStatus> {
    orders + (map id | id in ids :: Received)
  }

  /** Some target was accepted and both the service and the monitor saved it. */
  predicate TargetsLinked(w: PollWorld) {
    && P.Accepted(w.replies.orders) != []
    && w.replies.positionSaves && w.replies.tradeSaves && w.childrenSave
  }

  /** The fill advances the position. */
  ghost predicate OpensPosition(s: Tables, tid: TradeId, w: PollWorld)
    requires tid in s.trades
  {
    && SubmitsBatch(s, s.trades[tid], w) && TargetsLinked(w)
    && s.positions[s.trades[tid].position].state == PendingEntry
    && w.stateSaves
  }

  /**
    What the monitor does when an order has just filled.  The service records the batch
    in the position and in its opening trade, the monitor in the filled trade.
   */
  ghost function HandleFill(s: Tables, tid: TradeId, w: PollWorld): Tables
    requires tid in s.trades && |w.replies.orders| == |w.specs|
  {
    if !SubmitsBatch(s, s.trades[tid], w) then s
    else
      var pid := s.trades[tid].position;
      var pos := s.positions[pid];
      var entry := EntryOf(s.trades, pid);
      var ids := P.Accepted(w.replies.orders);
      var book := P.Recorded(P.Book(pos.details, pos.created, s.trades[entry].children),
                             P.ExpectedCount(pos.strategy.value), w.specs, w.replies, false);
      var recorded := s.trades[entry := s.trades[entry].(children := book.children)];
      s.(positions := s.positions[pid := pos.(
           details := book.details, created := book.created,
           state := if OpensPosition(s, tid, w) then OpenFull else pos.state)],
         trades := if TargetsLinked(w) then recorded[tid := recorded[tid].(children := ids)] else recorded,
         orders := WithReceived(s.orders, ids),
         batches := s.batches + [tid])
  }

  ghost predicate PollEnabled(s: Tables, w: PollWorld) {
    && |w.replies.orders| == |w.specs|
    && forall id :: id in P.Accepted(w.replies.orders) ==> id !in s.orders
  }

  ghost function Poll(s: Tables, tid: TradeId, w: PollWorld): Tables
    requires |w.replies.orders| == |w.specs|
  {
    if tid !in s.trades || !Polled(s.trades[tid].status) || s.trades[tid].ref == TestMode || !w.accountMatches then s
    else
      var trade := s.trades[tid];
      if !Changed(s, trade, w) || !w.tradeSaves then s
      else
        var s1 := s.(trades := s.trades[tid := Updated(s, trade, w)]);
        if Seen(s, trade, w) == AtBroker(Expired) && trade.opening
           && trade.position in s.positions && s.positions[trade.position].state == PendingEntry
        then DeletePosition(s1, trade.position)
        else if Seen(s, trade, w) == AtBroker(Filled) then HandleFill(s1, tid, w)
        else s1
  }

  // ---------------------------------------------------------------- environment

  /** The broker moves an order; terminal statuses are final. */
  function BrokerMove(s: Tables, id: OrderId, to: BrokerStatus): Tables {
    if id in s.orders && !Terminal(s.orders[id]) then s.(orders := s.orders[id := to]) else s
  }

  // ---------------------------------------------------------------- closing near expiration

  /** States of an open position: the callers that go through a list of positions close only these. */
  const OPENED := {OpenFull, OpenPartial, Closing}

  /** `order` is the closing order the broker accepted, if it did. */
  datatype CloseWorld = CloseWorld(
    newTrade: TradeId, stamp: nat, rowCreates: bool, order: Option<OrderId>, rowSaves: bool, positionSaves: bool)

  ghost predicate CloseEnabled(s: Tables, w: CloseWorld) {
    w.newTrade !in s.trades && (w.order.Some? ==> w.order.value !in s.orders)
  }

  /** A closing trade; like every row of this system it is written without a parent order. */
  function ClosingTrade(pid: PositionId, ref: OrderRef, status: TradeStatus): Trade {
    Trade(pid, ref, false, false, status, None, None, [])
  }

  /** The order went out and its id is stored with the closing trade. */
  predicate CloseRecorded(s: Tables, w: CloseWorld) {
    w.order.Some? && w.rowSaves && !RefTaken(s.trades, Ref(w.order.value))
  }

  /** The closing trade's row is created. */
  predicate CloseStarts(s: Tables, pid: PositionId, w: CloseWorld) {
    pid in s.positions && w.rowCreates && !RefTaken(s.trades, Placeholder(w.stamp))
  }

  /** The closing trade is written first, under a placeholder, and completed after the broker answers. */
  function CloseAtDte(s: Tables, pid: PositionId, w: CloseWorld): Tables {
    if !CloseStarts(s, pid, w) then s
    else if w.order.None? then
      var status := if w.rowSaves then AtBroker(Refused) else Pending;
      s.(trades := s.trades[w.newTrade := ClosingTrade(pid, Placeholder(w.stamp), status)])
    else if !CloseRecorded(s, w) then
      s.(trades := s.trades[w.newTrade := ClosingTrade(pid, Placeholder(w.stamp), Pending)],
         orders := s.orders[w.order.value := Received])
    else
      s.(trades := s.trades[w.newTrade := ClosingTrade(pid, Ref(w.order.value), Submitted)],
         orders := s.orders[w.order.value := Received],
         positions := if w.positionSaves then s.positions[pid := s.positions[pid].(state := Closing)] else s.positions)
  }

  // ---------------------------------------------------------------- runs

  datatype Event =
    | ExecuteRequest(sid: SuggestionId, exec: ExecWorld)
    | RejectRequest(rejected: SuggestionId, reason: string, saves: bool)
    | PollTrade(tid: TradeId, poll: PollWorld)
    | BrokerChange(id: OrderId, to: BrokerStatus)
    | CloseRequest(closed: PositionId, close: CloseWorld)

  ghost predicate Enabled(s: Tables, e: Event) {
    match e
    case ExecuteRequest(_, w) => ExecEnabled(s, w)
    case PollTrade(_, w) => PollEnabled(s, w)
    case CloseRequest(_, w) => CloseEnabled(s, w)
    case _ => true
  }

  ghost function Step(s: Tables, e: Event): Tables
    requires Enabled(s, e)
  {
    match e
    case ExecuteRequest(sid, w) => Execute(s, sid, w)
    case RejectRequest(sid, reason, saves) => Reject(s, sid, reason, saves)
    case PollTrade(tid, w) => Poll(s, tid, w)
    case BrokerChange(id, to) => BrokerMove(s, id, to)
    case CloseRequest(pid, w) => CloseAtDte(s, pid, w)
  }

  ghost predicate CanRun(s: Tables, events: seq<Event>)
    decreases |events|
  {
    events == [] || (Enabled(s, events[0]) && CanRun(Step(s, events[0]), events[1..]))
  }

  ghost function RunAll(s: Tables, events: seq<Event>): Tables
    requires CanRun(s, events)
    decreases |events|
  {
    if events == [] then s else RunAll(Step(s, events[0]), events[1..])
  }

  // ---------------------------------------------------------------- invariant

  predicate BothOpen(t: Trade, u: Trade) {
    t.opening && u.opening && t.position == u.position
  }

  predicate SameOpeningOrder(p: Position, q: Position) {
    p.openingOrder.Some? && p.openingOrder == q.openingOrder
  }

  ghost predicate UniqueRefs(trades: map<TradeId, Trade>) {
    forall t, u :: t in trades && u in trades && trades[t].ref == trades[u].ref ==> t == u
  }

  ghost predicate OneOpeningEach(trades: map<TradeId, Trade>) {
    forall t, u :: t in trades && u in trades && BothOpen(trades[t], trades[u]) ==> t == u
  }

  ghost predicate UniqueOpeningOrders(positions: map<PositionId, Position>) {
    forall p, q :: p in positions && q in positions && SameOpeningOrder(positions[p], positions[q]) ==> p == q
  }

  ghost predicate TradesPoint(trades: map<TradeId, Trade>, positions: map<PositionId, Position>) {
    forall t :: t in trades ==> trades[t].position in positions
  }

  ghost predicate SuggestionsPoint(suggestions: map<SuggestionId, Suggestion>, positions: map<PositionId, Position>) {
    forall k :: k in suggestions && suggestions[k].position.Some? ==> suggestions[k].position.value in positions
  }

  ghost predicate EntriesExist(positions: map<PositionId, Position>, trades: map<TradeId, Trade>) {
    forall p :: p in positions ==> HasEntry(trades, p)
  }

  /** Foreign keys and unique columns, and exactly one opening trade per position. */
  ghost predicate RowsConsistent(s: Tables) {
    && UniqueRefs(s.trades) && OneOpeningEach(s.trades) && UniqueOpeningOrders(s.positions)
    && TradesPoint(s.trades, s.positions) && SuggestionsPoint(s.suggestions, s.positions)
    && EntriesExist(s.positions, s.trades)
  }

  ghost predicate FilledIsBacked(s: Tables) {
    forall t :: t in s.trades && s.trades[t].status == AtBroker(Filled) ==>
      s.trades[t].ref.Ref? && s.trades[t].ref.id in s.orders && s.orders[s.trades[t].ref.id] == Filled
  }

  predicate FilledEntry(s: Tables, t: TradeId, p: PositionId) {
    IsEntry(s.trades, p, t) && s.trades[t].status == AtBroker(Filled)
  }

  /** Its opening trade filled and led to a batch of targets. */
  predicate TargetedEntry(s: Tables, t: TradeId, p: PositionId) {
    FilledEntry(s, t, p) && t in s.batches
  }

  ghost predicate OpenIsFilled(s: Tables) {
    forall p :: p in s.positions && s.positions[p].state in OPENED ==> exists t :: TargetedEntry(s, t, p)
  }

  /** Closing trades belong to positions that opened. */
  ghost predicate ClosesFollowEntry(s: Tables) {
    forall t :: t in s.trades && !s.trades[t].opening && s.trades[t].position in s.positions ==>
      s.positions[s.trades[t].position].state in OPENED
  }

  /** No trade leads to two batches, and only filled ones lead to any. */
  ghost predicate BatchesOnce(s: Tables) {
    && (forall i, j :: 0 <= i < j < |s.batches| ==> s.batches[i] != s.batches[j])
    && (forall t :: t in s.batches ==> t in s.trades && s.trades[t].status == AtBroker(Filled))
  }

  /** The position and its opening trade carry the same broker order id. */
  ghost predicate IdsAgree(s: Tables) {
    forall t :: t in s.trades && s.trades[t].opening && s.trades[t].position in s.positions ==>
      s.positions[s.trades[t].position].openingOrder
          == (if s.trades[t].ref.Ref? then Some(s.trades[t].ref.id) else None)
  }

  ghost predicate Inv(s: Tables) {
    && RowsConsistent(s) && FilledIsBacked(s) && OpenIsFilled(s) && ClosesFollowEntry(s)
    && BatchesOnce(s) && IdsAgree(s)
  }
}
