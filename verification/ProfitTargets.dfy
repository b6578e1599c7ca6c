/**
  Profit-target bookkeeping of services/execution/order_service.py.

  A batch of target specifications goes to the broker, which accepts some and
  rejects others.  The accepted ones are written to two rows: the position
  (profit_target_details, profit_targets_created) and its opening trade
  (child_order_ids).  The two rows are saved one after the other, so either
  save can fail; both outcomes are part of a call's replies.
 */
module ProfitTargets {
  import opened Prelude

  type OrderId = nat

  datatype Spec = Spec(spreadType: string, percent: int, limitPrice: real)

  datatype Target = Target(orderId: OrderId, percent: int, price: real)

  datatype Placed = Placed(spreadType: string, target: Target)

  /** The columns of the position and of its opening trade that a batch may write. */
  datatype Book = Book(details: map<string, Target>, created: bool, children: seq<OrderId>)

  /** What the outside world answers to one call. */
  datatype Replies = Replies(orders: seq<Option<OrderId>>, positionSaves: bool, tradeSaves: bool)

  datatype Outcome = Skipped | Refused | Raised | Success(orderIds: seq<OrderId>)

  const EMPTY_BOOK := Book(map[], false, [])

  // ---------------------------------------------------------------- specification

  function ExpectedCount(strategy: string): Option<nat> {
    if strategy == "senex_trident" then Some(3)
    else if strategy in ["iron_condor", "short_iron_condor", "long_iron_condor"] then Some(2)
    else if strategy in ["short_put_vertical", "short_call_vertical", "long_call_vertical",
                         "long_put_vertical", "cash_secured_put", "covered_call"] then Some(1)
    else None
  }

  /** The order ids the broker handed out, in submission order. */
  function Accepted(orders: seq<Option<OrderId>>): seq<OrderId> {
    if orders == [] then []
    else
      var last := orders[|orders| - 1];
      var rest := Accepted(orders[..|orders| - 1]);
      if last.Some? then rest + [last.value] else rest
  }

  function TargetOf(spec: Spec, id: OrderId): Target {
    Target(id, spec.percent, spec.limitPrice)
  }

  /** The details dictionary of a batch: a later target of the same spread type wins. */
  function NewTargets(specs: seq<Spec>, orders: seq<Option<OrderId>>): (m: map<string, Target>)
    requires |specs| == |orders|
  {
    if specs == [] then map[]
    else
      var n := |specs| - 1;
      var rest := NewTargets(specs[..n], orders[..n]);
      if orders[n].Some? then rest[specs[n].spreadType := TargetOf(specs[n], orders[n].value)] else rest
  }

  function Keep(specs: seq<Spec>, types: seq<string>): seq<Spec> {
    if specs == [] then []
    else
      var last := specs[|specs| - 1];
      var rest := Keep(specs[..|specs| - 1], types);
      if last.spreadType in types then rest + [last] else rest
  }

  /** An absent or empty filter keeps every specification. */
  function Selected(specs: seq<Spec>, filter: seq<string>): seq<Spec> {
    if filter == [] then specs else Keep(specs, filter)
  }

  /** Both rows after a batch whose saves succeeded as `replies` says. */
  function Recorded(book: Book, expected: Option<nat>, specs: seq<Spec>, replies: Replies, merge: bool): Book
    requires |specs| == |replies.orders|
  {
    var ids := Accepted(replies.orders);
    if ids == [] || !replies.positionSaves then book
    else
      var added := NewTargets(specs, replies.orders);
      var details := if merge then book.details + added else added;
      var created := if expected.Some? then |details| == expected.value else |ids| == |specs|;
      var children := if !replies.tradeSaves then book.children
                      else if merge then book.children + ids
                      else ids;
      Book(details, created, children)
  }

  // ---------------------------------------------------------------- the service

  method ExecuteProfitTargets(specs: seq<Spec>, orders: seq<Option<OrderId>>)
    returns (orderIds: seq<OrderId>, results: seq<Placed>)
    requires |specs| == |orders|
    ensures orderIds == Accepted(orders)
    ensures |results| == |orderIds|
    ensures Collected(results) == NewTargets(specs, orders)
  {
    orderIds, results := [], [];
    for i := 0 to |specs|
      invariant orderIds == Accepted(orders[..i])
      invariant |results| == |orderIds|
      invariant Collected(results) == NewTargets(specs[..i], orders[..i])
    {
      BatchStep(specs, orders, i);
      if orders[i].Some? {
        orderIds := orderIds + [orders[i].value];
        ghost var before := results;
        results := results + [Placed(specs[i].spreadType, TargetOf(specs[i], orders[i].value))];
        assert results[..|results| - 1] == before;
      }
    }
    assert specs[..|specs|] == specs && orders[..|specs|] == orders;
  }

  /** One more specification and its answer. */
  lemma BatchStep(specs: seq<Spec>, orders: seq<Option<OrderId>>, i: nat)
    requires |specs| == |orders| && i < |specs|
    ensures Accepted(orders[..i + 1])
         == if orders[i].Some? then Accepted(orders[..i]) + [orders[i].value] else Accepted(orders[..i])
    ensures NewTargets(specs[..i + 1], orders[..i + 1])
         == if orders[i].Some?
            then NewTargets(specs[..i], orders[..i])[specs[i].spreadType := TargetOf(specs[i], orders[i].value)]
            else NewTargets(specs[..i], orders[..i])
  {
    assert specs[..i + 1][..i] == specs[..i] && orders[..i + 1][..i] == orders[..i];
  }

  method FilterSpecs(offered: seq<Spec>, filter: seq<string>) returns (specs: seq<Spec>)
    ensures specs == Selected(offered, filter)
  {
    if filter == [] { return offered; }
    specs := [];
    for i := 0 to |offered|
      invariant specs == Keep(offered[..i], filter)
    {
      assert offered[..i + 1][..i] == offered[..i];
      if offered[i].spreadType in filter {
        specs := specs + [offered[i]];
      }
    }
    assert offered[..|offered|] == offered;
  }

  method CollectTargets(results: seq<Placed>) returns (targets: map<string, Target>)
    ensures targets == Collected(results)
  {
    targets := map[];
    for i := 0 to |results|
      invariant targets == Collected(results[..i])
    {
      assert results[..i + 1][..i] == results[..i];
      targets := targets[results[i].spreadType := results[i].target];
    }
    assert results[..|results|] == results;
  }

  /** The dictionary comprehension over the results of a batch. */
  function Collected(results: seq<Placed>): map<string, Target> {
    if results == [] then map[]
    else
      var last := results[|results| - 1];
      Collected(results[..|results| - 1])[last.spreadType := last.target]
  }

  /** The persisted position row and opening-trade row, as the service sees them. */
  class TargetRecord {
    const strategy: Option<string>
    var details: map<string, Target>
    var created: bool
    var children: seq<OrderId>

    constructor (strategy: Option<string>)
      ensures this.strategy == strategy && Value() == EMPTY_BOOK
    {
      this.strategy := strategy;
      details, created, children := map[], false, [];
    }

    /** The rows as read back from the database. */
    constructor Load(strategy: Option<string>, book: Book)
      ensures this.strategy == strategy && Value() == book
    {
      this.strategy := strategy;
      details, created, children := book.details, book.created, book.children;
    }

    function Value(): Book
      reads this
    {
      Book(details, created, children)
    }

    method CreateProfitTargets(known: bool, hasOpeningTrade: bool, offered: seq<Spec>,
                               merge: bool, filter: seq<string>, replies: Replies)
      returns (outcome: Outcome)
      requires |replies.orders| == |Selected(offered, filter)|
      modifies this
      ensures strategy == None ==> outcome == Skipped
      ensures strategy.Some? && !(known && hasOpeningTrade && Selected(offered, filter) != []) ==> outcome == Refused
      ensures outcome in {Skipped, Refused} ==> Value() == old(Value())
      ensures strategy.Some? && known && hasOpeningTrade && Selected(offered, filter) != [] ==>
                && Value() == Recorded(old(Value()), ExpectedCount(strategy.value), Selected(offered, filter),
                     replies, merge)
                && outcome == (if Accepted(replies.orders) != [] && !(replies.positionSaves && replies.tradeSaves)
                               then Raised else Success(Accepted(replies.orders)))
    {
      if strategy == None { return Skipped; }
      if !known || !hasOpeningTrade || offered == [] { return Refused; }
      var specs := FilterSpecs(offered, filter);
      if specs == [] { return Refused; }
      var orderIds, results := ExecuteProfitTargets(specs, replies.orders);
      if orderIds != [] {
        var newTargets := CollectTargets(results);
        var positionDetails := if merge then details + newTargets else newTargets;
        var expected := ExpectedCount(strategy.value);
        var allCreated;
        if expected.Some? {
          allCreated := |positionDetails| == expected.value;
        } else {
          allCreated := |orderIds| == |specs|;
        }
        if !replies.positionSaves { return Raised; }
        details, created := positionDetails, allCreated;
        if !replies.tradeSaves { return Raised; }
        children := if merge then children + orderIds else orderIds;
      }
      return Success(orderIds);
    }
  }

  // ---------------------------------------------------------------- what a batch records

  ghost predicate LastAcceptedOf(specs: seq<Spec>, orders: seq<Option<OrderId>>, t: string, i: nat)
    requires |specs| == |orders|
  {
    && i < |specs| && specs[i].spreadType == t && orders[i].Some?
    && forall j :: i < j < |specs| && specs[j].spreadType == t ==> orders[j].None?
  }

  /** The details name exactly the accepted spread types, each with its last accepted order. */
  lemma {:induction false} NewTargetsAreTheLastAccepted(specs: seq<Spec>, orders: seq<Option<OrderId>>, t: string)
    requires |specs| == |orders|
    ensures t in NewTargets(specs, orders) <==> exists i: nat :: LastAcceptedOf(specs, orders, t, i)
    ensures forall i: nat :: LastAcceptedOf(specs, orders, t, i) ==>
              t in NewTargets(specs, orders) && NewTargets(specs, orders)[t] == TargetOf(specs[i], orders[i].value)
  {
    if specs != [] {
      var n := |specs| - 1;
      NewTargetsAreTheLastAccepted(specs[..n], orders[..n], t);
      if specs[n].spreadType == t && orders[n].Some? {
        assert LastAcceptedOf(specs, orders, t, n);
      } else {
        forall i: nat
          ensures LastAcceptedOf(specs, orders, t, i) <==> LastAcceptedOf(specs[..n], orders[..n], t, i)
        {
        }
      }
    }
  }

  lemma {:induction false} AcceptedMembers(orders: seq<Option<OrderId>>)
    ensures forall id :: id in Accepted(orders) <==> Some(id) in orders
  {
    if orders != [] {
      var n := |orders| - 1;
      assert orders == orders[..n] + [orders[n]];
      AcceptedMembers(orders[..n]);
    }
  }

  lemma {:induction false} NewTargetIdsAreAccepted(specs: seq<Spec>, orders: seq<Option<OrderId>>)
    requires |specs| == |orders|
    ensures forall t :: t in NewTargets(specs, orders) ==> NewTargets(specs, orders)[t].orderId in Accepted(orders)
    ensures Accepted(orders) != [] ==> NewTargets(specs, orders).Keys != {}
  {
    if specs != [] {
      var n := |specs| - 1;
      NewTargetIdsAreAccepted(specs[..n], orders[..n]);
      assert orders[n].Some? ==> specs[n].spreadType in NewTargets(specs, orders).Keys;
    }
  }

  // ---------------------------------------------------------------- invariant over call sequences

  /** Every order named by the position is a child order of the opening trade. */
  ghost predicate Linked(book: Book) {
    forall t :: t in book.details ==> book.details[t].orderId in book.children
  }

  /** For a known strategy the derived flag says whether every expected target is present. */
  ghost predicate FlagExact(book: Book, expected: Option<nat>) {
    expected.Some? ==> (book.created <==> |book.details| == expected.value)
  }

  datatype Call = Call(offered: seq<Spec>, merge: bool, filter: seq<string>, replies: Replies)

  ghost predicate WellFormed(call: Call) {
    |call.replies.orders| == |Selected(call.offered, call.filter)|
  }

  function Apply(book: Book, expected: Option<nat>, call: Call): Book
    requires WellFormed(call)
  {
    if Selected(call.offered, call.filter) == [] then book
    else Recorded(book, expected, Selected(call.offered, call.filter), call.replies, call.merge)
  }

  function Run(book: Book, expected: Option<nat>, calls: seq<Call>): Book
    requires forall c :: c in calls ==> WellFormed(c)
  {
    if calls == [] then book
    else Apply(Run(book, expected, calls[..|calls| - 1]), expected, calls[|calls| - 1])
  }

  // ---------------------------------------------------------------- what one call leaves behind

  /** Position n of the answers is where the k-th accepted id came from. */
  ghost predicate AcceptedAt(orders: seq<Option<OrderId>>, k: nat, n: nat) {
    && n < |orders| && k < |Accepted(orders)| && orders[n] == Some(Accepted(orders)[k])
    && |Accepted(orders[..n])| == k
  }

  /** Accepted ids keep the order of submission: the k-th one has exactly k accepted answers before it. */
  lemma {:induction false} AcceptedInOrder(orders: seq<Option<OrderId>>, k: nat)
    requires k < |Accepted(orders)|
    ensures exists n: nat :: AcceptedAt(orders, k, n)
  {
    var last := |orders| - 1;
    if k < |Accepted(orders[..last])| {
      AcceptedInOrder(orders[..last], k);
      var n: nat :| AcceptedAt(orders[..last], k, n);
      assert orders[..last][..n] == orders[..n];
      assert AcceptedAt(orders, k, n);
    } else {
      assert AcceptedAt(orders, k, last);
    }
  }

  lemma {:induction false} AllAcceptedIff(orders: seq<Option<OrderId>>)
    ensures |Accepted(orders)| <= |orders|
    ensures |Accepted(orders)| == |orders| <==> forall i :: 0 <= i < |orders| ==> orders[i].Some?
  {
    if orders != [] {
      AllAcceptedIff(orders[..|orders| - 1]);
      assert forall i :: 0 <= i < |orders| - 1 ==> orders[..|orders| - 1][i] == orders[i];
    }
  }

  /** The target kept for an accepted specification. */
  ghost predicate Names(details: map<string, Target>, spec: Spec, id: OrderId) {
    && spec.spreadType in details
    && details[spec.spreadType].orderId == id
    && details[spec.spreadType].percent == spec.percent
    && details[spec.spreadType].price == spec.limitPrice
  }

  /** Something was accepted and both rows were saved. */
  ghost predicate Recording(call: Call)
    requires WellFormed(call)
  {
    Accepted(call.replies.orders) != [] && call.replies.positionSaves && call.replies.tradeSaves
  }

  ghost predicate HasAccepted(call: Call, t: string)
    requires WellFormed(call)
  {
    exists i: nat :: LastAcceptedOf(Selected(call.offered, call.filter), call.replies.orders, t, i)
  }

  /** Every accepted type is recorded with its last accepted order. */
  ghost predicate RecordsAccepted(details: map<string, Target>, call: Call)
    requires WellFormed(call)
  {
    var specs := Selected(call.offered, call.filter);
    forall t, i: nat :: LastAcceptedOf(specs, call.replies.orders, t, i) ==>
      Names(details, specs[i], call.replies.orders[i].value)
  }

  /** A replacing call forgets what was there: details and children are those of the call alone. */
  lemma ReplacingCall(book: Book, expected: Option<nat>, call: Call)
    requires WellFormed(call) && Recording(call) && !call.merge
    ensures var after := Apply(book, expected, call);
            && (forall t :: t in after.details <==> HasAccepted(call, t))
            && RecordsAccepted(after.details, call)
            && after.children == Accepted(call.replies.orders)
  {
    forall t
      ensures t in Apply(book, expected, call).details <==> HasAccepted(call, t)
    {
      NewTargetsAreTheLastAccepted(Selected(call.offered, call.filter), call.replies.orders, t);
    }
    NewTargetsRecord(call);
  }

  lemma NewTargetsRecord(call: Call)
    requires WellFormed(call)
    ensures RecordsAccepted(NewTargets(Selected(call.offered, call.filter), call.replies.orders), call)
  {
    var specs := Selected(call.offered, call.filter);
    forall t, i: nat | LastAcceptedOf(specs, call.replies.orders, t, i)
      ensures Names(NewTargets(specs, call.replies.orders), specs[i], call.replies.orders[i].value)
    {
      NewTargetsAreTheLastAccepted(specs, call.replies.orders, t);
    }
  }

  /** A merging call keeps every type it got no order for, and appends the new children. */
  lemma MergingCall(book: Book, expected: Option<nat>, call: Call)
    requires WellFormed(call) && Recording(call) && call.merge
    ensures var after := Apply(book, expected, call);
            && (forall t :: t in after.details <==> t in book.details || HasAccepted(call, t))
            && (forall t :: t in book.details && !HasAccepted(call, t) ==> after.details[t] == book.details[t])
            && RecordsAccepted(after.details, call)
            && after.children == book.children + Accepted(call.replies.orders)
  {
    var specs := Selected(call.offered, call.filter);
    var added := NewTargets(specs, call.replies.orders);
    forall t
      ensures t in added <==> HasAccepted(call, t)
    {
      NewTargetsAreTheLastAccepted(specs, call.replies.orders, t);
    }
    NewTargetsRecord(call);
    assert Apply(book, expected, call).details == book.details + added;
  }

  /** Without an expected count the flag says that the broker refused nothing. */
  lemma UnknownStrategyFlag(book: Book, call: Call)
    requires WellFormed(call) && Accepted(call.replies.orders) != [] && call.replies.positionSaves
    ensures Apply(book, None, call).created
            <==> forall i :: 0 <= i < |call.replies.orders| ==> call.replies.orders[i].Some?
  {
    AllAcceptedIff(call.replies.orders);
  }

  /** A failing position save leaves both rows; a failing trade save leaves the children. */
  lemma FailingSaves(book: Book, expected: Option<nat>, call: Call)
    requires WellFormed(call)
    ensures Accepted(call.replies.orders) == [] || !call.replies.positionSaves ==> Apply(book, expected, call) == book
    ensures !call.replies.tradeSaves ==>
              var saved := call.(replies := call.replies.(tradeSaves := true));
              Apply(book, expected, call) == Apply(book, expected, saved).(children := book.children)
  {
  }

  /** The one failure that separates the rows: the position is saved and the trade is not. */
  predicate Torn(call: Call) {
    Accepted(call.replies.orders) != [] && call.replies.positionSaves && !call.replies.tradeSaves
  }

  lemma ApplyKeepsFlag(book: Book, expected: Option<nat>, call: Call)
    requires WellFormed(call) && FlagExact(book, expected)
    ensures FlagExact(Apply(book, expected, call), expected)
  {
  }

  /**
    A call keeps the rows linked exactly when it is not torn.  Broker order ids are
    new, so a torn call always leaves an id that the trade does not list.
   */
  lemma ApplyKeepsLinkedIffNotTorn(book: Book, expected: Option<nat>, call: Call)
    requires WellFormed(call) && Linked(book)
    requires forall id :: id in Accepted(call.replies.orders) ==> id !in book.children
    ensures Linked(Apply(book, expected, call)) <==> !Torn(call)
  {
    var specs := Selected(call.offered, call.filter);
    NewTargetIdsAreAccepted(specs, call.replies.orders);
    var after := Apply(book, expected, call);
    if Torn(call) {
      var t :| t in NewTargets(specs, call.replies.orders).Keys;
      assert t in after.details && after.details[t] == NewTargets(specs, call.replies.orders)[t];
      assert after.details[t].orderId !in after.children;
    } else {
      forall t | t in after.details
        ensures after.details[t].orderId in after.children
      {
        assert t in NewTargets(specs, call.replies.orders) || t in book.details;
      }
    }
  }

  lemma ApplyKeepsLinked(book: Book, expected: Option<nat>, call: Call)
    requires WellFormed(call) && Linked(book) && !Torn(call)
    ensures Linked(Apply(book, expected, call))
  {
    var specs := Selected(call.offered, call.filter);
    NewTargetIdsAreAccepted(specs, call.replies.orders);
    var after := Apply(book, expected, call);
    forall t | t in after.details
      ensures after.details[t].orderId in after.children
    {
      assert t in NewTargets(specs, call.replies.orders) || t in book.details;
    }
  }

  /** Any number of calls, merging or replacing, with any filter and any rejections. */
  lemma {:induction false} RunKeepsBookExact(strategy: string, calls: seq<Call>)
    requires forall c :: c in calls ==> WellFormed(c)
    ensures var expected := ExpectedCount(strategy);
            && FlagExact(Run(EMPTY_BOOK, expected, calls), expected)
            && ((forall c :: c in calls ==> !Torn(c)) ==> Linked(Run(EMPTY_BOOK, expected, calls)))
  {
    var expected := ExpectedCount(strategy);
    if calls != [] {
      var rest := calls[..|calls| - 1];
      RunKeepsBookExact(strategy, rest);
      var last := calls[|calls| - 1];
      ApplyKeepsFlag(Run(EMPTY_BOOK, expected, rest), expected, last);
      if forall c :: c in calls ==> !Torn(c) {
        ApplyKeepsLinked(Run(EMPTY_BOOK, expected, rest), expected, last);
      }
    }
  }

  /** The broker hands out an id once: no call is given an id that is a child already. */
  ghost predicate NewIds(expected: Option<nat>, calls: seq<Call>)
    requires forall c :: c in calls ==> WellFormed(c)
  {
    forall n :: 0 <= n < |calls| ==> IdsAreNew(Run(EMPTY_BOOK, expected, calls[..n]), calls[n])
  }

  ghost predicate IdsAreNew(book: Book, call: Call) {
    forall id :: id in Accepted(call.replies.orders) ==> id !in book.children
  }

  ghost predicate LinkedAfter(expected: Option<nat>, calls: seq<Call>, n: nat)
    requires n <= |calls| && forall c :: c in calls ==> WellFormed(c)
  {
    Linked(Run(EMPTY_BOOK, expected, calls[..n]))
  }

  ghost predicate AlwaysLinked(expected: Option<nat>, calls: seq<Call>)
    requires forall c :: c in calls ==> WellFormed(c)
  {
    forall n: nat :: n <= |calls| ==> LinkedAfter(expected, calls, n)
  }

  predicate NeverTorn(calls: seq<Call>) {
    forall c :: c in calls ==> !Torn(c)
  }

  /** With new ids, the rows stay linked throughout a sequence of calls if and only if no call is torn. */
  lemma {:induction false} RunLinkedIffNeverTorn(expected: Option<nat>, calls: seq<Call>)
    requires (forall c :: c in calls ==> WellFormed(c)) && NewIds(expected, calls)
    ensures AlwaysLinked(expected, calls) <==> NeverTorn(calls)
  {
    if calls == [] {
      assert calls[..0] == [];
    } else {
      PrefixIdsNew(expected, calls);
      AlwaysLinkedSplits(expected, calls, calls[..|calls| - 1]);
      RunLinkedIffNeverTorn(expected, calls[..|calls| - 1]);
      LastCallLinks(expected, calls);
      TornSplits(calls);
    }
  }

  lemma TornSplits(calls: seq<Call>)
    requires calls != []
    ensures NeverTorn(calls) <==> NeverTorn(calls[..|calls| - 1]) && !Torn(calls[|calls| - 1])
  {
    assert calls == calls[..|calls| - 1] + [calls[|calls| - 1]];
  }

  lemma PrefixIdsNew(expected: Option<nat>, calls: seq<Call>)
    requires calls != [] && (forall c :: c in calls ==> WellFormed(c)) && NewIds(expected, calls)
    ensures forall c :: c in calls[..|calls| - 1] ==> WellFormed(c)
    ensures NewIds(expected, calls[..|calls| - 1])
  {
    var rest := calls[..|calls| - 1];
    forall n | 0 <= n < |rest|
      ensures IdsAreNew(Run(EMPTY_BOOK, expected, rest[..n]), rest[n])
    {
      assert rest[..n] == calls[..n] && rest[n] == calls[n];
    }
  }

  lemma PrefixLinked(expected: Option<nat>, calls: seq<Call>, rest: seq<Call>, k: nat)
    requires forall c :: c in calls ==> WellFormed(c)
    requires calls != [] && rest == calls[..|calls| - 1] && k <= |rest|
    ensures (forall c :: c in rest ==> WellFormed(c))
              && (LinkedAfter(expected, rest, k) <==> LinkedAfter(expected, calls, k))
  {
    assert rest[..k] == calls[..k];
  }

  lemma AlwaysLinkedSplits(expected: Option<nat>, calls: seq<Call>, rest: seq<Call>)
    requires (forall c :: c in calls ==> WellFormed(c)) && (forall c :: c in rest ==> WellFormed(c))
    requires calls != [] && rest == calls[..|calls| - 1]
    ensures AlwaysLinked(expected, calls) <==> AlwaysLinked(expected, rest) && LinkedAfter(expected, calls, |calls|)
    ensures AlwaysLinked(expected, rest) ==> LinkedAfter(expected, calls, |rest|)
  {
    forall k: nat | k <= |rest|
      ensures LinkedAfter(expected, rest, k) <==> LinkedAfter(expected, calls, k)
    {
      PrefixLinked(expected, calls, rest, k);
    }
    assert LinkedAfter(expected, rest, |rest|) <==> LinkedAfter(expected, calls, |rest|);
  }

  /** From linked rows, the last call keeps them linked exactly if it is not torn. */
  lemma LastCallLinks(expected: Option<nat>, calls: seq<Call>)
    requires calls != [] && (forall c :: c in calls ==> WellFormed(c)) && NewIds(expected, calls)
    ensures LinkedAfter(expected, calls, |calls| - 1) ==>
              (LinkedAfter(expected, calls, |calls|) <==> !Torn(calls[|calls| - 1]))
  {
    var n := |calls| - 1;
    assert calls[..n + 1] == calls;
    assert IdsAreNew(Run(EMPTY_BOOK, expected, calls[..n]), calls[n]);
    if LinkedAfter(expected, calls, n) {
      ApplyKeepsLinkedIffNotTorn(Run(EMPTY_BOOK, expected, calls[..n]), expected, calls[n]);
    }
  }

  // ---------------------------------------------------------------- retrying converges

  ghost predicate DistinctTypes(specs: seq<Spec>) {
    forall i, j :: 0 <= i < j < |specs| ==> specs[i].spreadType != specs[j].spreadType
  }

  function Types(specs: seq<Spec>): set<string> {
    set s | s in specs :: s.spreadType
  }

  /** The spread types the strategy offers that have no target yet, in order. */
  function Missing(book: Book, offered: seq<Spec>): seq<string> {
    if offered == [] then []
    else
      var last := offered[|offered| - 1];
      var rest := Missing(book, offered[..|offered| - 1]);
      if last.spreadType in book.details then rest else rest + [last.spreadType]
  }

  function Retry(offered: seq<Spec>, book: Book, replies: Replies): Call {
    Call(offered, true, Missing(book, offered), replies)
  }

  lemma TypesSplit(specs: seq<Spec>)
    requires specs != []
    ensures var n := |specs| - 1; Types(specs) == Types(specs[..n]) + {specs[n].spreadType}
    ensures DistinctTypes(specs) ==> specs[|specs| - 1].spreadType !in Types(specs[..|specs| - 1])
  {
    var n := |specs| - 1;
    assert specs == specs[..n] + [specs[n]];
  }

  lemma {:induction false} TypesCount(specs: seq<Spec>)
    requires DistinctTypes(specs)
    ensures |Types(specs)| == |specs|
  {
    if specs != [] {
      TypesSplit(specs);
      TypesCount(specs[..|specs| - 1]);
    }
  }

  lemma {:induction false} MissingTypes(book: Book, offered: seq<Spec>)
    ensures forall t :: t in Missing(book, offered) <==> t in Types(offered) && t !in book.details
  {
    if offered != [] {
      TypesSplit(offered);
      MissingTypes(book, offered[..|offered| - 1]);
    }
  }

  lemma {:induction false} KeepTypes(specs: seq<Spec>, types: seq<string>)
    ensures forall t :: t in Types(Keep(specs, types)) <==> t in Types(specs) && t in types
    ensures DistinctTypes(specs) ==> DistinctTypes(Keep(specs, types))
  {
    if specs != [] {
      var n := |specs| - 1;
      var kept := Keep(specs, types);
      var rest := Keep(specs[..n], types);
      TypesSplit(specs);
      KeepTypes(specs[..n], types);
      if specs[n].spreadType in types {
        assert kept[..|kept| - 1] == rest;
        TypesSplit(kept);
        if DistinctTypes(specs) {
          assert forall i :: 0 <= i < |rest| ==> rest[i].spreadType in Types(rest);
        }
      }
    }
  }

  lemma {:induction false} DistinctTargetsCount(specs: seq<Spec>, orders: seq<Option<OrderId>>)
    requires |specs| == |orders| && DistinctTypes(specs)
    ensures |NewTargets(specs, orders)| == |Accepted(orders)|
    ensures NewTargets(specs, orders).Keys <= Types(specs)
  {
    if specs != [] {
      TypesSplit(specs);
      DistinctTargetsCount(specs[..|specs| - 1], orders[..|specs| - 1]);
    }
  }

  /** Orders of a round that reach the position's row. */
  function RecordedCount(replies: Replies): nat {
    if replies.positionSaves then |Accepted(replies.orders)| else 0
  }

  /**
    One retry round: existing targets keep their order ids, and the number still
    missing drops by exactly the number of orders accepted, if the position is saved.
   */
  lemma RetryRound(expected: Option<nat>, offered: seq<Spec>, book: Book, replies: Replies)
    requires DistinctTypes(offered) && book.details.Keys <= Types(offered)
    requires Missing(book, offered) != []
    requires WellFormed(Retry(offered, book, replies))
    ensures var after := Apply(book, expected, Retry(offered, book, replies));
            && after.details.Keys <= Types(offered)
            && (forall t :: t in book.details ==> t in after.details && after.details[t] == book.details[t])
            && |after.details| == |book.details| + RecordedCount(replies)
            && (FlagExact(book, expected) ==> FlagExact(after, expected))
  {
    var specs := Keep(offered, Missing(book, offered));
    RetrySelection(offered, book);
    DistinctTargetsCount(specs, replies.orders);
    NewTargetIdsAreAccepted(specs, replies.orders);
    MergedCount(book.details, NewTargets(specs, replies.orders));
    assert Apply(book, expected, Retry(offered, book, replies)) == Recorded(book, expected, specs, replies, true);
  }

  /** What a retry submits: only types without a target, each once, and something. */
  lemma RetrySelection(offered: seq<Spec>, book: Book)
    requires DistinctTypes(offered) && Missing(book, offered) != []
    ensures var specs := Keep(offered, Missing(book, offered));
            specs != [] && DistinctTypes(specs) && Types(specs) <= Types(offered) && Types(specs) !! book.details.Keys
  {
    var types := Missing(book, offered);
    MissingTypes(book, offered);
    KeepTypes(offered, types);
    assert types[0] in types;
    assert types[0] in Types(Keep(offered, types));
  }

  lemma MergedCount(kept: map<string, Target>, added: map<string, Target>)
    requires added.Keys !! kept.Keys
    ensures |kept + added| == |kept| + |added|
    ensures (kept + added).Keys == kept.Keys + added.Keys
  {
    assert (kept + added).Keys == kept.Keys + added.Keys;
    assert |(kept + added).Keys| == |kept.Keys| + |added.Keys|;
  }

  function TotalRecorded(rounds: seq<Replies>): nat {
    if rounds == [] then 0 else RecordedCount(rounds[0]) + TotalRecorded(rounds[1..])
  }

  ghost predicate RoundsFit(expected: Option<nat>, offered: seq<Spec>, book: Book, rounds: seq<Replies>)
    decreases |rounds|
  {
    rounds == [] || (
      && Missing(book, offered) != []
      && WellFormed(Retry(offered, book, rounds[0]))
      && RoundsFit(expected, offered, Apply(book, expected, Retry(offered, book, rounds[0])), rounds[1..]))
  }

  /** Repeated merge-and-filter retries that stop when nothing is missing. */
  function RetryAll(expected: Option<nat>, offered: seq<Spec>, book: Book, rounds: seq<Replies>): Book
    requires RoundsFit(expected, offered, book, rounds)
    decreases |rounds|
  {
    if rounds == [] then book
    else RetryAll(expected, offered, Apply(book, expected, Retry(offered, book, rounds[0])), rounds[1..])
  }

  /** Over the rounds the gap closes by the accepted orders, nothing is lost and the flag stays exact. */
  lemma {:induction false} RetriesKeep(expected: Option<nat>, offered: seq<Spec>, book: Book, rounds: seq<Replies>)
    requires DistinctTypes(offered) && book.details.Keys <= Types(offered)
    requires FlagExact(book, expected) && RoundsFit(expected, offered, book, rounds)
    ensures var after := RetryAll(expected, offered, book, rounds);
            && (forall t :: t in book.details ==> t in after.details && after.details[t] == book.details[t])
            && |after.details| == |book.details| + TotalRecorded(rounds)
            && after.details.Keys <= Types(offered) && FlagExact(after, expected)
    decreases |rounds|
  {
    if rounds != [] {
      RetryRound(expected, offered, book, rounds[0]);
      RetriesKeep(expected, offered, Apply(book, expected, Retry(offered, book, rounds[0])), rounds[1..]);
    }
  }

  /**
    Retrying converges: existing targets stay, the gap closes by exactly the orders
    recorded, nothing is missing exactly when every offered type has a target, and then
    the flag of a known strategy is set if and only if the strategy offers as many
    targets as are expected of it.
   */
  lemma RetriesConverge(strategy: string, offered: seq<Spec>, book: Book, rounds: seq<Replies>)
    requires DistinctTypes(offered) && book.details.Keys <= Types(offered)
    requires FlagExact(book, ExpectedCount(strategy)) && RoundsFit(ExpectedCount(strategy), offered, book, rounds)
    ensures var expected := ExpectedCount(strategy);
            var after := RetryAll(expected, offered, book, rounds);
            && (forall t :: t in book.details ==> t in after.details && after.details[t] == book.details[t])
            && |after.details| == |book.details| + TotalRecorded(rounds) && FlagExact(after, expected)
            && (Missing(after, offered) == [] <==> |after.details| == |offered|)
            && (expected.Some? && Missing(after, offered) == [] ==> (after.created <==> |offered| == expected.value))
  {
    RetriesKeep(ExpectedCount(strategy), offered, book, rounds);
    MissingCount(RetryAll(ExpectedCount(strategy), offered, book, rounds), offered);
  }

  /** A trident without its call side offers two of the three targets expected: the flag is never set. */
  lemma ShortOfferNeverCompletes(strategy: string, offered: seq<Spec>, book: Book, rounds: seq<Replies>)
    requires DistinctTypes(offered) && book.details.Keys <= Types(offered)
    requires ExpectedCount(strategy).Some? && |offered| < ExpectedCount(strategy).value
    requires FlagExact(book, ExpectedCount(strategy)) && RoundsFit(ExpectedCount(strategy), offered, book, rounds)
    ensures !RetryAll(ExpectedCount(strategy), offered, book, rounds).created
  {
    var after := RetryAll(ExpectedCount(strategy), offered, book, rounds);
    RetriesKeep(ExpectedCount(strategy), offered, book, rounds);
    TypesCount(offered);
    SubsetCount(after.details.Keys, Types(offered));
  }

  lemma SubsetCount(a: set<string>, b: set<string>)
    requires a <= b
    ensures |a| <= |b|
  {
    assert b == a + (b - a);
  }

  /** Nothing is missing exactly when the details count reaches the number offered. */
  lemma MissingCount(book: Book, offered: seq<Spec>)
    requires DistinctTypes(offered) && book.details.Keys <= Types(offered)
    ensures Missing(book, offered) == [] <==> |book.details| == |offered|
  {
    TypesCount(offered);
    MissingTypes(book, offered);
    var absent := Types(offered) - book.details.Keys;
    assert Types(offered) == book.details.Keys + absent;
    assert |Types(offered)| == |book.details.Keys| + |absent|;
    if Missing(book, offered) == [] {
      assert absent == {};
    } else {
      assert Missing(book, offered)[0] in absent;
    }
  }

  /**
    Retrying once nothing is missing is not a no-op: the filter is empty, an empty
    filter selects everything, and every accepted order replaces an existing target.
   */
  lemma RetryWithNothingMissingResubmitsAll(
    expected: Option<nat>, offered: seq<Spec>, book: Book, replies: Replies, i: nat)
    requires DistinctTypes(offered) && Missing(book, offered) == []
    requires WellFormed(Retry(offered, book, replies)) && replies.positionSaves
    requires i < |offered| && replies.orders[i].Some?
    ensures var after := Apply(book, expected, Retry(offered, book, replies));
            && offered[i].spreadType in after.details
            && after.details[offered[i].spreadType].orderId == replies.orders[i].value
  {
    NewTargetsAreTheLastAccepted(offered, replies.orders, offered[i].spreadType);
    assert LastAcceptedOf(offered, replies.orders, offered[i].spreadType, i);
    AcceptedMembers(replies.orders);
  }
}
