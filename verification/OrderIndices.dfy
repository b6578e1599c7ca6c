/**
  The order indices of scripts/qqq_assignment_report.py and the assignment analysis
  that reads them.  The specification is a scan over every leg of every order.
 */
module OrderIndices {
  import opened Prelude
  import opened Text

  datatype OrderLeg = OrderLeg(symbol: string, action: string, quantity: real)

  datatype Order = Order(id: int, complexId: Option<int>, status: string, legs: seq<OrderLeg>)

  datatype LegRecord = LegRecord(orderId: int, complexId: Option<int>, action: string, quantity: real, status: string)

  /** A leg record under its symbol. */
  datatype Entry = Entry(symbol: string, record: LegRecord)

  datatype Partner = Partner(symbol: string, action: string, quantity: real, open: bool)

  datatype Match = Match(orderId: int, complexId: Option<int>, partners: seq<Partner>)

  datatype Message = NoMessage | NoOriginatingOrder | NoPartnerLegs

  datatype Analysis = Analysis(symbol: string, matches: seq<Match>, message: Message)

  /** A missing or zero complex id does not count as one. */
  predicate Complex(id: Option<int>) {
    id.Some? && id.value != 0
  }

  type SymbolIndex = map<string, seq<LegRecord>>

  type ComplexIndex = map<Option<int>, seq<Entry>>

  type OrderIndex = map<int, seq<Entry>>

  // ---------------------------------------------------------------- brute force

  function RecordOf(order: Order, leg: OrderLeg): LegRecord {
    LegRecord(order.id, order.complexId, leg.action, leg.quantity, order.status)
  }

  function LegEntries(order: Order, legs: seq<OrderLeg>): seq<Entry> {
    if legs == [] then []
    else
      var leg := legs[|legs| - 1];
      var before := LegEntries(order, legs[..|legs| - 1]);
      if Strip(leg.symbol) != "" then before + [Entry(Strip(leg.symbol), RecordOf(order, leg))] else before
  }

  /** Every non-blank leg of every order, in order. */
  function AllEntries(orders: seq<Order>): seq<Entry> {
    if orders == [] then []
    else
      var order := orders[|orders| - 1];
      AllEntries(orders[..|orders| - 1]) + LegEntries(order, order.legs)
  }

  function WithSymbol(entries: seq<Entry>, symbol: string): seq<LegRecord> {
    if entries == [] then []
    else
      var e := entries[|entries| - 1];
      var before := WithSymbol(entries[..|entries| - 1], symbol);
      if e.symbol == symbol then before + [e.record] else before
  }

  function WithComplexId(entries: seq<Entry>, id: Option<int>): seq<Entry> {
    if entries == [] then []
    else
      var e := entries[|entries| - 1];
      var before := WithComplexId(entries[..|entries| - 1], id);
      if e.record.complexId == id then before + [e] else before
  }

  function WithOrderId(entries: seq<Entry>, id: int): seq<Entry> {
    if entries == [] then []
    else
      var e := entries[|entries| - 1];
      var before := WithOrderId(entries[..|entries| - 1], id);
      if e.record.orderId == id then before + [e] else before
  }

  ghost predicate SymbolIndexed(entries: seq<Entry>, bySymbol: SymbolIndex) {
    && (forall s :: s in bySymbol ==> bySymbol[s] == WithSymbol(entries, s) && bySymbol[s] != [])
    && (forall s :: s !in bySymbol ==> WithSymbol(entries, s) == [])
  }

  ghost predicate ComplexIndexed(entries: seq<Entry>, byComplex: ComplexIndex) {
    && (forall c :: c in byComplex ==> Complex(c) && byComplex[c] == WithComplexId(entries, c) && byComplex[c] != [])
    && (forall c :: c !in byComplex && Complex(c) ==> WithComplexId(entries, c) == [])
  }

  ghost predicate OrderIndexed(entries: seq<Entry>, byOrder: OrderIndex) {
    && (forall o :: o in byOrder ==> byOrder[o] == WithOrderId(entries, o) && byOrder[o] != [])
    && (forall o :: o !in byOrder ==> WithOrderId(entries, o) == [])
  }

  /** The three indices agree with scanning `entries`. */
  ghost predicate Indexed(entries: seq<Entry>, bySymbol: SymbolIndex,
                          byComplex: ComplexIndex, byOrder: OrderIndex) {
    SymbolIndexed(entries, bySymbol) && ComplexIndexed(entries, byComplex) && OrderIndexed(entries, byOrder)
  }

  // ---------------------------------------------------------------- building the indices

  method BuildOrderIndices(orders: seq<Order>)
    returns (bySymbol: SymbolIndex, byComplex: ComplexIndex, byOrder: OrderIndex)
    ensures Indexed(AllEntries(orders), bySymbol, byComplex, byOrder)
  {
    bySymbol, byComplex, byOrder := map[], map[], map[];
    for i := 0 to |orders|
      invariant Indexed(AllEntries(orders[..i]), bySymbol, byComplex, byOrder)
    {
      assert orders[..i + 1][..i] == orders[..i];
      ghost var before := AllEntries(orders[..i]);
      var order := orders[i];
      var legs := order.legs;
      assert before + LegEntries(order, legs[..0]) == before;
      for j := 0 to |legs|
        invariant Indexed(before + LegEntries(order, legs[..j]), bySymbol, byComplex, byOrder)
      {
        LegEntriesStep(before, order, legs, j);
        var symbol := Strip(legs[j].symbol);
        if symbol != "" {
          var record := LegRecord(order.id, order.complexId, legs[j].action, legs[j].quantity, order.status);
          bySymbol, byComplex, byOrder :=
              AddEntry(before + LegEntries(order, legs[..j]), Entry(symbol, record), bySymbol, byComplex, byOrder);
        }
      }
      assert legs[..|legs|] == legs;
    }
    assert orders[..|orders|] == orders;
  }

  lemma LegEntriesStep(before: seq<Entry>, order: Order, legs: seq<OrderLeg>, j: nat)
    requires j < |legs|
    ensures var symbol := Strip(legs[j].symbol);
            var sofar := before + LegEntries(order, legs[..j]);
            before + LegEntries(order, legs[..j + 1])
            == if symbol != "" then sofar + [Entry(symbol, RecordOf(order, legs[j]))] else sofar
  {
    assert legs[..j + 1][..j] == legs[..j];
  }

  function Appended<K, V>(m: map<K, seq<V>>, k: K, v: V): map<K, seq<V>> {
    m[k := (if k in m then m[k] else []) + [v]]
  }

  /** Three default-dictionary appends. */
  method AddEntry(ghost entries: seq<Entry>, e: Entry,
                  bySymbol: SymbolIndex, byComplex: ComplexIndex, byOrder: OrderIndex)
    returns (bySymbol': SymbolIndex, byComplex': ComplexIndex, byOrder': OrderIndex)
    requires Indexed(entries, bySymbol, byComplex, byOrder)
    ensures Indexed(entries + [e], bySymbol', byComplex', byOrder')
  {
    AppendToSymbols(entries, e, bySymbol);
    AppendToComplex(entries, e, byComplex);
    AppendToOrders(entries, e, byOrder);
    bySymbol' := Appended(bySymbol, e.symbol, e.record);
    byComplex' := if Complex(e.record.complexId) then Appended(byComplex, e.record.complexId, e) else byComplex;
    byOrder' := Appended(byOrder, e.record.orderId, e);
  }

  lemma AppendToSymbols(entries: seq<Entry>, e: Entry, m: SymbolIndex)
    requires SymbolIndexed(entries, m)
    ensures SymbolIndexed(entries + [e], Appended(m, e.symbol, e.record))
  {
    assert (entries + [e])[..|entries|] == entries;
  }

  lemma AppendToComplex(entries: seq<Entry>, e: Entry, m: ComplexIndex)
    requires ComplexIndexed(entries, m)
    ensures ComplexIndexed(entries + [e], if Complex(e.record.complexId) then Appended(m, e.record.complexId, e) else m)
  {
    assert (entries + [e])[..|entries|] == entries;
  }

  lemma AppendToOrders(entries: seq<Entry>, e: Entry, m: OrderIndex)
    requires OrderIndexed(entries, m)
    ensures OrderIndexed(entries + [e], Appended(m, e.record.orderId, e))
  {
    assert (entries + [e])[..|entries|] == entries;
  }

  datatype LongPut = LongPut(symbol: string, strike: Option<real>)

  predicate Names(p: LongPut, s: string) {
    p.symbol != "" && Strip(p.symbol) == s
  }

  /** The last put, among the first n, whose symbol strips to s. */
  predicate LastPutFor(puts: seq<LongPut>, n: nat, s: string, i: nat)
    requires n <= |puts|
  {
    && i < n && Names(puts[i], s)
    && forall j :: i < j < n ==> !Names(puts[j], s)
  }

  ghost predicate IsLastPut(puts: seq<LongPut>, n: nat, s: string, p: LongPut)
    requires n <= |puts|
  {
    exists i: nat :: LastPutFor(puts, n, s, i) && p == puts[i]
  }

  /** The look-up among the first n puts. */
  ghost predicate LooksUp(puts: seq<LongPut>, n: nat, lookup: map<string, LongPut>)
    requires n <= |puts|
  {
    && (forall i :: 0 <= i < n && puts[i].symbol != "" ==> Strip(puts[i].symbol) in lookup)
    && (forall s :: s in lookup ==> IsLastPut(puts, n, s, lookup[s]))
  }

  /** Every non-blank put is found under its stripped symbol, later ones replacing earlier ones. */
  method BuildOptionLookup(puts: seq<LongPut>) returns (lookup: map<string, LongPut>)
    ensures LooksUp(puts, |puts|, lookup)
  {
    lookup := map[];
    for n := 0 to |puts|
      invariant LooksUp(puts, n, lookup)
    {
      if puts[n].symbol != "" {
        var key := Strip(puts[n].symbol);
        LookupGrows(puts, n, lookup, key);
        lookup := lookup[key := puts[n]];
      } else {
        forall s | s in lookup
          ensures IsLastPut(puts, n + 1, s, lookup[s])
        {
          LastPutCarriesOver(puts, n, s, lookup[s]);
        }
      }
    }
  }

  lemma LastPutCarriesOver(puts: seq<LongPut>, n: nat, s: string, p: LongPut)
    requires n < |puts| && IsLastPut(puts, n, s, p) && !Names(puts[n], s)
    ensures IsLastPut(puts, n + 1, s, p)
  {
    var i: nat :| LastPutFor(puts, n, s, i) && p == puts[i];
    assert LastPutFor(puts, n + 1, s, i);
  }

  lemma LookupGrows(puts: seq<LongPut>, n: nat, lookup: map<string, LongPut>, key: string)
    requires n < |puts| && LooksUp(puts, n, lookup) && Names(puts[n], key)
    ensures LooksUp(puts, n + 1, lookup[key := puts[n]])
  {
    assert LastPutFor(puts, n + 1, key, n);
    forall s | s in lookup && s != key
      ensures IsLastPut(puts, n + 1, s, lookup[s])
    {
      LastPutCarriesOver(puts, n, s, lookup[s]);
    }
  }

  // ---------------------------------------------------------------- analysing assignments

  function PartnersIn(entries: seq<Entry>, symbol: string, open: set<string>): seq<Partner> {
    if entries == [] then []
    else
      var e := entries[|entries| - 1];
      var before := PartnersIn(entries[..|entries| - 1], symbol, open);
      if e.symbol == symbol then before
      else before + [Partner(e.symbol, e.record.action, e.record.quantity, e.symbol in open)]
  }

  /** The legs grouped with a record: same complex order if it has one, else same order. */
  function GroupedWith(entries: seq<Entry>, r: LegRecord): seq<Entry> {
    if Complex(r.complexId) then WithComplexId(entries, r.complexId) else WithOrderId(entries, r.orderId)
  }

  function MatchFor(entries: seq<Entry>, symbol: string, open: set<string>, r: LegRecord): Match {
    Match(r.orderId, r.complexId, PartnersIn(GroupedWith(entries, r), symbol, open))
  }

  function SeenIds(records: seq<LegRecord>): set<Option<int>> {
    if records == [] then {} else SeenIds(records[..|records| - 1]) + {records[|records| - 1].complexId}
  }

  lemma {:induction false} SeenIdsAreIds(records: seq<LegRecord>)
    ensures forall k :: 0 <= k < |records| ==> records[k].complexId in SeenIds(records)
    ensures forall id :: id in SeenIds(records) ==> exists k :: 0 <= k < |records| && records[k].complexId == id
  {
    if records != [] {
      var n := |records| - 1;
      SeenIdsAreIds(records[..n]);
      forall k | 0 <= k < |records| ensures records[k].complexId in SeenIds(records) {
        assert k < n ==> records[..n][k] == records[k];
      }
      forall id | id in SeenIds(records) ensures exists k :: 0 <= k < |records| && records[k].complexId == id {
        if id in SeenIds(records[..n]) {
          var k :| 0 <= k < n && records[..n][k].complexId == id;
          assert records[k].complexId == id;
        } else {
          assert records[n].complexId == id;
        }
      }
    }
  }

  /** One match per record, except that a complex order already matched is not repeated. */
  function MatchesFor(entries: seq<Entry>, symbol: string, open: set<string>, records: seq<LegRecord>): seq<Match> {
    if records == [] then []
    else
      var n := |records| - 1;
      var before := MatchesFor(entries, symbol, open, records[..n]);
      if Complex(records[n].complexId) && records[n].complexId in SeenIds(records[..n]) then before
      else before + [MatchFor(entries, symbol, open, records[n])]
  }

  function MessageFor(records: seq<LegRecord>, matches: seq<Match>): Message {
    if records == [] then NoOriginatingOrder
    else if forall i :: 0 <= i < |matches| ==> matches[i].partners == [] then NoPartnerLegs
    else NoMessage
  }

  /** The nested scan: no index anywhere. */
  function Scan(entries: seq<Entry>, rawSymbol: string, open: set<string>): Analysis {
    var symbol := Strip(rawSymbol);
    var records := WithSymbol(entries, symbol);
    var matches := MatchesFor(entries, symbol, open, records);
    Analysis(symbol, matches, MessageFor(records, matches))
  }

  method AnalyzeAssignments(transactions: seq<string>, bySymbol: SymbolIndex,
                            byComplex: ComplexIndex, byOrder: OrderIndex,
                            open: set<string>, ghost entries: seq<Entry>)
    returns (analysis: seq<Analysis>)
    requires Indexed(entries, bySymbol, byComplex, byOrder)
    ensures |analysis| == |transactions|
    ensures forall i :: 0 <= i < |transactions| ==> analysis[i] == Scan(entries, transactions[i], open)
  {
    analysis := [];
    for i := 0 to |transactions|
      invariant |analysis| == i
      invariant forall k :: 0 <= k < i ==> analysis[k] == Scan(entries, transactions[k], open)
    {
      var symbol := Strip(transactions[i]);
      var records := if symbol in bySymbol then bySymbol[symbol] else [];
      var matches := MatchRecords(symbol, records, byComplex, byOrder, open, entries, bySymbol);
      var message := NoMessage;
      if records == [] {
        message := NoOriginatingOrder;
      } else if forall k :: 0 <= k < |matches| ==> matches[k].partners == [] {
        message := NoPartnerLegs;
      }
      analysis := analysis + [Analysis(symbol, matches, message)];
    }
  }

  method MatchRecords(symbol: string, records: seq<LegRecord>, byComplex: ComplexIndex,
                      byOrder: OrderIndex, open: set<string>, ghost entries: seq<Entry>,
                      ghost bySymbol: SymbolIndex)
    returns (matches: seq<Match>)
    requires Indexed(entries, bySymbol, byComplex, byOrder)
    requires records == WithSymbol(entries, symbol)
    ensures matches == MatchesFor(entries, symbol, open, records)
  {
    matches := [];
    var seen: set<Option<int>> := {};
    for k := 0 to |records|
      invariant matches == MatchesFor(entries, symbol, open, records[..k])
      invariant seen == SeenIds(records[..k])
    {
      assert records[..k + 1][..k] == records[..k];
      var leg := records[k];
      if Complex(leg.complexId) && leg.complexId in seen {
        continue;
      }
      seen := seen + {leg.complexId};
      RecordIsIndexed(entries, symbol, k);
      var group := LookUpGroup(leg, byComplex, byOrder, entries, bySymbol);
      var partners := CollectPartners(group, symbol, open);
      matches := matches + [Match(leg.orderId, leg.complexId, partners)];
    }
    assert records[..|records|] == records;
  }

  /** The index lookups, complex order first. */
  method LookUpGroup(leg: LegRecord, byComplex: ComplexIndex, byOrder: OrderIndex,
                     ghost entries: seq<Entry>, ghost bySymbol: SymbolIndex)
    returns (group: seq<Entry>)
    requires Indexed(entries, bySymbol, byComplex, byOrder)
    requires WithOrderId(entries, leg.orderId) != [] && WithComplexId(entries, leg.complexId) != []
    ensures group == GroupedWith(entries, leg)
  {
    if Complex(leg.complexId) && leg.complexId in byComplex {
      return byComplex[leg.complexId];
    } else if leg.orderId in byOrder {
      return byOrder[leg.orderId];
    }
    return [];
  }

  method CollectPartners(group: seq<Entry>, symbol: string, open: set<string>) returns (partners: seq<Partner>)
    ensures partners == PartnersIn(group, symbol, open)
  {
    partners := [];
    for i := 0 to |group|
      invariant partners == PartnersIn(group[..i], symbol, open)
    {
      assert group[..i + 1][..i] == group[..i];
      if group[i].symbol == symbol {
        continue;
      }
      partners := partners + [Partner(group[i].symbol, group[i].record.action, group[i].record.quantity,
          group[i].symbol in open)];
    }
    assert group[..|group|] == group;
  }

  /** A record found under a symbol also appears in the scans by its own ids. */
  lemma {:induction false} RecordIsIndexed(entries: seq<Entry>, symbol: string, k: nat)
    requires k < |WithSymbol(entries, symbol)|
    ensures var r := WithSymbol(entries, symbol)[k];
            WithOrderId(entries, r.orderId) != [] && WithComplexId(entries, r.complexId) != []
  {
    var n := |entries| - 1;
    if k < |WithSymbol(entries[..n], symbol)| {
      RecordIsIndexed(entries[..n], symbol, k);
    }
  }

  // ---------------------------------------------------------------- what the analysis says

  lemma {:induction false} PartnersNeverTheSymbol(entries: seq<Entry>, symbol: string, open: set<string>, p: Partner)
    ensures p in PartnersIn(entries, symbol, open) <==>
              exists e :: e in entries && e.symbol != symbol
                          && p == Partner(e.symbol, e.record.action, e.record.quantity, e.symbol in open)
  {
    if entries != [] {
      var n := |entries| - 1;
      PartnersNeverTheSymbol(entries[..n], symbol, open, p);
      assert entries == entries[..n] + [entries[n]];
    }
  }

  lemma {:induction false} ScansSelect(entries: seq<Entry>, c: Option<int>, o: int, s: string)
    ensures forall e :: e in WithComplexId(entries, c) <==> e in entries && e.record.complexId == c
    ensures forall e :: e in WithOrderId(entries, o) <==> e in entries && e.record.orderId == o
    ensures forall r :: r in WithSymbol(entries, s) <==> Entry(s, r) in entries
  {
    if entries != [] {
      var n := |entries| - 1;
      ScansSelect(entries[..n], c, o, s);
      assert entries == entries[..n] + [entries[n]];
    }
  }

  lemma {:induction false} MatchesAreRecords(
      entries: seq<Entry>, symbol: string, open: set<string>, records: seq<LegRecord>)
    ensures forall m :: m in MatchesFor(entries, symbol, open, records) ==>
              exists r :: r in records && m == MatchFor(entries, symbol, open, r)
  {
    if records != [] {
      var n := |records| - 1;
      MatchesAreRecords(entries, symbol, open, records[..n]);
      assert records == records[..n] + [records[n]];
    }
  }

  /** No complex order is listed twice for one assignment. */
  lemma {:induction false} ComplexOrdersListedOnce(
    entries: seq<Entry>, symbol: string, open: set<string>, records: seq<LegRecord>)
    ensures var ms := MatchesFor(entries, symbol, open, records);
            forall i, j :: 0 <= i < j < |ms| && Complex(ms[i].complexId) ==> ms[i].complexId != ms[j].complexId
  {
    if records != [] {
      var n := |records| - 1;
      var before := MatchesFor(entries, symbol, open, records[..n]);
      ComplexOrdersListedOnce(entries, symbol, open, records[..n]);
      forall i | 0 <= i < |before|
        ensures before[i].complexId in SeenIds(records[..n])
      {
        MatchIdsAreSeen(entries, symbol, open, records[..n], before[i]);
      }
    }
  }

  lemma MatchIdsAreSeen(entries: seq<Entry>, symbol: string, open: set<string>, records: seq<LegRecord>, m: Match)
    requires m in MatchesFor(entries, symbol, open, records)
    ensures m.complexId in SeenIds(records)
  {
    MatchesAreRecords(entries, symbol, open, records);
    SeenIdsAreIds(records);
    var r :| r in records && m == MatchFor(entries, symbol, open, r);
    var k :| 0 <= k < |records| && records[k] == r;
  }

  /** Every record of the assigned symbol is listed, by itself or with its complex order. */
  lemma {:induction false} EveryRecordIsListed(
    entries: seq<Entry>, symbol: string, open: set<string>, records: seq<LegRecord>, k: nat)
    requires k < |records|
    ensures exists m :: m in MatchesFor(entries, symbol, open, records) && m.complexId == records[k].complexId
  {
    var n := |records| - 1;
    var before := MatchesFor(entries, symbol, open, records[..n]);
    var last := records[n];
    if k < n {
      EveryRecordIsListed(entries, symbol, open, records[..n], k);
      var m :| m in before && m.complexId == records[..n][k].complexId;
      assert m in MatchesFor(entries, symbol, open, records);
    } else if Complex(last.complexId) && last.complexId in SeenIds(records[..n]) {
      SeenIdsAreIds(records[..n]);
      var q :| 0 <= q < n && records[..n][q].complexId == last.complexId;
      EveryRecordIsListed(entries, symbol, open, records[..n], q);
    } else {
      assert MatchFor(entries, symbol, open, last) in MatchesFor(entries, symbol, open, records);
    }
  }

  /** In the analysis of any orders: partners are other symbols of the same complex order or order. */
  lemma ScanIsSound(orders: seq<Order>, rawSymbol: string, open: set<string>, m: Match, p: Partner)
    requires m in Scan(AllEntries(orders), rawSymbol, open).matches && p in m.partners
    ensures p.symbol != Strip(rawSymbol) && (p.open <==> p.symbol in open)
    ensures exists e :: e in AllEntries(orders) && e.symbol == p.symbol
                        && if Complex(m.complexId) then e.record.complexId == m.complexId
                             else e.record.orderId == m.orderId
  {
    var entries := AllEntries(orders);
    var symbol := Strip(rawSymbol);
    MatchesAreRecords(entries, symbol, open, WithSymbol(entries, symbol));
    var r :| r in WithSymbol(entries, symbol) && m == MatchFor(entries, symbol, open, r);
    PartnersNeverTheSymbol(GroupedWith(entries, r), symbol, open, p);
    ScansSelect(entries, r.complexId, r.orderId, symbol);
  }

  // ---------------------------------------------------------------- the analysis, by legs alone

  /** The leg with a symbol, as the scan lists it. */
  ghost predicate LegOf(order: Order, leg: OrderLeg, e: Entry) {
    && leg in order.legs && e.symbol == Strip(leg.symbol) && e.symbol != ""
    && e.record.orderId == order.id && e.record.complexId == order.complexId && e.record.status == order.status
    && e.record.action == leg.action && e.record.quantity == leg.quantity
  }

  lemma {:induction false} LegEntriesAreLegs(order: Order, legs: seq<OrderLeg>, e: Entry)
    requires forall leg :: leg in legs ==> leg in order.legs
    ensures e in LegEntries(order, legs) <==> exists leg :: leg in legs && LegOf(order, leg, e)
  {
    if legs != [] {
      var front, last := legs[..|legs| - 1], legs[|legs| - 1];
      assert legs == front + [last];
      LegEntriesAreLegs(order, front, e);
      assert LegOf(order, last, e) <==> e.symbol != "" && e == Entry(Strip(last.symbol), RecordOf(order, last));
    }
  }

  /** The entries are exactly the non-blank legs of the orders. */
  lemma {:induction false} EntriesAreLegs(orders: seq<Order>, e: Entry)
    ensures e in AllEntries(orders) <==> exists order, leg :: order in orders && LegOf(order, leg, e)
  {
    if orders != [] {
      var front, last := orders[..|orders| - 1], orders[|orders| - 1];
      assert orders == front + [last];
      EntriesAreLegs(front, e);
      LegEntriesAreLegs(last, last.legs, e);
    }
  }

  /** Same complex order where there is one, else the same order. */
  predicate Together(e: Entry, orderId: int, complexId: Option<int>) {
    if complexId.Some? && complexId.value != 0 then e.record.complexId == complexId else e.record.orderId == orderId
  }

  /** The entry is reported as this partner. */
  predicate Reports(p: Partner, e: Entry, open: set<string>) {
    && p.symbol == e.symbol && p.action == e.record.action && p.quantity == e.record.quantity
    && (p.open <==> e.symbol in open)
  }

  ghost predicate PartnersExact(entries: seq<Entry>, symbol: string, open: set<string>, m: Match) {
    forall p :: p in m.partners <==>
      exists e :: e in entries && e.symbol != symbol && Together(e, m.orderId, m.complexId) && Reports(p, e, open)
  }

  lemma MatchIsExact(entries: seq<Entry>, symbol: string, open: set<string>, r: LegRecord)
    ensures PartnersExact(entries, symbol, open, MatchFor(entries, symbol, open, r))
  {
    var m := MatchFor(entries, symbol, open, r);
    ScansSelect(entries, r.complexId, r.orderId, symbol);
    forall p
      ensures p in m.partners <==>
        exists e :: e in entries && e.symbol != symbol && Together(e, m.orderId, m.complexId) && Reports(p, e, open)
    {
      PartnersNeverTheSymbol(GroupedWith(entries, r), symbol, open, p);
    }
  }

  /** A record is listed by its complex order, or by itself if it has none. */
  lemma {:induction false} RecordHasItsMatch(
      entries: seq<Entry>, symbol: string, open: set<string>, records: seq<LegRecord>, k: nat)
    requires k < |records|
    ensures exists m :: m in MatchesFor(entries, symbol, open, records) && m.complexId == records[k].complexId
                        && (Complex(m.complexId) || m.orderId == records[k].orderId)
  {
    if Complex(records[k].complexId) {
      EveryRecordIsListed(entries, symbol, open, records, k);
    } else {
      PlainRecordIsListed(entries, symbol, open, records, k);
    }
  }

  lemma {:induction false} PlainRecordIsListed(
      entries: seq<Entry>, symbol: string, open: set<string>, records: seq<LegRecord>, k: nat)
    requires k < |records| && !Complex(records[k].complexId)
    ensures MatchFor(entries, symbol, open, records[k]) in MatchesFor(entries, symbol, open, records)
  {
    if k < |records| - 1 {
      PlainRecordIsListed(entries, symbol, open, records[..|records| - 1], k);
    }
  }

  /** What the analysis of one assignment lists. */
  ghost predicate ListsExactly(entries: seq<Entry>, open: set<string>, a: Analysis) {
    && (forall m :: m in a.matches ==>
         && PartnersExact(entries, a.symbol, open, m)
         && exists e :: e in entries && e.symbol == a.symbol && e.record.orderId == m.orderId
                        && e.record.complexId == m.complexId)
    && (forall e :: e in entries && e.symbol == a.symbol ==>
         exists m :: m in a.matches && m.complexId == e.record.complexId
                     && (Complex(m.complexId) || m.orderId == e.record.orderId))
  }

  /** Some leg with another symbol goes with a leg of the assigned one. */
  ghost predicate SomePartner(entries: seq<Entry>, symbol: string) {
    exists e, other ::
      e in entries && e.symbol == symbol && other in entries && other.symbol != symbol
      && Together(other, e.record.orderId, e.record.complexId)
  }

  ghost predicate SomeOrigin(entries: seq<Entry>, symbol: string) {
    exists e :: e in entries && e.symbol == symbol
  }

  lemma ScanListsExactly(entries: seq<Entry>, rawSymbol: string, open: set<string>)
    ensures Scan(entries, rawSymbol, open).symbol == Strip(rawSymbol)
    ensures ListsExactly(entries, open, Scan(entries, rawSymbol, open))
  {
    var symbol := Strip(rawSymbol);
    var records := WithSymbol(entries, symbol);
    var a := Scan(entries, rawSymbol, open);
    ScansSelect(entries, None, 0, symbol);
    MatchesAreRecords(entries, symbol, open, records);
    forall m | m in a.matches
      ensures PartnersExact(entries, symbol, open, m)
      ensures exists e :: e in entries && e.symbol == symbol && e.record.orderId == m.orderId
                          && e.record.complexId == m.complexId
    {
      var r :| r in records && m == MatchFor(entries, symbol, open, r);
      MatchIsExact(entries, symbol, open, r);
      assert Entry(symbol, r) in entries;
    }
    forall e | e in entries && e.symbol == symbol
      ensures exists m :: m in a.matches && m.complexId == e.record.complexId
                          && (Complex(m.complexId) || m.orderId == e.record.orderId)
    {
      assert e == Entry(symbol, e.record);
      var k :| 0 <= k < |records| && records[k] == e.record;
      RecordHasItsMatch(entries, symbol, open, records, k);
    }
  }

  /** The messages: no leg with the symbol at all, or legs that go with no other symbol. */
  lemma MessagesIff(entries: seq<Entry>, rawSymbol: string, open: set<string>)
    ensures var message := Scan(entries, rawSymbol, open).message;
            && (message == NoOriginatingOrder <==> !SomeOrigin(entries, Strip(rawSymbol)))
            && (message == NoPartnerLegs <==>
                 SomeOrigin(entries, Strip(rawSymbol)) && !SomePartner(entries, Strip(rawSymbol)))
  {
    var symbol := Strip(rawSymbol);
    var records := WithSymbol(entries, symbol);
    var matches := MatchesFor(entries, symbol, open, records);
    ScansSelect(entries, None, 0, symbol);
    assert records != [] ==> records[0] in records && Entry(symbol, records[0]) in entries;
    PartnersIff(entries, symbol, open);
    if exists i :: 0 <= i < |matches| && matches[i].partners != [] {
      var i :| 0 <= i < |matches| && matches[i].partners != [];
      assert matches[i] in matches;
    }
  }

  lemma PartnersIff(entries: seq<Entry>, symbol: string, open: set<string>)
    ensures (exists m :: m in MatchesFor(entries, symbol, open, WithSymbol(entries, symbol)) && m.partners != [])
            <==> SomePartner(entries, symbol)
  {
    var records := WithSymbol(entries, symbol);
    var matches := MatchesFor(entries, symbol, open, records);
    ScansSelect(entries, None, 0, symbol);
    if m :| m in matches && m.partners != [] {
      PartnersGiveSome(entries, symbol, open, m);
    }
    if SomePartner(entries, symbol) {
      var e, other :| e in entries && e.symbol == symbol && other in entries && other.symbol != symbol
                      && Together(other, e.record.orderId, e.record.complexId);
      assert e == Entry(symbol, e.record);
      var k :| 0 <= k < |records| && records[k] == e.record;
      RecordHasItsMatch(entries, symbol, open, records, k);
      var m :| m in matches && m.complexId == e.record.complexId
               && (Complex(m.complexId) || m.orderId == e.record.orderId);
      SomeGivesPartner(entries, symbol, open, m, other);
    }
  }

  lemma PartnersGiveSome(entries: seq<Entry>, symbol: string, open: set<string>, m: Match)
    requires m in MatchesFor(entries, symbol, open, WithSymbol(entries, symbol)) && m.partners != []
    ensures SomePartner(entries, symbol)
  {
    var records := WithSymbol(entries, symbol);
    ScansSelect(entries, None, 0, symbol);
    MatchesAreRecords(entries, symbol, open, records);
    var r :| r in records && m == MatchFor(entries, symbol, open, r);
    MatchIsExact(entries, symbol, open, r);
    assert m.partners[0] in m.partners;
    assert Entry(symbol, r) in entries;
  }

  lemma SomeGivesPartner(entries: seq<Entry>, symbol: string, open: set<string>, m: Match, other: Entry)
    requires m in MatchesFor(entries, symbol, open, WithSymbol(entries, symbol))
    requires other in entries && other.symbol != symbol && Together(other, m.orderId, m.complexId)
    ensures m.partners != []
  {
    MatchesAreRecords(entries, symbol, open, WithSymbol(entries, symbol));
    var r :| r in WithSymbol(entries, symbol) && m == MatchFor(entries, symbol, open, r);
    MatchIsExact(entries, symbol, open, r);
    var p := Partner(other.symbol, other.record.action, other.record.quantity, other.symbol in open);
    assert Reports(p, other, open);
    assert p in m.partners;
  }

  /** One partner for each leg of the group with another symbol. */
  lemma {:induction false} PartnersCount(entries: seq<Entry>, symbol: string, open: set<string>)
    ensures |PartnersIn(entries, symbol, open)| + |WithSymbol(entries, symbol)| == |entries|
  {
    if entries != [] {
      PartnersCount(entries[..|entries| - 1], symbol, open);
    }
  }
}
