/**
  Storing a symbol's price history, services/market_data/historical.py.

  The fast path is one transaction: insert every record ignoring conflicts, read the
  stored records back, change the ones that differ, write those in bulk.  If it fails
  anywhere the transaction rolls back and a slow path updates or creates row by row.
  Both are proved against one table: the last bar given for each date.
 */
module PriceHistory {
  import opened Prelude

  type Date = nat

  datatype Bar = Bar(open: real, high: real, low: real, close: real, volume: Option<int>)

  datatype Point = Point(date: Date, bar: Bar)

  /** The unique (symbol, date) column pair. */
  datatype Key = Key(symbol: string, date: Date)

  type Table = map<Key, Bar>

  /** Where the bulk transaction raises, if it does. */
  datatype Bulk = Commits | CreateRaises | ReadRaises | UpdateRaises | CommitRaises

  // ---------------------------------------------------------------- specification

  /** The last bar given for a date. */
  function LastBar(data: seq<Point>, d: Date): Option<Bar> {
    if data == [] then None
    else if data[|data| - 1].date == d then Some(data[|data| - 1].bar)
    else LastBar(data[..|data| - 1], d)
  }

  function Dates(data: seq<Point>): set<Date> {
    set p | p in data :: p.date
  }

  lemma {:induction false} LastBarOfDates(data: seq<Point>, d: Date)
    ensures d in Dates(data) <==> LastBar(data, d).Some?
  {
    if data != [] {
      var n := |data| - 1;
      LastBarOfDates(data[..n], d);
      assert data == data[..n] + [data[n]];
    }
  }

  function BarFor(data: seq<Point>, d: Date): Bar
    requires d in Dates(data)
  {
    LastBarOfDates(data, d);
    LastBar(data, d).value
  }

  /** The table with every given date set to its last bar, and nothing else changed. */
  function Stored(rows: Table, symbol: string, data: seq<Point>): Table {
    rows + (map d | d in Dates(data) :: Key(symbol, d) := BarFor(data, d))
  }

  /** Row by row: update the row of this date or create it. */
  function UpdateOrCreateAll(rows: Table, symbol: string, data: seq<Point>, saves: seq<bool>): Table
    requires |saves| == |data|
  {
    if data == [] then rows
    else
      var n := |data| - 1;
      var before := UpdateOrCreateAll(rows, symbol, data[..n], saves[..n]);
      if saves[n] then before[Key(symbol, data[n].date) := data[n].bar] else before
  }

  predicate AllSave(saves: seq<bool>) {
    forall i :: 0 <= i < |saves| ==> saves[i]
  }

  function Count(saves: seq<bool>): nat {
    if saves == [] then 0 else Count(saves[..|saves| - 1]) + (if saves[|saves| - 1] then 1 else 0)
  }

  lemma StoredStep(rows: Table, symbol: string, data: seq<Point>)
    requires data != []
    ensures var n := |data| - 1;
            Stored(rows, symbol, data) == Stored(rows, symbol, data[..n])[Key(symbol, data[n].date) := data[n].bar]
  {
    var n := |data| - 1;
    assert data == data[..n] + [data[n]];
    assert Dates(data) == Dates(data[..n]) + {data[n].date};
    var left := Stored(rows, symbol, data);
    var right := Stored(rows, symbol, data[..n])[Key(symbol, data[n].date) := data[n].bar];
    forall k
      ensures (k in left <==> k in right) && (k in left ==> left[k] == right[k])
    {
      if k.symbol == symbol && k.date in Dates(data) {
        assert k == Key(symbol, k.date);
        LastBarOfDates(data, k.date);
        LastBarOfDates(data[..n], k.date);
      }
    }
  }

  /** The points whose row was saved. */
  function Saved(data: seq<Point>, saves: seq<bool>): seq<Point>
    requires |saves| == |data|
  {
    if data == [] then []
    else
      var n := |data| - 1;
      if saves[n] then Saved(data[..n], saves[..n]) + [data[n]] else Saved(data[..n], saves[..n])
  }

  lemma StoredAppend(rows: Table, symbol: string, data: seq<Point>, p: Point)
    ensures Stored(rows, symbol, data + [p]) == Stored(rows, symbol, data)[Key(symbol, p.date) := p.bar]
  {
    assert (data + [p])[..|data|] == data;
    StoredStep(rows, symbol, data + [p]);
  }

  lemma StoredNothing(rows: Table, symbol: string)
    ensures Stored(rows, symbol, []) == rows
  {
  }

  /** The slow path stores exactly the points whose save succeeded; a failing row disturbs no other. */
  lemma {:induction false} RowByRowStoresSaved(rows: Table, symbol: string, data: seq<Point>, saves: seq<bool>)
    requires |saves| == |data|
    ensures UpdateOrCreateAll(rows, symbol, data, saves) == Stored(rows, symbol, Saved(data, saves))
  {
    if data == [] {
      StoredNothing(rows, symbol);
    } else {
      var n := |data| - 1;
      RowByRowStoresSaved(rows, symbol, data[..n], saves[..n]);
      StoredAppend(rows, symbol, Saved(data[..n], saves[..n]), data[n]);
    }
  }

  lemma {:induction false} AllSaved(data: seq<Point>, saves: seq<bool>)
    requires |saves| == |data| && AllSave(saves)
    ensures Saved(data, saves) == data
  {
    if data != [] {
      AllSaved(data[..|data| - 1], saves[..|data| - 1]);
    }
  }

  // ---------------------------------------------------------------- the table

  /** What the transaction adds to the count before it raises: all rows given, then the rewrites. */
  function Counted(rows: Table, symbol: string, data: seq<Point>, bulk: Bulk): nat {
    match bulk
    case CreateRaises => 0
    case ReadRaises => |data|
    case UpdateRaises => |data|
    case CommitRaises => |data| + Rewrites(rows, symbol, data)
    case Commits => |data| + Rewrites(rows, symbol, data)
  }

  class PriceTable {
    var rows: Table

    constructor (rows: Table)
      ensures this.rows == rows
    {
      this.rows := rows;
    }

    method StoreInDatabase(symbol: string, data: seq<Point>, bulk: Bulk, saves: seq<bool>) returns (count: nat)
      requires |saves| == |data|
      modifies this
      ensures data == [] ==> rows == old(rows) && count == 0
      ensures bulk == Commits ==>
                rows == Stored(old(rows), symbol, data) && count == |data| + Rewrites(old(rows), symbol, data)
      ensures bulk != Commits && data != [] ==>
                && rows == UpdateOrCreateAll(old(rows), symbol, data, saves)
                && count == Count(saves) + Counted(old(rows), symbol, data, bulk)
    {
      count := 0;
      if data == [] {
        assert Stored(rows, symbol, data) == rows;
        return;
      }
      var before := rows;
      var created, updated := BulkStore(symbol, data, bulk);
      count := created + updated;
      if bulk == Commits { return; }
      rows := before;  // the transaction rolls back
      for i := 0 to |data|
        invariant rows == UpdateOrCreateAll(before, symbol, data[..i], saves[..i])
        invariant count == created + updated + Count(saves[..i])
      {
        assert data[..i + 1][..i] == data[..i] && saves[..i + 1][..i] == saves[..i];
        if saves[i] {
          rows := rows[Key(symbol, data[i].date) := data[i].bar];
          count := count + 1;
        }
      }
      assert data[..|data|] == data && saves[..|saves|] == saves;
    }

    /** The transaction's body, up to the statement that raises. */
    method BulkStore(symbol: string, data: seq<Point>, bulk: Bulk) returns (created: nat, updated: nat)
      requires data != []
      modifies this
      ensures created + updated == Counted(old(rows), symbol, data, bulk)
      ensures bulk in {Commits, CommitRaises} ==> rows == Stored(old(rows), symbol, data)
    {
      created, updated := 0, 0;
      if bulk == CreateRaises { return; }
      InsertIgnoringConflicts(symbol, data);
      created := |data|;
      if bulk == ReadRaises { return; }
      ghost var inserted := rows;
      var records, updates := CompareWithStored(symbol, data, old(rows));
      if bulk == UpdateRaises { return; }
      WriteUpdates(symbol, records, updates);
      updated := |updates|;
      BulkEqualsStored(old(rows), inserted, rows, symbol, data, records, updates);
    }

    /** One mutable copy per stored date; a copy that differs from a point is changed and noted. */
    method CompareWithStored(symbol: string, data: seq<Point>, ghost before: Table)
      returns (records: map<Date, Bar>, updates: seq<Date>)
      requires Inserted(before, rows, symbol, data)
      ensures records.Keys == Dates(data)
      ensures forall d :: d in records ==> records[d] == InMemory(rows, symbol, data, d)
      ensures forall d :: d in records && records[d] != rows[Key(symbol, d)] ==> d in updates
      ensures forall d :: d in updates ==> d in records
      ensures |updates| == Rewrites(before, symbol, data)
    {
      records := map d | d in Dates(data) :: rows[Key(symbol, d)];
      updates := [];
      for i := 0 to |data|
        invariant records.Keys == Dates(data)
        invariant forall d :: d in records ==> records[d] == InMemory(rows, symbol, data[..i], d)
        invariant forall d :: d in records && records[d] != rows[Key(symbol, d)] ==> d in updates
        invariant forall d :: d in updates ==> d in records
        invariant |updates| == Rewrites(before, symbol, data[..i])
      {
        assert data[..i + 1][..i] == data[..i];
        RecordTracksRowByRow(before, rows, symbol, data, i);
        RewriteAtPrefix(before, symbol, data, i);
        if records[data[i].date] != data[i].bar {
          records := records[data[i].date := data[i].bar];
          updates := updates + [data[i].date];
        }
      }
      assert data[..|data|] == data;
    }

    method WriteUpdates(symbol: string, records: map<Date, Bar>, updates: seq<Date>)
      requires forall d :: d in updates ==> d in records && Key(symbol, d) in rows
      modifies this
      ensures rows.Keys == old(rows).Keys
      ensures forall k :: k in rows ==>
                rows[k] == if k.symbol == symbol && k.date in updates then records[k.date] else old(rows)[k]
    {
      for i := 0 to |updates|
        invariant rows.Keys == old(rows).Keys
        invariant forall k :: k in rows ==>
                    rows[k] == if k.symbol == symbol && k.date in updates[..i] then records[k.date] else old(rows)[k]
      {
        assert updates[..i + 1] == updates[..i] + [updates[i]];
        rows := rows[Key(symbol, updates[i]) := records[updates[i]]];
      }
      assert updates[..|updates|] == updates;
    }

    /** bulk_create with ignore_conflicts: the first record of an absent date is inserted. */
    method InsertIgnoringConflicts(symbol: string, data: seq<Point>)
      modifies this
      ensures Inserted(old(rows), rows, symbol, data)
    {
      for i := 0 to |data|
        invariant Inserted(old(rows), rows, symbol, data[..i])
      {
        InsertedGrows(old(rows), rows, symbol, data, i);
        var key := Key(symbol, data[i].date);
        if key !in rows {
          rows := rows[key := data[i].bar];
        }
      }
      assert data[..|data|] == data;
    }
  }

  function FirstBar(data: seq<Point>, d: Date): Option<Bar> {
    if data == [] then None
    else
      var before := FirstBar(data[..|data| - 1], d);
      if before.Some? then before
      else if data[|data| - 1].date == d then Some(data[|data| - 1].bar)
      else None
  }

  lemma {:induction false} FirstBarOfDates(data: seq<Point>, d: Date)
    ensures d in Dates(data) <==> FirstBar(data, d).Some?
  {
    if data != [] {
      var n := |data| - 1;
      FirstBarOfDates(data[..n], d);
      assert data == data[..n] + [data[n]];
    }
  }

  ghost predicate Inserted(before: Table, after: Table, symbol: string, data: seq<Point>) {
    && (forall k :: k in before ==> k in after && after[k] == before[k])
    && (forall k :: k in after && k !in before ==> k.symbol == symbol && FirstBar(data, k.date) == Some(after[k]))
    && (forall d :: d in Dates(data) ==> Key(symbol, d) in after)
  }

  lemma InsertedGrows(before: Table, after: Table, symbol: string, data: seq<Point>, i: nat)
    requires i < |data| && Inserted(before, after, symbol, data[..i])
    ensures var key := Key(symbol, data[i].date);
            Inserted(before, if key in after then after else after[key := data[i].bar], symbol, data[..i + 1])
  {
    assert data[..i + 1][..i] == data[..i];
    assert data[..i + 1] == data[..i] + [data[i]];
    assert Dates(data[..i + 1]) == Dates(data[..i]) + {data[i].date};
    FirstBarOfDates(data[..i], data[i].date);
  }

  /** The mutable copy of a date's record after the first points have been compared with it. */
  function InMemory(inserted: Table, symbol: string, data: seq<Point>, d: Date): Bar
    requires Key(symbol, d) in inserted
  {
    if LastBar(data, d).Some? then LastBar(data, d).value else inserted[Key(symbol, d)]
  }

  /** Stored one at a time, point i would overwrite a different stored bar. */
  predicate RewriteAt(rows: Table, symbol: string, data: seq<Point>, i: nat)
    requires i < |data|
  {
    var before := Stored(rows, symbol, data[..i]);
    var key := Key(symbol, data[i].date);
    key in before && before[key] != data[i].bar
  }

  function Rewrites(rows: Table, symbol: string, data: seq<Point>): nat {
    if data == [] then 0
    else Rewrites(rows, symbol, data[..|data| - 1]) + (if RewriteAt(rows, symbol, data, |data| - 1) then 1 else 0)
  }

  lemma {:induction false} FirstBarAt(data: seq<Point>, i: nat)
    requires i < |data| && FirstBar(data[..i], data[i].date).None?
    ensures FirstBar(data, data[i].date) == Some(data[i].bar)
  {
    var n := |data| - 1;
    if i < n {
      assert data[..n][..i] == data[..i];
      FirstBarAt(data[..n], i);
    }
  }

  /** The copy differs from the next point exactly when row-by-row storing would overwrite a different bar. */
  lemma RecordTracksRowByRow(rows: Table, inserted: Table, symbol: string, data: seq<Point>, i: nat)
    requires i < |data| && Inserted(rows, inserted, symbol, data)
    ensures var key := Key(symbol, data[i].date);
            && key in inserted
            && data[i].date in Dates(data)
            && (InMemory(inserted, symbol, data[..i], data[i].date) != data[i].bar <==>
                 RewriteAt(rows, symbol, data, i))
  {
    var d := data[i].date;
    var key := Key(symbol, d);
    assert data[i] in data;
    FirstBarOfDates(data, d);
    LastBarOfDates(data[..i], d);
    FirstBarOfDates(data[..i], d);
    if d !in Dates(data[..i]) {
      if key !in rows {
        FirstBarAt(data, i);
      }
    }
  }

  lemma RewriteAtPrefix(rows: Table, symbol: string, data: seq<Point>, i: nat)
    requires i < |data|
    ensures Rewrites(rows, symbol, data[..i + 1])
              == Rewrites(rows, symbol, data[..i]) + (if RewriteAt(rows, symbol, data, i) then 1 else 0)
  {
    assert data[..i + 1][..i] == data[..i];
  }

  lemma BulkEqualsStored(rows: Table, inserted: Table, after: Table, symbol: string, data: seq<Point>,
                         records: map<Date, Bar>, updates: seq<Date>)
    requires Inserted(rows, inserted, symbol, data)
    requires records.Keys == Dates(data) && forall d :: d in records ==> Key(symbol, d) in inserted
    requires forall d :: d in records ==> records[d] == InMemory(inserted, symbol, data, d)
    requires forall d :: d in records && records[d] != inserted[Key(symbol, d)] ==> d in updates
    requires forall d :: d in updates ==> d in records
    requires after.Keys == inserted.Keys
    requires forall k :: k in after ==>
               after[k] == if k.symbol == symbol && k.date in updates then records[k.date] else inserted[k]
    ensures after == Stored(rows, symbol, data)
  {
    var stored := Stored(rows, symbol, data);
    forall k
      ensures (k in after <==> k in stored) && (k in after ==> after[k] == stored[k])
    {
      LastBarOfDates(data, k.date);
      FirstBarOfDates(data, k.date);
      if k.symbol == symbol && k.date in Dates(data) {
        assert k == Key(symbol, k.date);
        assert k.date in records;
      }
    }
  }

  // ---------------------------------------------------------------- properties of storing

  /** Bulk storing refines row-by-row storing: with no failing row both leave the same table. */
  lemma BulkRefinesRowByRow(rows: Table, symbol: string, data: seq<Point>, saves: seq<bool>)
    requires |saves| == |data| && AllSave(saves)
    ensures UpdateOrCreateAll(rows, symbol, data, saves) == Stored(rows, symbol, data)
  {
    RowByRowStoresSaved(rows, symbol, data, saves);
    AllSaved(data, saves);
  }

  lemma StoringTwiceChangesNothing(rows: Table, symbol: string, data: seq<Point>)
    ensures Stored(Stored(rows, symbol, data), symbol, data) == Stored(rows, symbol, data)
  {
    var once := Stored(rows, symbol, data);
    var twice := Stored(once, symbol, data);
    forall k
      ensures (k in once <==> k in twice) && (k in once ==> once[k] == twice[k])
    {
      if k.symbol == symbol && k.date in Dates(data) {
        assert k == Key(symbol, k.date);
      }
    }
  }

  lemma StoringLeavesOthersAlone(rows: Table, symbol: string, data: seq<Point>, k: Key)
    requires k.symbol != symbol || k.date !in Dates(data)
    ensures k in Stored(rows, symbol, data) <==> k in rows
    ensures k in rows ==> Stored(rows, symbol, data)[k] == rows[k]
  {
  }

  /** The order of points matters only within a date: any list with the same last bars stores the same. */
  lemma StoringDependsOnLastBars(rows: Table, symbol: string, a: seq<Point>, b: seq<Point>)
    requires forall d :: LastBar(a, d) == LastBar(b, d)
    ensures Stored(rows, symbol, a) == Stored(rows, symbol, b)
  {
    forall d
      ensures d in Dates(a) <==> d in Dates(b)
    {
      LastBarOfDates(a, d);
      LastBarOfDates(b, d);
    }
    assert Dates(a) == Dates(b);
    var left, right := Stored(rows, symbol, a), Stored(rows, symbol, b);
    forall k
      ensures (k in left <==> k in right) && (k in left ==> left[k] == right[k])
    {
      if k.symbol == symbol && k.date in Dates(a) {
        assert k == Key(symbol, k.date);
      }
    }
  }

  // ---------------------------------------------------------------- by position in the list

  /** Point i is the last saved one of its date, and carries this bar. */
  predicate LastSaved(data: seq<Point>, saves: seq<bool>, d: Date, bar: Bar, i: nat)
    requires |saves| == |data|
  {
    && i < |data| && saves[i] && data[i].date == d && data[i].bar == bar
    && forall j :: i < j < |data| && saves[j] ==> data[j].date != d
  }

  predicate SomeSaved(data: seq<Point>, saves: seq<bool>, d: Date)
    requires |saves| == |data|
  {
    exists i :: 0 <= i < |data| && saves[i] && data[i].date == d
  }

  lemma SavedGrows(data: seq<Point>, saves: seq<bool>, d: Date, bar: Bar)
    requires |saves| == |data| > 0
    ensures var n := |data| - 1;
            && (saves[n] && data[n].date == d ==>
                 SomeSaved(data, saves, d)
                 && ((exists i: nat :: LastSaved(data, saves, d, bar, i)) <==> data[n].bar == bar))
            && (!(saves[n] && data[n].date == d) ==>
                 (SomeSaved(data, saves, d) <==> SomeSaved(data[..n], saves[..n], d))
                 && ((exists i: nat :: LastSaved(data, saves, d, bar, i)) <==>
                     exists i: nat :: LastSaved(data[..n], saves[..n], d, bar, i)))
  {
    var n := |data| - 1;
    if saves[n] && data[n].date == d {
      if data[n].bar == bar {
        assert LastSaved(data, saves, d, bar, n);
      }
    } else {
      if i: nat :| LastSaved(data, saves, d, bar, i) {
        assert LastSaved(data[..n], saves[..n], d, bar, i);
      }
      if i: nat :| LastSaved(data[..n], saves[..n], d, bar, i) {
        assert LastSaved(data, saves, d, bar, i);
      }
      if i :| 0 <= i < |data| && saves[i] && data[i].date == d {
        assert saves[..n][i] && data[..n][i].date == d;
      }
    }
  }

  /** Row by row, a row of the symbol holds the last bar saved for its date; every other row is as it was. */
  lemma {:induction false} RowHoldsLastSaved(
      rows: Table, symbol: string, data: seq<Point>, saves: seq<bool>, k: Key, bar: Bar)
    requires |saves| == |data|
    ensures var after := UpdateOrCreateAll(rows, symbol, data, saves);
            k in after && after[k] == bar <==>
              if k.symbol == symbol && SomeSaved(data, saves, k.date)
              then exists i: nat :: LastSaved(data, saves, k.date, bar, i)
              else k in rows && rows[k] == bar
  {
    if data != [] {
      var n := |data| - 1;
      RowHoldsLastSaved(rows, symbol, data[..n], saves[..n], k, bar);
      SavedGrows(data, saves, k.date, bar);
    }
  }

  /** In bulk, the last bar given. */
  lemma RowHoldsLastGiven(rows: Table, symbol: string, data: seq<Point>, saves: seq<bool>, k: Key, bar: Bar)
    requires |saves| == |data| && AllSave(saves)
    ensures var after := Stored(rows, symbol, data);
            k in after && after[k] == bar <==>
              if k.symbol == symbol && (exists i :: 0 <= i < |data| && data[i].date == k.date)
              then exists i: nat :: LastSaved(data, saves, k.date, bar, i)
              else k in rows && rows[k] == bar
  {
    BulkRefinesRowByRow(rows, symbol, data, saves);
    RowHoldsLastSaved(rows, symbol, data, saves, k, bar);
    if i :| 0 <= i < |data| && data[i].date == k.date {
      assert saves[i];
    }
  }

  /** A point counts as an update exactly when the bar before it, given or stored, is another one. */
  lemma RewriteAtIff(rows: Table, symbol: string, data: seq<Point>, saves: seq<bool>, i: nat)
    requires i < |data| && |saves| == i && AllSave(saves)
    ensures var key := Key(symbol, data[i].date);
            RewriteAt(rows, symbol, data, i) <==>
              if exists j :: 0 <= j < i && data[j].date == data[i].date
              then exists bar, j: nat :: bar != data[i].bar && LastSaved(data[..i], saves, key.date, bar, j)
              else key in rows && rows[key] != data[i].bar
  {
    var key := Key(symbol, data[i].date);
    var before := Stored(rows, symbol, data[..i]);
    if key in before {
      RowHoldsLastGiven(rows, symbol, data[..i], saves, key, before[key]);
    }
    if bar, j: nat :| bar != data[i].bar && LastSaved(data[..i], saves, key.date, bar, j) {
      RowHoldsLastGiven(rows, symbol, data[..i], saves, key, bar);
    } else if key in rows {
      RowHoldsLastGiven(rows, symbol, data[..i], saves, key, rows[key]);
    }
    if j :| 0 <= j < i && data[j].date == data[i].date {
      assert data[..i][j] == data[j];
    }
  }
}
