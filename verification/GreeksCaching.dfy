/**
  How old a Greek can be: the fetcher's cache of services/market_data/greeks_fetcher.py
  and the position and portfolio caches of services/market_data/greeks.py, as a system
  of reads, database writes and clock ticks.
 */
module GreeksCaching {
  import opened Prelude

  /** Seconds. */
  type Time = real

  /** The oldest database row that is still accepted. */
  const MAX_ROW_AGE := 3600.0

  /** Life of a position or portfolio entry. */
  const POSITION_TTL := 5.0

  const DEFAULT_TTL := 90.0

  /** `measured` is the timestamp of the row or of the streamed event. */
  datatype Snapshot = Snapshot(fromDatabase: bool, measured: Time)

  datatype Entry<V> = Entry(value: V, storedAt: Time, ttl: Time)

  /** A position's or portfolio's Greeks, reduced to the database rows they were computed from. */
  datatype Aggregate = Aggregate(rows: set<Time>)

  datatype World = World(
    now: Time,
    latest: map<string, Time>,
    fetched: map<string, Entry<Snapshot>>,
    positions: map<nat, Entry<Aggregate>>,
    portfolios: map<nat, Entry<Aggregate>>)

  predicate Alive<V>(e: Entry<V>, now: Time) {
    now < e.storedAt + e.ttl
  }

  /** The newest row of a symbol, unless it is too old. */
  function FromDatabase(w: World, symbol: string): Option<Snapshot> {
    if symbol in w.latest && !(w.now - w.latest[symbol] > MAX_ROW_AGE)
    then Some(Snapshot(true, w.latest[symbol]))
    else None
  }

  // ---------------------------------------------------------------- fetcher

  type Stream = string -> Option<Time>

  function Streamed(stream: Stream, symbol: string): Option<Snapshot> {
    if stream(symbol).Some? then Some(Snapshot(false, stream(symbol).value)) else None
  }

  /** Symbols in order of first appearance, blanks dropped. */
  function Deduplicated(symbols: seq<string>): seq<string> {
    if symbols == [] then []
    else
      var before := Deduplicated(symbols[..|symbols| - 1]);
      var last := symbols[|symbols| - 1];
      if last == "" || last in before then before else before + [last]
  }

  /** One symbol: cache, then stream, then database; a found snapshot is cached again. */
  function FetchOne(w: World, symbol: string, bypass: bool, ttl: Time, stream: Stream): (r: (World, Option<Snapshot>)) {
    if !bypass && symbol in w.fetched && Alive(w.fetched[symbol], w.now) then (w, Some(w.fetched[symbol].value))
    else
      var live := Streamed(stream, symbol);
      var found := if live.Some? then live else FromDatabase(w, symbol);
      if found.None? then (w, None)
      else (w.(fetched := w.fetched[symbol := Entry(found.value, w.now, ttl)]), found)
  }

  function FetchAll(
      w: World, symbols: seq<string>, bypass: bool, ttl: Time, stream: Stream): (r: (World, map<string, Snapshot>)) {
    if symbols == [] then (w, map[])
    else
      var before := FetchAll(w, symbols[..|symbols| - 1], bypass, ttl, stream);
      var last := symbols[|symbols| - 1];
      var one := FetchOne(before.0, last, bypass, ttl, stream);
      (one.0, if one.1.Some? then before.1[last := one.1.value] else before.1)
  }

  function StressLevel(stress: Option<real>): real {
    if stress.Some? then stress.value else 0.0
  }

  /** The stress level decides whether the cache is consulted; a missing level counts as zero. */
  function Bypass(stress: Option<real>, threshold: real): bool {
    StressLevel(stress) >= threshold
  }

  class GreeksFetcher {
    var w: World
    const ttl: Time
    const threshold: real

    constructor (w: World, ttl: Time := DEFAULT_TTL, threshold: real := 70.0)
      ensures this.w == w && this.ttl == ttl && this.threshold == threshold
    {
      this.w, this.ttl, this.threshold := w, ttl, threshold;
    }

    static method DeduplicateSymbols(symbols: seq<string>) returns (deduped: seq<string>)
      ensures deduped == Deduplicated(symbols)
    {
      deduped := [];
      var seen: set<string> := {};
      for i := 0 to |symbols|
        invariant deduped == Deduplicated(symbols[..i])
        invariant forall s :: s in seen <==> s in deduped
      {
        assert symbols[..i + 1][..i] == symbols[..i];
        if symbols[i] == "" || symbols[i] in seen { continue; }
        deduped := deduped + [symbols[i]];
        seen := seen + {symbols[i]};
      }
      assert symbols[..|symbols|] == symbols;
    }

    method FetchGreeks(
        requested: seq<string>, stress: Option<real>, stream: Stream) returns (results: map<string, Snapshot>)
      modifies this`w
      ensures (w, results) == FetchAll(old(w), Deduplicated(requested), Bypass(stress, threshold), ttl, stream)
    {
      var symbols := DeduplicateSymbols(requested);
      results := map[];
      if symbols == [] { return; }
      var bypass := Bypass(stress, threshold);
      for i := 0 to |symbols|
        invariant (w, results) == FetchAll(old(w), symbols[..i], bypass, ttl, stream)
      {
        assert symbols[..i + 1][..i] == symbols[..i];
        var symbol := symbols[i];
        if !bypass && symbol in w.fetched && Alive(w.fetched[symbol], w.now) {
          results := results[symbol := w.fetched[symbol].value];
          continue;
        }
        var snapshot := Streamed(stream, symbol);
        if snapshot.None? {
          snapshot := FromDatabase(w, symbol);
        }
        if snapshot.Some? {
          w := w.(fetched := w.fetched[symbol := Entry(snapshot.value, w.now, ttl)]);
          results := results[symbol := snapshot.value];
        }
      }
      assert symbols[..|symbols|] == symbols;
    }
  }

  // ---------------------------------------------------------------- positions and portfolios

  /** Rows read for a list of leg symbols: a streamed leg needs none. */
  function RowsRead(w: World, legs: seq<string>, stream: Stream): set<Time> {
    set s | s in legs && Streamed(stream, s).None? && FromDatabase(w, s).Some? :: FromDatabase(w, s).value.measured
  }

  /** Through the position cache; a position without legs yields nothing and is not cached. */
  function ReadPosition(w: World, id: nat, legs: seq<string>, stream: Stream): (World, Option<Aggregate>) {
    if id in w.positions && Alive(w.positions[id], w.now) then (w, Some(w.positions[id].value))
    else if legs == [] then (w, None)
    else
      var value := Aggregate(RowsRead(w, legs, stream));
      (w.(positions := w.positions[id := Entry(value, w.now, POSITION_TTL)]), Some(value))
  }

  /** Through the portfolio cache, computed from every leg of every open position. */
  function ReadPortfolio(w: World, user: nat, legs: seq<string>, stream: Stream): (World, Aggregate) {
    if user in w.portfolios && Alive(w.portfolios[user], w.now) then (w, w.portfolios[user].value)
    else
      var value := Aggregate(RowsRead(w, legs, stream));
      (w.(portfolios := w.portfolios[user := Entry(value, w.now, POSITION_TTL)]), value)
  }

  class GreeksService {
    var w: World

    constructor (w: World)
      ensures this.w == w
    {
      this.w := w;
    }

    method ComputeRows(legs: seq<string>, stream: Stream) returns (rows: set<Time>)
      ensures rows == RowsRead(w, legs, stream)
    {
      rows := {};
      for i := 0 to |legs|
        invariant rows == RowsRead(w, legs[..i], stream)
      {
        assert legs[..i + 1] == legs[..i] + [legs[i]];
        if Streamed(stream, legs[i]).None? {
          var row := FromDatabase(w, legs[i]);
          if row.Some? {
            rows := rows + {row.value.measured};
          }
        }
      }
      assert legs[..|legs|] == legs;
    }

    method GetPositionGreeksCached(id: nat, legs: seq<string>, stream: Stream) returns (greeks: Option<Aggregate>)
      modifies this
      ensures (w, greeks) == ReadPosition(old(w), id, legs, stream)
    {
      if id in w.positions && Alive(w.positions[id], w.now) {
        return Some(w.positions[id].value);
      }
      if legs == [] { return None; }
      var rows := ComputeRows(legs, stream);
      w := w.(positions := w.positions[id := Entry(Aggregate(rows), w.now, POSITION_TTL)]);
      return Some(Aggregate(rows));
    }

    method GetPortfolioGreeksCached(user: nat, legs: seq<string>, stream: Stream) returns (greeks: Aggregate)
      modifies this
      ensures (w, greeks) == ReadPortfolio(old(w), user, legs, stream)
    {
      if user in w.portfolios && Alive(w.portfolios[user], w.now) {
        return w.portfolios[user].value;
      }
      var rows := ComputeRows(legs, stream);
      w := w.(portfolios := w.portfolios[user := Entry(Aggregate(rows), w.now, POSITION_TTL)]);
      return Aggregate(rows);
    }
  }

  // ---------------------------------------------------------------- runs

  datatype Event =
    | Tick(seconds: Time)
    | RowWritten(symbol: string, at: Time)
    | Fetch(symbols: seq<string>, stress: Option<real>, threshold: real, ttl: Time, stream: Stream)
    | PositionRead(position: nat, positionLegs: seq<string>, positionStream: Stream)
    | PortfolioRead(user: nat, portfolioLegs: seq<string>, portfolioStream: Stream)

  function Step(w: World, e: Event): World {
    match e
    case Tick(d) => if d >= 0.0 then w.(now := w.now + d) else w
    case RowWritten(symbol, at) =>
      if symbol in w.latest && w.latest[symbol] >= at then w else w.(latest := w.latest[symbol := at])
    case Fetch(symbols, stress, threshold, ttl, stream) =>
      FetchAll(w, Deduplicated(symbols), Bypass(stress, threshold), ttl, stream).0
    case PositionRead(id, legs, stream) => ReadPosition(w, id, legs, stream).0
    case PortfolioRead(user, legs, stream) => ReadPortfolio(w, user, legs, stream).0
  }

  function Run(w: World, events: seq<Event>): World {
    if events == [] then w else Step(Run(w, events[..|events| - 1]), events[|events| - 1])
  }

  /** Fetchers share one cache, so the longest life any of them grants is what counts. */
  predicate TtlWithin(events: seq<Event>, ttl: Time) {
    forall i :: 0 <= i < |events| && events[i].Fetch? ==> events[i].ttl <= ttl
  }

  predicate RowOk(measured: Time, storedAt: Time) {
    storedAt - measured <= MAX_ROW_AGE
  }

  ghost predicate FetchedOk(e: Entry<Snapshot>, now: Time, ttl: Time) {
    e.storedAt <= now && e.ttl <= ttl && (e.value.fromDatabase ==> RowOk(e.value.measured, e.storedAt))
  }

  ghost predicate AggregateOk(e: Entry<Aggregate>, now: Time) {
    e.storedAt <= now && e.ttl == POSITION_TTL && forall t :: t in e.value.rows ==> RowOk(t, e.storedAt)
  }

  /** Every cached value was acceptable when it was stored. */
  ghost predicate Sound(w: World, ttl: Time) {
    && (forall s :: s in w.fetched ==> FetchedOk(w.fetched[s], w.now, ttl))
    && (forall p :: p in w.positions ==> AggregateOk(w.positions[p], w.now))
    && (forall u :: u in w.portfolios ==> AggregateOk(w.portfolios[u], w.now))
  }

  /** Ages of the database rows behind one fetch. */
  ghost predicate FetchFresh(now: Time, results: map<string, Snapshot>, bound: Time) {
    forall s :: s in results && results[s].fromDatabase ==> now - results[s].measured <= bound
  }

  ghost predicate RowsFresh(now: Time, rows: set<Time>, bound: Time) {
    forall t :: t in rows ==> now - t <= bound
  }

  /** What the step returns to its caller meets the staleness bounds. */
  ghost predicate OutputFresh(w: World, e: Event, ttl: Time) {
    match e
    case Fetch(symbols, stress, threshold, entryTtl, stream) =>
      FetchFresh(w.now, FetchAll(w, Deduplicated(symbols), Bypass(stress, threshold), entryTtl, stream).1,
                 if StressLevel(stress) >= threshold then MAX_ROW_AGE else MAX_ROW_AGE + ttl)
    case PositionRead(id, legs, stream) =>
      var out := ReadPosition(w, id, legs, stream).1;
      out.Some? ==> RowsFresh(w.now, out.value.rows, MAX_ROW_AGE + POSITION_TTL)
    case PortfolioRead(user, legs, stream) =>
      RowsFresh(w.now, ReadPortfolio(w, user, legs, stream).1.rows, MAX_ROW_AGE + POSITION_TTL)
    case _ => true
  }

  lemma {:induction false} FetchAllSound(
      w: World, symbols: seq<string>, bypass: bool, ttl: Time, entryTtl: Time, stream: Stream)
    requires Sound(w, ttl) && 0.0 <= ttl && entryTtl <= ttl
    ensures var (after, results) := FetchAll(w, symbols, bypass, entryTtl, stream);
            && Sound(after, ttl) && after.now == w.now
            && FetchFresh(w.now, results, if bypass then MAX_ROW_AGE else MAX_ROW_AGE + ttl)
            && forall s :: s in results ==> s in symbols
  {
    if symbols != [] {
      FetchAllSound(w, symbols[..|symbols| - 1], bypass, ttl, entryTtl, stream);
    }
  }

  lemma StepSound(w: World, e: Event, ttl: Time)
    requires Sound(w, ttl) && 0.0 <= ttl && (e.Fetch? ==> e.ttl <= ttl)
    ensures Sound(Step(w, e), ttl) && OutputFresh(w, e, ttl)
  {
    if e.Fetch? {
      FetchAllSound(w, Deduplicated(e.symbols), Bypass(e.stress, e.threshold), ttl, e.ttl, e.stream);
    }
  }

  lemma {:induction false} RunSound(w: World, events: seq<Event>, ttl: Time)
    requires Sound(w, ttl) && 0.0 <= ttl && TtlWithin(events, ttl)
    ensures Sound(Run(w, events), ttl)
  {
    if events != [] {
      RunSound(w, events[..|events| - 1], ttl);
      StepSound(Run(w, events[..|events| - 1]), events[|events| - 1], ttl);
    }
  }

  /**
    In every run from empty caches, every read meets its bound: 3600 seconds plus the
    longest granted life through the fetcher, 3600 when stress bypasses its cache, and
    3605 through the position and portfolio caches.
   */
  lemma EveryReadIsFresh(start: Time, events: seq<Event>, ttl: Time, k: nat)
    requires 0.0 <= ttl && TtlWithin(events, ttl) && k < |events|
    ensures OutputFresh(Run(World(start, map[], map[], map[], map[]), events[..k]), events[k], ttl)
  {
    var w := World(start, map[], map[], map[], map[]);
    RunSound(w, events[..k], ttl);
    StepSound(Run(w, events[..k]), events[k], ttl);
  }

  /** The fetcher's bound is met with less than any slack: a row can come out that old. */
  lemma FetchBoundIsTight(ttl: Time, slack: Time)
    requires 0.0 < slack < ttl
    ensures var events := [
              RowWritten("A", 0.0), Tick(MAX_ROW_AGE), Fetch(["A"], None, 70.0, ttl, NO_STREAM), Tick(ttl - slack)];
            var w := Run(World(0.0, map[], map[], map[], map[]), events);
            var results := FetchAll(w, ["A"], false, ttl, NO_STREAM).1;
            "A" in results && results["A"].fromDatabase && w.now - results["A"].measured == MAX_ROW_AGE + ttl - slack
  {
    var w0 := World(0.0, map[], map[], map[], map[]);
    var w1 := Step(w0, RowWritten("A", 0.0));
    var w2 := Step(w1, Tick(MAX_ROW_AGE));
    var fetch := Fetch(["A"], None, 70.0, ttl, NO_STREAM);
    DeduplicatedOne("A");
    FetchAllOne(w2, "A", false, ttl, NO_STREAM);
    var w3 := Step(w2, fetch);
    var w4 := Step(w3, Tick(ttl - slack));
    var events := [RowWritten("A", 0.0), Tick(MAX_ROW_AGE), fetch, Tick(ttl - slack)];
    assert events[..3] == [RowWritten("A", 0.0), Tick(MAX_ROW_AGE), fetch];
    assert events[..3][..2] == [RowWritten("A", 0.0), Tick(MAX_ROW_AGE)];
    assert events[..3][..2][..1] == [RowWritten("A", 0.0)];
    assert events[..3][..2][..1][..0] == [];
    assert Run(w0, events[..3][..2][..1]) == w1;
    assert Run(w0, events[..3][..2]) == w2;
    assert Run(w0, events[..3]) == w3;
    assert Run(w0, events) == w4;
    FetchAllOne(w4, "A", false, ttl, NO_STREAM);
  }

  const NO_STREAM: Stream := (s: string) => None

  lemma DeduplicatedOne(s: string)
    requires s != ""
    ensures Deduplicated([s]) == [s]
  {
    assert [s][..0] == [];
  }

  lemma FetchAllOne(w: World, s: string, bypass: bool, ttl: Time, stream: Stream)
    ensures FetchAll(w, [s], bypass, ttl, stream).0 == FetchOne(w, s, bypass, ttl, stream).0
    ensures FetchOne(w, s, bypass, ttl, stream).1.Some? ==>
              FetchAll(w, [s], bypass, ttl, stream).1 == map[s := FetchOne(w, s, bypass, ttl, stream).1.value]
  {
    assert [s][..0] == [];
  }

  // ---------------------------------------------------------------- the requested symbols

  /** De-duplication keeps every non-blank symbol once, and results are among them. */
  lemma {:induction false} DeduplicatedKeepsEachOnce(symbols: seq<string>)
    ensures forall s :: s in Deduplicated(symbols) <==> s in symbols && s != ""
    ensures forall i, j :: 0 <= i < j < |Deduplicated(symbols)| ==> Deduplicated(symbols)[i] != Deduplicated(symbols)[j]
  {
    if symbols != [] {
      var n := |symbols| - 1;
      DeduplicatedKeepsEachOnce(symbols[..n]);
      assert symbols == symbols[..n] + [symbols[n]];
    }
  }

  lemma ResultsAreRequested(w: World, requested: seq<string>, bypass: bool, ttl: Time, stream: Stream)
    ensures forall s :: s in FetchAll(w, Deduplicated(requested), bypass, ttl, stream).1 ==> s in requested && s != ""
  {
    DeduplicatedKeepsEachOnce(requested);
    FetchKeys(w, Deduplicated(requested), bypass, ttl, stream);
  }

  lemma {:induction false} FetchKeys(w: World, symbols: seq<string>, bypass: bool, ttl: Time, stream: Stream)
    ensures forall s :: s in FetchAll(w, symbols, bypass, ttl, stream).1 ==> s in symbols
  {
    if symbols != [] {
      var n := |symbols| - 1;
      FetchKeys(w, symbols[..n], bypass, ttl, stream);
    }
  }

  // ---------------------------------------------------------------- sources

  /** What is cached for the symbol and has not run out. */
  ghost predicate CachedNow(w: World, symbol: string, found: Snapshot) {
    && symbol in w.fetched && w.fetched[symbol].value == found
    && w.now < w.fetched[symbol].storedAt + w.fetched[symbol].ttl
  }

  /** The newest row, at most an hour old. */
  ghost predicate RowNow(w: World, symbol: string, found: Snapshot) {
    && symbol in w.latest && found.fromDatabase && found.measured == w.latest[symbol]
    && w.now - w.latest[symbol] <= 3600.0
  }

  /**
    Cache, then stream, then database, the cache only below the stress threshold; what
    was not cached is cached from now on, and nothing found leaves no entry.
   */
  lemma SourcesInOrder(w: World, symbol: string, stress: Option<real>, threshold: real, ttl: Time, stream: Stream)
    ensures var (after, found) := FetchOne(w, symbol, Bypass(stress, threshold), ttl, stream);
            var level := if stress.None? then 0.0 else stress.value;
            if level < threshold && exists c :: CachedNow(w, symbol, c) then
              found.Some? && CachedNow(w, symbol, found.value) && after == w
            else if stream(symbol).Some? then
              found == Some(Snapshot(false, stream(symbol).value))
              && after == w.(fetched := w.fetched[symbol := Entry(found.value, w.now, ttl)])
            else if exists c :: RowNow(w, symbol, c) then
              found.Some? && RowNow(w, symbol, found.value)
              && after == w.(fetched := w.fetched[symbol := Entry(found.value, w.now, ttl)])
            else found.None? && after == w
  {
    if symbol in w.fetched && Alive(w.fetched[symbol], w.now) {
      assert CachedNow(w, symbol, w.fetched[symbol].value);
    }
    if FromDatabase(w, symbol).Some? {
      assert RowNow(w, symbol, FromDatabase(w, symbol).value);
    }
  }

  /** A request is its symbols one after the other. */
  lemma FetchOneByOne(w: World, symbols: seq<string>, last: string, bypass: bool, ttl: Time, stream: Stream)
    ensures var before := FetchAll(w, symbols, bypass, ttl, stream);
            var (next, found) := FetchOne(before.0, last, bypass, ttl, stream);
            var after := FetchAll(w, symbols + [last], bypass, ttl, stream);
            && after.0 == next
            && after.1 == if found.Some? then before.1[last := found.value] else before.1
  {
    assert (symbols + [last])[..|symbols|] == symbols;
  }

  /** A leg without a streamed reading has a newest row of this time, at most an hour old. */
  ghost predicate ReadsRow(w: World, legs: seq<string>, stream: Stream, measured: Time) {
    exists s :: s in legs && stream(s).None? && s in w.latest && w.latest[s] == measured && w.now - measured <= 3600.0
  }

  ghost predicate ReadsRows(w: World, legs: seq<string>, stream: Stream, rows: set<Time>) {
    forall t :: t in rows <==> ReadsRow(w, legs, stream, t)
  }

  lemma RowsReadAreTheirs(w: World, legs: seq<string>, stream: Stream)
    ensures ReadsRows(w, legs, stream, RowsRead(w, legs, stream))
  {
    forall t
      ensures t in RowsRead(w, legs, stream) <==> ReadsRow(w, legs, stream, t)
    {
      if t in RowsRead(w, legs, stream) {
        var s :| s in legs && Streamed(stream, s).None? && FromDatabase(w, s).Some? && w.latest[s] == t;
        assert stream(s).None? && w.now - w.latest[s] <= 3600.0;
      }
    }
  }

  /**
    A live entry is served unchanged; otherwise a position with legs is computed from
    the rows its unstreamed legs have now, and kept for five seconds.
   */
  lemma PositionReadsItsRows(w: World, id: nat, legs: seq<string>, stream: Stream)
    ensures var (after, found) := ReadPosition(w, id, legs, stream);
            if id in w.positions && w.now < w.positions[id].storedAt + w.positions[id].ttl then
              after == w && found == Some(w.positions[id].value)
            else if legs == [] then after == w && found == None
            else
              found.Some? && ReadsRows(w, legs, stream, found.value.rows)
              && after == w.(positions := w.positions[id := Entry(found.value, w.now, 5.0)])
  {
    RowsReadAreTheirs(w, legs, stream);
  }

  /** The same for a portfolio, with or without legs. */
  lemma PortfolioReadsItsRows(w: World, user: nat, legs: seq<string>, stream: Stream)
    ensures var (after, found) := ReadPortfolio(w, user, legs, stream);
            if user in w.portfolios && w.now < w.portfolios[user].storedAt + w.portfolios[user].ttl then
              after == w && found == w.portfolios[user].value
            else
              ReadsRows(w, legs, stream, found.rows)
              && after == w.(portfolios := w.portfolios[user := Entry(found, w.now, 5.0)])
  {
    RowsReadAreTheirs(w, legs, stream);
  }
}
