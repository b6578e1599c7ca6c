/**
  The cache key builders of services/core/cache.py, and exactly when two of them collide.

  A key is a sequence of fields joined by colons.  Symbols, account numbers and lock
  resources are arbitrary text.
 */
module CacheKeys {
  import opened Prelude
  import opened Text
  import O = OccSymbols

  datatype Request =
    | AccountState(userId: int, account: string)
    | TastytradeSession(userId: int)
    | Quote(symbol: string)
    | MarketMetrics(symbol: string)
    | ChainWithExpiration(symbol: string, expiration: O.Date, today: O.Date)
    | ChainNested(symbol: string)
    | ChainExpirations(symbol: string)
    | ChainWithDte(symbol: string, dte: int, today: O.Date)
    | DxfeedUnderlying(symbol: string)
    | DxfeedGreeks(symbol: string)
    | DxfeedQuote(symbol: string)
    | DataFetchLock(resource: string)
    | StooqLastFetch(symbol: string)
    | StockPositions(userId: int, account: string)
    | PositionStatusHash(userId: int, account: string)
    | StreamHealth(userId: int)
    | StreamSubscriptions(userId: int)
    | HistoricalPrices(symbol: string, days: int)

  // ---------------------------------------------------------------- building keys

  /** Spaces become underscores. */
  function Sanitize(s: string): (r: string)
    ensures |r| == |s| && forall i :: 0 <= i < |s| ==> r[i] == if s[i] == ' ' then '_' else s[i]
  {
    seq(|s|, i requires 0 <= i < |s| => if s[i] == ' ' then '_' else s[i])
  }

  /** ISO format. */
  function DateText(d: O.Date): string {
    Fixed(d.year, 4) + "-" + Fixed(d.month, 2) + "-" + Fixed(d.day, 2)
  }

  /** The groups of keys that start with the same first field. */
  datatype Family =
    Account | Session | Quotes | Metrics | Chain | Dxfeed | DataFetch | Stock | Status | Stream | Historical

  function FamilyOf(r: Request): Family {
    match r
    case AccountState(_, _) => Account
    case TastytradeSession(_) => Session
    case Quote(_) => Quotes
    case MarketMetrics(_) => Metrics
    case ChainWithExpiration(_, _, _) => Chain
    case ChainNested(_) => Chain
    case ChainExpirations(_) => Chain
    case ChainWithDte(_, _, _) => Chain
    case DxfeedUnderlying(_) => Dxfeed
    case DxfeedGreeks(_) => Dxfeed
    case DxfeedQuote(_) => Dxfeed
    case DataFetchLock(_) => DataFetch
    case StooqLastFetch(_) => DataFetch
    case StockPositions(_, _) => Stock
    case PositionStatusHash(_, _) => Status
    case StreamHealth(_) => Stream
    case StreamSubscriptions(_) => Stream
    case HistoricalPrices(_, _) => Historical
  }

  function Prefix(f: Family): string {
    match f
    case Account => "acct_state"
    case Session => "session"
    case Quotes => "quote"
    case Metrics => "market_metrics"
    case Chain => "option_chain"
    case Dxfeed => "dxfeed"
    case DataFetch => "data_fetch"
    case Stock => "stock_positions"
    case Status => "position_status"
    case Stream => "stream"
    case Historical => "historical"
  }

  /** What follows the first field. */
  function Rest(r: Request): string {
    match r
    case AccountState(u, a) => Numeral(u) + ":" + a
    case TastytradeSession(u) => "tastytrade:" + Numeral(u)
    case Quote(s) => Sanitize(s)
    case MarketMetrics(s) => s
    case ChainWithExpiration(s, e, t) => s + ":" + (DateText(e) + ":" + DateText(t))
    case ChainNested(s) => "nested" + ":" + s
    case ChainExpirations(s) => "expirations" + ":" + s
    case ChainWithDte(s, n, t) => s + ":" + ("dte_" + Numeral(n) + ":" + DateText(t))
    case DxfeedUnderlying(s) => "underlying" + ":" + Sanitize(s)
    case DxfeedGreeks(s) => "greeks" + ":" + Sanitize(s)
    case DxfeedQuote(s) => "quote" + ":" + Sanitize(s)
    case DataFetchLock(x) => "lock" + ":" + x
    case StooqLastFetch(s) => "stooq" + ":" + s
    case StockPositions(u, a) => Numeral(u) + ":" + a
    case PositionStatusHash(u, a) => Numeral(u) + ":" + a
    case StreamHealth(u) => "health" + ":" + Numeral(u)
    case StreamSubscriptions(u) => "subscriptions" + ":" + Numeral(u)
    case HistoricalPrices(s, n) => s + ":" + (Numeral(n) + "days")
  }

  function KeyOf(r: Request): string {
    Prefix(FamilyOf(r)) + ":" + Rest(r)
  }

  // ---------------------------------------------------------------- reading a key's fields

  predicate ColonFree(s: string) {
    forall i :: 0 <= i < |s| ==> s[i] != ':'
  }

  predicate ValidDay(d: O.Date) {
    1 <= d.year <= 9999 && O.ValidDate(d)
  }

  /** Embedded dates are calendar dates. */
  predicate ValidDates(r: Request) {
    match r
    case ChainWithExpiration(_, e, t) => ValidDay(e) && ValidDay(t)
    case ChainWithDte(_, _, t) => ValidDay(t)
    case _ => true
  }

  /** The text before the first colon, and the text after it if there is one. */
  function Head(s: string): string {
    if s == "" || s[0] == ':' then "" else [s[0]] + Head(s[1..])
  }

  function Tail(s: string): Option<string> {
    if s == "" then None else if s[0] == ':' then Some(s[1..]) else Tail(s[1..])
  }

  lemma {:induction false} HeadTail(a: string, rest: string)
    requires ColonFree(a)
    ensures Head(a + ":" + rest) == a && Tail(a + ":" + rest) == Some(rest)
    ensures Head(a) == a && Tail(a) == None
  {
    if a == "" {
      assert a + ":" + rest == ":" + rest;
      assert (":" + rest)[1..] == rest;
    } else {
      HeadTail(a[1..], rest);
      assert (a + ":" + rest)[1..] == a[1..] + ":" + rest;
      assert a == [a[0]] + a[1..];
    }
  }

  /** No family name holds a colon, and length and first letter together tell families apart. */
  lemma PrefixCode(f: Family)
    ensures ColonFree(Prefix(f))
    ensures (|Prefix(f)|, Prefix(f)[0]) ==
            match f
            case Account => (10, 'a')
            case Session => (7, 's')
            case Quotes => (5, 'q')
            case Metrics => (14, 'm')
            case Chain => (12, 'o')
            case Dxfeed => (6, 'd')
            case DataFetch => (10, 'd')
            case Stock => (15, 's')
            case Status => (15, 'p')
            case Stream => (6, 's')
            case Historical => (10, 'h')
  {
  }

  lemma PrefixInjective(f: Family, g: Family)
    ensures Prefix(f) == Prefix(g) <==> f == g
  {
    PrefixCode(f);
    PrefixCode(g);
  }

  // ---------------------------------------------------------------- injectivity of the parts

  lemma NumeralColonFree(n: int)
    ensures ColonFree(Numeral(n)) && Numeral(n) != ""
  {
  }

  lemma FixedInjective(a: nat, b: nat, width: nat)
    ensures Fixed(a, width) == Fixed(b, width) <==> a == b
  {
    ReadFixed(a, width);
    ReadFixed(b, width);
  }

  lemma DateLayout(d: O.Date)
    requires ValidDay(d)
    ensures var t := DateText(d);
            |t| == 10 && t[..4] == Fixed(d.year, 4) && t[5..7] == Fixed(d.month, 2) && t[8..] == Fixed(d.day, 2)
            && ColonFree(t) && IsDigit(t[0])
  {
    assert Pow10(4) == 10000 by {
      assert Pow10(1) == 10 * Pow10(0);
      assert Pow10(2) == 10 * Pow10(1);
      assert Pow10(3) == 10 * Pow10(2);
    }
    assert Pow10(2) == 100 by { assert Pow10(1) == 10 * Pow10(0); }
    FixedLength(d.year, 4);
    FixedLength(d.month, 2);
    FixedLength(d.day, 2);
    var t := DateText(d);
    assert t[0] == Fixed(d.year, 4)[0];
    forall i | 0 <= i < |t|
      ensures t[i] != ':'
    {
      if i < 4 {
        assert t[i] == Fixed(d.year, 4)[i];
      } else if 5 <= i < 7 {
        assert t[i] == Fixed(d.month, 2)[i - 5];
      } else if 8 <= i {
        assert t[i] == Fixed(d.day, 2)[i - 8];
      }
    }
  }

  lemma DateTextInjective(a: O.Date, b: O.Date)
    requires ValidDay(a) && ValidDay(b)
    ensures DateText(a) == DateText(b) <==> a == b
  {
    DateLayout(a);
    DateLayout(b);
    FixedInjective(a.year, b.year, 4);
    FixedInjective(a.month, b.month, 2);
    FixedInjective(a.day, b.day, 2);
  }

  /** Two texts with a colon-free first field agree exactly when both fields do. */
  lemma FieldsAgree(a: string, x: string, b: string, y: string)
    requires ColonFree(a) && ColonFree(b)
    ensures a + ":" + x == b + ":" + y <==> a == b && x == y
  {
    HeadTail(a, x);
    HeadTail(b, y);
  }

  /** So do two texts with a colon-free last field. */
  lemma LastFieldsAgree(a: string, x: string, b: string, y: string)
    requires ColonFree(x) && ColonFree(y)
    ensures a + ":" + x == b + ":" + y <==> a == b && x == y
  {
    if |a| == |b| {
      SameLengthAgree(a, x, b, y);
    } else if |a| < |b| {
      LastFieldDiffers(a, x, b, y);
    } else {
      LastFieldDiffers(b, y, a, x);
    }
  }

  lemma SameLengthAgree(a: string, x: string, b: string, y: string)
    requires |a| == |b|
    ensures a + ":" + x == b + ":" + y <==> a == b && x == y
  {
    assert (a + ":" + x)[..|a|] == a && (b + ":" + y)[..|a|] == b;
    assert (a + ":" + x)[|a| + 1..] == x && (b + ":" + y)[|a| + 1..] == y;
  }

  lemma LastFieldDiffers(a: string, x: string, b: string, y: string)
    requires ColonFree(x) && |a| < |b|
    ensures a + ":" + x != b + ":" + y
  {
    var s, t := a + ":" + x, b + ":" + y;
    if |s| == |t| {
      assert s[|b|] == x[|b| - |a| - 1];
      assert t[|b|] == ':';
    }
  }

  lemma TwoLastFieldsAgree(a: string, x: string, p: string, b: string, y: string, q: string)
    requires ColonFree(x) && ColonFree(p) && ColonFree(y) && ColonFree(q)
    ensures a + ":" + (x + ":" + p) == b + ":" + (y + ":" + q) <==> a == b && x == y && p == q
  {
    assert a + ":" + (x + ":" + p) == a + ":" + x + ":" + p;
    assert b + ":" + (y + ":" + q) == b + ":" + y + ":" + q;
    LastFieldsAgree(a + ":" + x, p, b + ":" + y, q);
    LastFieldsAgree(a, x, b, y);
  }

  lemma AppendAgree(a: string, b: string, suffix: string)
    ensures a + suffix == b + suffix <==> a == b
  {
    if a + suffix == b + suffix {
      assert |a| == |b|;
      assert a == (a + suffix)[..|a|];
      assert b == (b + suffix)[..|b|];
    }
  }

  lemma PrependAgree(prefix: string, a: string, b: string)
    ensures prefix + a == prefix + b <==> a == b
  {
    if prefix + a == prefix + b {
      assert a == (prefix + a)[|prefix|..];
      assert b == (prefix + b)[|prefix|..];
    }
  }

  // ---------------------------------------------------------------- the four option-chain shapes

  /** Chains of one expiration or of a target DTE end in two further fields. */
  predicate Dated(r: Request) {
    r.ChainWithExpiration? || r.ChainWithDte?
  }

  predicate Marked(r: Request) {
    r.ChainNested? || r.ChainExpirations?
  }

  function Selector(r: Request): string
    requires Dated(r)
  {
    if r.ChainWithExpiration? then DateText(r.expiration) else "dte_" + Numeral(r.dte)
  }

  /** The two fields after the symbol. */
  function Dates(r: Request): string
    requires Dated(r)
  {
    Selector(r) + ":" + DateText(r.today)
  }

  function Marker(r: Request): string
    requires Marked(r)
  {
    if r.ChainNested? then "nested" else "expirations"
  }

  lemma SelectorsAgree(a: Request, b: Request)
    requires Dated(a) && Dated(b) && ValidDates(a) && ValidDates(b)
    ensures ColonFree(Selector(a)) && ColonFree(Selector(b))
    ensures Selector(a) == Selector(b) <==>
              if a.ChainWithExpiration? then b.ChainWithExpiration? && a.expiration == b.expiration
              else b.ChainWithDte? && a.dte == b.dte
  {
    SelectorStart(a);
    SelectorStart(b);
    if a.ChainWithExpiration? && b.ChainWithExpiration? {
      DateTextInjective(a.expiration, b.expiration);
    } else if a.ChainWithDte? && b.ChainWithDte? {
      PrependAgree("dte_", Numeral(a.dte), Numeral(b.dte));
      NumeralInjective(a.dte, b.dte);
    }
  }

  /** An expiration starts with a digit, a DTE does not. */
  lemma SelectorStart(r: Request)
    requires Dated(r) && ValidDates(r)
    ensures ColonFree(Selector(r)) && Selector(r) != ""
    ensures IsDigit(Selector(r)[0]) <==> r.ChainWithExpiration?
  {
    if r.ChainWithExpiration? {
      DateLayout(r.expiration);
    } else {
      NumeralColonFree(r.dte);
    }
  }

  lemma RestOfDated(r: Request)
    requires Dated(r)
    ensures Rest(r) == r.symbol + ":" + Dates(r)
  {
  }

  /** Dated chains are told apart from the right, whatever their symbols. */
  lemma DatedAgree(a: Request, b: Request)
    requires Dated(a) && Dated(b) && ValidDates(a) && ValidDates(b)
    ensures Rest(a) == Rest(b) <==> a == b
  {
    DateLayout(a.today);
    DateLayout(b.today);
    SelectorsAgree(a, b);
    TwoLastFieldsAgree(a.symbol, Selector(a), DateText(a.today), b.symbol, Selector(b), DateText(b.today));
    RestOfDated(a);
    RestOfDated(b);
    DateTextInjective(a.today, b.today);
  }

  lemma MarkedAgree(a: Request, b: Request)
    requires Marked(a) && Marked(b)
    ensures Rest(a) == Rest(b) <==> a == b
  {
    FieldsAgree(Marker(a), a.symbol, Marker(b), b.symbol);
    assert a.ChainNested? <==> |Marker(a)| == 6;
    assert b.ChainNested? <==> |Marker(b)| == 6;
  }

  /** With the marker m, the text x spells what follows m in the symbol s, and the dates d. */
  predicate Spells(m: string, x: string, s: string, d: string) {
    || (s == m && x == d)
    || (|s| > |m| && s[..|m| + 1] == m + ":" && x == s[|m| + 1..] + ":" + d)
  }

  lemma SpellsIff(m: string, x: string, s: string, d: string)
    requires ColonFree(m)
    ensures m + ":" + x == s + ":" + d <==> Spells(m, x, s, d)
  {
    if |s| == |m| {
      SameLengthAgree(m, x, s, d);
    } else if |s| > |m| {
      LongerFieldAgrees(m, x, s, d);
    } else {
      ShorterFieldDiffers(m, x, s, d);
    }
  }

  /**
    A nested or expirations chain whose own symbol spells the rest of a dated key, the
    dated chain's symbol being the marker word or starting with it as a field.
   */
  predicate Imitates(a: Request, b: Request) {
    Marked(a) && Dated(b) && Spells(Marker(a), a.symbol, b.symbol, Dates(b))
  }

  lemma MarkedAgainstDated(a: Request, b: Request)
    requires Marked(a) && Dated(b)
    ensures Rest(a) == Rest(b) <==> Imitates(a, b)
  {
    RestOfDated(b);
    assert Rest(a) == Marker(a) + ":" + a.symbol;
    SpellsIff(Marker(a), a.symbol, b.symbol, Dates(b));
  }

  lemma LongerFieldAgrees(m: string, x: string, s: string, d: string)
    requires |s| > |m|
    ensures m + ":" + x == s + ":" + d <==> s[..|m| + 1] == m + ":" && x == s[|m| + 1..] + ":" + d
  {
    var k := |m| + 1;
    assert (m + ":" + x)[..k] == m + ":" && (s + ":" + d)[..k] == s[..k];
    assert (m + ":" + x)[k..] == x && (s + ":" + d)[k..] == s[k..] + ":" + d;
    assert m + ":" + x == (m + ":" + x)[..k] + (m + ":" + x)[k..];
    assert s + ":" + d == (s + ":" + d)[..k] + (s + ":" + d)[k..];
  }

  lemma ShorterFieldDiffers(m: string, x: string, s: string, d: string)
    requires ColonFree(m) && |s| < |m|
    ensures m + ":" + x != s + ":" + d
  {
    assert (m + ":" + x)[|s|] == m[|s|];
    assert (s + ":" + d)[|s|] == ':';
  }

  // ---------------------------------------------------------------- the other families

  /** The request as its key shows it: blanks replaced where the builder replaces them. */
  function Blanked(r: Request): Request {
    match r
    case Quote(s) => Quote(Sanitize(s))
    case DxfeedUnderlying(s) => DxfeedUnderlying(Sanitize(s))
    case DxfeedGreeks(s) => DxfeedGreeks(Sanitize(s))
    case DxfeedQuote(s) => DxfeedQuote(Sanitize(s))
    case _ => r
  }

  /** A numeral has no colon, so the number and the free text after it can both be read back. */
  lemma UserFieldsAgree(u: int, x: string, v: int, y: string)
    ensures Numeral(u) + ":" + x == Numeral(v) + ":" + y <==> u == v && x == y
  {
    NumeralColonFree(u);
    NumeralColonFree(v);
    FieldsAgree(Numeral(u), x, Numeral(v), y);
    NumeralInjective(u, v);
  }

  lemma HistoricalAgree(a: Request, b: Request)
    requires a.HistoricalPrices? && b.HistoricalPrices?
    ensures Rest(a) == Rest(b) <==> a == b
  {
    NumeralColonFree(a.days);
    NumeralColonFree(b.days);
    LastFieldsAgree(a.symbol, Numeral(a.days) + "days", b.symbol, Numeral(b.days) + "days");
    AppendAgree(Numeral(a.days), Numeral(b.days), "days");
    NumeralInjective(a.days, b.days);
  }

  lemma UserAgree(a: Request, b: Request)
    requires FamilyOf(a) == FamilyOf(b) && FamilyOf(a) in {Account, Session, Stock, Status}
    ensures Rest(a) == Rest(b) <==> a == b
  {
    if a.TastytradeSession? {
      PrependAgree("tastytrade:", Numeral(a.userId), Numeral(b.userId));
      NumeralInjective(a.userId, b.userId);
    } else {
      UserFieldsAgree(a.userId, a.account, b.userId, b.account);
    }
  }

  function StreamKind(r: Request): string
    requires FamilyOf(r) == Stream
  {
    if r.StreamHealth? then "health" else "subscriptions"
  }

  lemma StreamAgree(a: Request, b: Request)
    requires FamilyOf(a) == FamilyOf(b) == Stream
    ensures Rest(a) == Rest(b) <==> a == b
  {
    FieldsAgree(StreamKind(a), Numeral(a.userId), StreamKind(b), Numeral(b.userId));
    assert a.StreamHealth? <==> |StreamKind(a)| == 6;
    assert b.StreamHealth? <==> |StreamKind(b)| == 6;
    NumeralInjective(a.userId, b.userId);
  }

  function FetchKind(r: Request): string
    requires FamilyOf(r) == DataFetch
  {
    if r.DataFetchLock? then "lock" else "stooq"
  }

  function FetchText(r: Request): string
    requires FamilyOf(r) == DataFetch
  {
    if r.DataFetchLock? then r.resource else r.symbol
  }

  lemma DataFetchAgree(a: Request, b: Request)
    requires FamilyOf(a) == FamilyOf(b) == DataFetch
    ensures Rest(a) == Rest(b) <==> a == b
  {
    FieldsAgree(FetchKind(a), FetchText(a), FetchKind(b), FetchText(b));
    assert a.DataFetchLock? <==> |FetchKind(a)| == 4;
    assert b.DataFetchLock? <==> |FetchKind(b)| == 4;
  }

  function DxfeedKind(r: Request): string
    requires FamilyOf(r) == Dxfeed
  {
    match r case DxfeedUnderlying(_) => "underlying" case DxfeedGreeks(_) => "greeks" case DxfeedQuote(_) => "quote"
  }

  lemma DxfeedAgree(a: Request, b: Request)
    requires FamilyOf(a) == FamilyOf(b) == Dxfeed
    ensures Rest(a) == Rest(b) <==> Blanked(a) == Blanked(b)
  {
    FieldsAgree(DxfeedKind(a), Sanitize(a.symbol), DxfeedKind(b), Sanitize(b.symbol));
    DxfeedLength(a);
    DxfeedLength(b);
  }

  lemma DxfeedLength(r: Request)
    requires FamilyOf(r) == Dxfeed
    ensures |DxfeedKind(r)| == if r.DxfeedUnderlying? then 10 else if r.DxfeedGreeks? then 6 else 5
  {
  }

  // ---------------------------------------------------------------- collisions

  lemma ChainAgree(a: Request, b: Request)
    requires ValidDates(a) && ValidDates(b) && FamilyOf(a) == FamilyOf(b) == Chain
    ensures Rest(a) == Rest(b) <==> a == b || Imitates(a, b) || Imitates(b, a)
  {
    if Marked(a) && Marked(b) {
      MarkedAgree(a, b);
    } else if Marked(a) {
      MarkedAgainstDated(a, b);
    } else if Marked(b) {
      MarkedAgainstDated(b, a);
    } else {
      DatedAgree(a, b);
    }
  }

  lemma FamilyAgree(a: Request, b: Request)
    requires ValidDates(a) && ValidDates(b) && FamilyOf(a) == FamilyOf(b)
    ensures Rest(a) == Rest(b) <==> Blanked(a) == Blanked(b) || Imitates(a, b) || Imitates(b, a)
  {
    match FamilyOf(a) {
      case Chain => ChainAgree(a, b);
      case Dxfeed => DxfeedAgree(a, b);
      case DataFetch => DataFetchAgree(a, b);
      case Stream => StreamAgree(a, b);
      case Historical => HistoricalAgree(a, b);
      case Quotes =>
      case Metrics =>
      case _ => UserAgree(a, b);
    }
  }

  /**
    For arbitrary texts, two calls build the same key if and only if they are the same
    call up to the blanks that are replaced, or one is a nested or expirations chain
    that imitates the other, a dated one.
   */
  lemma KeysCollideIff(a: Request, b: Request)
    requires ValidDates(a) && ValidDates(b)
    ensures KeyOf(a) == KeyOf(b) <==> Blanked(a) == Blanked(b) || Imitates(a, b) || Imitates(b, a)
  {
    KeysSplit(a, b);
    if FamilyOf(a) == FamilyOf(b) {
      FamilyAgree(a, b);
    } else {
      FamiliesDiffer(a, b);
    }
  }

  lemma KeysSplit(a: Request, b: Request)
    ensures KeyOf(a) == KeyOf(b) <==> FamilyOf(a) == FamilyOf(b) && Rest(a) == Rest(b)
  {
    var f, g := FamilyOf(a), FamilyOf(b);
    PrefixCode(f);
    PrefixCode(g);
    FieldsAgree(Prefix(f), Rest(a), Prefix(g), Rest(b));
    PrefixInjective(f, g);
  }

  lemma FamiliesDiffer(a: Request, b: Request)
    requires FamilyOf(a) != FamilyOf(b)
    ensures Blanked(a) != Blanked(b) && !Imitates(a, b) && !Imitates(b, a)
  {
    BlankedKeepsFamily(a);
    BlankedKeepsFamily(b);
  }

  lemma BlankedKeepsFamily(r: Request)
    ensures FamilyOf(Blanked(r)) == FamilyOf(r)
  {
  }

  /** Only the symbols of nested and expirations chains must be free of colons. */
  predicate Separable(r: Request) {
    ValidDates(r) && (Marked(r) ==> ColonFree(r.symbol))
  }

  lemma SeparableCollideIff(a: Request, b: Request)
    requires Separable(a) && Separable(b)
    ensures KeyOf(a) == KeyOf(b) <==> Blanked(a) == Blanked(b)
  {
    KeysCollideIff(a, b);
    ImitatorHasColon(a, b);
    ImitatorHasColon(b, a);
  }

  lemma ImitatorHasColon(a: Request, b: Request)
    ensures Imitates(a, b) ==> !ColonFree(a.symbol)
  {
    if Imitates(a, b) {
      var d := Dates(b);
      assert d[|Selector(b)|] == ':';
      assert a.symbol[|a.symbol| - |d| + |Selector(b)|] == ':';
    }
  }

  predicate Sanitizes(r: Request) {
    r.Quote? || FamilyOf(r) == Dxfeed
  }

  predicate UnderscoreFree(s: string) {
    forall i :: 0 <= i < |s| ==> s[i] != '_'
  }

  /** Separable, and without underscores where blanks are replaced: all symbols free of both are. */
  predicate WellFormed(r: Request) {
    Separable(r) && (Sanitizes(r) ==> UnderscoreFree(r.symbol))
  }

  lemma SanitizeInjective(a: string, b: string)
    requires UnderscoreFree(a) && UnderscoreFree(b)
    ensures Sanitize(a) == Sanitize(b) <==> a == b
  {
    if Sanitize(a) == Sanitize(b) {
      forall i | 0 <= i < |a|
        ensures a[i] == b[i]
      {
        assert Sanitize(a)[i] == Sanitize(b)[i];
      }
    }
  }

  /** Two such calls share a key exactly when they are the same builder, arguments and date. */
  lemma KeysNeverCollide(a: Request, b: Request)
    requires WellFormed(a) && WellFormed(b)
    ensures KeyOf(a) == KeyOf(b) <==> a == b
  {
    SeparableCollideIff(a, b);
    if Sanitizes(a) && Sanitizes(b) {
      SanitizeInjective(a.symbol, b.symbol);
    }
  }

  /** Any symbol with a blank shares its quote key with another one. */
  lemma UnderscoreCollides(s: string)
    ensures KeyOf(Quote(s)) == KeyOf(Quote(Sanitize(s)))
    ensures s != Sanitize(s) <==> ' ' in s
  {
    SanitizeTwice(s);
    KeysCollideIff(Quote(s), Quote(Sanitize(s)));
    if ' ' in s {
      var i :| 0 <= i < |s| && s[i] == ' ';
      assert Sanitize(s)[i] == '_';
    }
  }

  lemma SanitizeTwice(s: string)
    ensures Sanitize(Sanitize(s)) == Sanitize(s)
  {
  }

  /** A nested chain whose "symbol" spells two dates shares its key with a dated chain. */
  lemma ColonCollides(e: O.Date, t: O.Date)
    requires ValidDay(e) && ValidDay(t)
    ensures KeyOf(ChainNested(DateText(e) + ":" + DateText(t))) == KeyOf(ChainWithExpiration("nested", e, t))
  {
    var a, b := ChainNested(DateText(e) + ":" + DateText(t)), ChainWithExpiration("nested", e, t);
    assert Imitates(a, b);
    KeysCollideIff(a, b);
  }

  /** A key as other services spell it out. */
  lemma QuoteKeyExample()
    ensures KeyOf(Quote("A B")) == "quote:A_B"
  {
    assert Sanitize("A B") == "A_B";
  }

  lemma NestedKeyExample()
    ensures KeyOf(ChainNested("SPY")) == "option_chain:nested:SPY"
  {
    assert "nested" + ":" + "SPY" == "nested:SPY";
    assert "option_chain" + ":" + "nested:SPY" == "option_chain:nested:SPY";
  }
}
