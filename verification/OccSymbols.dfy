/**
  OCC option symbols: the printer of services/execution/order_service.py and the parser
  of scripts/position_reconciliation_analysis.py and scripts/qqq_assignment_report.py.

  A symbol is a root padded to six characters, a yymmdd expiry, a C or P, and the strike
  in thousandths padded to eight digits.
 */
module OccSymbols {
  import opened Prelude
  import opened Text

  datatype Date = Date(year: nat, month: nat, day: nat)

  datatype Right = Call | Put

  datatype Contract = Contract(root: string, expiry: Date, right: Right, strike: real)

  /** What the parser returns: an unreadable expiry or strike is None. */
  datatype Parsed = Parsed(root: string, expiry: Option<Date>, right: Right, strike: Option<real>)

  predicate LeapYear(y: nat) {
    y % 4 == 0 && (y % 100 != 0 || y % 400 == 0)
  }

  function DaysInMonth(y: nat, m: nat): nat {
    if m == 2 then (if LeapYear(y) then 29 else 28)
    else if m in {4, 6, 9, 11} then 30
    else 31
  }

  predicate ValidDate(d: Date) {
    1 <= d.month <= 12 && 1 <= d.day <= DaysInMonth(d.year, d.month)
  }

  // ---------------------------------------------------------------- printing

  function PadRoot(root: string): string {
    if |root| < 6 then root + Spaces(6 - |root|) else root
  }

  function PrintExpiry(d: Date): string {
    Fixed(d.year % 100, 2) + Fixed(d.month, 2) + Fixed(d.day, 2)
  }

  /** The strike in thousandths, fractions of a thousandth cut off towards zero. */
  function Thousandths(strike: real): (n: int)
    ensures strike >= 0.0 ==> n >= 0
  {
    var x := strike * 1000.0;
    if x >= 0.0 then x.Floor else -((-x).Floor)
  }

  /** Zero-padded to eight characters, a sign included. */
  function StrikeText(strike: real): string {
    var n := Thousandths(strike);
    if n >= 0 then Fixed(n, 8) else "-" + Fixed(-n, 7)
  }

  function RightLetter(r: Right): char {
    if r == Call then 'C' else 'P'
  }

  function Print(c: Contract): string {
    PadRoot(c.root) + PrintExpiry(c.expiry) + [RightLetter(c.right)] + StrikeText(c.strike)
  }

  // ---------------------------------------------------------------- parsing

  /** strptime's two-digit year: 69 to 99 belong to the twentieth century. */
  function CenturyYear(yy: nat): nat {
    if yy <= 68 then 2000 + yy else 1900 + yy
  }

  /** A day may be written with a leading blank. */
  predicate DayField(s: string)
    requires |s| == 2
  {
    IsDigit(s[1]) && (IsDigit(s[0]) || s[0] == ' ')
  }

  function ParseExpiry(s: string): (d: Option<Date>)
    requires |s| <= 6
  {
    if |s| < 6 || !AllDigits(s[..4]) || !DayField(s[4..]) then None
    else
      var d := Date(CenturyYear(ReadNat(s[..2])), ReadNat(s[2..4]),
                    if s[4] == ' ' then DigitValue(s[5]) else ReadNat(s[4..]));
      if ValidDate(d) then Some(d) else None
  }

  function ParseStrike(s: string): Option<real> {
    if s != [] && AllDigits(s) then Some(ReadNat(s) as real / 1000.0) else None
  }

  function Parse(symbol: string): (p: Option<Parsed>) {
    var text := Strip(symbol);
    if |text| < 15 then None
    else Some(Parsed(Strip(text[..6]), ParseExpiry(text[6..12]),
                     if text[12] in {'C', 'c'} then Call else Put,
                     ParseStrike(text[13..])))
  }

  // ---------------------------------------------------------------- round trip

  /** Roots the layout can hold, with an expiry in strptime's range. */
  predicate Printable(c: Contract) {
    && 1 <= |c.root| <= 6 && NoSpace(c.root)
    && ValidDate(c.expiry) && 2000 <= c.expiry.year <= 2068
    && c.strike >= 0.0
  }

  predicate WholeThousandths(strike: real) {
    strike * 1000.0 == Thousandths(strike) as real
  }

  lemma TwoDigits(n: nat)
    requires n < 100
    ensures |Fixed(n, 2)| == 2 && ReadNat(Fixed(n, 2)) == n
  {
    assert Pow10(2) == 100 by { assert Pow10(1) == 10 * Pow10(0); }
    FixedLength(n, 2);
    ReadFixed(n, 2);
  }

  lemma ExpiryRoundTrip(d: Date)
    requires ValidDate(d) && 2000 <= d.year <= 2068
    ensures |PrintExpiry(d)| == 6 && ParseExpiry(PrintExpiry(d)) == Some(d)
  {
    TwoDigits(d.year % 100);
    TwoDigits(d.month);
    TwoDigits(d.day);
    var s := PrintExpiry(d);
    assert s[..2] == Fixed(d.year % 100, 2);
    assert s[2..4] == Fixed(d.month, 2);
    assert s[4..] == Fixed(d.day, 2);
    assert s[4] == Fixed(d.day, 2)[0] && s[5] == Fixed(d.day, 2)[1];
    assert forall i :: 0 <= i < 2 ==> s[..4][i] == Fixed(d.year % 100, 2)[i];
    assert forall i :: 2 <= i < 4 ==> s[..4][i] == Fixed(d.month, 2)[i - 2];
  }

  lemma RootRoundTrip(root: string)
    requires 1 <= |root| <= 6 && NoSpace(root)
    ensures Strip(PadRoot(root)) == root
  {
    if |root| < 6 { StripPadding(root, 6 - |root|); } else { StripTight(root); }
  }

  lemma StrikeRoundTrip(thousandths: nat)
    ensures ParseStrike(Fixed(thousandths, 8)) == Some(thousandths as real / 1000.0)
  {
    ReadFixed(thousandths, 8);
  }

  lemma PrintLayout(c: Contract)
    requires Printable(c)
    ensures var s := Print(c);
            && |s| >= 21 && Strip(s) == s && (Thousandths(c.strike) < Pow10(8) ==> |s| == 21)
            && s[..6] == PadRoot(c.root) && s[6..12] == PrintExpiry(c.expiry)
            && s[12] == RightLetter(c.right) && s[13..] == Fixed(Thousandths(c.strike), 8)
  {
    var s := Print(c);
    ExpiryRoundTrip(c.expiry);
    FixedLength(Thousandths(c.strike), 8);
    assert s[0] == c.root[0];
    assert s[|s| - 1] == Fixed(Thousandths(c.strike), 8)[|Fixed(Thousandths(c.strike), 8)| - 1];
    StripTight(s);
  }

  /** What the parser reads back from a printed contract: everything, with the strike cut to thousandths. */
  lemma ParsePrint(c: Contract)
    requires Printable(c)
    ensures Parse(Print(c))
              == Some(Parsed(c.root, Some(c.expiry), c.right, Some(Thousandths(c.strike) as real / 1000.0)))
  {
    PrintLayout(c);
    ExpiryRoundTrip(c.expiry);
    RootRoundTrip(c.root);
    StrikeRoundTrip(Thousandths(c.strike));
  }

  /** The round trip is exact if and only if the strike has at most three decimals. */
  lemma RoundTripIff(c: Contract)
    requires Printable(c)
    ensures Parse(Print(c)) == Some(Parsed(c.root, Some(c.expiry), c.right, Some(c.strike)))
            <==> WholeThousandths(c.strike)
  {
    ParsePrint(c);
  }

  /** Different contracts have different symbols. */
  lemma PrintInjective(a: Contract, b: Contract)
    requires Printable(a) && Printable(b) && WholeThousandths(a.strike) && WholeThousandths(b.strike)
    ensures Print(a) == Print(b) <==> a == b
  {
    RoundTripIff(a);
    RoundTripIff(b);
  }

  /** A symbol of the printed layout. */
  lemma PrintExample()
    ensures Print(Contract("QQQ", Date(2025, 11, 14), Call, 606.0)) == "QQQ   251114C00606000"
  {
    SixHundredSix();
    assert PadRoot("QQQ") == "QQQ   ";
    assert Fixed(2, 1) == "2" && Fixed(1, 1) == "1";
    assert Fixed(25, 2) == "25" && Fixed(11, 2) == "11" && Fixed(14, 2) == "14";
    assert PrintExpiry(Date(2025, 11, 14)) == "251114";
    assert StrikeText(606.0) == "00606000";
  }

  lemma SixHundredSix()
    ensures Fixed(606000, 8) == "00606000"
  {
    assert Fixed(0, 2) == "00";
    assert Fixed(6, 3) == "006";
    assert Fixed(60, 4) == "0060";
    assert Fixed(606, 5) == "00606";
    assert Fixed(6060, 6) == "006060";
    assert Fixed(60600, 7) == "0060600";
  }
}
