/**
  Exit rules and the manager that combines them:
  services/exit_strategies/{manager,profit_target,stop_loss,time_based}.py.

  A rule either gives a verdict or raises; the manager counts a raised rule as "do not exit".
  Days are day numbers in market time, instants are microseconds.
 */
module ExitRules {
  import opened Prelude
  import opened Numbers

  /** A number kept on a position: absent, not convertible to a decimal, or a number. */
  datatype Amount = Missing | Unreadable | Number(value: real)

  /** When the position was opened: absent, without a time zone, or an instant. */
  datatype Stamp = Unset | Naive | At(instant: int)

  /** expiration is None when the metadata has no date that can be parsed. */
  datatype Position = Position(unrealizedPnl: Amount, initialRisk: Amount, expiration: Option<int>, openedAt: Stamp)

  datatype Clock = Clock(now: int, today: int)

  /** Replies of rules defined elsewhere; one without a reply raises. */
  datatype Context = Context(position: Position, clock: Clock, replies: map<nat, bool>)

  datatype Rule =
    | ProfitTarget(percentage: real)
    | StopLoss(percentage: real)
    | TimeBased(minDte: Option<int>, maxDte: Option<int>, minHolding: Option<int>, maxHolding: Option<int>)
    | Custom(code: nat)

  /** A rule object; objects are compared by identity. */
  datatype Strategy = Strategy(id: nat, rule: Rule)

  datatype Mode = Any | All

  const DAY := 86_400_000_000

  // ---------------------------------------------------------------- what the constructors accept

  predicate NotNegative(x: Option<int>) {
    x.Some? ==> x.value >= 0
  }

  predicate Ordered(low: Option<int>, high: Option<int>) {
    low.Some? && high.Some? ==> low.value <= high.value
  }

  predicate Accepted(rule: Rule) {
    match rule
    case ProfitTarget(pct) => pct > 0.0
    case StopLoss(pct) => pct > 0.0
    case TimeBased(minDte, maxDte, minHolding, maxHolding) =>
      (minDte.Some? || maxDte.Some? || minHolding.Some? || maxHolding.Some?)
      && NotNegative(minDte) && NotNegative(maxDte) && Ordered(minDte, maxDte)
      && NotNegative(minHolding) && NotNegative(maxHolding) && Ordered(minHolding, maxHolding)
    case Custom(_) => true
  }

  // ---------------------------------------------------------------- single rules

  /** None when the rule raises: the P&L is read first, a zero or absent risk is no data. */
  function ProfitVerdict(pct: real, p: Position): Option<bool> {
    if p.unrealizedPnl.Missing? then Some(false)
    else if p.unrealizedPnl.Unreadable? then None
    else if p.initialRisk.Missing? then Some(false)
    else if p.initialRisk.Unreadable? then None
    else if p.initialRisk.value == 0.0 then Some(false)
    else Some(p.unrealizedPnl.value >= Abs(p.initialRisk.value) * (pct / 100.0))
  }

  function LossVerdict(pct: real, p: Position): Option<bool> {
    if p.unrealizedPnl.Missing? then Some(false)
    else if p.unrealizedPnl.Unreadable? then None
    else if p.initialRisk.Missing? then Some(false)
    else if p.initialRisk.Unreadable? then None
    else if p.initialRisk.value == 0.0 then Some(false)
    else Some(p.unrealizedPnl.value <= -Abs(p.initialRisk.value) * (pct / 100.0))
  }

  function DaysToExpiration(p: Position, clock: Clock): (dte: Option<int>)
    ensures dte.Some? ==> dte.value >= 0
  {
    if p.expiration.None? then None
    else if p.expiration.value < clock.today then Some(0)
    else Some(p.expiration.value - clock.today)
  }

  /** Whole days, rounded towards the past. */
  function HoldingDays(instant: int, clock: Clock): int {
    (clock.now - instant) / DAY
  }

  predicate DteTriggers(r: Rule, p: Position, clock: Clock)
    requires r.TimeBased?
  {
    var dte := DaysToExpiration(p, clock);
    dte.Some? && ((r.minDte.Some? && dte.value < r.minDte.value) || (r.maxDte.Some? && dte.value > r.maxDte.value))
  }

  predicate WatchesHolding(r: Rule) {
    r.TimeBased? && (r.minHolding.Some? || r.maxHolding.Some?)
  }

  predicate HoldingTriggers(r: Rule, p: Position, clock: Clock)
    requires r.TimeBased?
  {
    p.openedAt.At? && r.maxHolding.Some? && HoldingDays(p.openedAt.instant, clock) > r.maxHolding.value
  }

  function TimeVerdict(r: Rule, p: Position, clock: Clock): Option<bool>
    requires r.TimeBased?
  {
    if WatchesHolding(r) && p.openedAt.Naive? then None
    else Some(DteTriggers(r, p, clock) || HoldingTriggers(r, p, clock))
  }

  function RuleVerdict(r: Rule, ctx: Context): Option<bool> {
    match r
    case ProfitTarget(pct) => ProfitVerdict(pct, ctx.position)
    case StopLoss(pct) => LossVerdict(pct, ctx.position)
    case TimeBased(_, _, _, _) => TimeVerdict(r, ctx.position, ctx.clock)
    case Custom(code) => if code in ctx.replies then Some(ctx.replies[code]) else None
  }

  predicate Triggers(r: Rule, ctx: Context) {
    RuleVerdict(r, ctx) == Some(true)
  }

  /** The clauses of a time rule's reason. */
  datatype Reason =
    | DteBelowMinimum | DteNotBelowMinimum | DteAboveMaximum | DteNotAboveMaximum | DteUnavailable
    | HeldTooShort | HeldLongEnough | HeldTooLong | HeldWithinMaximum | HoldingUnavailable

  /** Some clause asks for the exit. */
  predicate SomeTrigger(reasons: seq<Reason>) {
    DteBelowMinimum in reasons || DteAboveMaximum in reasons || HeldTooLong in reasons
  }

  /** The flag is set exactly when a clause of the reason explains it; a naive stamp loses both. */
  method EvaluateTimeBased(r: Rule, p: Position, clock: Clock) returns (verdict: Option<bool>, reasons: seq<Reason>)
    requires r.TimeBased?
    ensures verdict == TimeVerdict(r, p, clock)
    ensures verdict.None? <==> WatchesHolding(r) && p.openedAt.Naive?
    ensures verdict.Some? ==> (verdict.value <==> SomeTrigger(reasons))
    ensures Accepted(r) && verdict.Some? ==> reasons != []
    ensures DteUnavailable in reasons ==> DteBelowMinimum !in reasons && DteAboveMaximum !in reasons
  {
    var shouldExit := false;
    reasons := [];
    if r.minDte.Some? || r.maxDte.Some? {
      var dte := DaysToExpiration(p, clock);
      if dte.Some? {
        if r.minDte.Some? {
          if dte.value < r.minDte.value {
            shouldExit := true;
            reasons := reasons + [DteBelowMinimum];
          } else {
            reasons := reasons + [DteNotBelowMinimum];
          }
        }
        if r.maxDte.Some? {
          if dte.value > r.maxDte.value {
            shouldExit := true;
            reasons := reasons + [DteAboveMaximum];
          } else {
            reasons := reasons + [DteNotAboveMaximum];
          }
        }
      } else {
        reasons := reasons + [DteUnavailable];
      }
    }
    if r.minHolding.Some? || r.maxHolding.Some? {
      if p.openedAt.Naive? {
        return None, [];
      }
      if p.openedAt.At? {
        var days := HoldingDays(p.openedAt.instant, clock);
        if r.minHolding.Some? {
          reasons := reasons + [if days < r.minHolding.value then HeldTooShort else HeldLongEnough];
        }
        if r.maxHolding.Some? {
          if days > r.maxHolding.value {
            shouldExit := true;
            reasons := reasons + [HeldTooLong];
          } else {
            reasons := reasons + [HeldWithinMaximum];
          }
        }
      } else {
        reasons := reasons + [HoldingUnavailable];
      }
    }
    verdict := Some(shouldExit);
  }

  // ---------------------------------------------------------------- the combined verdict

  /** OR or AND of the rules, a raised rule counting as false. */
  ghost predicate Verdict(mode: Mode, strategies: seq<Strategy>, ctx: Context) {
    match mode
    case Any => exists s :: s in strategies && Triggers(s.rule, ctx)
    case All => forall s :: s in strategies ==> Triggers(s.rule, ctx)
  }

  function WithVerdict(strategies: seq<Strategy>, ctx: Context, triggered: bool): seq<Strategy> {
    if strategies == [] then []
    else
      var before := WithVerdict(strategies[..|strategies| - 1], ctx, triggered);
      var last := strategies[|strategies| - 1];
      if Triggers(last.rule, ctx) == triggered then before + [last] else before
  }

  datatype Evaluation = Evaluation(shouldExit: bool, failed: bool)

  function EvaluationOf(verdict: Option<bool>): Evaluation {
    if verdict.None? then Evaluation(false, true) else Evaluation(verdict.value, false)
  }

  function FirstIndex(strategies: seq<Strategy>, s: Strategy): (i: nat)
    ensures i <= |strategies| && (i < |strategies| <==> s in strategies)
    ensures i < |strategies| ==> strategies[i] == s
    ensures s !in strategies[..i]
  {
    if strategies == [] || strategies[0] == s then 0 else 1 + FirstIndex(strategies[1..], s)
  }

  function Removed(strategies: seq<Strategy>, s: Strategy): seq<Strategy> {
    var i := FirstIndex(strategies, s);
    if i == |strategies| then strategies else strategies[..i] + strategies[i + 1..]
  }

  class ExitManager {
    var strategies: seq<Strategy>
    const mode: Mode

    constructor (strategies: seq<Strategy>, mode: Mode)
      ensures this.strategies == strategies && this.mode == mode
    {
      this.strategies := strategies;
      this.mode := mode;
    }

    /** A manager needs at least one rule to start with. */
    static method Configure(strategies: seq<Strategy>, mode: Mode) returns (r: Option<ExitManager>)
      ensures r.None? <==> strategies == []
      ensures r.Some? ==> fresh(r.value) && r.value.strategies == strategies && r.value.mode == mode
    {
      if strategies == [] {
        return None;
      }
      var manager := new ExitManager(strategies, mode);
      return Some(manager);
    }

    /** Every rule is evaluated, in order, even when the outcome is already settled.  `cited`
        are the rules the combined reason names: those that triggered, or those waited on. */
    method ShouldExit(ctx: Context) returns (exit: bool, cited: seq<Strategy>, evaluations: seq<Evaluation>)
      ensures exit <==> Verdict(mode, strategies, ctx)
      ensures cited == WithVerdict(strategies, ctx, mode.Any? || exit)
      ensures |evaluations| == |strategies|
      ensures forall i :: 0 <= i < |strategies| ==> evaluations[i] == EvaluationOf(RuleVerdict(strategies[i].rule, ctx))
    {
      evaluations := [];
      var triggered: seq<Strategy>, waiting: seq<Strategy> := [], [];
      for i := 0 to |strategies|
        invariant |evaluations| == i
        invariant forall j :: 0 <= j < i ==> evaluations[j] == EvaluationOf(RuleVerdict(strategies[j].rule, ctx))
        invariant triggered == WithVerdict(strategies[..i], ctx, true)
        invariant waiting == WithVerdict(strategies[..i], ctx, false)
      {
        var s := strategies[i];
        var verdict;
        if s.rule.TimeBased? {
          var reasons;
          verdict, reasons := EvaluateTimeBased(s.rule, ctx.position, ctx.clock);
        } else {
          verdict := RuleVerdict(s.rule, ctx);
        }
        evaluations := evaluations + [EvaluationOf(verdict)];
        assert strategies[..i + 1][..i] == strategies[..i];
        if evaluations[i].shouldExit {
          triggered := triggered + [s];
        } else {
          waiting := waiting + [s];
        }
      }
      assert strategies[..|strategies|] == strategies;
      if mode == Any {
        exit := exists e :: e in evaluations && e.shouldExit;
        AnyTriggered(strategies, evaluations, ctx);
        cited := triggered;
      } else {
        exit := forall e :: e in evaluations ==> e.shouldExit;
        AnyTriggered(strategies, evaluations, ctx);
        if exit {
          AllSelected(strategies, ctx);
          cited := strategies;
        } else {
          cited := waiting;
        }
      }
    }

    /** Rules are evaluated in the order they were added. */
    method AddStrategy(s: Strategy)
      modifies this
      ensures strategies == old(strategies) + [s]
    {
      strategies := strategies + [s];
    }

    /** Takes out the first occurrence, and says whether there was one. */
    method RemoveStrategy(s: Strategy) returns (removed: bool)
      modifies this
      ensures removed <==> s in old(strategies)
      ensures strategies == Removed(old(strategies), s)
    {
      var i := 0;
      while i < |strategies| && strategies[i] != s
        invariant i <= |strategies| && s !in strategies[..i]
        invariant FirstIndex(strategies, s) == i + FirstIndex(strategies[i..], s)
      {
        i := i + 1;
      }
      removed := i < |strategies|;
      if removed {
        strategies := strategies[..i] + strategies[i + 1..];
      }
    }
  }

  /** When every rule triggers, the rules that triggered are the whole list. */
  lemma {:induction false} AllSelected(strategies: seq<Strategy>, ctx: Context)
    requires forall s :: s in strategies ==> Triggers(s.rule, ctx)
    ensures WithVerdict(strategies, ctx, true) == strategies
  {
    if strategies != [] {
      var n := |strategies| - 1;
      AllSelected(strategies[..n], ctx);
      assert strategies[n] in strategies;
      assert strategies == strategies[..n] + [strategies[n]];
    }
  }

  lemma AnyTriggered(strategies: seq<Strategy>, evaluations: seq<Evaluation>, ctx: Context)
    requires |evaluations| == |strategies|
    requires forall i :: 0 <= i < |strategies| ==> evaluations[i] == EvaluationOf(RuleVerdict(strategies[i].rule, ctx))
    ensures (exists e :: e in evaluations && e.shouldExit) <==> Verdict(Any, strategies, ctx)
    ensures (forall e :: e in evaluations ==> e.shouldExit) <==> Verdict(All, strategies, ctx)
  {
    forall i | 0 <= i < |strategies|
      ensures evaluations[i].shouldExit <==> Triggers(strategies[i].rule, ctx)
      ensures evaluations[i] in evaluations && strategies[i] in strategies
    {
    }
  }

  // ---------------------------------------------------------------- laws of combination

  /** Only which rules are there matters, not their order or how often one occurs. */
  lemma OrderIrrelevant(mode: Mode, a: seq<Strategy>, b: seq<Strategy>, ctx: Context)
    requires multiset(a) == multiset(b)
    ensures Verdict(mode, a, ctx) <==> Verdict(mode, b, ctx)
  {
    forall s
      ensures s in a <==> s in b
    {
      assert s in multiset(a) <==> s in multiset(b);
    }
  }

  /** Another rule can only add exits in ANY mode and only take exits away in ALL mode. */
  lemma AddingIsMonotone(a: seq<Strategy>, s: Strategy, ctx: Context)
    ensures Verdict(Any, a + [s], ctx) <==> Verdict(Any, a, ctx) || Triggers(s.rule, ctx)
    ensures Verdict(All, a + [s], ctx) <==> Verdict(All, a, ctx) && Triggers(s.rule, ctx)
  {
    assert s in a + [s];
    assert forall t :: t in a + [s] <==> t in a || t == s;
  }

  lemma RemovedTakesOne(b: seq<Strategy>, s: Strategy)
    requires s in b
    ensures multiset(Removed(b, s)) + multiset{s} == multiset(b)
  {
    var i := FirstIndex(b, s);
    assert b == b[..i] + [s] + b[i + 1..];
  }

  /** Removing what was just added restores the verdicts, and the list itself if the rule was new. */
  lemma RemoveUndoesAdd(a: seq<Strategy>, s: Strategy)
    ensures multiset(Removed(a + [s], s)) == multiset(a)
    ensures s !in a ==> Removed(a + [s], s) == a
  {
    RemovedTakesOne(a + [s], s);
    assert multiset(a + [s]) == multiset(a) + multiset{s};
    var rest := multiset(Removed(a + [s], s));
    assert (rest + multiset{s}) - multiset{s} == rest;
    assert (multiset(a) + multiset{s}) - multiset{s} == multiset(a);
    if s !in a {
      var i := FirstIndex(a + [s], s);
      assert (a + [s])[i] == s;
      assert i == |a|;
      assert Removed(a + [s], s) == a + [];
    }
  }

  /** Removing a rule undoes the effect of adding it: ANY loses exits, ALL gains them. */
  lemma RemovingIsMonotone(a: seq<Strategy>, s: Strategy, ctx: Context)
    ensures Verdict(Any, Removed(a, s), ctx) ==> Verdict(Any, a, ctx)
    ensures Verdict(All, a, ctx) ==> Verdict(All, Removed(a, s), ctx)
  {
    assert forall t :: t in Removed(a, s) ==> t in a;
  }

  /** Although a manager cannot be created empty, it can be emptied: then ALL exits at once. */
  lemma ExitsUntriggeredIff(mode: Mode, a: seq<Strategy>, ctx: Context)
    requires forall s :: s in a ==> !Triggers(s.rule, ctx)
    ensures Verdict(mode, a, ctx) <==> mode == All && a == []
  {
    if a != [] {
      assert a[0] in a;
    }
  }

  // ---------------------------------------------------------------- profit target against stop loss

  lemma ProductPositive(x: real, y: real)
    requires x > 0.0 && y > 0.0
    ensures x * y > 0.0
  {
  }

  lemma ThresholdsApart(profit: real, loss: real, ctx: Context)
    requires profit > 0.0 && loss > 0.0
    ensures !(Triggers(ProfitTarget(profit), ctx) && Triggers(StopLoss(loss), ctx))
  {
    if Triggers(ProfitTarget(profit), ctx) {
      var risk := Abs(ctx.position.initialRisk.value);
      ProductPositive(risk, profit / 100.0);
      ProductPositive(risk, loss / 100.0);
      assert -risk * (loss / 100.0) == -(risk * (loss / 100.0));
    }
  }

  /** An ALL manager with a profit target and a stop loss never exits, whatever else it holds. */
  lemma TargetAndStopNeverBothExit(a: seq<Strategy>, p: Strategy, l: Strategy, ctx: Context)
    requires p in a && l in a && p.rule.ProfitTarget? && l.rule.StopLoss?
    requires Accepted(p.rule) && Accepted(l.rule)
    ensures !Verdict(All, a, ctx)
  {
    ThresholdsApart(p.rule.percentage, l.rule.percentage, ctx);
  }

  // ---------------------------------------------------------------- what the single rules mean

  /** Profit or loss as a percentage of the risk taken, as the evaluations report it. */
  function AchievedPercentage(pnl: real, risk: real): real
    requires risk != 0.0
  {
    (pnl / Abs(risk)) * 100.0
  }

  lemma ShareOfRisk(pnl: real, risk: real, pct: real)
    requires risk != 0.0
    ensures pnl >= Abs(risk) * (pct / 100.0) <==> AchievedPercentage(pnl, risk) >= pct
    ensures pnl <= -Abs(risk) * (pct / 100.0) <==> AchievedPercentage(pnl, risk) <= -pct
  {
    var r, share, part := Abs(risk), pnl / Abs(risk), pct / 100.0;
    assert share * r == pnl && r * share == pnl;
    ProductOrder(share, part, r);
    ProductOrder(-part, share, r);
    Negations(r, part);
    assert AchievedPercentage(pnl, risk) == 100.0 * share && pct == 100.0 * part;
  }

  lemma Negations(r: real, part: real)
    ensures -r * part == -(r * part) && (-part) * r == -(r * part)
  {
  }

  lemma ProductOrder(x: real, y: real, r: real)
    requires r > 0.0
    ensures x * r >= r * y <==> x >= y
  {
    if x > y {
      ProductPositive(x - y, r);
      assert (x - y) * r == x * r - y * r;
    } else if x < y {
      ProductPositive(y - x, r);
      assert (y - x) * r == y * r - x * r;
    }
  }

  /** A target or a stop triggers exactly when the percentage it reports has reached its limit. */
  lemma ThresholdsAreReportedPercentages(pct: real, ctx: Context)
    requires ctx.position.unrealizedPnl.Number? && ctx.position.initialRisk.Number?
    ensures var pnl, risk := ctx.position.unrealizedPnl.value, ctx.position.initialRisk.value;
            && (Triggers(ProfitTarget(pct), ctx) <==> risk != 0.0 && AchievedPercentage(pnl, risk) >= pct)
            && (Triggers(StopLoss(pct), ctx) <==> risk != 0.0 && AchievedPercentage(pnl, risk) <= -pct)
  {
    if ctx.position.initialRisk.value != 0.0 {
      ShareOfRisk(ctx.position.unrealizedPnl.value, ctx.position.initialRisk.value, pct);
    }
  }

  /** A minimum of m days triggers from m - 1 days before expiration on; a minimum of 0 never
      does, because a DTE is not reported below 0 after expiration. */
  lemma MinimumDteTriggersIff(m: int, ctx: Context)
    requires m >= 0
    ensures Triggers(TimeBased(Some(m), None, None, None), ctx)
            <==> m > 0 && ctx.position.expiration.Some? && ctx.clock.today > ctx.position.expiration.value - m
  {
  }

  /** A maximum of m holding days triggers once m + 1 whole days have passed. */
  lemma MaximumHoldingTriggersIff(m: int, ctx: Context)
    ensures Triggers(TimeBased(None, None, None, Some(m)), ctx)
            <==> ctx.position.openedAt.At? && ctx.clock.now - ctx.position.openedAt.instant >= (m + 1) * DAY
  {
    if ctx.position.openedAt.At? {
      WholeDays(ctx.clock.now - ctx.position.openedAt.instant, m);
    }
  }

  lemma WholeDays(span: int, m: int)
    ensures span / DAY > m <==> span >= (m + 1) * DAY
  {
    var q, r := span / DAY, span % DAY;
    assert span == q * DAY + r;
  }

  /** A minimum holding period alone never asks for an exit. */
  lemma MinimumHoldingNeverTriggers(m: int, ctx: Context)
    ensures !Triggers(TimeBased(None, None, Some(m), None), ctx)
  {
  }

  // ---------------------------------------------------------------- as the clock advances

  const HOUR := 3_600_000_000

  /** From c to d: the dates are those of the instants, up to the hour a day can gain or lose. */
  predicate Elapses(c: Clock, d: Clock) {
    && c.now <= d.now && c.today <= d.today
    && -DAY - HOUR < (d.now - c.now) - (d.today - c.today) * DAY < DAY + HOUR
  }

  /** Once an ANY manager says exit for a position, it says so at every later time. */
  ghost predicate NeverUntriggers(a: seq<Strategy>) {
    forall p, c, d, replies ::
      Elapses(c, d) && Verdict(Any, a, Context(p, c, replies)) ==> Verdict(Any, a, Context(p, d, replies))
  }

  predicate HasMaxDte(s: Strategy) {
    s.rule.TimeBased? && s.rule.maxDte.Some?
  }

  predicate Overlap(s: Strategy, t: Strategy) {
    s.rule.TimeBased? && s.rule.minDte.Some? && HasMaxDte(t) && s.rule.minDte.value > t.rule.maxDte.value
  }

  /** No upper DTE limit at all, or together with a lower limit it covers every DTE. */
  ghost predicate Covered(a: seq<Strategy>) {
    (forall s :: s in a ==> !HasMaxDte(s)) || exists s, t :: s in a && t in a && Overlap(s, t)
  }

  function WithoutHolding(a: seq<Strategy>): (r: seq<Strategy>)
    ensures forall s :: s in r <==> s in a && !WatchesHolding(s.rule)
  {
    if a == [] then []
    else
      var before := WithoutHolding(a[..|a| - 1]);
      assert a == a[..|a| - 1] + [a[|a| - 1]];
      if WatchesHolding(a[|a| - 1].rule) then before else before + [a[|a| - 1]]
  }

  /** With overlapping limits, one of the two rules triggers on every DTE. */
  lemma OverlapTriggers(s: Strategy, t: Strategy, ctx: Context)
    requires Overlap(s, t) && ctx.position.expiration.Some?
    requires ctx.position.openedAt.Naive? ==> !WatchesHolding(s.rule) && !WatchesHolding(t.rule)
    ensures Triggers(s.rule, ctx) || Triggers(t.rule, ctx)
  {
  }

  lemma CoveredPersists(a: seq<Strategy>, p: Position, c: Clock, d: Clock, replies: map<nat, bool>)
    requires Covered(a) && Covered(WithoutHolding(a)) && Elapses(c, d)
    requires Verdict(Any, a, Context(p, c, replies))
    ensures Verdict(Any, a, Context(p, d, replies))
  {
    var s :| s in a && Triggers(s.rule, Context(p, c, replies));
    if !HasMaxDte(s) || p.expiration.None? {
      Persists(s.rule, p, c, d, replies);
    } else {
      var b := if p.openedAt.Naive? then WithoutHolding(a) else a;
      assert s in b;
      var x, y :| x in b && y in b && Overlap(x, y);
      OverlapTriggers(x, y, Context(p, d, replies));
    }
  }

  /** Without an upper DTE limit, or without an expiration to measure it by, a rule stays triggered. */
  lemma Persists(r: Rule, p: Position, c: Clock, d: Clock, replies: map<nat, bool>)
    requires Elapses(c, d) && (r.TimeBased? && r.maxDte.Some? ==> p.expiration.None?)
    requires Triggers(r, Context(p, c, replies))
    ensures Triggers(r, Context(p, d, replies))
  {
    if r.TimeBased? && HoldingTriggers(r, p, c) {
      assert HoldingDays(p.openedAt.instant, c) <= HoldingDays(p.openedAt.instant, d);
    }
  }

  lemma {:induction false} LowestMaxDte(a: seq<Strategy>) returns (t: Strategy)
    requires exists s :: s in a && HasMaxDte(s)
    ensures t in a && HasMaxDte(t)
    ensures forall s :: s in a && HasMaxDte(s) ==> t.rule.maxDte.value <= s.rule.maxDte.value
  {
    var n := |a| - 1;
    assert a == a[..n] + [a[n]];
    if exists s :: s in a[..n] && HasMaxDte(s) {
      t := LowestMaxDte(a[..n]);
      if HasMaxDte(a[n]) && a[n].rule.maxDte.value < t.rule.maxDte.value {
        t := a[n];
      }
    } else {
      t := a[n];
    }
  }

  /** A position that expires one day past the lowest upper limit: an exit today, none tomorrow. */
  function Approaching(maxDte: int, openedAt: Stamp, today: int): Context {
    Context(Position(Missing, Missing, Some(maxDte + 1), openedAt), Clock(today * DAY, today), map[])
  }

  lemma UncoveredUntriggers(a: seq<Strategy>, openedAt: Stamp)
    requires forall s :: s in a ==> Accepted(s.rule) && !s.rule.Custom?
    requires !Covered(if openedAt.Naive? then WithoutHolding(a) else a) && !openedAt.At?
    ensures !NeverUntriggers(a)
  {
    var b := if openedAt.Naive? then WithoutHolding(a) else a;
    var t := LowestMaxDte(b);
    var m := t.rule.maxDte.value;
    var before, after := Approaching(m, openedAt, 0), Approaching(m, openedAt, 1);
    assert DaysToExpiration(before.position, before.clock) == Some(m + 1);
    assert DaysToExpiration(after.position, after.clock) == Some(m);
    assert t in a && Triggers(t.rule, before);
    forall s | s in a
      ensures !Triggers(s.rule, after)
    {
      if s in b && s.rule.TimeBased? {
        assert !Overlap(s, t);
      }
    }
    assert Elapses(before.clock, after.clock);
    assert Verdict(Any, a, Context(before.position, before.clock, map[]));
    assert !Verdict(Any, a, Context(before.position, after.clock, map[]));
  }

  /** An ANY manager of the shipped rules never un-triggers as the clock advances exactly when
      its upper DTE limits, if any, are covered by a lower one, with and without the rules that
      watch the holding period (these raise, and drop out, for a stamp without a time zone). */
  lemma NeverUntriggersIff(a: seq<Strategy>)
    requires forall s :: s in a ==> Accepted(s.rule) && !s.rule.Custom?
    ensures NeverUntriggers(a) <==> Covered(a) && Covered(WithoutHolding(a))
  {
    if Covered(a) && Covered(WithoutHolding(a)) {
      forall p, c, d, replies | Elapses(c, d) && Verdict(Any, a, Context(p, c, replies))
        ensures Verdict(Any, a, Context(p, d, replies))
      {
        CoveredPersists(a, p, c, d, replies);
      }
    } else if Covered(a) {
      UncoveredUntriggers(a, Naive);
    } else {
      UncoveredUntriggers(a, Unset);
    }
  }

  /** In particular a list of minimum-DTE and holding rules never un-triggers. */
  lemma MinimumDteNeverUntriggers(a: seq<Strategy>)
    requires forall s :: s in a ==> Accepted(s.rule) && s.rule.TimeBased? && s.rule.maxDte.None?
    ensures NeverUntriggers(a)
  {
    NeverUntriggersIff(a);
  }

  // ---------------------------------------------------------------- time rules with several limits

  /** A maximum of m triggers up to the day m days before expiration, that day not included. */
  lemma MaximumDteTriggersIff(m: int, ctx: Context)
    requires m >= 0
    ensures Triggers(TimeBased(None, Some(m), None, None), ctx)
            <==> ctx.position.expiration.Some? && ctx.clock.today < ctx.position.expiration.value - m
  {
  }

  /** With a usable stamp, a rule with several limits triggers exactly when one of them alone does. */
  lemma TimeRuleIsOr(r: Rule, ctx: Context)
    requires r.TimeBased? && !ctx.position.openedAt.Naive?
    ensures Triggers(r, ctx) <==>
              || Triggers(TimeBased(r.minDte, None, None, None), ctx)
              || Triggers(TimeBased(None, r.maxDte, None, None), ctx)
              || Triggers(TimeBased(None, None, None, r.maxHolding), ctx)
  {
  }
}
