/**
  Ranking the symbols of a watch list: _process_symbols_parallel of trading/tasks.py.

  Replies arrive in symbol order whatever order the requests finish in.  A symbol becomes a
  candidate, scored by its best strategy, or is reported as failed with a diagnosis.
 */
module SymbolRanking {
  import opened Prelude
  import S = Sorting

  /** Scores by strategy, in the order of the selector's dictionary. */
  datatype Score = Score(strategy: string, value: real)

  /** suggested: the strategies suggested, best first. */
  datatype Reply = Raised | Selected(suggested: seq<string>, scores: seq<Score>)

  datatype Candidate = Candidate(symbol: string, strategy: string, score: real)

  datatype Failure =
    | Crashed(symbol: string)
    | NoSuitable(symbol: string, bestScore: real, bestStrategy: Option<string>)

  function ScoreFor(scores: seq<Score>, strategy: string): real {
    if scores == [] then 0.0
    else if scores[0].strategy == strategy then scores[0].value
    else ScoreFor(scores[1..], strategy)
  }

  /** The first of the scores to reach `best`. */
  ghost predicate FirstBest(scores: seq<Score>, best: real, strategy: string, i: nat) {
    && i < |scores| && scores[i] == Score(strategy, best)
    && forall j :: 0 <= j < i ==> scores[j].value < best
  }

  /** The highest positive score and the first strategy that has it; zero and none without one. */
  ghost predicate IsBest(scores: seq<Score>, best: real, strategy: Option<string>) {
    best >= 0.0
    && (forall i :: 0 <= i < |scores| ==> scores[i].value <= best)
    && (strategy.None? <==> best == 0.0)
    && (strategy.Some? ==> exists i: nat :: FirstBest(scores, best, strategy.value, i))
  }

  method BestScore(scores: seq<Score>) returns (best: real, strategy: Option<string>)
    ensures IsBest(scores, best, strategy)
  {
    best, strategy := 0.0, None;
    for i := 0 to |scores|
      invariant IsBest(scores[..i], best, strategy)
    {
      if scores[i].value > best {
        best, strategy := scores[i].value, Some(scores[i].strategy);
        assert FirstBest(scores[..i + 1], best, scores[i].strategy, i);
      } else if strategy.Some? {
        ghost var k: nat :| FirstBest(scores[..i], best, strategy.value, k);
        assert FirstBest(scores[..i + 1], best, strategy.value, k);
      }
    }
    assert scores[..|scores|] == scores;
  }

  /** The best score and the strategy that has it are determined by the scores. */
  lemma BestIsUnique(scores: seq<Score>, a: real, s: Option<string>, b: real, t: Option<string>)
    requires IsBest(scores, a, s) && IsBest(scores, b, t)
    ensures a == b && s == t
  {
    if s.Some? {
      var i: nat :| FirstBest(scores, a, s.value, i);
      assert scores[i].value <= b;
    }
    if t.Some? {
      var j: nat :| FirstBest(scores, b, t.value, j);
      assert scores[j].value <= a;
    }
  }

  predicate Suitable(r: Reply) {
    r.Selected? && r.suggested != []
  }

  function CandidateOf(symbol: string, r: Reply): Candidate
    requires Suitable(r)
  {
    Candidate(symbol, r.suggested[0], ScoreFor(r.scores, r.suggested[0]))
  }

  function Candidates(symbols: seq<string>, replies: seq<Reply>): seq<Candidate>
    requires |symbols| == |replies|
  {
    if symbols == [] then []
    else
      var n := |symbols| - 1;
      var before := Candidates(symbols[..n], replies[..n]);
      if Suitable(replies[n]) then before + [CandidateOf(symbols[n], replies[n])] else before
  }

  ghost predicate Explains(f: Failure, symbol: string, r: Reply) {
    f.symbol == symbol && !Suitable(r)
    && (f.Crashed? <==> r.Raised?)
    && (f.NoSuitable? && r.Selected? ==> IsBest(r.scores, f.bestScore, f.bestStrategy))
  }

  /** The failures explain the unsuitable replies, one each, in order. */
  ghost predicate Diagnoses(failed: seq<Failure>, symbols: seq<string>, replies: seq<Reply>)
    requires |symbols| == |replies|
  {
    if symbols == [] then failed == []
    else
      var n := |symbols| - 1;
      if Suitable(replies[n]) then Diagnoses(failed, symbols[..n], replies[..n])
      else failed != [] && Explains(failed[|failed| - 1], symbols[n], replies[n])
           && Diagnoses(failed[..|failed| - 1], symbols[..n], replies[..n])
  }

  function Descending(c: Candidate): real {
    -c.score
  }

  method ProcessSymbols(symbols: seq<string>, replies: seq<Reply>)
    returns (candidates: seq<Candidate>, failed: seq<Failure>)
    requires |symbols| == |replies|
    ensures candidates == S.Sort(Candidates(symbols, replies), Descending)
    ensures Diagnoses(failed, symbols, replies)
  {
    candidates, failed := [], [];
    for i := 0 to |symbols|
      invariant candidates == Candidates(symbols[..i], replies[..i])
      invariant Diagnoses(failed, symbols[..i], replies[..i])
    {
      assert symbols[..i + 1][..i] == symbols[..i] && replies[..i + 1][..i] == replies[..i];
      match replies[i] {
        case Raised =>
          var f := Crashed(symbols[i]);
          assert (failed + [f])[..|failed|] == failed;
          failed := failed + [f];
        case Selected(suggested, scores) =>
          if suggested == [] {
            var best, strategy := BestScore(scores);
            var f := NoSuitable(symbols[i], best, strategy);
            assert (failed + [f])[..|failed|] == failed;
            failed := failed + [f];
          } else {
            candidates := candidates + [CandidateOf(symbols[i], replies[i])];
          }
      }
    }
    assert symbols[..|symbols|] == symbols && replies[..|replies|] == replies;
    candidates := S.Sort(candidates, Descending);
  }

  function CandidateSymbols(candidates: seq<Candidate>): multiset<string> {
    multiset(seq(|candidates|, i requires 0 <= i < |candidates| => candidates[i].symbol))
  }

  function FailedSymbols(failed: seq<Failure>): multiset<string> {
    multiset(seq(|failed|, i requires 0 <= i < |failed| => failed[i].symbol))
  }

  lemma SymbolsAppend(a: seq<Candidate>, b: seq<Candidate>)
    ensures CandidateSymbols(a + b) == CandidateSymbols(a) + CandidateSymbols(b)
  {
    var x := seq(|a|, i requires 0 <= i < |a| => a[i].symbol);
    var y := seq(|b|, i requires 0 <= i < |b| => b[i].symbol);
    assert seq(|a + b|, i requires 0 <= i < |a + b| => (a + b)[i].symbol) == x + y;
  }

  lemma FailuresAppend(a: seq<Failure>, f: Failure)
    ensures FailedSymbols(a + [f]) == FailedSymbols(a) + multiset{f.symbol}
  {
    var x := seq(|a|, i requires 0 <= i < |a| => a[i].symbol);
    assert seq(|a + [f]|, i requires 0 <= i < |a + [f]| => (a + [f])[i].symbol) == x + [f.symbol];
  }

  lemma CandidatesAppend(a: seq<Candidate>, c: Candidate)
    ensures CandidateSymbols(a + [c]) == CandidateSymbols(a) + multiset{c.symbol}
  {
    SymbolsAppend(a, [c]);
  }

  lemma SymbolsTakeOut(a: seq<Candidate>, c: Candidate, b: seq<Candidate>)
    ensures CandidateSymbols(a + [c] + b) == CandidateSymbols(a + b) + multiset{c.symbol}
  {
    SymbolsAppend(a + [c], b);
    CandidatesAppend(a, c);
    SymbolsAppend(a, b);
  }

  lemma CancelOne<T>(a: multiset<T>, b: multiset<T>, c: T)
    requires a + multiset{c} == b + multiset{c}
    ensures a == b
  {
    assert (a + multiset{c}) - multiset{c} == a;
    assert (b + multiset{c}) - multiset{c} == b;
  }

  lemma {:induction false} SymbolsOfPermutation(a: seq<Candidate>, b: seq<Candidate>)
    requires multiset(a) == multiset(b)
    ensures CandidateSymbols(a) == CandidateSymbols(b)
  {
    assert |multiset(a)| == |multiset(b)|;
    if a != [] {
      var c, front := a[|a| - 1], a[..|a| - 1];
      assert a == front + [c];
      assert c in multiset(b);
      var k :| 0 <= k < |b| && b[k] == c;
      var left, right := b[..k], b[k + 1..];
      assert b == left + [c] + right;
      CancelOne(multiset(front), multiset(left + right), c);
      SymbolsOfPermutation(front, left + right);
      SymbolsTakeOut(left, c, right);
      SymbolsTakeOut(front, c, []);
      assert front + [c] + [] == a && front + [] == front;
    }
  }

  lemma {:induction false} SymbolsSplit(symbols: seq<string>, replies: seq<Reply>, failed: seq<Failure>)
    requires |symbols| == |replies| && Diagnoses(failed, symbols, replies)
    ensures CandidateSymbols(Candidates(symbols, replies)) + FailedSymbols(failed) == multiset(symbols)
  {
    if symbols != [] {
      var n := |symbols| - 1;
      var before := Candidates(symbols[..n], replies[..n]);
      assert symbols == symbols[..n] + [symbols[n]];
      if Suitable(replies[n]) {
        SymbolsSplit(symbols[..n], replies[..n], failed);
        CandidatesAppend(before, CandidateOf(symbols[n], replies[n]));
      } else {
        var front, last := failed[..|failed| - 1], failed[|failed| - 1];
        SymbolsSplit(symbols[..n], replies[..n], front);
        FailuresAppend(front, last);
        assert front + [last] == failed;
      }
    }
  }

  /** Every symbol ends up ranked or reported, none twice; the ranking is by descending score,
      and equal scores keep the order of the watch list. */
  lemma EverySymbolIsRankedOrReported(symbols: seq<string>, replies: seq<Reply>, failed: seq<Failure>, score: real)
    requires |symbols| == |replies| && Diagnoses(failed, symbols, replies)
    ensures var ranked := S.Sort(Candidates(symbols, replies), Descending);
            CandidateSymbols(ranked) + FailedSymbols(failed) == multiset(symbols)
            && (forall i, j :: 0 <= i < j < |ranked| ==> ranked[i].score >= ranked[j].score)
            && S.WithKey(ranked, Descending, score) == S.WithKey(Candidates(symbols, replies), Descending, score)
  {
    var found := Candidates(symbols, replies);
    var ranked := S.Sort(found, Descending);
    S.SortIsStable(found, Descending, score);
    SymbolsOfPermutation(ranked, found);
    SymbolsSplit(symbols, replies, failed);
    forall i, j | 0 <= i < j < |ranked|
      ensures ranked[i].score >= ranked[j].score
    {
      assert Descending(ranked[i]) <= Descending(ranked[j]);
    }
  }

  /** The score listed first under that name, zero without one. */
  ghost predicate ScoreIs(scores: seq<Score>, strategy: string, value: real) {
    if forall i :: 0 <= i < |scores| ==> scores[i].strategy != strategy then value == 0.0
    else exists i :: ListedFirst(scores, strategy, value, i)
  }

  ghost predicate ListedFirst(scores: seq<Score>, strategy: string, value: real, i: int) {
    && 0 <= i < |scores| && scores[i].strategy == strategy && scores[i].value == value
    && forall j :: 0 <= j < i ==> scores[j].strategy != strategy
  }

  lemma {:induction false} ScoreForIs(scores: seq<Score>, strategy: string)
    ensures ScoreIs(scores, strategy, ScoreFor(scores, strategy))
  {
    if scores != [] {
      if scores[0].strategy == strategy {
        assert ListedFirst(scores, strategy, scores[0].value, 0);
      } else {
        var value := ScoreFor(scores[1..], strategy);
        ScoreForIs(scores[1..], strategy);
        if i :| ListedFirst(scores[1..], strategy, value, i) {
          assert scores[1..][i] == scores[i + 1];
          assert forall j :: 1 <= j < i + 1 ==> scores[j] == scores[1..][j - 1];
          assert ListedFirst(scores, strategy, value, i + 1);
        } else {
          assert forall j :: 1 <= j < |scores| ==> scores[j] == scores[1..][j - 1];
        }
      }
    }
  }

  /** A candidate is the first suggestion of a reply, with the score listed for it. */
  ghost predicate TopOf(c: Candidate, symbol: string, r: Reply) {
    && r.Selected? && r.suggested != []
    && c.symbol == symbol && c.strategy == r.suggested[0] && ScoreIs(r.scores, c.strategy, c.score)
  }

  /** Every candidate is the top of some reply. */
  lemma {:induction false} CandidatesAreTops(symbols: seq<string>, replies: seq<Reply>, c: Candidate)
    requires |symbols| == |replies| && c in Candidates(symbols, replies)
    ensures exists k :: 0 <= k < |symbols| && TopOf(c, symbols[k], replies[k])
  {
    var n := |symbols| - 1;
    if c in Candidates(symbols[..n], replies[..n]) {
      CandidatesAreTops(symbols[..n], replies[..n], c);
      var k :| 0 <= k < n && TopOf(c, symbols[..n][k], replies[..n][k]);
      assert TopOf(c, symbols[k], replies[k]);
    } else {
      ScoreForIs(replies[n].scores, replies[n].suggested[0]);
      assert TopOf(c, symbols[n], replies[n]);
    }
  }

  /** Every reply with a suggestion has its top among the candidates. */
  lemma {:induction false} TopsAreCandidates(symbols: seq<string>, replies: seq<Reply>, k: nat)
    requires |symbols| == |replies| && k < |symbols| && Suitable(replies[k])
    ensures exists c :: c in Candidates(symbols, replies) && TopOf(c, symbols[k], replies[k])
  {
    var n := |symbols| - 1;
    if k < n {
      TopsAreCandidates(symbols[..n], replies[..n], k);
      var c :| c in Candidates(symbols[..n], replies[..n]) && TopOf(c, symbols[k], replies[k]);
      assert c in Candidates(symbols, replies);
    } else {
      ScoreForIs(replies[n].scores, replies[n].suggested[0]);
      var c := CandidateOf(symbols[n], replies[n]);
      assert c in Candidates(symbols, replies) && TopOf(c, symbols[n], replies[n]);
    }
  }
}
