/**
  Grouping the broker's option legs into spreads, scripts/position_reconciliation_analysis.py.

  Legs are grouped by expiration and right, sorted by strike, and paired greedily:
  two strike-adjacent legs form a spread when at least one of them is short.
 */
module SpreadPairing {
  import opened Prelude
  import O = OccSymbols
  import opened Sorting
  import opened Numbers

  datatype Leg = Leg(symbol: string, short: bool, quantity: int)

  datatype Spread = Spread(lower: Leg, upper: Leg, quantity: nat)

  datatype Group = Group(
    complete: bool, expiration: Option<O.Date>, putSpreads: seq<Spread>, callSpreads: seq<Spread>, totalLegs: nat)

  // ---------------------------------------------------------------- greedy pairing

  /** Lower indices of the greedy pairs from position i on. */
  function Greedy(legs: seq<Leg>, i: nat): (pairs: seq<nat>)
    ensures forall k :: 0 <= k < |pairs| ==> i <= pairs[k] < |legs| - 1
    decreases |legs| - i
  {
    if i + 1 >= |legs| then []
    else if legs[i].short || legs[i + 1].short then [i] + Greedy(legs, i + 2)
    else Greedy(legs, i + 1)
  }

  function SpreadAt(legs: seq<Leg>, i: nat): Spread
    requires i + 1 < |legs|
  {
    Spread(legs[i], legs[i + 1], Magnitude(legs[i].quantity))
  }

  function SpreadsFrom(legs: seq<Leg>, i: nat): seq<Spread>
    decreases |legs| - i
  {
    if i + 1 >= |legs| then []
    else if legs[i].short || legs[i + 1].short then [SpreadAt(legs, i)] + SpreadsFrom(legs, i + 2)
    else SpreadsFrom(legs, i + 1)
  }

  function Spreads(legs: seq<Leg>): seq<Spread> {
    SpreadsFrom(legs, 0)
  }

  lemma {:induction false} SpreadsFollowGreedy(legs: seq<Leg>, i: nat)
    ensures |SpreadsFrom(legs, i)| == |Greedy(legs, i)|
    ensures forall k :: 0 <= k < |Greedy(legs, i)| ==> SpreadsFrom(legs, i)[k] == SpreadAt(legs, Greedy(legs, i)[k])
    decreases |legs| - i
  {
    if i + 1 < |legs| {
      if legs[i].short || legs[i + 1].short {
        SpreadsFollowGreedy(legs, i + 2);
        var pairs, rest := Greedy(legs, i + 2), SpreadsFrom(legs, i + 2);
        assert Greedy(legs, i) == [i] + pairs && SpreadsFrom(legs, i) == [SpreadAt(legs, i)] + rest;
        forall k | 0 <= k < |pairs| + 1
          ensures SpreadsFrom(legs, i)[k] == SpreadAt(legs, Greedy(legs, i)[k])
        {
          if k > 0 {
            assert rest[k - 1] == SpreadAt(legs, pairs[k - 1]);
          }
        }
      } else {
        SpreadsFollowGreedy(legs, i + 1);
      }
    }
  }

  method PairAdjacent(legs: seq<Leg>) returns (spreads: seq<Spread>)
    ensures spreads == Spreads(legs)
  {
    spreads := [];
    var i := 0;
    while i < |legs| - 1
      invariant 0 <= i <= |legs|
      invariant spreads + SpreadsFrom(legs, i) == SpreadsFrom(legs, 0)
    {
      if legs[i].short || legs[i + 1].short {
        spreads := spreads + [Spread(legs[i], legs[i + 1], Magnitude(legs[i].quantity))];
        i := i + 2;
      } else {
        i := i + 1;
      }
    }
  }

  // ---------------------------------------------------------------- optimality

  predicate PairHere(legs: seq<Leg>, i: nat) {
    i + 1 < |legs| && (legs[i].short || legs[i + 1].short)
  }

  /** Lower indices of disjoint adjacent pairs, each with a short leg. */
  ghost predicate IsPairing(legs: seq<Leg>, lower: set<nat>) {
    && (forall i :: i in lower ==> PairHere(legs, i))
    && (forall i, j :: i in lower && j in lower ==> j != i + 1)
  }

  function AsSet(s: seq<nat>): set<nat> {
    set x | x in s
  }

  /** Disjoint pairs from position i on, listed once each. */
  ghost predicate PairsFrom(legs: seq<Leg>, i: nat, pairs: seq<nat>) {
    && IsPairing(legs, AsSet(pairs)) && |AsSet(pairs)| == |pairs|
    && forall x :: x in AsSet(pairs) ==> i <= x
  }

  lemma {:induction false} GreedyIsPairing(legs: seq<Leg>, i: nat)
    ensures PairsFrom(legs, i, Greedy(legs, i))
    decreases |legs| - i
  {
    if i + 1 >= |legs| {
    } else if PairHere(legs, i) {
      GreedyIsPairing(legs, i + 2);
      PairsExtend(legs, i, Greedy(legs, i + 2));
    } else {
      GreedyIsPairing(legs, i + 1);
      PairsSkip(legs, i, Greedy(legs, i + 1));
    }
  }

  lemma PairsExtend(legs: seq<Leg>, i: nat, rest: seq<nat>)
    requires PairHere(legs, i) && PairsFrom(legs, i + 2, rest)
    ensures PairsFrom(legs, i, [i] + rest)
  {
    AsSetCons(i, rest);
    ExtendPairing(legs, AsSet(rest), i);
  }

  lemma PairsSkip(legs: seq<Leg>, i: nat, rest: seq<nat>)
    requires PairsFrom(legs, i + 1, rest)
    ensures PairsFrom(legs, i, rest)
  {
  }

  lemma AsSetCons(x: nat, s: seq<nat>)
    ensures AsSet([x] + s) == {x} + AsSet(s)
  {
  }

  lemma ExtendPairing(legs: seq<Leg>, rest: set<nat>, i: nat)
    requires PairHere(legs, i)
    requires IsPairing(legs, rest) && forall x :: x in rest ==> i + 2 <= x
    ensures IsPairing(legs, {i} + rest) && |{i} + rest| == 1 + |rest|
  {
  }

  lemma DropPair(lower: set<nat>, i: nat)
    requires !(i in lower && i + 1 in lower)
    ensures |lower| <= 1 + |lower - {i, i + 1}|
  {
    var rest := lower - {i, i + 1};
    if i in lower {
      assert lower == rest + {i};
    } else if i + 1 in lower {
      assert lower == rest + {i + 1};
    } else {
      assert lower == rest;
    }
  }

  lemma {:induction false} NoPairingBeatsGreedyFrom(legs: seq<Leg>, i: nat, lower: set<nat>)
    requires IsPairing(legs, lower) && forall x :: x in lower ==> i <= x
    ensures |lower| <= |Greedy(legs, i)|
    decreases |legs| - i
  {
    if i + 1 >= |legs| {
      assert lower == {};
    } else if legs[i].short || legs[i + 1].short {
      DropPair(lower, i);
      NoPairingBeatsGreedyFrom(legs, i + 2, lower - {i, i + 1});
    } else {
      NoPairingBeatsGreedyFrom(legs, i + 1, lower);
    }
  }

  /** The greedy pairing is a maximum matching of strike-adjacent legs. */
  lemma GreedyIsMaximum(legs: seq<Leg>, lower: set<nat>)
    requires IsPairing(legs, lower)
    ensures IsPairing(legs, AsSet(Greedy(legs, 0))) && |lower| <= |AsSet(Greedy(legs, 0))| == |Spreads(legs)|
  {
    GreedyIsPairing(legs, 0);
    NoPairingBeatsGreedyFrom(legs, 0, lower);
    SpreadsFollowGreedy(legs, 0);
  }

  ghost predicate Covered(legs: seq<Leg>, i: nat, j: nat) {
    j in Greedy(legs, i) || (j > 0 && j - 1 in Greedy(legs, i))
  }

  /** Every short leg is in a pair, except possibly the one with the highest strike. */
  lemma {:induction false} ShortLegsArePaired(legs: seq<Leg>, i: nat, j: nat)
    requires i <= j < |legs| - 1 && legs[j].short
    ensures Covered(legs, i, j)
    decreases |legs| - i
  {
    if legs[i].short || legs[i + 1].short {
      assert Greedy(legs, i) == [i] + Greedy(legs, i + 2);
      if j > i + 1 {
        ShortLegsArePaired(legs, i + 2, j);
      }
    } else {
      ShortLegsArePaired(legs, i + 1, j);
      assert Greedy(legs, i) == Greedy(legs, i + 1);
    }
  }

  /** A short top leg is left over exactly when its lower neighbour went into the pair below. */
  lemma TopShortUnpairedIff(legs: seq<Leg>)
    requires |legs| >= 2 && legs[|legs| - 1].short
    ensures |legs| - 2 !in Greedy(legs, 0) <==> |legs| >= 3 && |legs| - 3 in Greedy(legs, 0)
  {
    TopReached(legs, 0);
    GreedyIsPairing(legs, 0);
    assert forall x :: x in AsSet(Greedy(legs, 0)) <==> x in Greedy(legs, 0);
  }

  lemma {:induction false} TopReached(legs: seq<Leg>, i: nat)
    requires i + 1 < |legs| && legs[|legs| - 1].short
    ensures Covered(legs, i, |legs| - 2)
    decreases |legs| - i
  {
    if legs[i].short || legs[i + 1].short {
      assert Greedy(legs, i) == [i] + Greedy(legs, i + 2);
      if i + 3 < |legs| {
        TopReached(legs, i + 2);
      }
    } else {
      TopReached(legs, i + 1);
      assert Greedy(legs, i) == Greedy(legs, i + 1);
    }
  }

  // ---------------------------------------------------------------- grouping

  /** How a leg's symbol is read. */
  type Reader = string -> Option<O.Parsed>

  predicate Belongs(read: Reader, leg: Leg, key: Option<O.Date>, right: O.Right) {
    var p := read(leg.symbol);
    p.Some? && p.value.expiry == key && p.value.right == right
  }

  function Select(read: Reader, legs: seq<Leg>, key: Option<O.Date>, right: O.Right): seq<Leg> {
    if legs == [] then []
    else
      var last := legs[|legs| - 1];
      var before := Select(read, legs[..|legs| - 1], key, right);
      if Belongs(read, last, key, right) then before + [last] else before
  }

  ghost predicate Distinct(keys: seq<Option<O.Date>>) {
    forall i, j :: 0 <= i < j < |keys| ==> keys[i] != keys[j]
  }

  /** Expirations in order of first appearance; unreadable legs are dropped. */
  function Expirations(read: Reader, legs: seq<Leg>): (keys: seq<Option<O.Date>>)
    ensures Distinct(keys)
  {
    if legs == [] then []
    else
      var rest := Expirations(read, legs[..|legs| - 1]);
      var p := read(legs[|legs| - 1].symbol);
      if p.Some? && p.value.expiry !in rest then rest + [p.value.expiry] else rest
  }

  predicate HasStrike(read: Reader, leg: Leg) {
    var p := read(leg.symbol);
    p.Some? && p.value.strike.Some?
  }

  function StrikeOf(read: Reader): Leg -> real {
    (leg: Leg) => if HasStrike(read, leg) then read(leg.symbol).value.strike.value else 0.0
  }

  /** Sorting two or more legs compares their strikes, and an unreadable strike cannot be compared. */
  predicate Sortable(read: Reader, legs: seq<Leg>) {
    |legs| <= 1 || forall i :: 0 <= i < |legs| ==> HasStrike(read, legs[i])
  }

  predicate SortableAt(read: Reader, legs: seq<Leg>, key: Option<O.Date>) {
    Sortable(read, Select(read, legs, key, O.Put)) && Sortable(read, Select(read, legs, key, O.Call))
  }

  predicate AllSortable(read: Reader, legs: seq<Leg>, keys: seq<Option<O.Date>>) {
    forall k :: k in keys ==> SortableAt(read, legs, k)
  }

  function SpreadsOf(read: Reader, legs: seq<Leg>, key: Option<O.Date>, right: O.Right): seq<Spread> {
    Spreads(Sort(Select(read, legs, key, right), StrikeOf(read)))
  }

  /** Nothing is reported for an expiration without spreads. */
  function GroupFrom(key: Option<O.Date>, puts: seq<Spread>, calls: seq<Spread>): seq<Group> {
    if |puts| == 2 && |calls| == 1 then [Group(true, key, puts, calls, 6)]
    else if |puts| > 0 || |calls| > 0 then [Group(false, key, puts, calls, |puts| * 2 + |calls| * 2)]
    else []
  }

  function GroupsOf(read: Reader, legs: seq<Leg>, keys: seq<Option<O.Date>>): seq<Group> {
    if keys == [] then []
    else
      var key := keys[|keys| - 1];
      GroupsOf(read, legs, keys[..|keys| - 1])
      + GroupFrom(key, SpreadsOf(read, legs, key, O.Put), SpreadsOf(read, legs, key, O.Call))
  }

  type Filing = map<Option<O.Date>, seq<Leg>>

  /** The legs of one right, filed under the expirations seen so far. */
  ghost predicate Files(read: Reader, legs: seq<Leg>, right: O.Right, m: Filing) {
    && (forall k :: k in Expirations(read, legs) <==> k in m)
    && (forall k :: k in m ==> m[k] == Select(read, legs, k, right))
  }

  lemma {:induction false} SelectOutside(read: Reader, legs: seq<Leg>, key: Option<O.Date>, right: O.Right)
    requires key !in Expirations(read, legs)
    ensures Select(read, legs, key, right) == []
  {
    if legs != [] {
      SelectOutside(read, legs[..|legs| - 1], key, right);
    }
  }

  /** Opening an entry for a new expiration, then appending the leg if it has the right. */
  lemma FilesGrow(read: Reader, legs: seq<Leg>, leg: Leg, right: O.Right, m: Filing, started: Filing, filed: Filing)
    requires Files(read, legs, right, m) && read(leg.symbol).Some?
    requires var key := read(leg.symbol).value.expiry;
             && started == (if key in m then m else m[key := []])
             && filed == if read(leg.symbol).value.right == right then started[key := started[key] + [leg]] else started
    ensures Files(read, legs + [leg], right, filed)
  {
    var key := read(leg.symbol).value.expiry;
    assert (legs + [leg])[..|legs|] == legs;
    if key !in m {
      SelectOutside(read, legs, key, right);
    }
    forall k | k in filed
      ensures filed[k] == Select(read, legs + [leg], k, right)
    {
      assert Belongs(read, leg, k, right) ==> k == key;
    }
  }

  lemma FilesSkip(read: Reader, legs: seq<Leg>, leg: Leg, right: O.Right, m: Filing)
    requires Files(read, legs, right, m) && read(leg.symbol).None?
    ensures Files(read, legs + [leg], right, m) && Expirations(read, legs + [leg]) == Expirations(read, legs)
  {
    assert (legs + [leg])[..|legs|] == legs;
  }

  /** The dictionaries of legs by expiration, with the order in which expirations appeared. */
  method ByExpiration(read: Reader, legs: seq<Leg>)
    returns (keys: seq<Option<O.Date>>, puts: Filing, calls: Filing)
    ensures keys == Expirations(read, legs)
    ensures Files(read, legs, O.Put, puts) && Files(read, legs, O.Call, calls)
  {
    keys, puts, calls := [], map[], map[];
    for i := 0 to |legs|
      invariant keys == Expirations(read, legs[..i])
      invariant Files(read, legs[..i], O.Put, puts) && Files(read, legs[..i], O.Call, calls)
    {
      assert legs[..i + 1] == legs[..i] + [legs[i]] && legs[..i + 1][..i] == legs[..i];
      var parsed := read(legs[i].symbol);
      if parsed.None? {
        FilesSkip(read, legs[..i], legs[i], O.Put, puts);
        FilesSkip(read, legs[..i], legs[i], O.Call, calls);
        continue;
      }
      var key := parsed.value.expiry;
      ghost var putsBefore, callsBefore := puts, calls;
      if key !in puts {
        keys := keys + [key];
        puts, calls := puts[key := []], calls[key := []];
      }
      ghost var putsOpened, callsOpened := puts, calls;
      if parsed.value.right == O.Put {
        puts := puts[key := puts[key] + [legs[i]]];
      } else {
        calls := calls[key := calls[key] + [legs[i]]];
      }
      FilesGrow(read, legs[..i], legs[i], O.Put, putsBefore, putsOpened, puts);
      FilesGrow(read, legs[..i], legs[i], O.Call, callsBefore, callsOpened, calls);
    }
    assert legs[..|legs|] == legs;
  }

  /** One expiration's legs, sorted and paired; None is the exception of a strike that cannot be compared. */
  method PairExpiration(
      read: Reader, key: Option<O.Date>, puts: seq<Leg>, calls: seq<Leg>) returns (result: Option<seq<Group>>)
    ensures result.Some? <==> Sortable(read, puts) && Sortable(read, calls)
    ensures result.Some? ==>
              result.value == GroupFrom(key, Spreads(Sort(puts, StrikeOf(read))), Spreads(Sort(calls, StrikeOf(read))))
  {
    if !Sortable(read, puts) || !Sortable(read, calls) {
      return None;
    }
    var putSpreads := PairAdjacent(Sort(puts, StrikeOf(read)));
    var callSpreads := PairAdjacent(Sort(calls, StrikeOf(read)));
    if |putSpreads| == 2 && |callSpreads| == 1 {
      return Some([Group(true, key, putSpreads, callSpreads, 6)]);
    } else if |putSpreads| > 0 || |callSpreads| > 0 {
      return Some([Group(false, key, putSpreads, callSpreads, |putSpreads| * 2 + |callSpreads| * 2)]);
    }
    return Some([]);
  }

  lemma KeysGrow(read: Reader, legs: seq<Leg>, keys: seq<Option<O.Date>>, i: nat)
    requires i < |keys|
    ensures GroupsOf(read, legs, keys[..i + 1])
         == GroupsOf(read, legs, keys[..i])
            + GroupFrom(keys[i], SpreadsOf(read, legs, keys[i], O.Put), SpreadsOf(read, legs, keys[i], O.Call))
    ensures AllSortable(read, legs, keys[..i]) && SortableAt(read, legs, keys[i]) ==>
              AllSortable(read, legs, keys[..i + 1])
    ensures keys[i] in keys && (AllSortable(read, legs, keys) ==> SortableAt(read, legs, keys[i]))
  {
    assert keys[..i + 1][..i] == keys[..i] && keys[..i + 1] == keys[..i] + [keys[i]];
  }

  method GroupWith(read: Reader, legs: seq<Leg>) returns (result: Option<seq<Group>>)
    ensures result == if AllSortable(read, legs, Expirations(read, legs))
                      then Some(GroupsOf(read, legs, Expirations(read, legs))) else None
  {
    var keys, puts, calls := ByExpiration(read, legs);
    var groups := [];
    for i := 0 to |keys|
      invariant groups == GroupsOf(read, legs, keys[..i])
      invariant AllSortable(read, legs, keys[..i])
    {
      KeysGrow(read, legs, keys, i);
      assert keys[i] in puts && keys[i] in calls;
      var group := PairExpiration(read, keys[i], puts[keys[i]], calls[keys[i]]);
      if group == None {
        assert !SortableAt(read, legs, keys[i]);
        return None;
      }
      groups := groups + group.value;
    }
    assert keys[..|keys|] == keys;
    return Some(groups);
  }

  method GroupLegsIntoSpreads(legs: seq<Leg>) returns (result: Option<seq<Group>>)
    ensures result == if AllSortable(O.Parse, legs, Expirations(O.Parse, legs))
                      then Some(GroupsOf(O.Parse, legs, Expirations(O.Parse, legs))) else None
  {
    result := GroupWith(O.Parse, legs);
  }

  // ---------------------------------------------------------------- no leg is used twice

  function SpreadLegs(spreads: seq<Spread>): seq<Leg> {
    if spreads == [] then [] else [spreads[0].lower, spreads[0].upper] + SpreadLegs(spreads[1..])
  }

  function GroupLegs(groups: seq<Group>): seq<Leg> {
    if groups == [] then []
    else
      var last := groups[|groups| - 1];
      GroupLegs(groups[..|groups| - 1]) + (SpreadLegs(last.putSpreads) + SpreadLegs(last.callSpreads))
  }

  lemma PrependPair(first: Spread, rest: seq<Spread>, legs: seq<Leg>)
    requires multiset(SpreadLegs(rest)) <= multiset(legs)
    ensures multiset(SpreadLegs([first] + rest)) <= multiset([first.lower, first.upper] + legs)
  {
    assert ([first] + rest)[1..] == rest;
    assert SpreadLegs([first] + rest) == [first.lower, first.upper] + SpreadLegs(rest);
  }

  lemma SuffixAfterPair(legs: seq<Leg>, i: nat)
    requires i + 1 < |legs|
    ensures legs[i..] == [legs[i], legs[i + 1]] + legs[i + 2..]
  {
  }

  lemma SuffixShrinks(legs: seq<Leg>, i: nat)
    requires i < |legs|
    ensures multiset(legs[i + 1..]) <= multiset(legs[i..])
  {
    assert legs[i..] == [legs[i]] + legs[i + 1..];
  }

  lemma {:induction false} PairsUseLegsOnce(legs: seq<Leg>, i: nat)
    requires i <= |legs|
    ensures multiset(SpreadLegs(SpreadsFrom(legs, i))) <= multiset(legs[i..])
    decreases |legs| - i
  {
    if i + 1 >= |legs| {
    } else if legs[i].short || legs[i + 1].short {
      PairsUseLegsOnce(legs, i + 2);
      PrependPair(SpreadAt(legs, i), SpreadsFrom(legs, i + 2), legs[i + 2..]);
      SuffixAfterPair(legs, i);
    } else {
      PairsUseLegsOnce(legs, i + 1);
      SuffixShrinks(legs, i);
    }
  }

  lemma {:induction false} SelectCount(read: Reader, legs: seq<Leg>, key: Option<O.Date>, right: O.Right, x: Leg)
    ensures multiset(Select(read, legs, key, right))[x] == if Belongs(read, x, key, right) then multiset(legs)[x] else 0
  {
    if legs != [] {
      var n := |legs| - 1;
      SelectCount(read, legs[..n], key, right, x);
      assert legs == legs[..n] + [legs[n]];
    }
  }

  lemma SpreadsOfCount(read: Reader, legs: seq<Leg>, key: Option<O.Date>, right: O.Right, x: Leg)
    ensures multiset(SpreadLegs(SpreadsOf(read, legs, key, right)))[x]
            <= if Belongs(read, x, key, right) then multiset(legs)[x] else 0
  {
    var chosen := Select(read, legs, key, right);
    var sorted := Sort(chosen, StrikeOf(read));
    PairsUseLegsOnce(sorted, 0);
    assert sorted[0..] == sorted;
    SortIsStable(chosen, StrikeOf(read), 0.0);
    SelectCount(read, legs, key, right, x);
  }

  lemma GroupLegsAppend(before: seq<Group>, key: Option<O.Date>, puts: seq<Spread>, calls: seq<Spread>)
    ensures GroupLegs(before + GroupFrom(key, puts, calls))
              == GroupLegs(before) + (SpreadLegs(puts) + SpreadLegs(calls))
  {
    var last := GroupFrom(key, puts, calls);
    if last == [] {
      assert before + last == before;
    } else {
      assert (before + last)[..|before|] == before;
    }
  }

  predicate ReadAt(read: Reader, leg: Leg, keys: seq<Option<O.Date>>) {
    read(leg.symbol).Some? && read(leg.symbol).value.expiry in keys
  }

  lemma {:induction false} GroupsOfCount(read: Reader, legs: seq<Leg>, keys: seq<Option<O.Date>>, x: Leg)
    requires Distinct(keys)
    ensures multiset(GroupLegs(GroupsOf(read, legs, keys)))[x] <= if ReadAt(read, x, keys) then multiset(legs)[x] else 0
  {
    if keys != [] {
      var front, last := keys[..|keys| - 1], keys[|keys| - 1];
      assert keys == front + [last];
      assert last !in front;
      GroupsOfCount(read, legs, front, x);
      LastGroupCount(read, legs, GroupsOf(read, legs, front), last, x);
      assert GroupsOf(read, legs, keys) == GroupsOf(read, legs, front)
             + GroupFrom(last, SpreadsOf(read, legs, last, O.Put), SpreadsOf(read, legs, last, O.Call));
      ReadAtSplit(read, x, front, last);
    }
  }

  lemma ReadAtSplit(read: Reader, leg: Leg, front: seq<Option<O.Date>>, last: Option<O.Date>)
    ensures ReadAt(read, leg, front + [last]) <==> ReadAt(read, leg, front) || ReadAt(read, leg, [last])
    ensures last !in front ==> !(ReadAt(read, leg, front) && ReadAt(read, leg, [last]))
  {
  }

  /** One expiration's spreads use a leg only if it expires then. */
  lemma LastGroupCount(read: Reader, legs: seq<Leg>, before: seq<Group>, key: Option<O.Date>, x: Leg)
    ensures var group := GroupFrom(key, SpreadsOf(read, legs, key, O.Put), SpreadsOf(read, legs, key, O.Call));
            multiset(GroupLegs(before + group))[x]
            <= multiset(GroupLegs(before))[x] + if ReadAt(read, x, [key]) then multiset(legs)[x] else 0
  {
    var puts, calls := SpreadsOf(read, legs, key, O.Put), SpreadsOf(read, legs, key, O.Call);
    SpreadsOfCount(read, legs, key, O.Put, x);
    SpreadsOfCount(read, legs, key, O.Call, x);
    GroupLegsAppend(before, key, puts, calls);
    AddCounts(GroupLegs(before), SpreadLegs(puts), SpreadLegs(calls), x);
  }

  lemma AddCounts(a: seq<Leg>, b: seq<Leg>, c: seq<Leg>, x: Leg)
    ensures multiset(a + (b + c))[x] == multiset(a)[x] + multiset(b)[x] + multiset(c)[x]
  {
  }

  /** Over all expirations, puts and calls, no broker leg is used in two spreads. */
  lemma NoLegUsedTwice(read: Reader, legs: seq<Leg>)
    ensures multiset(GroupLegs(GroupsOf(read, legs, Expirations(read, legs)))) <= multiset(legs)
  {
    forall x: Leg
      ensures multiset(GroupLegs(GroupsOf(read, legs, Expirations(read, legs))))[x] <= multiset(legs)[x]
    {
      GroupsOfCount(read, legs, Expirations(read, legs), x);
    }
  }

  // ---------------------------------------------------------------- what the groups hold

  /** The strike of a leg that has one. */
  predicate StrikeIs(read: Reader, leg: Leg, k: real) {
    read(leg.symbol).Some? && read(leg.symbol).value.strike == Some(k)
  }

  function Strike(read: Reader, leg: Leg): real
    requires HasStrike(read, leg)
  {
    read(leg.symbol).value.strike.value
  }

  /** The legs of one expiration and right at one strike, in the order given. */
  function AtStrike(read: Reader, legs: seq<Leg>, key: Option<O.Date>, right: O.Right, k: real): seq<Leg> {
    if legs == [] then []
    else
      var before := AtStrike(read, legs[..|legs| - 1], key, right, k);
      var last := legs[|legs| - 1];
      if Belongs(read, last, key, right) && StrikeIs(read, last, k) then before + [last] else before
  }

  ghost predicate StrikesAscend(read: Reader, legs: seq<Leg>) {
    && (forall i :: 0 <= i < |legs| ==> HasStrike(read, legs[i]))
    && (forall i, j :: 0 <= i < j < |legs| ==> Strike(read, legs[i]) <= Strike(read, legs[j]))
  }

  /** Every leg of that expiration and right, by ascending strike, ties in the order given. */
  ghost predicate StrikeOrder(
      read: Reader, legs: seq<Leg>, key: Option<O.Date>, right: O.Right, ordered: seq<Leg>) {
    && (forall leg :: leg in ordered ==> Belongs(read, leg, key, right))
    && StrikesAscend(read, ordered)
    && (forall k :: AtStrike(read, ordered, key, right, k) == AtStrike(read, legs, key, right, k))
  }

  lemma {:induction false} AtStrikeOfSelect(
      read: Reader, legs: seq<Leg>, key: Option<O.Date>, right: O.Right, k: real)
    ensures AtStrike(read, Select(read, legs, key, right), key, right, k) == AtStrike(read, legs, key, right, k)
  {
    if legs != [] {
      var n := |legs| - 1;
      var before := Select(read, legs[..n], key, right);
      AtStrikeOfSelect(read, legs[..n], key, right, k);
      assert (before + [legs[n]])[..|before|] == before;
    }
  }

  /** On legs of that kind it is the sublist with that sort key. */
  lemma {:induction false} AtStrikeIsWithKey(
      read: Reader, legs: seq<Leg>, key: Option<O.Date>, right: O.Right, k: real)
    requires forall leg :: leg in legs ==> Belongs(read, leg, key, right) && HasStrike(read, leg)
    ensures AtStrike(read, legs, key, right, k) == WithKey(legs, StrikeOf(read), k)
  {
    if legs != [] {
      var n := |legs| - 1;
      AtStrikeIsWithKey(read, legs[..n], key, right, k);
      WithKeyOfLast(legs[..n], legs[n], StrikeOf(read), k);
      assert legs == legs[..n] + [legs[n]];
    }
  }

  lemma {:induction false} WithKeyOfLast<T>(s: seq<T>, x: T, key: T -> real, k: real)
    ensures WithKey(s + [x], key, k) == if key(x) == k then WithKey(s, key, k) + [x] else WithKey(s, key, k)
  {
    if s != [] {
      WithKeyOfLast(s[1..], x, key, k);
      assert (s + [x])[1..] == s[1..] + [x];
    } else {
      assert [] + [x] == [x] && [x][1..] == [];
    }
  }

  lemma {:induction false} SelectBelongs(read: Reader, legs: seq<Leg>, key: Option<O.Date>, right: O.Right)
    ensures forall leg :: leg in Select(read, legs, key, right) <==> leg in legs && Belongs(read, leg, key, right)
  {
    if legs != [] {
      var n := |legs| - 1;
      SelectBelongs(read, legs[..n], key, right);
      assert legs == legs[..n] + [legs[n]];
    }
  }

  /** Sorting the selected legs gives the strike order. */
  lemma SortedIsStrikeOrder(read: Reader, legs: seq<Leg>, key: Option<O.Date>, right: O.Right)
    requires forall leg :: leg in Select(read, legs, key, right) ==> HasStrike(read, leg)
    ensures StrikeOrder(read, legs, key, right, Sort(Select(read, legs, key, right), StrikeOf(read)))
  {
    var chosen := Select(read, legs, key, right);
    var sorted := Sort(chosen, StrikeOf(read));
    SelectBelongs(read, legs, key, right);
    SortIsStable(chosen, StrikeOf(read), 0.0);
    SameMembers(sorted, chosen);
    SortedAscends(read, sorted);
    forall k
      ensures AtStrike(read, sorted, key, right, k) == AtStrike(read, legs, key, right, k)
    {
      SortIsStable(chosen, StrikeOf(read), k);
      AtStrikeIsWithKey(read, sorted, key, right, k);
      AtStrikeIsWithKey(read, chosen, key, right, k);
      AtStrikeOfSelect(read, legs, key, right, k);
    }
  }

  lemma SameMembers<T>(a: seq<T>, b: seq<T>)
    requires multiset(a) == multiset(b)
    ensures forall x :: x in a <==> x in b
  {
    forall x
      ensures x in a <==> x in b
    {
      assert x in a <==> x in multiset(a);
      assert x in b <==> x in multiset(b);
    }
  }

  lemma SortedAscends(read: Reader, sorted: seq<Leg>)
    requires Ascending(sorted, StrikeOf(read)) && forall leg :: leg in sorted ==> HasStrike(read, leg)
    ensures StrikesAscend(read, sorted)
  {
    forall i, j | 0 <= i < j < |sorted|
      ensures HasStrike(read, sorted[i]) && HasStrike(read, sorted[j])
      ensures Strike(read, sorted[i]) <= Strike(read, sorted[j])
    {
      assert sorted[i] in sorted && sorted[j] in sorted;
      assert StrikeOf(read)(sorted[i]) <= StrikeOf(read)(sorted[j]);
    }
    assert forall i :: 0 <= i < |sorted| ==> sorted[i] in sorted;
  }

  lemma {:induction false} AtStrikeMember(
      read: Reader, legs: seq<Leg>, key: Option<O.Date>, right: O.Right, k: real)
    ensures forall leg :: leg in AtStrike(read, legs, key, right, k)
              <==> leg in legs && Belongs(read, leg, key, right) && StrikeIs(read, leg, k)
  {
    if legs != [] {
      var n := |legs| - 1;
      AtStrikeMember(read, legs[..n], key, right, k);
      assert legs == legs[..n] + [legs[n]];
    }
  }

  /** There is only one strike order: the last leg is the last one at the highest strike. */
  lemma {:induction false} StrikeOrderIsUnique(
      read: Reader, key: Option<O.Date>, right: O.Right, a: seq<Leg>, b: seq<Leg>)
    requires forall leg :: leg in a ==> Belongs(read, leg, key, right)
    requires forall leg :: leg in b ==> Belongs(read, leg, key, right)
    requires StrikesAscend(read, a) && StrikesAscend(read, b)
    requires forall k :: AtStrike(read, a, key, right, k) == AtStrike(read, b, key, right, k)
    ensures a == b
  {
    if a == [] {
      assert forall k :: AtStrike(read, a, key, right, k) == [];
      EmptyAtEveryStrike(read, key, right, b);
    } else {
      LastAtItsStrike(read, key, right, a);
      var k := Strike(read, a[|a| - 1]);
      assert AtStrike(read, b, key, right, k) != [];
      LastAtItsStrike(read, key, right, b);
      HighestStrikesAgree(read, key, right, a, b);
      var x := a[|a| - 1];
      assert x == b[|b| - 1];
      FrontsAgree(read, key, right, a, b, a[..|a| - 1], b[..|b| - 1]);
      StrikeOrderIsUnique(read, key, right, a[..|a| - 1], b[..|b| - 1]);
      assert a == a[..|a| - 1] + [x] && b == b[..|b| - 1] + [x];
    }
  }

  lemma EmptyAtEveryStrike(read: Reader, key: Option<O.Date>, right: O.Right, b: seq<Leg>)
    requires StrikesAscend(read, b) && forall leg :: leg in b ==> Belongs(read, leg, key, right)
    ensures (forall k :: AtStrike(read, b, key, right, k) == []) ==> b == []
  {
    if b != [] {
      LastAtItsStrike(read, key, right, b);
    }
  }

  lemma LastAtItsStrike(read: Reader, key: Option<O.Date>, right: O.Right, a: seq<Leg>)
    requires a != [] && HasStrike(read, a[|a| - 1]) && Belongs(read, a[|a| - 1], key, right)
    ensures var same := AtStrike(read, a, key, right, Strike(read, a[|a| - 1]));
            same != [] && same[|same| - 1] == a[|a| - 1]
  {
  }

  lemma HighestStrikesAgree(read: Reader, key: Option<O.Date>, right: O.Right, a: seq<Leg>, b: seq<Leg>)
    requires a != [] && b != [] && StrikesAscend(read, a) && StrikesAscend(read, b)
    requires Belongs(read, a[|a| - 1], key, right) && Belongs(read, b[|b| - 1], key, right)
    requires forall k :: AtStrike(read, a, key, right, k) == AtStrike(read, b, key, right, k)
    ensures Strike(read, a[|a| - 1]) == Strike(read, b[|b| - 1])
  {
    NoHigherStrike(read, key, right, a, b);
    NoHigherStrike(read, key, right, b, a);
  }

  lemma NoHigherStrike(read: Reader, key: Option<O.Date>, right: O.Right, a: seq<Leg>, b: seq<Leg>)
    requires a != [] && b != [] && StrikesAscend(read, a) && StrikesAscend(read, b)
    requires Belongs(read, a[|a| - 1], key, right)
    requires forall k :: AtStrike(read, a, key, right, k) == AtStrike(read, b, key, right, k)
    ensures Strike(read, a[|a| - 1]) <= Strike(read, b[|b| - 1])
  {
    var x := a[|a| - 1];
    var k := Strike(read, x);
    AtStrikeMember(read, a, key, right, k);
    AtStrikeMember(read, b, key, right, k);
    assert x in AtStrike(read, a, key, right, k);
    var i :| 0 <= i < |b| && b[i] == x;
  }

  lemma FrontsAgree(
      read: Reader, key: Option<O.Date>, right: O.Right, a: seq<Leg>, b: seq<Leg>, front: seq<Leg>, other: seq<Leg>)
    requires a != [] && b != [] && a[|a| - 1] == b[|b| - 1]
    requires front == a[..|a| - 1] && other == b[..|b| - 1]
    requires forall k :: AtStrike(read, a, key, right, k) == AtStrike(read, b, key, right, k)
    ensures forall k :: AtStrike(read, front, key, right, k) == AtStrike(read, other, key, right, k)
  {
    forall k
      ensures AtStrike(read, front, key, right, k) == AtStrike(read, other, key, right, k)
    {
      assert AtStrike(read, a, key, right, k) == AtStrike(read, b, key, right, k);
      DropLast(AtStrike(read, front, key, right, k), AtStrike(read, other, key, right, k), a[|a| - 1]);
    }
  }

  lemma DropLast<T>(x: seq<T>, y: seq<T>, last: T)
    ensures x + [last] == y + [last] ==> x == y
  {
    if x + [last] == y + [last] {
      assert x == (x + [last])[..|x|] && y == (y + [last])[..|y|];
    }
  }

  /** Successive greedy pairs do not overlap. */
  lemma {:induction false} GreedyIncreases(legs: seq<Leg>, i: nat, a: nat, b: nat)
    requires a < b < |Greedy(legs, i)|
    ensures Greedy(legs, i)[a] + 2 <= Greedy(legs, i)[b]
    decreases |legs| - i
  {
    if PairHere(legs, i) {
      assert Greedy(legs, i) == [i] + Greedy(legs, i + 2);
      if a > 0 {
        GreedyIncreases(legs, i + 2, a - 1, b - 1);
      }
    } else {
      GreedyIncreases(legs, i + 1, a, b);
    }
  }

  ghost predicate Between(read: Reader, leg: Leg, s: Spread)
    requires HasStrike(read, s.lower) && HasStrike(read, s.upper)
  {
    HasStrike(read, leg) && Strike(read, s.lower) < Strike(read, leg) < Strike(read, s.upper)
  }

  /** A spread of two neighbouring strikes of one expiration and right, one of them short. */
  ghost predicate SoundSpread(read: Reader, legs: seq<Leg>, key: Option<O.Date>, right: O.Right, s: Spread) {
    && s.lower in legs && s.upper in legs && HasStrike(read, s.lower) && HasStrike(read, s.upper)
    && read(s.lower.symbol).value.expiry == key && read(s.lower.symbol).value.right == right
    && read(s.upper.symbol).value.expiry == key && read(s.upper.symbol).value.right == right
    && Strike(read, s.lower) <= Strike(read, s.upper)
    && (s.lower.short || s.upper.short)
    && (s.quantity == s.lower.quantity || s.quantity == -s.lower.quantity)
    && forall leg :: leg in legs && Belongs(read, leg, key, right) ==> !Between(read, leg, s)
  }

  /** The spreads of one expiration and right: sound, ascending, and as many as can be paired. */
  ghost predicate SoundSpreads(
      read: Reader, legs: seq<Leg>, key: Option<O.Date>, right: O.Right, spreads: seq<Spread>) {
    && (forall k :: 0 <= k < |spreads| ==> SoundSpread(read, legs, key, right, spreads[k]))
    && (forall a, b :: 0 <= a < b < |spreads| ==>
         Strike(read, spreads[a].upper) <= Strike(read, spreads[b].lower))
    && (forall ordered, lower :: StrikeOrder(read, legs, key, right, ordered) && IsPairing(ordered, lower) ==>
         |lower| <= |spreads|)
    && (spreads != [] ==> exists ordered ::
         StrikeOrder(read, legs, key, right, ordered) && IsPairing(ordered, AsSet(Greedy(ordered, 0)))
         && |AsSet(Greedy(ordered, 0))| == |spreads|)
  }

  lemma OrderedPairIsSound(
      read: Reader, legs: seq<Leg>, key: Option<O.Date>, right: O.Right, ordered: seq<Leg>, g: nat)
    requires StrikeOrder(read, legs, key, right, ordered) && PairHere(ordered, g)
    requires forall leg :: leg in ordered <==> leg in legs && Belongs(read, leg, key, right)
    ensures SoundSpread(read, legs, key, right, SpreadAt(ordered, g))
  {
    var s := SpreadAt(ordered, g);
    assert ordered[g] in ordered && ordered[g + 1] in ordered;
    forall leg | leg in legs && Belongs(read, leg, key, right)
      ensures !Between(read, leg, s)
    {
      var m :| 0 <= m < |ordered| && ordered[m] == leg;
      if m < g {
        assert Strike(read, leg) <= Strike(read, ordered[g]);
      } else if m > g + 1 {
        assert Strike(read, ordered[g + 1]) <= Strike(read, leg);
      }
    }
  }

  lemma OrderedSpreadsAreSound(
      read: Reader, legs: seq<Leg>, key: Option<O.Date>, right: O.Right, ordered: seq<Leg>)
    requires StrikeOrder(read, legs, key, right, ordered)
    requires forall leg :: leg in ordered <==> leg in legs && Belongs(read, leg, key, right)
    ensures SoundSpreads(read, legs, key, right, Spreads(ordered))
  {
    var g, spreads := Greedy(ordered, 0), Spreads(ordered);
    SpreadsFollowGreedy(ordered, 0);
    GreedyIsPairing(ordered, 0);
    forall k | 0 <= k < |spreads|
      ensures SoundSpread(read, legs, key, right, spreads[k])
    {
      assert g[k] in AsSet(g);
      OrderedPairIsSound(read, legs, key, right, ordered, g[k]);
    }
    forall a, b | 0 <= a < b < |spreads|
      ensures Strike(read, spreads[a].upper) <= Strike(read, spreads[b].lower)
    {
      GreedyIncreases(ordered, 0, a, b);
    }
    forall other, lower | StrikeOrder(read, legs, key, right, other) && IsPairing(other, lower)
      ensures |lower| <= |spreads|
    {
      StrikeOrderIsUnique(read, key, right, other, ordered);
      GreedyIsMaximum(ordered, lower);
    }
  }

  /** A list too short to pair, whose strikes were not compared. */
  lemma ShortListIsSound(read: Reader, legs: seq<Leg>, key: Option<O.Date>, right: O.Right)
    requires |Select(read, legs, key, right)| <= 1
    ensures SoundSpreads(read, legs, key, right, [])
  {
    var chosen := Select(read, legs, key, right);
    forall ordered, lower | StrikeOrder(read, legs, key, right, ordered) && IsPairing(ordered, lower)
      ensures |lower| <= 0
    {
      OrderIsNoLonger(read, legs, key, right, ordered);
      PairingNeedsTwo(ordered, lower);
    }
  }

  lemma PairingNeedsTwo(legs: seq<Leg>, lower: set<nat>)
    requires IsPairing(legs, lower)
    ensures |lower| > 0 ==> |legs| >= 2
  {
    if lower != {} {
      var x :| x in lower;
      assert PairHere(legs, x);
    }
  }

  lemma OrderIsNoLonger(
      read: Reader, legs: seq<Leg>, key: Option<O.Date>, right: O.Right, ordered: seq<Leg>)
    requires |Select(read, legs, key, right)| <= 1 && StrikeOrder(read, legs, key, right, ordered)
    ensures |ordered| <= 1
  {
    var chosen := Select(read, legs, key, right);
    if |ordered| > 1 {
      SelectBelongs(read, legs, key, right);
      OrderMembers(read, legs, key, right, ordered);
      assert ordered[0] in chosen;
      assert chosen == [ordered[0]];
      SortedIsStrikeOrder(read, legs, key, right);
      StrikeOrderIsUnique(read, key, right, ordered, Sort(chosen, StrikeOf(read)));
    }
  }

  lemma OrderMembers(read: Reader, legs: seq<Leg>, key: Option<O.Date>, right: O.Right, ordered: seq<Leg>)
    requires StrikeOrder(read, legs, key, right, ordered)
    ensures forall leg :: leg in ordered ==> leg in legs && Belongs(read, leg, key, right) && HasStrike(read, leg)
  {
    forall leg | leg in ordered
      ensures leg in legs && HasStrike(read, leg)
    {
      var i :| 0 <= i < |ordered| && ordered[i] == leg;
      AtStrikeMember(read, ordered, key, right, Strike(read, leg));
      AtStrikeMember(read, legs, key, right, Strike(read, leg));
      assert leg in AtStrike(read, ordered, key, right, Strike(read, leg));
    }
  }

  lemma SpreadsAreSound(read: Reader, legs: seq<Leg>, key: Option<O.Date>, right: O.Right)
    requires Sortable(read, Select(read, legs, key, right))
    ensures SoundSpreads(read, legs, key, right, SpreadsOf(read, legs, key, right))
  {
    var chosen := Select(read, legs, key, right);
    if |chosen| <= 1 {
      ShortListIsSound(read, legs, key, right);
      assert SpreadsOf(read, legs, key, right) == [];
    } else {
      SelectBelongs(read, legs, key, right);
      SortIsStable(chosen, StrikeOf(read), 0.0);
      SameMembers(Sort(chosen, StrikeOf(read)), chosen);
      SortedIsStrikeOrder(read, legs, key, right);
      OrderedSpreadsAreSound(read, legs, key, right, Sort(chosen, StrikeOf(read)));
    }
  }

  /** A group: sound spreads of one expiration, complete with two put spreads and one call spread. */
  ghost predicate SoundGroup(read: Reader, legs: seq<Leg>, group: Group) {
    && SoundSpreads(read, legs, group.expiration, O.Put, group.putSpreads)
    && SoundSpreads(read, legs, group.expiration, O.Call, group.callSpreads)
    && (group.putSpreads != [] || group.callSpreads != [])
    && (group.complete <==> |group.putSpreads| == 2 && |group.callSpreads| == 1)
    && group.totalLegs == 2 * |group.putSpreads| + 2 * |group.callSpreads|
  }

  lemma {:induction false} GroupsAreSoundFor(read: Reader, legs: seq<Leg>, keys: seq<Option<O.Date>>)
    requires AllSortable(read, legs, keys)
    ensures forall group :: group in GroupsOf(read, legs, keys) ==>
              group.expiration in keys && SoundGroup(read, legs, group)
  {
    if keys != [] {
      var front, key := keys[..|keys| - 1], keys[|keys| - 1];
      assert keys == front + [key];
      assert key in keys && SortableAt(read, legs, key);
      GroupsAreSoundFor(read, legs, front);
      LastGroupIsSound(read, legs, key);
      assert GroupsOf(read, legs, keys) == GroupsOf(read, legs, front)
             + GroupFrom(key, SpreadsOf(read, legs, key, O.Put), SpreadsOf(read, legs, key, O.Call));
    }
  }

  lemma LastGroupIsSound(read: Reader, legs: seq<Leg>, key: Option<O.Date>)
    requires SortableAt(read, legs, key)
    ensures forall group ::
              group in GroupFrom(key, SpreadsOf(read, legs, key, O.Put), SpreadsOf(read, legs, key, O.Call)) ==>
                group.expiration == key && SoundGroup(read, legs, group)
  {
    SpreadsAreSound(read, legs, key, O.Put);
    SpreadsAreSound(read, legs, key, O.Call);
  }

  lemma {:induction false} ExpirationsAreRead(read: Reader, legs: seq<Leg>)
    ensures forall key :: key in Expirations(read, legs)
              <==> exists leg :: leg in legs && read(leg.symbol).Some? && read(leg.symbol).value.expiry == key
  {
    if legs != [] {
      var n := |legs| - 1;
      ExpirationsAreRead(read, legs[..n]);
      assert legs == legs[..n] + [legs[n]];
    }
  }

  /** Every expiration with something to pair is reported. */
  lemma {:induction false} GroupsCover(read: Reader, legs: seq<Leg>, keys: seq<Option<O.Date>>, key: Option<O.Date>)
    requires key in keys
    requires SpreadsOf(read, legs, key, O.Put) != [] || SpreadsOf(read, legs, key, O.Call) != []
    ensures exists group :: group in GroupsOf(read, legs, keys) && group.expiration == key
  {
    var front, last := keys[..|keys| - 1], keys[|keys| - 1];
    assert keys == front + [last];
    var group := GroupFrom(last, SpreadsOf(read, legs, last, O.Put), SpreadsOf(read, legs, last, O.Call));
    if key == last {
      assert group[0] in GroupsOf(read, legs, keys);
    } else {
      GroupsCover(read, legs, front, key);
      var g :| g in GroupsOf(read, legs, front) && g.expiration == key;
      assert g in GroupsOf(read, legs, keys);
    }
  }

  /**
    The result on broker legs: every group is sound, and every expiration whose legs,
    in strike order, have a pair with a short leg is reported.
   */
  lemma GroupsAreSound(legs: seq<Leg>, key: Option<O.Date>, right: O.Right, ordered: seq<Leg>, i: nat)
    requires AllSortable(O.Parse, legs, Expirations(O.Parse, legs))
    ensures var groups := GroupsOf(O.Parse, legs, Expirations(O.Parse, legs));
            && (forall group :: group in groups ==> SoundGroup(O.Parse, legs, group))
            && (StrikeOrder(O.Parse, legs, key, right, ordered) && PairHere(ordered, i) ==>
                 exists group :: group in groups && group.expiration == key)
  {
    GroupsAreSoundFor(O.Parse, legs, Expirations(O.Parse, legs));
    if StrikeOrder(O.Parse, legs, key, right, ordered) && PairHere(ordered, i) {
      PairIsReported(O.Parse, legs, key, right, ordered, i);
    }
  }

  lemma PairIsReported(
      read: Reader, legs: seq<Leg>, key: Option<O.Date>, right: O.Right, ordered: seq<Leg>, i: nat)
    requires AllSortable(read, legs, Expirations(read, legs))
    requires StrikeOrder(read, legs, key, right, ordered) && PairHere(ordered, i)
    ensures exists group :: group in GroupsOf(read, legs, Expirations(read, legs)) && group.expiration == key
  {
    OrderMembers(read, legs, key, right, ordered);
    ExpirationsAreRead(read, legs);
    assert ordered[i] in ordered;
    assert key in Expirations(read, legs);
    SpreadsAreSound(read, legs, key, right);
    OnePair(ordered, i);
    assert |{i}| <= |SpreadsOf(read, legs, key, right)|;
    assert right == O.Put || right == O.Call;
    GroupsCover(read, legs, Expirations(read, legs), key);
  }

  lemma OnePair(legs: seq<Leg>, i: nat)
    requires PairHere(legs, i)
    ensures IsPairing(legs, {i})
  {
  }
}
