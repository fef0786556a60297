/** The stratified, deterministic sample of evaluation cases that a paid run may use. */
module Sampling {
  import opened Common

  datatype Case = Case(id: string, category: string)

  /** Sorting keys: the digest of a case id read as a number, and the position of a name in name order. */
  datatype Keys = Keys(hash: string -> nat, rank: string -> int)

  ghost predicate NamesAreOrdered(keys: Keys) {
    forall a: string, b: string :: keys.rank(a) == keys.rank(b) ==> a == b
  }

  // -- stable sorting --------------------------------------------------------

  ghost predicate SortedBy<T>(s: seq<T>, key: T -> int) {
    forall i, j :: 0 <= i <= j < |s| ==> key(s[i]) <= key(s[j])
  }

  function Insert<T>(x: T, s: seq<T>, key: T -> int): seq<T> {
    if s == [] || key(x) <= key(s[0]) then [x] + s else [s[0]] + Insert(x, s[1..], key)
  }

  function SortBy<T>(s: seq<T>, key: T -> int): seq<T> {
    if s == [] then [] else Insert(s[0], SortBy(s[1..], key), key)
  }

  lemma {:induction false} InsertAddsOne<T>(x: T, s: seq<T>, key: T -> int)
    ensures multiset(Insert(x, s, key)) == multiset(s) + multiset{x}
    ensures Insert(x, s, key) != []
    ensures Insert(x, s, key)[0] == if s == [] || key(x) <= key(s[0]) then x else s[0]
  {
    if s != [] && key(x) > key(s[0]) {
      InsertAddsOne(x, s[1..], key);
      assert s == [s[0]] + s[1..];
    }
  }

  lemma {:induction false} InsertKeepsOrder<T>(x: T, s: seq<T>, key: T -> int)
    requires SortedBy(s, key)
    ensures SortedBy(Insert(x, s, key), key)
  {
    if s != [] && key(x) > key(s[0]) {
      InsertKeepsOrder(x, s[1..], key);
      InsertAddsOne(x, s[1..], key);
      var r := Insert(x, s[1..], key);
      forall i | 0 <= i < |r| ensures key(s[0]) <= key(r[i]) {
        assert key(r[0]) <= key(r[i]);
      }
    }
  }

  lemma {:induction false} SortByIsASortedPermutation<T>(s: seq<T>, key: T -> int)
    ensures SortedBy(SortBy(s, key), key)
    ensures multiset(SortBy(s, key)) == multiset(s)
    ensures |SortBy(s, key)| == |s|
  {
    if s != [] {
      SortByIsASortedPermutation(s[1..], key);
      InsertKeepsOrder(s[0], SortBy(s[1..], key), key);
      InsertAddsOne(s[0], SortBy(s[1..], key), key);
      assert s == [s[0]] + s[1..];
    }
    assert |multiset(SortBy(s, key))| == |multiset(s)|;
  }

  /** Under distinct keys there is only one sorted arrangement. */
  lemma FirstIsLeast<T>(s: seq<T>, key: T -> int, x: T)
    requires SortedBy(s, key) && x in s
    ensures key(s[0]) <= key(x)
  {
    var i :| 0 <= i < |s| && s[i] == x;
  }

  lemma TailHoldsTheRest<T>(s: seq<T>)
    requires s != []
    ensures multiset(s[1..]) == multiset(s) - multiset{s[0]} && s[0] in multiset(s)
  {
    assert s == [s[0]] + s[1..];
  }

  lemma HeadsAgree<T>(a: seq<T>, b: seq<T>, key: T -> int)
    requires SortedBy(a, key) && SortedBy(b, key) && multiset(a) == multiset(b) && a != [] && b != []
    requires forall x, y :: x in a && y in a && key(x) == key(y) ==> x == y
    ensures a[0] == b[0] && multiset(a[1..]) == multiset(b[1..])
  {
    hide SortedBy;
    TailHoldsTheRest(a);
    TailHoldsTheRest(b);
    assert b[0] in multiset(a) && a[0] in multiset(b);
    FirstIsLeast(a, key, b[0]);
    FirstIsLeast(b, key, a[0]);
  }

  lemma {:induction false} SortedArrangementIsUnique<T>(a: seq<T>, b: seq<T>, key: T -> int)
    requires SortedBy(a, key) && SortedBy(b, key) && multiset(a) == multiset(b)
    requires forall x, y :: x in a && y in a && key(x) == key(y) ==> x == y
    ensures a == b
  {
    assert |multiset(a)| == |multiset(b)|;
    if a != [] {
      HeadsAgree(a, b, key);
      SortedArrangementIsUnique(a[1..], b[1..], key);
      assert a == [a[0]] + a[1..] && b == [b[0]] + b[1..];
    }
  }

  // -- groups ----------------------------------------------------------------

  function OfCategory(cases: seq<Case>, category: string): seq<Case> {
    if cases == [] then []
    else OfCategory(cases[..|cases| - 1], category)
         + if cases[|cases| - 1].category == category then [cases[|cases| - 1]] else []
  }

  function CategorySet(cases: seq<Case>): set<string> {
    set c | c in cases :: c.category
  }

  /** The categories that occur, without repeats, in first-seen order. */
  function Categories(cases: seq<Case>): (names: seq<string>)
    ensures Distinct(names)
    ensures forall n :: n in names <==> n in CategorySet(cases)
  {
    if cases == [] then []
    else
      var last := cases[|cases| - 1];
      var earlier := cases[..|cases| - 1];
      assert cases == earlier + [last];
      var names := Categories(earlier);
      assert CategorySet(cases) == CategorySet(earlier) + {last.category};
      if last.category in names then names else names + [last.category]
  }

  function Order(cases: seq<Case>, keys: Keys): seq<string> {
    SortBy(Categories(cases), keys.rank)
  }

  function HashKey(keys: Keys): Case -> int {
    (c: Case) => keys.hash(c.id)
  }

  function ByHash(cases: seq<Case>, keys: Keys): seq<Case> {
    SortBy(cases, HashKey(keys))
  }

  /** The groups in name order, each in hash order. */
  function SortedGroups(cases: seq<Case>, keys: Keys): (groups: seq<seq<Case>>)
    ensures |groups| == |Order(cases, keys)|
    ensures forall j :: 0 <= j < |groups| ==> groups[j] == ByHash(OfCategory(cases, Order(cases, keys)[j]), keys)
  {
    var order := Order(cases, keys);
    seq(|order|, j requires 0 <= j < |order| => ByHash(OfCategory(cases, order[j]), keys))
  }

  // -- taking turns ----------------------------------------------------------

  /** Round `k` takes the case at position `k` of each of the first `j` groups that still has one. */
  function Round(groups: seq<seq<Case>>, k: nat, j: nat): seq<Case>
    requires j <= |groups|
  {
    if j == 0 then []
    else Round(groups, k, j - 1) + if k < |groups[j - 1]| then [groups[j - 1][k]] else []
  }

  function Rounds(groups: seq<seq<Case>>, k: nat): seq<Case> {
    if k == 0 then [] else Rounds(groups, k - 1) + Round(groups, k - 1, |groups|)
  }

  function Take<T>(s: seq<T>, n: nat): seq<T> {
    if n < |s| then s[..n] else s
  }

  /** The sample: everything when the limit does not bind, else the first `limit` cases taken in turns. */
  function SampleOf(cases: seq<Case>, limit: Option<int>, keys: Keys): seq<Case> {
    if limit.None? || limit.value >= |cases| then cases
    else if limit.value <= 0 then []
    else Take(Rounds(SortedGroups(cases, keys), |cases|), limit.value)
  }

  // -- the loop --------------------------------------------------------------

  lemma {:induction false} NoCaseNoGroup(cases: seq<Case>, category: string)
    requires category !in CategorySet(cases)
    ensures OfCategory(cases, category) == []
  {
    if cases != [] {
      var earlier, last := cases[..|cases| - 1], cases[|cases| - 1];
      assert last in cases && forall c :: c in earlier ==> c in cases;
      NoCaseNoGroup(earlier, category);
    }
  }

  method GroupByCategory(cases: seq<Case>) returns (groups: map<string, seq<Case>>)
    ensures groups.Keys == CategorySet(cases)
    ensures forall c :: c in groups ==> groups[c] == OfCategory(cases, c)
  {
    groups := map[];
    for i := 0 to |cases|
      invariant groups.Keys == CategorySet(cases[..i])
      invariant forall c :: c in groups ==> groups[c] == OfCategory(cases[..i], c)
    {
      var next := cases[i];
      assert cases[..i + 1][..i] == cases[..i];
      assert CategorySet(cases[..i + 1]) == CategorySet(cases[..i]) + {next.category};
      if next.category !in groups {
        NoCaseNoGroup(cases[..i], next.category);
      }
      var group := if next.category in groups then groups[next.category] else [];
      groups := groups[next.category := group + [next]];
    }
    assert cases[..|cases|] == cases;
  }

  /** What is left of each group after `round` passes and the first `j` turns of the next one. */
  ghost predicate Remaining(
      order: seq<string>, groups: map<string, seq<Case>>, sorted: seq<seq<Case>>, round: nat, j: nat)
  {
    && |order| == |sorted|
    && forall i :: 0 <= i < |order| ==>
         order[i] in groups && groups[order[i]] == Drop(sorted[i], if i < j then round + 1 else round)
  }

  lemma TurnLeaves(order: seq<string>, groups: map<string, seq<Case>>, sorted: seq<seq<Case>>, round: nat, j: nat)
    requires Remaining(order, groups, sorted, round, j) && j < |order| && Distinct(order)
    ensures order[j] in groups && (groups[order[j]] != [] <==> round < |sorted[j]|)
    ensures groups[order[j]] == [] ==> Remaining(order, groups, sorted, round, j + 1)
    ensures groups[order[j]] != [] ==>
      && groups[order[j]][0] == sorted[j][round]
      && Remaining(order, groups[order[j] := groups[order[j]][1..]], sorted, round, j + 1)
  {
    assert groups[order[j]] == Drop(sorted[j], round);
  }

  /** One pass over the categories in order: pop the front of each group until the limit is met. */
  method TakeTurns(
      order: seq<string>, groups: map<string, seq<Case>>, chosen: seq<Case>, limit: nat,
      ghost sorted: seq<seq<Case>>, ghost round: nat)
    returns (chosen': seq<Case>, groups': map<string, seq<Case>>)
    requires |chosen| < limit && Distinct(order) && Remaining(order, groups, sorted, round, 0)
    ensures chosen' == Take(chosen + Round(sorted, round, |order|), limit)
    ensures groups'.Keys == groups.Keys
    ensures |chosen'| < limit ==> Remaining(order, groups', sorted, round + 1, 0)
  {
    chosen', groups' := chosen, groups;
    for j := 0 to |order|
      invariant chosen' == Take(chosen + Round(sorted, round, j), limit)
      invariant groups'.Keys == groups.Keys
      invariant |chosen'| < limit ==> Remaining(order, groups', sorted, round, j)
    {
      hide Round, Take, Remaining, Distinct;
      TurnExtends(chosen, sorted, round, j, limit);
      KeysStay(order, groups, groups', sorted, round, j);
      if |chosen'| < limit {
        TurnLeaves(order, groups', sorted, round, j);
      }
      if groups'[order[j]] != [] && |chosen'| < limit {
        chosen' := chosen' + [groups'[order[j]][0]];
        groups' := groups'[order[j] := groups'[order[j]][1..]];
      }
    }
  }

  lemma KeysStay(
      order: seq<string>, groups: map<string, seq<Case>>, groups': map<string, seq<Case>>, sorted: seq<seq<Case>>,
      round: nat, j: nat)
    requires Remaining(order, groups, sorted, round, 0) && groups'.Keys == groups.Keys && j < |order|
    ensures order[j] in groups' && j < |sorted|
  {
  }

  method Sample(cases: seq<Case>, limit: Option<int>, keys: Keys) returns (chosen: seq<Case>)
    requires NamesAreOrdered(keys)
    ensures chosen == SampleOf(cases, limit, keys)
  {
    if limit.None? || limit.value >= |cases| {
      return cases;
    }
    var groups := GroupByCategory(cases);
    groups := map c | c in groups :: ByHash(groups[c], keys);
    if limit.value <= 0 {
      return [];
    }
    ghost var sorted := SortedGroups(cases, keys);
    OrderListsEveryCategory(cases, keys);
    GroupsHoldEveryCase(cases, keys);
    ghost var rounds;
    chosen, rounds := TakeRounds(Order(cases, keys), groups, limit.value, sorted);
    EnoughRounds(cases, keys, rounds, limit.value);
  }

  lemma TurnExtends(chosen: seq<Case>, sorted: seq<seq<Case>>, round: nat, j: nat, limit: nat)
    requires j < |sorted|
    ensures var before, after :=
        Take(chosen + Round(sorted, round, j), limit), Take(chosen + Round(sorted, round, j + 1), limit);
      && (|before| >= limit || round >= |sorted[j]| ==> after == before)
      && (|before| < limit && round < |sorted[j]| ==> after == before + [sorted[j][round]])
  {
    var taken := chosen + Round(sorted, round, j);
    if round < |sorted[j]| {
      var turn := [sorted[j][round]];
      assert chosen + Round(sorted, round, j + 1) == taken + turn;
      if limit <= |taken| {
        assert (taken + turn)[..limit] == taken[..limit];
      }
    } else {
      assert Round(sorted, round, j + 1) == Round(sorted, round, j) + [] == Round(sorted, round, j);
    }
  }

  /** Pass after pass over the categories, until the limit is met. */
  method TakeRounds(order: seq<string>, sortedGroups: map<string, seq<Case>>, limit: nat, ghost sorted: seq<seq<Case>>)
    returns (chosen: seq<Case>, ghost rounds: nat)
    requires |order| == |sorted| && Distinct(order) && limit <= SumLengths(sorted)
    requires forall j :: 0 <= j < |order| ==> order[j] in sortedGroups && sortedGroups[order[j]] == sorted[j]
    ensures |chosen| == limit && chosen == Take(Rounds(sorted, rounds), limit)
  {
    var groups := sortedGroups;
    chosen, rounds := [], 0;
    while |chosen| < limit
      invariant chosen == Take(Rounds(sorted, rounds), limit)
      invariant groups.Keys == sortedGroups.Keys
      invariant |chosen| < limit ==> Remaining(order, groups, sorted, rounds, 0)
      decreases limit - |chosen|
    {
      TakeOfShort(Rounds(sorted, rounds), limit);
      SomeGroupRemains(sorted, rounds);
      chosen, groups := TakeTurns(order, groups, chosen, limit, sorted, rounds);
      rounds := rounds + 1;
    }
  }

  function Drop<T>(s: seq<T>, n: nat): seq<T> {
    if n <= |s| then s[n..] else []
  }

  lemma TakeOfShort<T>(s: seq<T>, n: nat)
    requires |Take(s, n)| < n
    ensures Take(s, n) == s
  {
  }

  lemma OrderListsEveryCategory(cases: seq<Case>, keys: Keys)
    requires NamesAreOrdered(keys)
    ensures Distinct(Order(cases, keys))
    ensures forall n :: n in Order(cases, keys) <==> n in CategorySet(cases)
  {
    var names := Categories(cases);
    SortByIsASortedPermutation(names, keys.rank);
    PermutationsShareElements(Order(cases, keys), names);
  }

  lemma PermutationsShareElements<T>(a: seq<T>, b: seq<T>)
    requires multiset(a) == multiset(b)
    ensures |a| == |b|
    ensures forall x :: x in a <==> x in b
    ensures Distinct(b) ==> Distinct(a)
  {
    assert |multiset(a)| == |multiset(b)|;
    forall x ensures x in a <==> x in b {
      assert x in multiset(a) <==> x in multiset(b);
    }
    if Distinct(b) {
      forall i, j | 0 <= i < j < |a| ensures a[i] != a[j] {
        if a[i] == a[j] {
          RepeatedElementCounts(a, i, j);
          DistinctCountsOnce(b, a[i]);
        }
      }
    }
  }

  lemma RepeatedElementCounts<T>(s: seq<T>, i: nat, j: nat)
    requires i < j < |s| && s[i] == s[j]
    ensures multiset(s)[s[i]] >= 2
  {
    assert s == s[..j] + s[j..];
    assert s[j] in s[j..] && s[i] in s[..j];
  }

  lemma {:induction false} DistinctCountsOnce<T>(s: seq<T>, x: T)
    requires Distinct(s)
    ensures multiset(s)[x] <= 1
  {
    if s != [] {
      DistinctCountsOnce(s[1..], x);
      assert s == [s[0]] + s[1..];
      if s[0] == x {
        assert x !in s[1..];
      }
    }
  }

  // -- how many there are ----------------------------------------------------

  function SumLengths(groups: seq<seq<Case>>): nat {
    if groups == [] then 0 else SumLengths(groups[..|groups| - 1]) + |groups[|groups| - 1]|
  }

  function SumOfCategories(cases: seq<Case>, order: seq<string>): nat {
    if order == [] then 0
    else SumOfCategories(cases, order[..|order| - 1]) + |OfCategory(cases, order[|order| - 1])|
  }

  lemma {:induction false} OneMoreCase(cases: seq<Case>, order: seq<string>)
    requires cases != [] && Distinct(order)
    ensures SumOfCategories(cases, order)
         == SumOfCategories(cases[..|cases| - 1], order) + if cases[|cases| - 1].category in order then 1 else 0
  {
    if order != [] {
      OneMoreCase(cases, order[..|order| - 1]);
      assert order == order[..|order| - 1] + [order[|order| - 1]];
    }
  }

  lemma {:induction false} CategoriesCoverAllCases(cases: seq<Case>, order: seq<string>)
    requires Distinct(order)
    requires forall c :: c in cases ==> c.category in order
    ensures SumOfCategories(cases, order) == |cases|
  {
    if cases == [] {
      NoCasesNoSum(order);
    } else {
      OneMoreCase(cases, order);
      assert cases[|cases| - 1] in cases;
      CategoriesCoverAllCases(cases[..|cases| - 1], order);
    }
  }

  lemma {:induction false} NoCasesNoSum(order: seq<string>)
    ensures SumOfCategories([], order) == 0
  {
    if order != [] {
      NoCasesNoSum(order[..|order| - 1]);
    }
  }

  lemma {:induction false} GroupLengthsAddUp(cases: seq<Case>, keys: Keys, n: nat)
    requires n <= |Order(cases, keys)|
    ensures SumLengths(SortedGroups(cases, keys)[..n]) == SumOfCategories(cases, Order(cases, keys)[..n])
  {
    if n > 0 {
      var groups, order := SortedGroups(cases, keys), Order(cases, keys);
      GroupLengthsAddUp(cases, keys, n - 1);
      assert groups[..n][..n - 1] == groups[..n - 1] && order[..n][..n - 1] == order[..n - 1];
      SortByIsASortedPermutation(OfCategory(cases, order[n - 1]), HashKey(keys));
    }
  }

  lemma GroupsHoldEveryCase(cases: seq<Case>, keys: Keys)
    requires NamesAreOrdered(keys)
    ensures SumLengths(SortedGroups(cases, keys)) == |cases|
  {
    var order, groups := Order(cases, keys), SortedGroups(cases, keys);
    OrderListsEveryCategory(cases, keys);
    CategoriesCoverAllCases(cases, order);
    GroupLengthsAddUp(cases, keys, |order|);
    assert order[..|order|] == order && groups[..|order|] == groups;
  }

  function Least(a: nat, b: nat): nat {
    if a <= b then a else b
  }

  /** How many cases of each group are taken once `k` rounds, and `j` turns of the next, are over. */
  function TakenFrom(group: seq<Case>, k: nat, thisRound: bool): nat {
    Least(|group|, if thisRound then k + 1 else k)
  }

  function SumTaken(groups: seq<seq<Case>>, k: nat): nat {
    if groups == [] then 0
    else SumTaken(groups[..|groups| - 1], k) + TakenFrom(groups[|groups| - 1], k, false)
  }

  lemma {:induction false} RoundLength(groups: seq<seq<Case>>, k: nat, j: nat)
    requires j <= |groups|
    ensures SumTaken(groups[..j], k) + |Round(groups, k, j)| == SumTaken(groups[..j], k + 1)
  {
    if j > 0 {
      RoundLength(groups, k, j - 1);
      assert groups[..j][..j - 1] == groups[..j - 1];
    }
  }

  lemma {:induction false} RoundsLength(groups: seq<seq<Case>>, k: nat)
    ensures |Rounds(groups, k)| == SumTaken(groups, k)
  {
    if k == 0 {
      NothingTaken(groups);
    } else {
      hide SumTaken, Round, Rounds;
      RoundsLength(groups, k - 1);
      RoundsAddARound(groups, k - 1);
      RoundLength(groups, k - 1, |groups|);
      assert groups[..|groups|] == groups;
    }
  }

  lemma {:induction false} NothingTaken(groups: seq<seq<Case>>)
    ensures SumTaken(groups, 0) == 0
  {
    if groups != [] {
      NothingTaken(groups[..|groups| - 1]);
    }
  }

  lemma {:induction false} TakenIsBounded(groups: seq<seq<Case>>, k: nat)
    ensures SumTaken(groups, k) <= SumLengths(groups)
    ensures SumTaken(groups, k) <= SumTaken(groups, k + 1)
    ensures SumTaken(groups, k) == SumTaken(groups, k + 1) ==> SumTaken(groups, k) == SumLengths(groups)
    ensures k >= SumLengths(groups) ==> SumTaken(groups, k) == SumLengths(groups)
  {
    if groups != [] {
      TakenIsBounded(groups[..|groups| - 1], k);
    }
  }

  /** A round that takes nothing means that every case has been taken. */
  lemma SomeGroupRemains(groups: seq<seq<Case>>, k: nat)
    ensures |Round(groups, k, |groups|)| == 0 ==> |Rounds(groups, k)| == SumLengths(groups)
  {
    RoundsLength(groups, k);
    RoundLength(groups, k, |groups|);
    assert groups[..|groups|] == groups;
    TakenIsBounded(groups, k);
  }

  lemma {:induction false} LaterRoundsOnlyAppend(groups: seq<seq<Case>>, k: nat, m: nat)
    requires k <= m
    ensures Rounds(groups, k) <= Rounds(groups, m)
    decreases m - k
  {
    if k < m {
      LaterRoundsOnlyAppend(groups, k, m - 1);
    }
  }

  lemma EnoughRounds(cases: seq<Case>, keys: Keys, rounds: nat, limit: nat)
    requires NamesAreOrdered(keys) && 0 < limit < |cases|
    requires |Take(Rounds(SortedGroups(cases, keys), rounds), limit)| == limit
    ensures SampleOf(cases, Some(limit), keys) == Take(Rounds(SortedGroups(cases, keys), rounds), limit)
  {
    hide Rounds, SortedGroups;
    var groups := SortedGroups(cases, keys);
    GroupsHoldEveryCase(cases, keys);
    RoundsLength(groups, |cases|);
    TakenIsBounded(groups, |cases|);
    if rounds <= |cases| {
      LaterRoundsOnlyAppend(groups, rounds, |cases|);
    } else {
      LaterRoundsOnlyAppend(groups, |cases|, rounds);
    }
  }

  // -- what the sample is ----------------------------------------------------

  /** The first cases of the rounds: a number of whole rounds, and some turns of the next. */
  lemma {:induction false} CutPoint(groups: seq<seq<Case>>, rounds: nat, n: nat) returns (k: nat, j: nat)
    requires n <= |Rounds(groups, rounds)|
    ensures j <= |groups|
    ensures Rounds(groups, rounds)[..n] == Rounds(groups, k) + Round(groups, k, j)
  {
    if rounds == 0 {
      k, j := 0, 0;
    } else if n <= |Rounds(groups, rounds - 1)| {
      k, j := CutPoint(groups, rounds - 1, n);
      assert Rounds(groups, rounds)[..n] == Rounds(groups, rounds - 1)[..n];
    } else {
      k := rounds - 1;
      j := TurnPoint(groups, k, |groups|, n - |Rounds(groups, k)|);
    }
  }

  lemma {:induction false} TurnPoint(groups: seq<seq<Case>>, k: nat, turns: nat, n: nat) returns (j: nat)
    requires turns <= |groups| && n <= |Round(groups, k, turns)|
    ensures j <= turns
    ensures Round(groups, k, turns)[..n] == Round(groups, k, j)
  {
    if turns == 0 || n == |Round(groups, k, turns)| {
      j := turns;
    } else {
      j := TurnPoint(groups, k, turns - 1, n);
      assert Round(groups, k, turns)[..n] == Round(groups, k, turns - 1)[..n];
    }
  }

  lemma {:induction false} OfCategoryConcat(a: seq<Case>, b: seq<Case>, category: string)
    ensures OfCategory(a + b, category) == OfCategory(a, category) + OfCategory(b, category)
  {
    if b == [] {
      assert a + b == a;
    } else {
      assert (a + b)[..|a + b| - 1] == a + b[..|b| - 1];
      OfCategoryConcat(a, b[..|b| - 1], category);
    }
  }

  ghost predicate GroupsHaveCategories(groups: seq<seq<Case>>, order: seq<string>) {
    && |groups| == |order|
    && Distinct(order)
    && forall i, k :: 0 <= i < |groups| && 0 <= k < |groups[i]| ==> groups[i][k].category == order[i]
  }

  function Turn(groups: seq<seq<Case>>, k: nat, j: nat): seq<Case>
    requires j < |groups|
  {
    if k < |groups[j]| then [groups[j][k]] else []
  }

  lemma RoundAddsATurn(groups: seq<seq<Case>>, k: nat, j: nat)
    requires j < |groups|
    ensures Round(groups, k, j + 1) == Round(groups, k, j) + Turn(groups, k, j)
  {
  }

  lemma TurnOfCategory(groups: seq<seq<Case>>, order: seq<string>, k: nat, j: nat, i: nat)
    requires GroupsHaveCategories(groups, order) && j < |groups| && i < |groups|
    ensures OfCategory(Turn(groups, k, j), order[i]) == if i == j then Turn(groups, k, j) else []
  {
    assert Turn(groups, k, j) != [] ==> Turn(groups, k, j)[..0] == [];
  }

  lemma {:induction false} RoundOfCategory(groups: seq<seq<Case>>, order: seq<string>, k: nat, j: nat, i: nat)
    requires |groups| == |order| && GroupsHaveCategories(groups, order) && j <= |groups| && i < |groups|
    ensures OfCategory(Round(groups, k, j), order[i]) == if i < j then Turn(groups, k, i) else []
  {
    hide OfCategory, GroupsHaveCategories, Turn, Round;
    if j == 0 {
      NoTurnsYet(groups, k, order[i]);
    } else {
      RoundOfCategory(groups, order, k, j - 1, i);
      RoundAddsATurn(groups, k, j - 1);
      OfCategoryConcat(Round(groups, k, j - 1), Turn(groups, k, j - 1), order[i]);
      TurnOfCategory(groups, order, k, j - 1, i);
      NothingAdded(Turn(groups, k, i));
      NothingAdded([]);
    }
  }

  lemma NoTurnsYet(groups: seq<seq<Case>>, k: nat, category: string)
    ensures OfCategory(Round(groups, k, 0), category) == []
  {
  }

  lemma NothingAdded(cases: seq<Case>)
    ensures cases + [] == cases && [] + cases == cases
  {
  }

  lemma TurnTakesOneMore(groups: seq<seq<Case>>, k: nat, i: nat)
    requires i < |groups|
    ensures groups[i][..TakenFrom(groups[i], k, false)] + Turn(groups, k, i)
         == groups[i][..TakenFrom(groups[i], k + 1, false)]
  {
  }

  lemma {:induction false} RoundsOfCategory(groups: seq<seq<Case>>, order: seq<string>, k: nat, i: nat)
    requires |groups| == |order| && GroupsHaveCategories(groups, order) && i < |groups|
    ensures OfCategory(Rounds(groups, k), order[i]) == groups[i][..TakenFrom(groups[i], k, false)]
  {
    hide Round, Rounds, OfCategory, GroupsHaveCategories, Turn, TakenFrom;
    if k == 0 {
      NoRoundsYet(groups, i, order[i]);
    } else {
      RoundsOfCategory(groups, order, k - 1, i);
      RoundsAddARound(groups, k - 1);
      RoundOfCategory(groups, order, k - 1, |groups|, i);
      OfCategoryConcat(Rounds(groups, k - 1), Round(groups, k - 1, |groups|), order[i]);
      TurnTakesOneMore(groups, k - 1, i);
    }
  }

  lemma NoRoundsYet(groups: seq<seq<Case>>, i: nat, category: string)
    requires i < |groups|
    ensures OfCategory(Rounds(groups, 0), category) == groups[i][..TakenFrom(groups[i], 0, false)]
  {
  }

  lemma RoundsAddARound(groups: seq<seq<Case>>, k: nat)
    ensures Rounds(groups, k + 1) == Rounds(groups, k) + Round(groups, k, |groups|)
  {
  }

  lemma {:induction false} CategoryMembers(cases: seq<Case>, category: string, x: Case)
    ensures multiset(OfCategory(cases, category))[x] == if x.category == category then multiset(cases)[x] else 0
  {
    if cases != [] {
      var earlier := cases[..|cases| - 1];
      assert cases == earlier + [cases[|cases| - 1]];
      CategoryMembers(earlier, category, x);
    }
  }

  lemma SortedGroupsHaveCategories(cases: seq<Case>, keys: Keys)
    requires NamesAreOrdered(keys)
    ensures GroupsHaveCategories(SortedGroups(cases, keys), Order(cases, keys))
  {
    var groups: seq<seq<Case>> := SortedGroups(cases, keys);
    var order := Order(cases, keys);
    OrderListsEveryCategory(cases, keys);
    forall i: nat, k: nat | i < |groups| && k < |groups[i]| ensures groups[i][k].category == order[i] {
      SortByIsASortedPermutation(OfCategory(cases, order[i]), HashKey(keys));
      assert groups[i][k] in multiset(groups[i]);
      CategoryMembers(cases, order[i], groups[i][k]);
    }
  }

  /** How many cases of a category a sample holds. */
  function Share(chosen: seq<Case>, category: string): nat {
    |OfCategory(chosen, category)|
  }

  lemma ShareAfter(groups: seq<seq<Case>>, order: seq<string>, k: nat, j: nat, i: nat)
    requires GroupsHaveCategories(groups, order) && i < |order| && j <= |order|
    ensures OfCategory(Rounds(groups, k) + Round(groups, k, j), order[i])
         == groups[i][..TakenFrom(groups[i], k, i < j)]
  {
    RoundsOfCategory(groups, order, k, i);
    RoundOfCategory(groups, order, k, j, i);
    OfCategoryConcat(Rounds(groups, k), Round(groups, k, j), order[i]);
    OneMoreTurn(groups[i], k, i < j);
  }

  lemma OneMoreTurn(group: seq<Case>, k: nat, thisRound: bool)
    ensures group[..TakenFrom(group, k, false)] + (if thisRound && k < |group| then [group[k]] else [])
         == group[..TakenFrom(group, k, thisRound)]
  {
  }

  /** A binding sample is some whole rounds and some turns of the next. */
  lemma SampleIsACut(cases: seq<Case>, limit: nat, keys: Keys) returns (k: nat, j: nat)
    requires NamesAreOrdered(keys) && limit < |cases|
    ensures j <= |Order(cases, keys)|
    ensures SampleOf(cases, Some(limit), keys)
         == Rounds(SortedGroups(cases, keys), k) + Round(SortedGroups(cases, keys), k, j)
    ensures |SampleOf(cases, Some(limit), keys)| == limit
  {
    var groups := SortedGroups(cases, keys);
    GroupsHoldEveryCase(cases, keys);
    RoundsLength(groups, |cases|);
    TakenIsBounded(groups, |cases|);
    k, j := CutPoint(groups, |cases|, limit);
  }

  /** What a cut holds of one category: the front of its hash order, one longer if its turn has come. */
  lemma CategoryShare(cases: seq<Case>, keys: Keys, k: nat, j: nat, c: string) returns (cameUp: bool)
    requires NamesAreOrdered(keys) && j <= |Order(cases, keys)| && c in CategorySet(cases)
    ensures
      var group := ByHash(OfCategory(cases, c), keys);
      OfCategory(Rounds(SortedGroups(cases, keys), k) + Round(SortedGroups(cases, keys), k, j), c)
      == group[..TakenFrom(group, k, cameUp)]
    ensures |ByHash(OfCategory(cases, c), keys)| == |OfCategory(cases, c)|
  {
    OrderListsEveryCategory(cases, keys);
    var order := Order(cases, keys);
    assert c in order;
    var i :| 0 <= i < |order| && order[i] == c;
    cameUp := i < j;
    SortedGroupsHaveCategories(cases, keys);
    ShareAfter(SortedGroups(cases, keys), order, k, j, i);
    SortByIsASortedPermutation(OfCategory(cases, c), HashKey(keys));
  }

  /** Each category contributes the front of its hash order, and the shares are as equal as the groups allow. */
  lemma SampleIsStratified(cases: seq<Case>, limit: nat, keys: Keys, c: string, d: string)
    requires NamesAreOrdered(keys) && limit < |cases|
    requires c in CategorySet(cases) && d in CategorySet(cases)
    ensures var chosen := SampleOf(cases, Some(limit), keys);
      && |chosen| == limit
      && OfCategory(chosen, c) <= ByHash(OfCategory(cases, c), keys)
      && (Share(chosen, c) <= Share(chosen, d) + 1 || Share(chosen, d) == |OfCategory(cases, d)|)
  {
    var k, j := SampleIsACut(cases, limit, keys);
    var cameUp := CategoryShare(cases, keys, k, j, c);
    var cameUp' := CategoryShare(cases, keys, k, j, d);
  }

  // -- the order of the sample -----------------------------------------------

  /** In which round a chosen case was taken: how many of its category were taken before it. */
  function RoundOf(chosen: seq<Case>, p: nat): nat
    requires p < |chosen|
  {
    |OfCategory(chosen[..p], chosen[p].category)|
  }

  /** Round after round, and within a round in name order. */
  ghost predicate InTurns(chosen: seq<Case>, keys: Keys) {
    forall p, q :: 0 <= p < q < |chosen| ==>
      || RoundOf(chosen, p) < RoundOf(chosen, q)
      || (RoundOf(chosen, p) == RoundOf(chosen, q) && keys.rank(chosen[p].category) < keys.rank(chosen[q].category))
  }

  ghost predicate TakenBefore(chosen: seq<Case>, order: seq<string>, keys: Keys, k: nat, j: nat) {
    forall p :: 0 <= p < |chosen| ==>
      || RoundOf(chosen, p) < k
      || (RoundOf(chosen, p) == k && (j < |order| ==> keys.rank(chosen[p].category) < keys.rank(order[j])))
  }

  ghost predicate Ascending(order: seq<string>, keys: Keys) {
    forall i, j :: 0 <= i < j < |order| ==> keys.rank(order[i]) < keys.rank(order[j])
  }

  lemma OneMoreInTurns(chosen: seq<Case>, next: Case, order: seq<string>, keys: Keys, k: nat, j: nat)
    requires j < |order| && Ascending(order, keys) && InTurns(chosen, keys) && TakenBefore(chosen, order, keys, k, j)
    requires next.category == order[j] && |OfCategory(chosen, order[j])| == k
    ensures InTurns(chosen + [next], keys) && TakenBefore(chosen + [next], order, keys, k, j + 1)
  {
    hide OfCategory;
    var longer := chosen + [next];
    assert longer[..|chosen|] == chosen;
    forall p | 0 <= p < |chosen| ensures RoundOf(longer, p) == RoundOf(chosen, p) {
      assert longer[..p] == chosen[..p];
    }
  }

  lemma {:induction false} CutsAreInTurns(
      groups: seq<seq<Case>>, order: seq<string>, keys: Keys, k: nat, j: nat)
    requires GroupsHaveCategories(groups, order) && Ascending(order, keys) && j <= |order|
    ensures InTurns(Rounds(groups, k) + Round(groups, k, j), keys)
    ensures TakenBefore(Rounds(groups, k) + Round(groups, k, j), order, keys, k, j)
    decreases k, j
  {
    hide InTurns, Ascending, Rounds, OfCategory, GroupsHaveCategories, Turn, TakenFrom;
    GroupsAreAsMany(groups, order);
    if j > 0 {
      CutsAreInTurns(groups, order, keys, k, j - 1);
      RoundAddsATurn(groups, k, j - 1);
      var chosen, turn := Rounds(groups, k) + Round(groups, k, j - 1), Turn(groups, k, j - 1);
      assert Rounds(groups, k) + Round(groups, k, j) == chosen + turn;
      TurnsAreInOrder(groups, order, keys, k, j - 1);
    } else if k > 0 {
      CutsAreInTurns(groups, order, keys, k - 1, |order|);
      RoundsAddARound(groups, k - 1);
      assert Rounds(groups, k) + Round(groups, k, 0) == Rounds(groups, k - 1) + Round(groups, k - 1, |order|);
    } else {
      NothingInTurns(groups, order, keys);
    }
  }

  lemma GroupsAreAsMany(groups: seq<seq<Case>>, order: seq<string>)
    requires GroupsHaveCategories(groups, order)
    ensures |groups| == |order|
  {
  }

  lemma NothingInTurns(groups: seq<seq<Case>>, order: seq<string>, keys: Keys)
    ensures InTurns(Rounds(groups, 0) + Round(groups, 0, 0), keys)
    ensures TakenBefore(Rounds(groups, 0) + Round(groups, 0, 0), order, keys, 0, 0)
  {
  }

  /** One turn more. */
  lemma TurnsAreInOrder(groups: seq<seq<Case>>, order: seq<string>, keys: Keys, k: nat, j: nat)
    requires GroupsHaveCategories(groups, order) && Ascending(order, keys) && j < |order|
    requires var chosen := Rounds(groups, k) + Round(groups, k, j);
      InTurns(chosen, keys) && TakenBefore(chosen, order, keys, k, j)
    ensures var longer := Rounds(groups, k) + Round(groups, k, j) + Turn(groups, k, j);
      InTurns(longer, keys) && TakenBefore(longer, order, keys, k, j + 1)
  {
    hide InTurns, OfCategory;
    var chosen := Rounds(groups, k) + Round(groups, k, j);
    if k < |groups[j]| {
      ShareAfter(groups, order, k, j, j);
      assert Turn(groups, k, j) == [groups[j][k]];
      OneMoreInTurns(chosen, groups[j][k], order, keys, k, j);
    } else {
      assert chosen + Turn(groups, k, j) == chosen;
    }
  }

  lemma OrderIsAscending(cases: seq<Case>, keys: Keys)
    requires NamesAreOrdered(keys)
    ensures Ascending(Order(cases, keys), keys)
  {
    OrderListsEveryCategory(cases, keys);
    SortByIsASortedPermutation(Categories(cases), keys.rank);
  }

  /** A binding sample is taken in turns: one case of each category, in name order, before the next of any. */
  lemma SampleIsTakenInTurns(cases: seq<Case>, limit: nat, keys: Keys)
    requires NamesAreOrdered(keys) && limit < |cases|
    ensures InTurns(SampleOf(cases, Some(limit), keys), keys)
  {
    var k, j := SampleIsACut(cases, limit, keys);
    SortedGroupsHaveCategories(cases, keys);
    OrderIsAscending(cases, keys);
    CutsAreInTurns(SortedGroups(cases, keys), Order(cases, keys), keys, k, j);
  }

  /** Of each category it holds the cases of the lowest digests, and in the order of these. */
  lemma SampleTakesTheLowestDigests(cases: seq<Case>, limit: nat, keys: Keys, category: string)
    requires NamesAreOrdered(keys) && limit < |cases| && category in CategorySet(cases)
    ensures var taken := OfCategory(SampleOf(cases, Some(limit), keys), category);
      && (forall i, j :: 0 <= i <= j < |taken| ==> keys.hash(taken[i].id) <= keys.hash(taken[j].id))
      && (forall x, y ::
            x in taken && y in OfCategory(cases, category)
            && multiset(taken)[y] < multiset(OfCategory(cases, category))[y] ==>
              keys.hash(x.id) <= keys.hash(y.id))
  {
    var chosen, group := SampleOf(cases, Some(limit), keys), OfCategory(cases, category);
    var taken := OfCategory(chosen, category);
    hide SampleOf, OfCategory, SortBy, SortedBy;
    SampleIsStratified(cases, limit, keys, category, category);
    SortByIsASortedPermutation(group, HashKey(keys));
    TakenFromTheFront(taken, ByHash(group, keys), keys);
    PermutationsShareElements(ByHash(group, keys), group);
  }

  lemma TakenFromTheFront(taken: seq<Case>, sorted: seq<Case>, keys: Keys)
    requires taken <= sorted && SortedBy(sorted, HashKey(keys))
    ensures forall i, j :: 0 <= i <= j < |taken| ==> keys.hash(taken[i].id) <= keys.hash(taken[j].id)
    ensures forall x, y :: x in taken && y in sorted && multiset(taken)[y] < multiset(sorted)[y] ==>
      keys.hash(x.id) <= keys.hash(y.id)
  {
    forall i, j | 0 <= i <= j < |sorted| ensures keys.hash(sorted[i].id) <= keys.hash(sorted[j].id) {
      assert HashKey(keys)(sorted[i]) <= HashKey(keys)(sorted[j]);
    }
    forall x, y | x in taken && y in sorted && multiset(taken)[y] < multiset(sorted)[y]
      ensures keys.hash(x.id) <= keys.hash(y.id)
    {
      var rest := sorted[|taken|..];
      assert sorted == taken + rest;
      assert multiset(rest)[y] > 0;
      var i :| 0 <= i < |taken| && taken[i] == x;
      var j :| 0 <= j < |rest| && rest[j] == y;
      assert sorted[i] == x && sorted[|taken| + j] == y;
    }
  }

  /** A limit of zero or less leaves nothing of cases that there are. */
  lemma NothingIsSampledWithoutALimitAboveZero(cases: seq<Case>, limit: int, keys: Keys)
    requires limit <= 0 && cases != []
    ensures SampleOf(cases, Some(limit), keys) == []
  {
  }

  lemma PrefixesHoldNoMore(part: seq<Case>, whole: seq<Case>, x: Case)
    requires part <= whole
    ensures multiset(part)[x] <= multiset(whole)[x]
  {
    assert whole == part + whole[|part|..];
  }

  /** The sample holds no case more often than the input does. */
  lemma SampleIsDrawnFromTheCases(cases: seq<Case>, limit: Option<int>, keys: Keys, x: Case)
    requires NamesAreOrdered(keys)
    ensures multiset(SampleOf(cases, limit, keys))[x] <= multiset(cases)[x]
  {
    var chosen := SampleOf(cases, limit, keys);
    if limit.Some? && 0 < limit.value < |cases| && x in chosen {
      hide SampleOf, OfCategory;
      ChosenComeFromGroups(cases, limit.value, keys, x);
      SampleIsStratified(cases, limit.value, keys, x.category, x.category);
      CategoryMembers(chosen, x.category, x);
      CategoryMembers(cases, x.category, x);
      var group := OfCategory(cases, x.category);
      SortByIsASortedPermutation(group, HashKey(keys));
      PrefixesHoldNoMore(OfCategory(chosen, x.category), ByHash(group, keys), x);
    }
  }

  /** So distinct cases stay distinct. */
  lemma SampleOfDistinctCasesIsDistinct(cases: seq<Case>, limit: Option<int>, keys: Keys)
    requires NamesAreOrdered(keys) && Distinct(cases)
    ensures Distinct(SampleOf(cases, limit, keys))
  {
    var chosen := SampleOf(cases, limit, keys);
    forall i, j | 0 <= i < j < |chosen| ensures chosen[i] != chosen[j] {
      if chosen[i] == chosen[j] {
        RepeatedElementCounts(chosen, i, j);
        DistinctCountsOnce(cases, chosen[i]);
        SampleIsDrawnFromTheCases(cases, limit, keys, chosen[i]);
      }
    }
  }

  lemma {:induction false} RoundComesFromGroups(groups: seq<seq<Case>>, order: seq<string>, k: nat, j: nat)
    requires GroupsHaveCategories(groups, order) && j <= |groups|
    ensures forall x :: x in Round(groups, k, j) ==> x.category in order
  {
    if j > 0 {
      RoundComesFromGroups(groups, order, k, j - 1);
    }
  }

  lemma {:induction false} RoundsComeFromGroups(groups: seq<seq<Case>>, order: seq<string>, k: nat)
    requires GroupsHaveCategories(groups, order)
    ensures forall x :: x in Rounds(groups, k) ==> x.category in order
  {
    if k > 0 {
      RoundsComeFromGroups(groups, order, k - 1);
      RoundComesFromGroups(groups, order, k - 1, |groups|);
    }
  }

  lemma ChosenComeFromGroups(cases: seq<Case>, limit: nat, keys: Keys, x: Case)
    requires NamesAreOrdered(keys) && 0 < limit < |cases|
    requires x in SampleOf(cases, Some(limit), keys)
    ensures x.category in CategorySet(cases)
  {
    SortedGroupsHaveCategories(cases, keys);
    RoundsComeFromGroups(SortedGroups(cases, keys), Order(cases, keys), |cases|);
    OrderListsEveryCategory(cases, keys);
  }

  /** When the limit binds and digests do not collide, the order of the input does not matter. */
  lemma SampleIgnoresInputOrder(cases: seq<Case>, shuffled: seq<Case>, limit: int, keys: Keys)
    requires NamesAreOrdered(keys) && limit < |cases|
    requires multiset(cases) == multiset(shuffled)
    requires forall x, y :: x in cases && y in cases && keys.hash(x.id) == keys.hash(y.id) ==> x == y
    ensures SampleOf(cases, Some(limit), keys) == SampleOf(shuffled, Some(limit), keys)
  {
    PermutationsShareElements(cases, shuffled);
    assert CategorySet(cases) == CategorySet(shuffled);
    OrderIgnoresInputOrder(cases, shuffled, keys);
    var order := Order(cases, keys);
    var groups, groups' := SortedGroups(cases, keys), SortedGroups(shuffled, keys);
    forall i | 0 <= i < |order| ensures groups[i] == groups'[i] {
      GroupIgnoresInputOrder(cases, shuffled, order[i], keys);
    }
    assert groups == groups';
  }

  lemma OrderIgnoresInputOrder(cases: seq<Case>, shuffled: seq<Case>, keys: Keys)
    requires NamesAreOrdered(keys)
    requires CategorySet(cases) == CategorySet(shuffled)
    ensures Order(cases, keys) == Order(shuffled, keys)
  {
    var a, b := Order(cases, keys), Order(shuffled, keys);
    OrderListsEveryCategory(cases, keys);
    OrderListsEveryCategory(shuffled, keys);
    SortByIsASortedPermutation(Categories(cases), keys.rank);
    SortByIsASortedPermutation(Categories(shuffled), keys.rank);
    forall x ensures multiset(a)[x] == multiset(b)[x] {
      DistinctCountsOnce(a, x);
      DistinctCountsOnce(b, x);
      assert x in multiset(a) <==> x in a;
      assert x in multiset(b) <==> x in b;
    }
    assert multiset(a) == multiset(b);
    SortedArrangementIsUnique(a, b, keys.rank);
  }

  lemma SortIgnoresInputOrder<T>(a: seq<T>, b: seq<T>, key: T -> int)
    requires multiset(a) == multiset(b)
    requires forall x, y :: x in a && y in a && key(x) == key(y) ==> x == y
    ensures SortBy(a, key) == SortBy(b, key)
  {
    var a', b' := SortBy(a, key), SortBy(b, key);
    SortByIsASortedPermutation(a, key);
    SortByIsASortedPermutation(b, key);
    assert forall x :: x in a' ==> x in multiset(a');
    SortedArrangementIsUnique(a', b', key);
  }

  lemma GroupIgnoresInputOrder(cases: seq<Case>, shuffled: seq<Case>, category: string, keys: Keys)
    requires multiset(cases) == multiset(shuffled)
    requires forall x, y :: x in cases && y in cases && keys.hash(x.id) == keys.hash(y.id) ==> x == y
    ensures ByHash(OfCategory(cases, category), keys) == ByHash(OfCategory(shuffled, category), keys)
  {
    var a, b := OfCategory(cases, category), OfCategory(shuffled, category);
    forall x ensures multiset(a)[x] == multiset(b)[x] && (x in a ==> x in cases) {
      CategoryMembers(cases, category, x);
      CategoryMembers(shuffled, category, x);
      assert x in a ==> x in multiset(a);
    }
    assert multiset(a) == multiset(b);
    SortIgnoresInputOrder(a, b, HashKey(keys));
  }

  /** When the limit does not bind, the cases come back as they came, in input order. */
  lemma UnboundSampleKeepsInputOrder(cases: seq<Case>, limit: Option<int>, keys: Keys)
    ensures SampleOf(cases, limit, keys) == cases <==>
      limit.None? || limit.value >= |cases| || (limit.value <= 0 && cases == [])
  {
  }
}
