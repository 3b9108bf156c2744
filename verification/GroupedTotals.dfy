/** Totals per group against the entries they sum up, as both validators of the SDK check them
    (sdk/src/client-accounting-responses.ts). */
module GroupedTotals {
  /** Chain, lower-cased token address and venue asset, ordered as the validators compare them; assets are
      numbered in locale order, and totals per token only have asset 0. */
  datatype Key = Key(chainId: nat, token: nat, asset: nat)

  predicate Before(a: Key, b: Key) {
    a.chainId < b.chainId
    || (a.chainId == b.chainId && (a.token < b.token || (a.token == b.token && a.asset < b.asset)))
  }

  /** One amount that belongs to a group. */
  datatype Entry = Entry(key: Key, amount: int)

  datatype TotalFields = TotalFields(key: Key, totalTrades: nat, amount: int)

  type Total = t: TotalFields | t.totalTrades > 0 witness TotalFields(Key(1, 1, 0), 1, 0)

  const MAX_SAFE: nat := 9_007_199_254_740_991

  // ---------------------------------------------------------------- group-by

  function CountFor(entries: seq<Entry>, key: Key): nat {
    if entries == [] then 0
    else CountFor(entries[..|entries| - 1], key) + if entries[|entries| - 1].key == key then 1 else 0
  }

  function AmountFor(entries: seq<Entry>, key: Key): int {
    if entries == [] then 0
    else
      AmountFor(entries[..|entries| - 1], key)
      + if entries[|entries| - 1].key == key then entries[|entries| - 1].amount else 0
  }

  function KeysOf(entries: seq<Entry>): set<Key> { set t | t in entries :: t.key }

  function TotalKeys(totals: seq<Total>): set<Key> { set t | t in totals :: t.key }

  predicate StrictlySorted(totals: seq<Total>) {
    forall i, j :: 0 <= i < j < |totals| ==> Before(totals[i].key, totals[j].key)
  }

  /** The sorted group-by of the entries: one row per key with its count and sum. */
  predicate IsGroupBy(entries: seq<Entry>, totals: seq<Total>) {
    && StrictlySorted(totals)
    && TotalKeys(totals) == KeysOf(entries)
    && (forall i :: 0 <= i < |totals| ==>
          totals[i].totalTrades == CountFor(entries, totals[i].key) && totals[i].amount == AmountFor(entries, totals[i].key))
  }

  function CountSum(totals: seq<Total>): nat {
    if totals == [] then 0 else CountSum(totals[..|totals| - 1]) + totals[|totals| - 1].totalTrades
  }

  // ---------------------------------------------------------------- the entries of a page

  datatype Expected = Expected(totalTrades: nat, amount: int)

  predicate Collected(entries: seq<Entry>, expected: map<Key, Expected>) {
    && expected.Keys == KeysOf(entries)
    && forall k :: k in expected ==> expected[k] == Expected(CountFor(entries, k), AmountFor(entries, k))
  }

  lemma NothingCollected()
    ensures Collected([], map[])
  {
  }

  lemma CollectedSnoc(entries: seq<Entry>, n: nat, expected: map<Key, Expected>)
    requires n < |entries| && Collected(entries[..n], expected)
    ensures var entry := entries[n];
            var current := if entry.key in expected then expected[entry.key] else Expected(0, 0);
            Collected(entries[..n + 1],
                      expected[entry.key := Expected(current.totalTrades + 1, current.amount + entry.amount)])
  {
    if entries[n].key !in expected { AbsentKey(entries[..n], entries[n].key); }
    assert entries[..n + 1][..n] == entries[..n];
    KeysSnoc(entries, n);
  }

  lemma KeysSnoc(entries: seq<Entry>, n: nat)
    requires n < |entries|
    ensures KeysOf(entries[..n + 1]) == KeysOf(entries[..n]) + {entries[n].key}
  {
    assert entries[..n + 1] == entries[..n] + [entries[n]];
    forall t ensures t in entries[..n + 1] <==> t in entries[..n] || t == entries[n] {}
  }

  lemma {:induction false} AbsentKey(entries: seq<Entry>, key: Key)
    requires key !in KeysOf(entries)
    ensures CountFor(entries, key) == 0 && AmountFor(entries, key) == 0
  {
    if entries != [] {
      KeysSnoc(entries, |entries| - 1);
      assert entries[..|entries|] == entries;
      AbsentKey(entries[..|entries| - 1], key);
    }
  }

  // ---------------------------------------------------------------- one pass over the totals

  /** One pass over the totals: order, uniqueness, running sum, and domination of the page's counts. */
  method CheckTotals(totals: seq<Total>, entries: seq<Entry>, expected: map<Key, Expected>)
    returns (ok: bool, sum: nat, seen: set<Key>)
    requires Collected(entries, expected)
    ensures ok <==> StrictlySorted(totals) && CountSum(totals) <= MAX_SAFE
                    && forall i :: 0 <= i < |totals| ==> CountFor(entries, totals[i].key) <= totals[i].totalTrades
    ensures ok ==> sum == CountSum(totals) && seen == TotalKeys(totals)
  {
    ok, sum, seen := true, 0, {};
    for n := 0 to |totals|
      invariant StrictlySorted(totals[..n]) && sum == CountSum(totals[..n]) <= MAX_SAFE && seen == TotalKeys(totals[..n])
      invariant forall i :: 0 <= i < n ==> CountFor(entries, totals[i].key) <= totals[i].totalTrades
    {
      var total := totals[n];
      assert totals[..n + 1][..n] == totals[..n];
      if total.key in seen || (n > 0 && Before(total.key, totals[n - 1].key)) {
        NotSorted(totals, n);
        return false, sum, seen;
      }
      SortedSnoc(totals, n);
      seen := seen + {total.key};
      sum := sum + total.totalTrades;
      if sum > MAX_SAFE {
        CountSumGrows(totals, n + 1);
        return false, sum, seen;
      }
      if total.key !in expected { AbsentKey(entries, total.key); }
      if total.key in expected && total.totalTrades < expected[total.key].totalTrades { return false, sum, seen; }
      TotalKeysSnoc(totals, n);
    }
    assert totals[..|totals|] == totals;
  }

  /** Sorted means by chain, then by token, then by asset. */
  lemma SortedByColumns(totals: seq<Total>)
    ensures StrictlySorted(totals) <==>
              forall i, j :: 0 <= i < j < |totals| ==>
                var a, b := totals[i].key, totals[j].key;
                || a.chainId < b.chainId
                || (a.chainId == b.chainId && a.token < b.token)
                || (a.chainId == b.chainId && a.token == b.token && a.asset < b.asset)
  {
  }

  lemma TotalKeysSnoc(totals: seq<Total>, n: nat)
    requires n < |totals|
    ensures TotalKeys(totals[..n + 1]) == TotalKeys(totals[..n]) + {totals[n].key}
  {
    assert totals[..n + 1] == totals[..n] + [totals[n]];
    forall t ensures t in totals[..n + 1] <==> t in totals[..n] || t == totals[n] {}
  }

  lemma NotSorted(totals: seq<Total>, n: nat)
    requires n < |totals| && StrictlySorted(totals[..n])
    requires totals[n].key in TotalKeys(totals[..n]) || (n > 0 && Before(totals[n].key, totals[n - 1].key))
    ensures !StrictlySorted(totals)
  {
    if totals[n].key in TotalKeys(totals[..n]) {
      var t :| t in totals[..n] && t.key == totals[n].key;
      var i :| 0 <= i < n && totals[..n][i] == t;
      assert !Before(totals[i].key, totals[n].key);
    } else {
      assert !Before(totals[n - 1].key, totals[n].key);
    }
  }

  lemma SortedSnoc(totals: seq<Total>, n: nat)
    requires n < |totals| && StrictlySorted(totals[..n]) && totals[n].key !in TotalKeys(totals[..n])
    requires n > 0 ==> !Before(totals[n].key, totals[n - 1].key)
    ensures StrictlySorted(totals[..n + 1])
  {
    if n > 0 {
      assert totals[n - 1] == totals[..n][n - 1] && totals[n - 1] in totals[..n];
      assert Before(totals[n - 1].key, totals[n].key);
      forall i | 0 <= i < n ensures Before(totals[i].key, totals[n].key) {
        if i < n - 1 { assert Before(totals[..n][i].key, totals[..n][n - 1].key); }
      }
    }
  }

  lemma {:induction false} CountSumGrows(totals: seq<Total>, n: nat)
    requires n <= |totals|
    ensures CountSum(totals[..n]) <= CountSum(totals)
    decreases |totals|
  {
    if n < |totals| {
      CountSumGrows(totals[..|totals| - 1], n);
      assert totals[..|totals| - 1][..n] == totals[..n];
    } else {
      assert totals[..n] == totals;
    }
  }

  // ---------------------------------------------------------------- a group-by adds up and is unique

  lemma LastKeyNew(totals: seq<Total>)
    requires totals != [] && StrictlySorted(totals)
    ensures totals[|totals| - 1].key !in TotalKeys(totals[..|totals| - 1])
  {
    var n := |totals| - 1;
    forall t | t in totals[..n] ensures t.key != totals[n].key {
      var i :| 0 <= i < n && totals[i] == t;
      assert Before(totals[i].key, totals[n].key);
    }
  }

  lemma {:induction false} KeysCounted(totals: seq<Total>)
    requires StrictlySorted(totals)
    ensures |TotalKeys(totals)| == |totals|
  {
    if totals != [] {
      var n := |totals| - 1;
      KeysCounted(totals[..n]);
      TotalKeysSnoc(totals, n);
      assert totals[..n + 1] == totals;
      LastKeyNew(totals);
    }
  }

  /** Removing one key's row and entries from a group-by: the counts of a group-by add up to the entries. */
  lemma {:induction false} CountsAddUp(entries: seq<Entry>, totals: seq<Total>)
    requires StrictlySorted(totals) && KeysOf(entries) <= TotalKeys(totals)
    ensures SumOfCounts(entries, totals) == |entries|
  {
    if entries == [] {
      NoCounts(totals);
    } else {
      var n := |entries| - 1;
      assert entries[..n + 1] == entries;
      KeysSnoc(entries, n);
      CountsAddUp(entries[..n], totals);
      OneMore(entries, totals);
    }
  }

  function SumOfCounts(entries: seq<Entry>, totals: seq<Total>): nat {
    if totals == [] then 0
    else SumOfCounts(entries, totals[..|totals| - 1]) + CountFor(entries, totals[|totals| - 1].key)
  }

  lemma {:induction false} NoCounts(totals: seq<Total>)
    ensures SumOfCounts([], totals) == 0
  {
    if totals != [] { NoCounts(totals[..|totals| - 1]); }
  }

  lemma {:induction false} OneMore(entries: seq<Entry>, totals: seq<Total>)
    requires entries != [] && StrictlySorted(totals)
    ensures SumOfCounts(entries, totals) == SumOfCounts(entries[..|entries| - 1], totals)
                                           + if entries[|entries| - 1].key in TotalKeys(totals) then 1 else 0
  {
    if totals != [] {
      var n := |totals| - 1;
      OneMore(entries, totals[..n]);
      TotalKeysSnoc(totals, n);
      assert totals[..n + 1] == totals;
      LastKeyNew(totals);
    }
  }

  lemma {:induction false} CountSumOfGroupBy(entries: seq<Entry>, totals: seq<Total>)
    requires forall i :: 0 <= i < |totals| ==> totals[i].totalTrades == CountFor(entries, totals[i].key)
    ensures CountSum(totals) == SumOfCounts(entries, totals)
  {
    if totals != [] { CountSumOfGroupBy(entries, totals[..|totals| - 1]); }
  }

  /** The sorted group-by is unique, so a full page is accepted with one list of totals only. */
  lemma {:induction false} GroupByUnique(entries: seq<Entry>, a: seq<Total>, b: seq<Total>)
    requires IsGroupBy(entries, a) && IsGroupBy(entries, b)
    ensures a == b
  {
    KeysCounted(a);
    KeysCounted(b);
    SortedUnique(a, b);
    forall i | 0 <= i < |a| ensures a[i] == b[i] {}
  }

  lemma {:induction false} SortedUnique(a: seq<Total>, b: seq<Total>)
    requires StrictlySorted(a) && StrictlySorted(b) && TotalKeys(a) == TotalKeys(b) && |a| == |b|
    ensures forall i :: 0 <= i < |a| ==> a[i].key == b[i].key
  {
    if a != [] {
      var n := |a| - 1;
      LastIsGreatest(a, b);
      LastIsGreatest(b, a);
      LastKeyNew(a);
      LastKeyNew(b);
      TotalKeysSnoc(a, n);
      TotalKeysSnoc(b, n);
      assert a[..n + 1] == a && b[..n + 1] == b;
      assert TotalKeys(a[..n]) == TotalKeys(a) - {a[n].key} == TotalKeys(b) - {b[n].key} == TotalKeys(b[..n]);
      SortedUnique(a[..n], b[..n]);
      forall i | 0 <= i < |a| ensures a[i].key == b[i].key {
        if i < n { assert a[i] == a[..n][i] && b[i] == b[..n][i]; }
      }
    }
  }

  lemma LastIsGreatest(a: seq<Total>, b: seq<Total>)
    requires StrictlySorted(a) && TotalKeys(a) == TotalKeys(b) && a != [] && b != []
    ensures b[|b| - 1].key == a[|a| - 1].key || Before(b[|b| - 1].key, a[|a| - 1].key)
  {
    assert b[|b| - 1] in b;
    assert b[|b| - 1].key in TotalKeys(a);
    var t :| t in a && t.key == b[|b| - 1].key;
    var i :| 0 <= i < |a| && a[i] == t;
  }

  // ---------------------------------------------------------------- acceptance

  /** Sorted distinct totals that add up to the given count, cover every group of the entries and dominate
      their counts. */
  predicate Dominates(count: nat, entries: seq<Entry>, totals: seq<Total>) {
    && StrictlySorted(totals)
    && KeysOf(entries) <= TotalKeys(totals)
    && (forall i :: 0 <= i < |totals| ==> CountFor(entries, totals[i].key) <= totals[i].totalTrades)
    && CountSum(totals) == count
  }

  /** The totals checks that follow the loops: domination, and on a full page equality with the group-by. */
  method CheckAgainst(count: nat, entries: seq<Entry>, totals: seq<Total>, expected: map<Key, Expected>, full: bool)
    returns (ok: bool)
    requires Collected(entries, expected) && count <= MAX_SAFE
    ensures ok <==> Dominates(count, entries, totals) && (full ==> IsGroupBy(entries, totals))
  {
    var dominated, sum, seen := CheckTotals(totals, entries, expected);
    if !dominated { return false; }
    if sum != count || !(expected.Keys <= seen) { return false; }
    if full {
      ok := MatchesExpected(entries, totals, expected);
      return;
    }
    ok := true;
  }

  method MatchesExpected(entries: seq<Entry>, totals: seq<Total>, expected: map<Key, Expected>) returns (ok: bool)
    requires Collected(entries, expected) && StrictlySorted(totals) && KeysOf(entries) <= TotalKeys(totals)
    ensures ok <==> IsGroupBy(entries, totals)
  {
    KeysCounted(totals);
    if |totals| != |expected| {
      assert |expected| == |expected.Keys|;
      return false;
    }
    for n := 0 to |totals|
      invariant forall i :: 0 <= i < n ==>
                  && totals[i].key in expected
                  && expected[totals[i].key] == Expected(totals[i].totalTrades, totals[i].amount)
    {
      var total := totals[n];
      if total.key !in expected {
        assert total in totals && total.key in TotalKeys(totals);
        return false;
      }
      if total.totalTrades != expected[total.key].totalTrades || total.amount != expected[total.key].amount { return false; }
    }
    assert TotalKeys(totals) == KeysOf(entries);
    ok := true;
  }

  /** The counts of a group-by add up to the entries, so the sum check follows from it. */
  lemma GroupByDominates(entries: seq<Entry>, totals: seq<Total>)
    requires IsGroupBy(entries, totals)
    ensures Dominates(|entries|, entries, totals)
  {
    CountSumOfGroupBy(entries, totals);
    CountsAddUp(entries, totals);
  }

  /** Each group of the entries has a total between its count and the sum of all. */
  lemma GroupWithinTotals(count: nat, entries: seq<Entry>, totals: seq<Total>, key: Key)
    requires Dominates(count, entries, totals) && key in KeysOf(entries)
    ensures exists i :: 0 <= i < |totals| && totals[i].key == key
                        && CountFor(entries, key) <= totals[i].totalTrades <= count
  {
    assert key in TotalKeys(totals);
    var t :| t in totals && t.key == key;
    var i :| 0 <= i < |totals| && totals[i] == t;
    CountSumGrows(totals, i + 1);
    assert totals[..i + 1][..i] == totals[..i];
  }
}
