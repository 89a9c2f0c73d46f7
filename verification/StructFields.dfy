/** Named struct expressions: the values come in the order written and are put into the order
    of the definition, in place. */
module StructFields {
  import opened Syntax

  predicate InRange(order: seq<int>) {
    forall i | 0 <= i < |order| :: 0 <= order[i] < |order|
  }

  predicate NoneTwice(order: seq<int>) {
    forall i, j | 0 <= i < j < |order| :: order[i] != order[j]
  }

  predicate Permutation(order: seq<int>) {
    InRange(order) && NoneTwice(order)
  }

  predicate Sorted(s: seq<int>) {
    forall i, j | 0 <= i < j < |s| :: s[i] <= s[j]
  }

  /** A set of small numbers is small. */
  lemma {:induction false} Below(s: set<int>, n: nat)
    requires forall k | k in s :: 0 <= k < n
    ensures |s| <= n
    decreases n
  {
    if n > 0 {
      Below(s - {n - 1}, n - 1);
    } else {
      assert forall k: int :: k !in s;
      assert |s| == 0 by { assert s <= {}; }
    }
  }

  predicate Hit(order: seq<int>, k: int) {
    exists i | 0 <= i < |order| :: order[i] == k
  }

  /** Injective in range means every position is hit. */
  lemma HitsAll(order: seq<int>, k: int)
    requires Permutation(order) && 0 <= k < |order|
    ensures Hit(order, k)
  {
    var hit := set i | 0 <= i < |order| :: order[i];
    HitCount(order, |order|);
    Below(hit + {k}, |order|);
    assert k in hit;
  }

  lemma {:induction false} HitCount(order: seq<int>, m: nat)
    requires NoneTwice(order) && m <= |order|
    ensures |set i | 0 <= i < m :: order[i]| == m
  {
    var hit := set i | 0 <= i < m :: order[i];
    if m > 0 {
      HitCount(order, m - 1);
      var less := set i | 0 <= i < m - 1 :: order[i];
      assert hit == less + {order[m - 1]};
      assert order[m - 1] !in less;
    }
  }

  // ----- the check -----

  lemma SortedTwice(s: seq<int>)
    requires Sorted(s)
    ensures (exists k | 0 < k < |s| :: s[k - 1] == s[k]) <==> !NoneTwice(s)
  {
    if !NoneTwice(s) {
      var i, j :| 0 <= i < j < |s| && s[i] == s[j];
      assert s[i] <= s[i + 1] <= s[j];
      assert s[(i + 1) - 1] == s[i + 1];
    }
  }

  lemma TwiceCount(s: seq<int>)
    ensures NoneTwice(s) <==> forall x :: multiset(s)[x] <= 1
  {
    if !NoneTwice(s) {
      var i, j :| 0 <= i < j < |s| && s[i] == s[j];
      assert s == s[..i] + [s[i]] + s[i + 1..j] + [s[j]] + s[j + 1..];
      assert multiset(s)[s[i]] >= 2;
    } else {
      OnceEach(s);
    }
  }

  lemma {:induction false} OnceEach(s: seq<int>)
    requires NoneTwice(s)
    ensures forall x :: multiset(s)[x] <= 1
  {
    if s != [] {
      var init, last := s[..|s| - 1], s[|s| - 1];
      assert s == init + [last];
      assert forall i | 0 <= i < |init| :: init[i] == s[i];
      OnceEach(init);
      assert last !in init;
      assert multiset(s) == multiset(init) + multiset{last};
    }
  }

  function Insert(r: seq<int>, x: int): seq<int> {
    if r == [] || r[|r| - 1] <= x then r + [x] else Insert(r[..|r| - 1], x) + [r[|r| - 1]]
  }

  lemma {:induction false} InsertSorts(r: seq<int>, x: int)
    requires Sorted(r)
    ensures Sorted(Insert(r, x)) && multiset(Insert(r, x)) == multiset(r) + multiset{x}
  {
    hide Insert, Sorted;
    if r == [] {
      InsertLast(r, x);
    } else {
      var init, last := r[..|r| - 1], r[|r| - 1];
      assert r == init + [last];
      if last <= x {
        InsertLast(r, x);
      } else {
        SortedInit(r);
        InsertSorts(init, x);
        InsertStep(r, x);
        var r1 := Insert(init, x);
        forall i | 0 <= i < |r1|
          ensures r1[i] <= last
        {
          assert r1[i] in multiset(r1);
          if r1[i] != x {
            assert r1[i] in init;
            var j :| 0 <= j < |init| && init[j] == r1[i];
            assert r[j] == init[j];
          }
        }
        SortedSnoc(r1, last);
      }
    }
  }

  lemma InsertLast(r: seq<int>, x: int)
    requires Sorted(r) && (r != [] ==> r[|r| - 1] <= x)
    ensures Insert(r, x) == r + [x] && Sorted(r + [x])
  {
  }

  lemma InsertStep(r: seq<int>, x: int)
    requires r != [] && r[|r| - 1] > x
    ensures Insert(r, x) == Insert(r[..|r| - 1], x) + [r[|r| - 1]]
  {
  }

  lemma SortedInit(r: seq<int>)
    requires Sorted(r) && r != []
    ensures Sorted(r[..|r| - 1]) && forall i | 0 <= i < |r| - 1 :: r[i] <= r[|r| - 1]
  {
  }

  lemma SortedSnoc(r: seq<int>, x: int)
    requires Sorted(r) && forall i | 0 <= i < |r| :: r[i] <= x
    ensures Sorted(r + [x])
  {
  }

  method Sort(s: seq<int>) returns (r: seq<int>)
    ensures Sorted(r) && multiset(r) == multiset(s)
  {
    r := [];
    for i := 0 to |s|
      invariant Sorted(r) && multiset(r) == multiset(s[..i])
    {
      InsertSorts(r, s[i]);
      assert s[..i + 1] == s[..i] + [s[i]];
      r := Insert(r, s[i]);
    }
    assert s[..|s|] == s;
  }

  /** Compares neighbours of the sorted copy: a field given twice is found, and nothing else. */
  method NoneTwiceInCopy(order: seq<int>, copy: seq<int>) returns (ok: bool)
    requires Sorted(copy) && multiset(copy) == multiset(order)
    ensures ok <==> NoneTwice(order)
  {
    TwiceCount(order);
    TwiceCount(copy);
    SortedTwice(copy);
    var i := 1;
    while i < |copy|
      invariant forall k | 0 < k < i && k < |copy| :: copy[k - 1] != copy[k]
    {
      if copy[i - 1] == copy[i] {
        return false;
      }
      i := i + 1;
    }
    ok := true;
  }

  // ----- the rearrangement -----

  /** Sending each value where its order says gives `result`. */
  ghost predicate Sends<V>(order: seq<int>, values: seq<V>, result: seq<V>) {
    && Permutation(order) && |values| == |order| == |result|
    && forall i | 0 <= i < |order| :: result[order[i]] == values[i]
  }

  lemma ResultExists<V>(order: seq<int>, values: seq<V>) returns (result: seq<V>)
    requires Permutation(order) && |values| == |order|
    ensures Sends(order, values, result)
  {
    forall k | 0 <= k < |order|
      ensures Hit(order, k)
    {
      HitsAll(order, k);
    }
    result := seq(|order|, k requires 0 <= k < |order| =>
      assert Hit(order, k); var i :| 0 <= i < |order| && order[i] == k; values[i]);
  }

  function Swapped<T>(s: seq<T>, i: nat, j: nat): seq<T>
    requires i < |s| && j < |s|
  {
    s[i := s[j]][j := s[i]]
  }

  /** What is sent does not depend on the order in which it is listed. */
  lemma SwapSends<V>(order: seq<int>, values: seq<V>, result: seq<V>, i: nat, j: nat)
    requires Sends(order, values, result) && i < |order| && j < |order| && i != j
    ensures Sends(Swapped(order, i, j), Swapped(values, i, j), result)
  {
  }

  function Unfixed(order: seq<int>): set<int> {
    set k | 0 <= k < |order| && order[k] != k
  }

  /** Follows the cycles: each value goes to its place, and the order becomes the identity. */
  method Rearrange<V>(order: array<int>, values: array<V>)
    requires order.Length == values.Length && Permutation(order[..])
    requires (order as object) != (values as object)
    modifies order, values
    ensures Sends(old(order[..]), old(values[..]), values[..])
    ensures forall i | 0 <= i < order.Length :: order[i] == i
  {
    ghost var result := ResultExists(order[..], values[..]);
    for i := 0 to order.Length
      invariant Sends(order[..], values[..], result)
      invariant forall k | 0 <= k < i :: order[k] == k
    {
      if i != order[i] {
        CloseCycle(order, values, i, result);
      }
    }
    forall k | 0 <= k < |result|
      ensures result[k] == values[..][k]
    {
      assert order[..][k] == k;
    }
    assert values[..] == result;
  }

  /** Goes round one cycle with the value of index i in hand.  Each step in effect swaps what
      is in hand with the entry it belongs to. */
  method CloseCycle<V>(order: array<int>, values: array<V>, i: nat, ghost result: seq<V>)
    requires order.Length == values.Length && (order as object) != (values as object) && i < order.Length
    requires Sends(order[..], values[..], result)
    modifies order, values
    ensures Sends(order[..], values[..], result)
    ensures order[i] == i && forall k | 0 <= k < order.Length && old(order[k]) == k :: order[k] == k
  {
    hide Sends;
    var tmpv := values[i];
    var tmpi := order[i];
    assert order[..][i := tmpi] == order[..] && values[..][i := tmpv] == values[..];
    while tmpi != i
      invariant Sends(order[..][i := tmpi], values[..][i := tmpv], result)
      invariant forall k | 0 <= k < order.Length && k != i && old(order[k]) == k :: order[k] == k
      decreases Unfixed(order[..][i := tmpi])
    {
      ghost var order1, values1 := order[..][i := tmpi], values[..][i := tmpv];
      SendsRange(order1, values1, result, i);
      var tmp := order[tmpi];
      order[tmpi] := tmpi;
      var tmpvi := values[tmpi];
      values[tmpi] := tmpv;
      SwapSends(order1, values1, result, i, tmpi);
      assert order[..][i := tmp] == Swapped(order1, i, tmpi) && values[..][i := tmpvi] == Swapped(values1, i, tmpi);
      FixedMore(order1, i, tmpi);
      tmpv := tmpvi;
      tmpi := tmp;
    }
    ghost var order1, values1 := order[..][i := i], values[..][i := tmpv];
    order[tmpi] := tmpi;
    values[tmpi] := tmpv;
    assert order[..] == order1 && values[..] == values1;
  }

  lemma SendsRange<V>(order: seq<int>, values: seq<V>, result: seq<V>, i: nat)
    requires Sends(order, values, result) && i < |order|
    ensures 0 <= order[i] < |order| && Permutation(order)
    ensures forall j | 0 <= j < |order| && j != i :: order[j] != order[i]
  {
  }

  lemma FixedMore(order: seq<int>, i: nat, j: nat)
    requires Permutation(order) && i < |order| && j < |order| && i != j && order[i] == j
    ensures Unfixed(Swapped(order, i, j)) < Unfixed(order)
  {
    assert order[j] != j;
    assert j in Unfixed(order) && i in Unfixed(order);
    var order1 := Swapped(order, i, j);
    assert order1[j] == j;
    assert forall k | k in Unfixed(order1) && k != i :: order1[k] == order[k];
  }

  // ----- the whole struct expression -----

  function FieldIndex(fields: seq<nat>, name: nat): (k: int)
    ensures -1 <= k < |fields| && (k == -1 <==> name !in fields) && (k >= 0 ==> fields[k] == name)
  {
    if fields == [] then -1 else if fields[0] == name then 0
    else var k := FieldIndex(fields[1..], name); if k == -1 then -1 else k + 1
  }

  datatype Item<V> = Item(name: nat, value: V)

  predicate Covers<V>(fields: seq<nat>, items: seq<Item<V>>) {
    && |items| == |fields|
    && (forall i | 0 <= i < |items| :: items[i].name in fields)
    && (forall i, j | 0 <= i < j < |items| :: FieldIndex(fields, items[i].name) != FieldIndex(fields, items[j].name))
  }

  ghost predicate GivenOnce<V>(items: seq<Item<V>>, name: nat) {
    exists i | 0 <= i < |items| :: IsOnly(items, name, i)
  }

  ghost predicate IsOnly<V>(items: seq<Item<V>>, name: nat, i: nat)
    requires i < |items|
  {
    items[i].name == name && forall j | 0 <= j < |items| && items[j].name == name :: j == i
  }

  /** In a struct whose fields have different names: as many items as fields, and for every field
      exactly one item. */
  lemma CoversIff<V>(fields: seq<nat>, items: seq<Item<V>>)
    requires forall i, j | 0 <= i < j < |fields| :: fields[i] != fields[j]
    ensures Covers(fields, items) <==>
              |items| == |fields| && forall k | 0 <= k < |fields| :: GivenOnce(items, fields[k])
  {
    if Covers(fields, items) {
      var order := seq(|items|, i requires 0 <= i < |items| => FieldIndex(fields, items[i].name));
      forall k | 0 <= k < |fields|
        ensures GivenOnce(items, fields[k])
      {
        HitsAll(order, k);
        var i :| 0 <= i < |order| && order[i] == k;
        assert IsOnly(items, fields[k], i);
      }
    }
    if |items| == |fields| && forall k | 0 <= k < |fields| :: GivenOnce(items, fields[k]) {
      OnceCovers(fields, items);
    }
  }

  lemma OnceCovers<V>(fields: seq<nat>, items: seq<Item<V>>)
    requires forall i, j | 0 <= i < j < |fields| :: fields[i] != fields[j]
    requires |items| == |fields| && forall k | 0 <= k < |fields| :: GivenOnce(items, fields[k])
    ensures Covers(fields, items)
  {
    var at: seq<int> := seq(|fields|, k requires 0 <= k < |fields| =>
      var i :| 0 <= i < |items| && IsOnly(items, fields[k], i); i);
    forall j | 0 <= j < |items|
      ensures items[j].name in fields
    {
      HitsAll(at, j);
      var k :| 0 <= k < |at| && at[k] == j;
      assert IsOnly(items, fields[k], j);
    }
    forall i, j | 0 <= i < j < |items|
      ensures FieldIndex(fields, items[i].name) != FieldIndex(fields, items[j].name)
    {
      var k :| 0 <= k < |fields| && fields[k] == items[i].name;
      OnceNotTwice(items, fields[k], i, j);
    }
  }

  lemma OnceNotTwice<V>(items: seq<Item<V>>, name: nat, i: nat, j: nat)
    requires GivenOnce(items, name) && i < j < |items|
    ensures items[i].name != name || items[j].name != name
  {
  }

  /** Accepted exactly when every field is given once; then each field has its own value. */
  method StructValues<V(0)>(fields: seq<nat>, items: seq<Item<V>>) returns (result: Option<seq<V>>)
    ensures result.Some? <==> Covers(fields, items)
    ensures result.Some? ==> |result.value| == |fields|
    ensures result.Some? ==> forall i | 0 <= i < |items| ::
            result.value[FieldIndex(fields, items[i].name)] == items[i].value
  {
    if |fields| != |items| {
      return None;
    }
    var ok, order, values := FieldOrder(fields, items);
    if !ok {
      return None;
    }
    var copy := Sort(order[..]);
    ok := NoneTwiceInCopy(order[..], copy);
    if !ok {
      return None;
    }
    ghost var order0, values0 := order[..], values[..];
    Rearrange(order, values);
    forall i | 0 <= i < |items|
      ensures values[..][FieldIndex(fields, items[i].name)] == items[i].value
    {
      assert order0[i] == FieldIndex(fields, items[i].name) && values0[i] == items[i].value;
    }
    result := Some(values[..]);
  }

  /** Looks up each named field and collects the values as they come. */
  method FieldOrder<V(0)>(fields: seq<nat>, items: seq<Item<V>>) returns (ok: bool, order: array<int>, values: array<V>)
    requires |fields| == |items|
    ensures fresh(order) && fresh(values) && order.Length == values.Length == |items| &&
            (order as object) != (values as object)
    ensures ok <==> forall i | 0 <= i < |items| :: items[i].name in fields
    ensures ok ==> forall i | 0 <= i < |items| ::
            order[i] == FieldIndex(fields, items[i].name) && values[i] == items[i].value
  {
    order, values := new int[|items|], new V[|items|];
    for i := 0 to |items|
      invariant forall k | 0 <= k < i :: items[k].name in fields
      invariant forall k | 0 <= k < i :: order[k] == FieldIndex(fields, items[k].name) && values[k] == items[k].value
    {
      var k := FieldIndex(fields, items[i].name);
      if k == -1 {
        return false, order, values;
      }
      order[i] := k;
      values[i] := items[i].value;
    }
    ok := true;
  }
}
