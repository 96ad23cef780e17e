/** getChains: the union of the routing-table cells under every derived key,
    kept in first-seen order without duplicates, filtered by a predicate and
    stably sorted by ascending order. */
module Chains {
  import opened ChainingKeys

  /** A Table<String, String, Set<T>>: row identifier, column product code,
      and in each cell the registered entries in their iteration order. */
  type Table<T> = map<string, map<string, seq<T>>>

  /** table.get(identifier, productCode), with an absent cell read as empty. */
  function Lookup<T>(table: Table<T>, key: ChainingKey): (r: seq<T>)
    ensures r != [] ==> key.identifier in table && key.productCode in table[key.identifier]
  {
    if key.identifier in table && key.productCode in table[key.identifier]
    then table[key.identifier][key.productCode]
    else []
  }

  predicate NoDuplicates<T(==)>(s: seq<T>) {
    forall i, j :: 0 <= i < j < |s| ==> s[i] != s[j]
  }

  /** The entry `x` sits in the cell of some key of `keyOrder`. */
  predicate InSomeCell<T(==, !new)>(table: Table<T>, keyOrder: seq<ChainingKey>, x: T) {
    exists k :: k in keyOrder && x in Lookup(table, k)
  }

  predicate Sorted<T>(s: seq<T>, order: T -> int) {
    forall i, j :: 0 <= i < j < |s| ==> order(s[i]) <= order(s[j])
  }

  /** No two entries of `s` share an order value. */
  predicate NoTies<T>(s: seq<T>, order: T -> int) {
    forall i, j :: 0 <= i < j < |s| ==> order(s[i]) != order(s[j])
  }

  /** `x` occurs before `y` in `s`. */
  predicate Precedes<T(==)>(s: seq<T>, x: T, y: T) {
    exists i, j :: 0 <= i < j < |s| && s[i] == x && s[j] == y
  }

  /** The cells of the visited keys, one after another. */
  function Cells<T>(table: Table<T>, keyOrder: seq<ChainingKey>): seq<T> {
    if keyOrder == [] then []
    else Cells(table, keyOrder[..|keyOrder| - 1]) + Lookup(table, keyOrder[|keyOrder| - 1])
  }

  /** The first occurrence of each element of `s`, in the order of `s`. */
  function FirstOccurrences<T(==, !new)>(s: seq<T>): (r: seq<T>)
    ensures forall x :: x in r <==> x in s
    ensures NoDuplicates(r)
  {
    if s == [] then []
    else
      var init := FirstOccurrences(s[..|s| - 1]);
      var last := s[|s| - 1];
      assert s == s[..|s| - 1] + [last];
      if last in init then init else init + [last]
  }

  /** The first occurrences of `s + [x]`, one step at a time. */
  lemma FirstOccurrencesSnoc<T(!new)>(s: seq<T>, x: T)
    ensures FirstOccurrences(s + [x]) ==
            if x in s then FirstOccurrences(s) else FirstOccurrences(s) + [x]
  {
    assert (s + [x])[..|s|] == s;
  }

  /** A duplicate-free sequence is its own first occurrences. */
  lemma {:induction false} FirstOccurrencesOfDistinct<T(!new)>(s: seq<T>)
    ensures NoDuplicates(s) ==> FirstOccurrences(s) == s
  {
    if s != [] && NoDuplicates(s) {
      var init := s[..|s| - 1];
      FirstOccurrencesOfDistinct(init);
      assert s == init + [s[|s| - 1]];
      FirstOccurrencesSnoc(init, s[|s| - 1]);
    }
  }

  /** A repeated element adds nothing to the first occurrences. */
  lemma {:induction false} FirstOccurrencesSkipRepeat<T(!new)>(s: seq<T>, x: T, t: seq<T>)
    requires x in s
    ensures FirstOccurrences(s + [x] + t) == FirstOccurrences(s + t)
    decreases |t|
  {
    if t == [] {
      assert s + [x] + t == s + [x] && s + t == s;
      FirstOccurrencesSnoc(s, x);
    } else {
      var t' := t[..|t| - 1];
      var z := t[|t| - 1];
      FirstOccurrencesSkipRepeat(s, x, t');
      assert s + [x] + t == (s + [x] + t') + [z];
      assert s + t == (s + t') + [z];
      FirstOccurrencesSnoc(s + [x] + t', z);
      FirstOccurrencesSnoc(s + t', z);
    }
  }

  /** Taking first occurrences of a prefix first changes nothing. */
  lemma {:induction false} FirstOccurrencesOfPrefix<T(!new)>(a: seq<T>, b: seq<T>)
    ensures FirstOccurrences(FirstOccurrences(a) + b) == FirstOccurrences(a + b)
    decreases |b|
  {
    var fa := FirstOccurrences(a);
    if b == [] {
      assert fa + b == fa && a + b == a;
      FirstOccurrencesOfDistinct(fa);
    } else {
      var b' := b[..|b| - 1];
      var z := b[|b| - 1];
      FirstOccurrencesOfPrefix(a, b');
      assert fa + b == (fa + b') + [z];
      assert a + b == (a + b') + [z];
      FirstOccurrencesSnoc(fa + b', z);
      FirstOccurrencesSnoc(a + b', z);
    }
  }

  /** The first occurrences of a prefix begin those of the whole. */
  lemma {:induction false} FirstOccurrencesGrow<T(!new)>(a: seq<T>, b: seq<T>)
    ensures FirstOccurrences(a) <= FirstOccurrences(a + b)
    decreases |b|
  {
    if b == [] {
      assert a + b == a;
    } else {
      var b' := b[..|b| - 1];
      FirstOccurrencesGrow(a, b');
      assert a + b == (a + b') + [b[|b| - 1]];
      FirstOccurrencesSnoc(a + b', b[|b| - 1]);
    }
  }

  /** LinkedHashSet.addAll: appends, in order, each value not present yet;
      on a linked set (no duplicates) the result is the first occurrences of
      the set followed by the values. */
  function AddAll<T(==, !new)>(acc: seq<T>, values: seq<T>): (r: seq<T>)
    ensures acc <= r
    ensures forall x :: x in r <==> x in acc || x in values
    ensures NoDuplicates(acc) ==> NoDuplicates(r) && r == FirstOccurrences(acc + values)
    decreases |values|
  {
    if values == [] then
      assert acc + values == acc;
      FirstOccurrencesOfDistinct(acc);
      acc
    else
      var first := values[0];
      assert acc + values == acc + [first] + values[1..];
      if first in acc then
        FirstOccurrencesSkipRepeat(acc, first, values[1..]);
        AddAll(acc, values[1..])
      else
        AddAll(acc + [first], values[1..])
  }

  /** addAll of a concatenation is addAll of its parts in turn. */
  lemma {:induction false} AddAllAppend<T(!new)>(acc: seq<T>, a: seq<T>, b: seq<T>)
    ensures AddAll(acc, a + b) == AddAll(AddAll(acc, a), b)
    decreases |a|
  {
    if a == [] {
      assert a + b == b;
    } else {
      assert (a + b)[0] == a[0] && (a + b)[1..] == a[1..] + b;
      AddAllAppend(if a[0] in acc then acc else acc + [a[0]], a[1..], b);
    }
  }

  /** addAll of one value adds it exactly when it is not present yet. */
  lemma AddAllOne<T(!new)>(acc: seq<T>, x: T)
    ensures AddAll(acc, [x]) == if x in acc then acc else acc + [x]
  {
    assert [x][1..] == [];
  }

  /** The linked set getChains has built after visiting the keys of
      `keyOrder`: the visited cells, one after another, with each entry kept
      where it is first seen. */
  function UnionOf<T(==, !new)>(table: Table<T>, keyOrder: seq<ChainingKey>): (r: seq<T>)
    ensures NoDuplicates(r)
    ensures forall x :: x in r <==> InSomeCell(table, keyOrder, x)
    ensures r == FirstOccurrences(Cells(table, keyOrder))
  {
    if keyOrder == [] then []
    else
      var prior := keyOrder[..|keyOrder| - 1];
      var last := keyOrder[|keyOrder| - 1];
      var r := AddAll(UnionOf(table, prior), Lookup(table, last));
      assert forall x :: x in r <==> InSomeCell(table, keyOrder, x) by {
        assert forall k :: k in keyOrder <==> k in prior || k == last;
      }
      FirstOccurrencesOfPrefix(Cells(table, prior), Lookup(table, last));
      r
  }

  /** An entry seen before the first sighting of another comes before it
      among the first occurrences. */
  lemma FirstOccurrencesPrecedes<T(!new)>(s: seq<T>, n: nat, x: T, y: T)
    requires n <= |s| && x in s[..n] && y in s && y !in s[..n]
    ensures Precedes(FirstOccurrences(s), x, y)
  {
    assert s[..n] + s[n..] == s;
    FirstOccurrencesGrow(s[..n], s[n..]);
    var head := FirstOccurrences(s[..n]);
    var all := FirstOccurrences(s);
    var i :| 0 <= i < |head| && head[i] == x;
    var j :| 0 <= j < |all| && all[j] == y;
    assert all[i] == x;
  }

  /** stream().filter(filtering) */
  function Keep<T(==, !new)>(s: seq<T>, filtering: T -> bool): (r: seq<T>)
    ensures forall x :: x in r <==> x in s && filtering(x)
    ensures NoDuplicates(s) ==> NoDuplicates(r)
  {
    if s == [] then []
    else
      var rest := Keep(s[1..], filtering);
      assert NoDuplicates(s) ==> s[0] !in s[1..];
      (if filtering(s[0]) then [s[0]] else []) + rest
  }

  /** The stream filter over a concatenation is the filter over each part. */
  lemma {:induction false} KeepAppend<T(!new)>(a: seq<T>, b: seq<T>, filtering: T -> bool)
    ensures Keep(a + b, filtering) == Keep(a, filtering) + Keep(b, filtering)
  {
    if a == [] {
      assert a + b == b;
    } else {
      assert (a + b)[0] == a[0] && (a + b)[1..] == a[1..] + b;
      KeepAppend(a[1..], b, filtering);
    }
  }

  /** The stream filter over one entry keeps it exactly when it passes. */
  lemma KeepOne<T(!new)>(x: T, filtering: T -> bool)
    ensures Keep([x], filtering) == if filtering(x) then [x] else []
  {
    assert [x][1..] == [];
  }

  /** The filter keeps the encounter order: of two entries it keeps, one
      comes before the other in the result exactly when it does in the
      input. */
  lemma KeepKeepsOrder<T(!new)>(s: seq<T>, filtering: T -> bool, x: T, y: T)
    requires filtering(x) && filtering(y)
    ensures Precedes(Keep(s, filtering), x, y) <==> Precedes(s, x, y)
  {
    if Precedes(s, x, y) {
      KeepPreservesPrecedes(s, filtering, x, y);
    }
    if Precedes(Keep(s, filtering), x, y) {
      KeptPrecedes(s, filtering, x, y);
    }
  }

  /** An order between kept entries survives the filter. */
  lemma {:induction false} KeepPreservesPrecedes<T(!new)>(s: seq<T>, filtering: T -> bool, x: T, y: T)
    requires Precedes(s, x, y) && filtering(x) && filtering(y)
    ensures Precedes(Keep(s, filtering), x, y)
  {
    var i, j :| 0 <= i < j < |s| && s[i] == x && s[j] == y;
    var rest := Keep(s[1..], filtering);
    var head := if filtering(s[0]) then [s[0]] else [];
    assert Keep(s, filtering) == head + rest;
    if i == 0 {
      assert s[1..][j - 1] == y;
      var j' :| 0 <= j' < |rest| && rest[j'] == y;
      assert Keep(s, filtering)[0] == x && Keep(s, filtering)[j' + 1] == y;
    } else {
      assert s[1..][i - 1] == x && s[1..][j - 1] == y;
      KeepPreservesPrecedes(s[1..], filtering, x, y);
      var i', j' :| 0 <= i' < j' < |rest| && rest[i'] == x && rest[j'] == y;
      assert Keep(s, filtering)[|head| + i'] == x && Keep(s, filtering)[|head| + j'] == y;
    }
  }

  /** An order in the filtered sequence was already there before it. */
  lemma {:induction false} KeptPrecedes<T(!new)>(s: seq<T>, filtering: T -> bool, x: T, y: T)
    requires Precedes(Keep(s, filtering), x, y)
    ensures Precedes(s, x, y)
  {
    if s != [] {
      var k := Keep(s, filtering);
      var rest := Keep(s[1..], filtering);
      var head := if filtering(s[0]) then [s[0]] else [];
      assert k == head + rest;
      var i, j :| 0 <= i < j < |k| && k[i] == x && k[j] == y;
      if i < |head| {
        assert rest[j - |head|] == y;
        assert y in rest;
        var j' :| 0 <= j' < |s[1..]| && s[1..][j'] == y;
        assert s[0] == x && s[j' + 1] == y;
      } else {
        assert rest[i - |head|] == x && rest[j - |head|] == y;
        KeptPrecedes(s[1..], filtering, x, y);
        var i', j' :| 0 <= i' < j' < |s[1..]| && s[1..][i'] == x && s[1..][j'] == y;
        assert s[i' + 1] == x && s[j' + 1] == y;
      }
    }
  }

  /** Inserts `x` before the first element whose order is not below its own. */
  function Insert<T(==, !new)>(x: T, s: seq<T>, order: T -> int): (r: seq<T>)
    ensures multiset(r) == multiset(s) + multiset{x}
    ensures forall y :: y in r <==> y == x || y in s
  {
    if s == [] || order(x) <= order(s[0]) then [x] + s
    else
      assert s == [s[0]] + s[1..];
      [s[0]] + Insert(x, s[1..], order)
  }

  /** Inserting into a sorted sequence keeps it sorted. */
  lemma {:induction false} InsertSorted<T(!new)>(x: T, s: seq<T>, order: T -> int)
    requires Sorted(s, order)
    ensures Sorted(Insert(x, s, order), order)
  {
    if s != [] && order(x) > order(s[0]) {
      InsertSorted(x, s[1..], order);
      var tail := Insert(x, s[1..], order);
      forall y | y in tail ensures order(s[0]) <= order(y) {
        if y != x {
          var k :| 0 <= k < |s[1..]| && s[1..][k] == y;
          assert s[k + 1] == y;
        }
      }
      var r := Insert(x, s, order);
      assert r == [s[0]] + tail;
      forall i, j | 0 <= i < j < |r| ensures order(r[i]) <= order(r[j]) {
        if i == 0 {
          assert r[j] == tail[j - 1];
          assert r[j] in tail;
        } else {
          assert r[i] == tail[i - 1] && r[j] == tail[j - 1];
        }
      }
    }
  }

  /** Inserting an element not present into a duplicate-free sequence keeps it
      duplicate-free. */
  lemma {:induction false} InsertNoDuplicates<T(!new)>(x: T, s: seq<T>, order: T -> int)
    requires NoDuplicates(s) && x !in s
    ensures NoDuplicates(Insert(x, s, order))
  {
    if s != [] && order(x) > order(s[0]) {
      assert s == [s[0]] + s[1..];
      InsertNoDuplicates(x, s[1..], order);
      var tail := Insert(x, s[1..], order);
      assert s[0] !in tail;
      var r := Insert(x, s, order);
      assert r == [s[0]] + tail;
      forall i, j | 0 <= i < j < |r| ensures r[i] != r[j] {
        if i == 0 {
          assert r[j] == tail[j - 1];
        } else {
          assert r[i] == tail[i - 1] && r[j] == tail[j - 1];
        }
      }
    }
  }

  /** sorted(Comparator.comparing(order)): a stable sort (insertion sort from
      the back, so that of two equal elements the earlier one ends up first). */
  function SortByOrder<T(==, !new)>(s: seq<T>, order: T -> int): (r: seq<T>)
    ensures multiset(r) == multiset(s)
    ensures forall y :: y in r <==> y in s
  {
    if s == [] then []
    else
      assert s == [s[0]] + s[1..];
      Insert(s[0], SortByOrder(s[1..], order), order)
  }

  /** The sort yields a sorted sequence, and keeps a duplicate-free one so. */
  lemma {:induction false} SortSortsAndKeepsDistinct<T(!new)>(s: seq<T>, order: T -> int)
    ensures Sorted(SortByOrder(s, order), order)
    ensures NoDuplicates(s) ==> NoDuplicates(SortByOrder(s, order))
  {
    if s != [] {
      SortSortsAndKeepsDistinct(s[1..], order);
      InsertSorted(s[0], SortByOrder(s[1..], order), order);
      if NoDuplicates(s) {
        assert s[0] !in s[1..] by { assert s == [s[0]] + s[1..]; }
        InsertNoDuplicates(s[0], SortByOrder(s[1..], order), order);
      }
    }
  }

  /** The subsequence of `s` whose order is `v`. */
  function WithOrder<T>(s: seq<T>, order: T -> int, v: int): seq<T> {
    if s == [] then []
    else (if order(s[0]) == v then [s[0]] else []) + WithOrder(s[1..], order, v)
  }

  /** getChains' result for the keys visited in `keyOrder`: each entry of
      the visited cells that passes the filter, once, in ascending order. */
  function Chains<T(==, !new)>(table: Table<T>, keyOrder: seq<ChainingKey>,
                         filtering: T -> bool, comparing: T -> int): (r: seq<T>)
    ensures NoDuplicates(r) && Sorted(r, comparing)
    ensures forall x :: x in r <==> InSomeCell(table, keyOrder, x) && filtering(x)
  {
    var kept := Keep(UnionOf(table, keyOrder), filtering);
    SortSortsAndKeepsDistinct(kept, comparing);
    SortByOrder(kept, comparing)
  }

  /** WithOrder over a sequence with a known first element. */
  lemma WithOrderCons<T>(y: T, t: seq<T>, order: T -> int, v: int)
    ensures WithOrder([y] + t, order, v) == (if order(y) == v then [y] else []) + WithOrder(t, order, v)
  {
    assert ([y] + t)[1..] == t;
  }

  /** Placing `x` after a first element of lower order moves no element of
      order `v` relative to another. */
  lemma InsertAfterHead<T>(x: T, s: seq<T>, tail: seq<T>, order: T -> int, v: int)
    requires s != [] && order(x) > order(s[0])
    requires WithOrder(tail, order, v) == (if order(x) == v then [x] else []) + WithOrder(s[1..], order, v)
    ensures WithOrder([s[0]] + tail, order, v) == (if order(x) == v then [x] else []) + WithOrder(s, order, v)
  {
    WithOrderCons(s[0], tail, order, v);
    assert s == [s[0]] + s[1..];
    WithOrderCons(s[0], s[1..], order, v);
  }

  /** Inserting keeps every other element of the same order where it was. */
  lemma {:induction false} InsertWithOrder<T(!new)>(x: T, s: seq<T>, order: T -> int, v: int)
    ensures WithOrder(Insert(x, s, order), order, v) ==
            (if order(x) == v then [x] else []) + WithOrder(s, order, v)
  {
    if s == [] || order(x) <= order(s[0]) {
      WithOrderCons(x, s, order, v);
    } else {
      InsertWithOrder(x, s[1..], order, v);
      InsertAfterHead(x, s, Insert(x, s[1..], order), order, v);
    }
  }

  /** The sort is stable: the elements of each order value keep their
      relative positions. */
  lemma {:induction false} SortIsStable<T(!new)>(s: seq<T>, order: T -> int, v: int)
    ensures WithOrder(SortByOrder(s, order), order, v) == WithOrder(s, order, v)
  {
    if s != [] {
      SortIsStable(s[1..], order, v);
      InsertWithOrder(s[0], SortByOrder(s[1..], order), order, v);
    }
  }

  /** A non-empty sequence holds its first element. */
  lemma FirstIsMember<T>(s: seq<T>)
    ensures s != [] ==> s[0] in s
  {
  }

  /** Two sequences sorted with no ties and holding the same elements are equal. */
  lemma {:induction false} StrictlySortedUnique<T(!new)>(a: seq<T>, b: seq<T>, order: T -> int)
    requires Sorted(a, order) && NoTies(a, order)
    requires Sorted(b, order) && NoTies(b, order)
    requires forall x :: x in a <==> x in b
    ensures a == b
  {
    if a == [] {
      FirstIsMember(b);
    } else {
      assert a[0] in a && a[0] in b;
      assert b[0] in b && b[0] in a;
      var i :| 0 <= i < |a| && a[i] == b[0];
      var j :| 0 <= j < |b| && b[j] == a[0];
      assert order(a[0]) <= order(b[0]) <= order(a[0]);
      assert i == 0;
      forall x ensures x in a[1..] <==> x in b[1..] {
        if x in a[1..] {
          var k :| 0 <= k < |a[1..]| && a[1..][k] == x;
          assert order(a[0]) < order(a[k + 1]);
          assert x in b && x != b[0];
          var m :| 0 <= m < |b| && b[m] == x;
          assert b[1..][m - 1] == x;
        }
        if x in b[1..] {
          var k :| 0 <= k < |b[1..]| && b[1..][k] == x;
          assert order(b[0]) < order(b[k + 1]);
          assert x in a && x != a[0];
          var m :| 0 <= m < |a| && a[m] == x;
          assert a[1..][m - 1] == x;
        }
      }
      StrictlySortedUnique(a[1..], b[1..], order);
      assert a == [a[0]] + a[1..] && b == [b[0]] + b[1..];
    }
  }

  /** What getChains returns: every entry found under some visited key that
      passes the filter, once each, sorted by ascending order, with entries of
      equal order in the order of the linked union. */
  lemma ChainsSpec<T(!new)>(table: Table<T>, keyOrder: seq<ChainingKey>,
                          filtering: T -> bool, comparing: T -> int)
    ensures var r := Chains(table, keyOrder, filtering, comparing);
      && NoDuplicates(r)
      && (forall x :: x in r <==> InSomeCell(table, keyOrder, x) && filtering(x))
      && Sorted(r, comparing)
      && forall v :: WithOrder(r, comparing, v) == WithOrder(Keep(UnionOf(table, keyOrder), filtering), comparing, v)
  {
    var kept := Keep(UnionOf(table, keyOrder), filtering);
    SortSortsAndKeepsDistinct(kept, comparing);
    forall v ensures WithOrder(SortByOrder(kept, comparing), comparing, v) == WithOrder(kept, comparing, v) {
      SortIsStable(kept, comparing, v);
    }
  }

  /** Selecting one order value is a filter. */
  lemma {:induction false} WithOrderIsKeep<T(!new)>(s: seq<T>, order: T -> int, v: int, same: T -> bool)
    requires forall y :: same(y) == (order(y) == v)
    ensures WithOrder(s, order, v) == Keep(s, same)
  {
    if s != [] {
      WithOrderIsKeep(s[1..], order, v, same);
    }
  }

  /** Entries of equal order come out of getChains in the order the union
      first saw them: `x` precedes `y` when `x` appears in the visited cells
      before the first appearance of `y`, in an earlier key's cell or earlier
      in the same cell. */
  lemma TiesFollowFirstSeen<T(!new)>(table: Table<T>, keyOrder: seq<ChainingKey>,
                                     filtering: T -> bool, comparing: T -> int, n: nat, x: T, y: T)
    requires n <= |Cells(table, keyOrder)|
    requires x in Cells(table, keyOrder)[..n] && y in Cells(table, keyOrder) && y !in Cells(table, keyOrder)[..n]
    requires filtering(x) && filtering(y) && comparing(x) == comparing(y)
    ensures Precedes(Chains(table, keyOrder, filtering, comparing), x, y)
  {
    var union := UnionOf(table, keyOrder);
    FirstOccurrencesPrecedes(Cells(table, keyOrder), n, x, y);
    var kept := Keep(union, filtering);
    KeepPreservesPrecedes(union, filtering, x, y);
    var v := comparing(x);
    var same := (z: T) => comparing(z) == v;
    WithOrderIsKeep(kept, comparing, v, same);
    KeepPreservesPrecedes(kept, same, x, y);
    var r := Chains(table, keyOrder, filtering, comparing);
    SortIsStable(kept, comparing, v);
    WithOrderIsKeep(r, comparing, v, same);
    KeptPrecedes(r, same, x, y);
  }

  /** Two visiting orders of the same keys reach the same cells. */
  lemma SameKeysSameCells<T(!new)>(table: Table<T>, ko1: seq<ChainingKey>, ko2: seq<ChainingKey>, x: T)
    requires forall k :: k in ko1 <==> k in ko2
    ensures InSomeCell(table, ko1, x) <==> InSomeCell(table, ko2, x)
  {
    if InSomeCell(table, ko1, x) {
      var k :| k in ko1 && x in Lookup(table, k);
      assert k in ko2;
    }
    if InSomeCell(table, ko2, x) {
      var k :| k in ko2 && x in Lookup(table, k);
      assert k in ko1;
    }
  }

  /** A duplicate-free sequence holding the elements of a tie-free one is tie-free. */
  lemma NoTiesCarryOver<T(!new)>(a: seq<T>, b: seq<T>, order: T -> int)
    requires NoTies(a, order) && NoDuplicates(b)
    requires forall x :: x in b ==> x in a
    ensures NoTies(b, order)
  {
    forall i, j | 0 <= i < j < |b| ensures order(b[i]) != order(b[j]) {
      assert b[i] in a && b[j] in a;
      var i' :| 0 <= i' < |a| && a[i'] == b[i];
      var j' :| 0 <= j' < |a| && a[j'] == b[j];
      if i' < j' {
        assert order(a[i']) != order(a[j']);
      } else if j' < i' {
        assert order(a[j']) != order(a[i']);
      }
    }
  }

  /** The order in which the keys are visited changes only the position of
      entries whose order values tie: the same entries come out, and when no
      two of them tie, the very same chain. */
  lemma ChainsIndependentOfKeyOrder<T(!new)>(table: Table<T>, ko1: seq<ChainingKey>, ko2: seq<ChainingKey>,
                                           filtering: T -> bool, comparing: T -> int)
    requires forall k :: k in ko1 <==> k in ko2
    ensures forall x :: x in Chains(table, ko1, filtering, comparing) <==> x in Chains(table, ko2, filtering, comparing)
    ensures NoTies(Chains(table, ko1, filtering, comparing), comparing) ==>
            Chains(table, ko1, filtering, comparing) == Chains(table, ko2, filtering, comparing)
  {
    var r1 := Chains(table, ko1, filtering, comparing);
    var r2 := Chains(table, ko2, filtering, comparing);
    ChainsSpec(table, ko1, filtering, comparing);
    ChainsSpec(table, ko2, filtering, comparing);
    forall x ensures x in r1 <==> x in r2 {
      SameKeysSameCells(table, ko1, ko2, x);
    }
    if NoTies(r1, comparing) {
      NoTiesCarryOver(r1, r2, comparing);
      StrictlySortedUnique(r1, r2, comparing);
    }
  }

  /** Two visited keys whose cells hold one entry each. */
  lemma TwoCellsUnion<T(!new)>(table: Table<T>, k1: ChainingKey, k2: ChainingKey, x: T, y: T)
    requires Lookup(table, k1) == [x] && Lookup(table, k2) == [y] && x != y
    ensures UnionOf(table, [k1, k2]) == [x, y]
  {
    assert [k1, k2][..1] == [k1] && [k1][..0] == [];
    assert Cells(table, [k1]) == [x];
    assert Cells(table, [k1, k2]) == [x, y];
    FirstOccurrencesOfDistinct([x, y]);
  }

  /** Two keys whose cells hold one entry each, of equal order: the chain
      lists them in the order the keys are visited. */
  lemma TwoCellsChain<T(!new)>(table: Table<T>, k1: ChainingKey, k2: ChainingKey, x: T, y: T,
                               filtering: T -> bool, comparing: T -> int)
    requires Lookup(table, k1) == [x] && Lookup(table, k2) == [y] && x != y
    requires filtering(x) && filtering(y) && comparing(x) == comparing(y)
    ensures Chains(table, [k1, k2], filtering, comparing) == [x, y]
  {
    TwoCellsUnion(table, k1, k2, x, y);
    KeepBoth(x, y, filtering);
    SortTiedPair(x, y, comparing);
  }

  /** Sorting two entries of equal order leaves them in place. */
  lemma SortTiedPair<T(!new)>(x: T, y: T, comparing: T -> int)
    requires comparing(x) == comparing(y)
    ensures SortByOrder([x, y], comparing) == [x, y]
  {
    assert [x, y][1..] == [y];
  }

  /** Two entries that both pass the filter are both kept, in order. */
  lemma KeepBoth<T(!new)>(x: T, y: T, filtering: T -> bool)
    requires filtering(x) && filtering(y)
    ensures Keep([x, y], filtering) == [x, y]
  {
    assert [y][1..] == [];
    assert Keep([y], filtering) == [y];
    assert [x, y][1..] == [y];
  }

  /** Entries of equal order keep the order of the union, so the key
      enumeration decides it: two entries under two keys swap places when
      the keys are visited the other way round. */
  lemma TiesFollowKeyOrder<T(!new)>(k1: ChainingKey, k2: ChainingKey, x: T, y: T,
                                    filtering: T -> bool, comparing: T -> int)
    requires k1.identifier != k2.identifier && x != y
    requires filtering(x) && filtering(y) && comparing(x) == comparing(y)
    ensures var table := map[k1.identifier := map[k1.productCode := [x]], k2.identifier := map[k2.productCode := [y]]];
      && Chains(table, [k1, k2], filtering, comparing) == [x, y]
      && Chains(table, [k2, k1], filtering, comparing) == [y, x]
  {
    var table := map[k1.identifier := map[k1.productCode := [x]], k2.identifier := map[k2.productCode := [y]]];
    assert Lookup(table, k1) == [x] && Lookup(table, k2) == [y];
    TwoCellsChain(table, k1, k2, x, y, filtering, comparing);
    TwoCellsChain(table, k2, k1, y, x, filtering, comparing);
  }

  /** getChains: visits the keys in `keyOrder` (the key set's iteration order),
      adds every non-empty cell to a linked set, then filters and sorts. */
  method GetChains<T(==, !new)>(table: Table<T>, keyOrder: seq<ChainingKey>,
                          filtering: T -> bool, comparing: T -> int) returns (r: seq<T>)
    ensures r == Chains(table, keyOrder, filtering, comparing)
    ensures NoDuplicates(r) && Sorted(r, comparing)
    ensures forall x :: x in r <==> InSomeCell(table, keyOrder, x) && filtering(x)
  {
    var linked: seq<T> := [];
    var i := 0;
    while i < |keyOrder|
      invariant 0 <= i <= |keyOrder|
      invariant linked == UnionOf(table, keyOrder[..i])
    {
      var values := Lookup(table, keyOrder[i]);
      if values != [] {
        linked := AddAll(linked, values);
      }
      assert keyOrder[..i + 1][..i] == keyOrder[..i];
      i := i + 1;
    }
    assert keyOrder[..i] == keyOrder;
    r := SortByOrder(Keep(linked, filtering), comparing);
    ChainsSpec(table, keyOrder, filtering, comparing);
  }
}
