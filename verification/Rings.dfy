/** Pure order facts shared by every list user: the visiting order of a circular list with a
    walking index, and insertion in value order. */
module Rings {

  /** One entry of a value-ordered list: the owner of a list item and its xItemValue. */
  datatype Entry<T> = Entry(owner: T, value: nat)

  /** A circular list and its walking index. Index 0 is the end marker, index k stands on items[k - 1]. */
  datatype Ring<T(==)> = Ring(items: seq<T>, index: nat)

  ghost predicate WellIndexed<T>(r: Ring<T>) {
    r.index <= |r.items|
  }

  ghost predicate Distinct<T>(s: seq<T>) {
    forall i, j | 0 <= i < j < |s| :: s[i] != s[j]
  }

  /** The items in the order in which the walking index will reach them. */
  function Visit<T>(r: Ring<T>): seq<T>
    requires WellIndexed(r)
  {
    r.items[r.index..] + r.items[..r.index]
  }

  /** The sequence with every occurrence of x taken out, in the same order. */
  function Without<T(==)>(s: seq<T>, x: T): (r: seq<T>)
    ensures x !in r && |r| <= |s|
    ensures forall y {:trigger y in r} | y in s && y != x :: y in r
    ensures forall y {:trigger y in r} | y in r :: y in s
  {
    if s == [] then []
    else if s[0] == x then Without(s[1..], x)
    else [s[0]] + Without(s[1..], x)
  }

  /** Link x just before the index, the place vListInsertEnd uses. */
  function InsertEnd<T>(r: Ring<T>, x: T): (q: Ring<T>)
    requires WellIndexed(r)
    ensures WellIndexed(q) && |q.items| == |r.items| + 1 && x in q.items
    ensures forall y {:trigger y in q.items} | y in q.items :: y == x || y in r.items
    ensures forall y {:trigger y in q.items} | y in r.items :: y in q.items
  {
    if r.index == 0 then Ring(r.items + [x], 0)
    else
      var p := r.index - 1;
      assert r.items == r.items[..p] + r.items[p..];
      Ring(r.items[..p] + [x] + r.items[p..], r.index + 1)
  }

  /** Unlink x; an index standing on x falls back to its predecessor. */
  function Remove<T(==)>(r: Ring<T>, x: T): (q: Ring<T>)
    requires WellIndexed(r)
    ensures WellIndexed(q) && x !in q.items
    ensures forall y {:trigger y in q.items} | y in q.items :: y in r.items
    ensures forall y {:trigger y in q.items} | y in r.items && y != x :: y in q.items
  {
    assert Without(r.items, x) == Without(r.items[..r.index], x) + Without(r.items[r.index..], x) by {
      assert r.items == r.items[..r.index] + r.items[r.index..];
      WithoutAppend(r.items[..r.index], r.items[r.index..], x);
    }
    Ring(Without(r.items, x), |Without(r.items[..r.index], x)|)
  }

  /** Advance the index by one item, stepping over the end marker. */
  function Advance<T>(r: Ring<T>): (q: Ring<T>)
    requires WellIndexed(r) && r.items != []
    ensures WellIndexed(q) && q.items == r.items && q.index > 0
  {
    Ring(r.items, if r.index < |r.items| then r.index + 1 else 1)
  }

  /** The items chosen by n consecutive selections. */
  function Selected<T>(r: Ring<T>, n: nat): seq<T>
    requires WellIndexed(r) && r.items != []
    decreases n
  {
    if n == 0 then []
    else var q := Advance(r); [q.items[q.index - 1]] + Selected(q, n - 1)
  }

  /** Place e after every entry whose value is not larger: vListInsert on a value-ordered list. */
  function InsertByValue<T>(s: seq<Entry<T>>, e: Entry<T>): (r: seq<Entry<T>>)
    ensures multiset(r) == multiset(s) + multiset{e}
  {
    if s == [] || e.value < s[0].value then
      assert [e] + s == [e] + s; [e] + s
    else
      assert s == [s[0]] + s[1..];
      [s[0]] + InsertByValue(s[1..], e)
  }

  ghost predicate SortedByValue<T>(s: seq<Entry<T>>) {
    forall i, j | 0 <= i < j < |s| :: s[i].value <= s[j].value
  }

  // ---- facts about Without ----

  lemma {:induction false} WithoutAbsent<T>(s: seq<T>, x: T)
    requires x !in s
    ensures Without(s, x) == s
  {
    if s != [] {
      WithoutAbsent(s[1..], x);
    }
  }

  lemma {:induction false} WithoutAppend<T>(s: seq<T>, t: seq<T>, x: T)
    ensures Without(s + t, x) == Without(s, x) + Without(t, x)
  {
    if s == [] {
      assert s + t == t;
    } else {
      assert (s + t)[1..] == s[1..] + t;
      WithoutAppend(s[1..], t, x);
    }
  }

  lemma {:induction false} WithoutBag<T>(s: seq<T>, x: T)
    ensures multiset(Without(s, x)) == multiset(s)[x := 0]
  {
    if s != [] {
      assert s == [s[0]] + s[1..];
      WithoutBag(s[1..], x);
    }
  }

  lemma {:induction false} WithoutDistinct<T>(s: seq<T>, x: T)
    requires Distinct(s)
    ensures Distinct(Without(s, x))
    ensures |Without(s, x)| == if x in s then |s| - 1 else |s|
  {
    if s != [] {
      var t := s[1..];
      assert s[0] !in t by {
        forall j | 0 <= j < |t| ensures t[j] != s[0] {
          assert t[j] == s[j + 1];
        }
      }
      assert Distinct(t);
      WithoutDistinct(t, x);
      if s[0] == x {
        WithoutAbsent(t, x);
      } else {
        assert x in s <==> x in t;
        DistinctCons(s[0], Without(t, x));
      }
    }
  }

  lemma DistinctCons<T>(x: T, s: seq<T>)
    requires Distinct(s) && x !in s
    ensures Distinct([x] + s)
  {
  }

  lemma DistinctTail<T>(s: seq<T>)
    requires Distinct(s) && s != []
    ensures Distinct(s[1..]) && s[0] !in s[1..]
  {
  }

  lemma {:induction false} WithoutAt<T>(s: seq<T>, i: nat)
    requires Distinct(s) && i < |s|
    ensures Without(s, s[i]) == s[..i] + s[i + 1..]
  {
    DistinctTail(s);
    if i == 0 {
      WithoutAbsent(s[1..], s[0]);
    } else {
      WithoutAt(s[1..], i - 1);
      assert s[1..][i - 1] == s[i] && s[1..][..i - 1] == s[1..i] && s[1..][i..] == s[i + 1..];
    }
  }

  lemma WithoutPrefix<T>(s: seq<T>, i: nat, n: nat)
    requires Distinct(s) && i < |s| && n <= |s|
    ensures |Without(s[..n], s[i])| == if i < n then n - 1 else n
  {
    if i < n {
      assert s[..n][i] == s[i];
      WithoutAt(s[..n], i);
    } else {
      WithoutAbsent(s[..n], s[i]);
    }
  }

  /** s is t with x put in at position k. */
  ghost predicate IsSplice<T>(s: seq<T>, t: seq<T>, k: nat, x: T) {
    && k <= |t| && |s| == |t| + 1
    && forall i {:trigger s[i]} | 0 <= i < |s| :: s[i] == if i < k then t[i] else if i == k then x else t[i - 1]
  }

  /** s is t with position k taken out. */
  ghost predicate IsBypass<T>(s: seq<T>, t: seq<T>, k: nat) {
    && k < |t| && |s| == |t| - 1
    && forall i {:trigger s[i]} | 0 <= i < |s| :: s[i] == if i < k then t[i] else t[i + 1]
  }

  lemma MakeSplice<T>(t: seq<T>, k: nat, x: T) returns (s: seq<T>)
    requires Distinct(t) && k <= |t| && x !in t
    ensures IsSplice(s, t, k, x) && Distinct(s)
  {
    s := t[..k] + [x] + t[k..];
  }

  lemma MakeBypass<T>(t: seq<T>, k: nat) returns (s: seq<T>)
    requires Distinct(t) && k < |t|
    ensures IsBypass(s, t, k) && Distinct(s)
  {
    s := t[..k] + t[k + 1..];
  }

  lemma SpliceIsConcat<T>(s: seq<T>, t: seq<T>, k: nat, x: T)
    requires IsSplice(s, t, k, x)
    ensures s == t[..k] + [x] + t[k..]
  {
  }

  lemma BypassIsWithout<T>(s: seq<T>, t: seq<T>, k: nat)
    requires Distinct(t) && IsBypass(s, t, k)
    ensures s == Without(t, t[k])
  {
    WithoutAt(t, k);
    var u := t[..k] + t[k + 1..];
    forall i | 0 <= i < |s| ensures s[i] == u[i] {
    }
  }

  // ---- one step many times ----

  function Iterate<T>(step: T -> T, x: T, n: nat): T {
    if n == 0 then x else Iterate(step, step(x), n - 1)
  }

  /** What a step keeps, many steps keep. */
  lemma {:induction false} IterateKeeps<T(!new)>(step: T -> T, p: T -> bool, x: T, n: nat)
    requires p(x) && forall y | p(y) :: p(step(y))
    ensures p(Iterate(step, x, n))
    decreases n
  {
    if n > 0 {
      IterateKeeps(step, p, step(x), n - 1);
    }
  }

  /** What a step counts up by one, n steps count up by n. */
  lemma {:induction false} IterateCounts<T(!new)>(step: T -> T, p: T -> bool, count: T -> int, x: T, n: nat)
    requires p(x) && forall y | p(y) :: p(step(y)) && count(step(y)) == count(y) + 1
    ensures count(Iterate(step, x, n)) == count(x) + n
    decreases n
  {
    if n > 0 {
      IterateCounts(step, p, count, step(x), n - 1);
    }
  }

  lemma {:induction false} IterateLast<T>(step: T -> T, x: T, n: nat)
    ensures Iterate(step, x, n + 1) == step(Iterate(step, x, n))
  {
    if n > 0 {
      IterateLast(step, step(x), n - 1);
    }
  }

  // ---- the visiting order ----

  /** Removing an item leaves the others in their visiting order. */
  lemma VisitRemove<T>(r: Ring<T>, x: T)
    requires WellIndexed(r)
    ensures WellIndexed(Remove(r, x))
    ensures Visit(Remove(r, x)) == Without(Visit(r), x)
  {
    var a, b := r.items[..r.index], r.items[r.index..];
    assert r.items == a + b;
    WithoutAppend(a, b, x);
    WithoutAppend(b, a, x);
    assert Remove(r, x).items[Remove(r, x).index..] == Without(b, x);
    assert Remove(r, x).items[..Remove(r, x).index] == Without(a, x);
  }

  /** A new item is visited last when the index is on the end marker, and just before the item the
      index stands on otherwise; the others keep their visiting order. */
  lemma VisitInsertEnd<T>(r: Ring<T>, x: T)
    requires WellIndexed(r) && x !in r.items
    ensures Visit(InsertEnd(r, x)) ==
            if r.index == 0 then Visit(r) + [x]
            else Visit(r)[..|r.items| - 1] + [x, r.items[r.index - 1]]
    ensures Without(Visit(InsertEnd(r, x)), x) == Visit(r)
  {
    if r.index == 0 {
      VisitInsertLast(r, x);
      WithoutLast(Visit(r), x);
    } else {
      VisitInsertBefore(r, x);
      VisitEnds(r);
      WithoutLastButOne(Visit(r)[..|r.items| - 1], x, r.items[r.index - 1]);
    }
  }

  lemma VisitInsertLast<T>(r: Ring<T>, x: T)
    requires WellIndexed(r) && r.index == 0
    ensures Visit(InsertEnd(r, x)) == Visit(r) + [x]
  {
  }

  /** The item the index stands on is visited last. */
  lemma VisitEnds<T>(r: Ring<T>)
    requires WellIndexed(r) && r.index > 0
    ensures Visit(r) == Visit(r)[..|r.items| - 1] + [r.items[r.index - 1]]
  {
  }

  lemma WithoutLast<T>(u: seq<T>, x: T)
    requires x !in u
    ensures Without(u + [x], x) == u
  {
    WithoutAppend(u, [x], x);
    WithoutAbsent(u, x);
  }

  lemma VisitInsertBefore<T>(r: Ring<T>, x: T)
    requires WellIndexed(r) && r.index > 0
    ensures Visit(InsertEnd(r, x)) == Visit(r)[..|r.items| - 1] + [x, r.items[r.index - 1]]
  {
    var q, p := InsertEnd(r, x), r.index - 1;
    assert q.items[q.index..] == r.items[r.index..];
    assert q.items[..q.index] == r.items[..p] + [x] + [r.items[p]];
    assert Visit(r) == r.items[r.index..] + r.items[..p] + [r.items[p]];
  }

  lemma WithoutLastButOne<T>(u: seq<T>, x: T, y: T)
    requires x !in u && x != y
    ensures Without(u + [x, y], x) == u + [y]
  {
    assert u + [x, y] == u + [x] + [y];
    WithoutAppend(u + [x], [y], x);
    WithoutLast(u, x);
  }

  lemma VisitAdvance<T>(r: Ring<T>)
    requires WellIndexed(r) && r.items != []
    ensures var q := Advance(r);
            q.items[q.index - 1] == Visit(r)[0] && Visit(q) == Visit(r)[1..] + [Visit(r)[0]]
  {
  }

  lemma {:induction false} SelectedIsVisitPrefix<T>(r: Ring<T>, n: nat)
    requires WellIndexed(r) && r.items != [] && n <= |r.items|
    ensures Selected(r, n) == Visit(r)[..n]
    decreases n
  {
    if n > 0 {
      VisitAdvance(r);
      var q := Advance(r);
      SelectedIsVisitPrefix(q, n - 1);
      assert Visit(q)[..n - 1] == Visit(r)[1..n];
      assert Visit(r)[..n] == [Visit(r)[0]] + Visit(r)[1..n];
    }
  }

  /** n selections of an unchanged n-item list choose every item exactly as often as it is listed. */
  lemma EqualShare<T>(r: Ring<T>)
    requires WellIndexed(r) && r.items != []
    ensures multiset(Selected(r, |r.items|)) == multiset(r.items)
  {
    SelectedIsVisitPrefix(r, |r.items|);
    assert Visit(r)[..|r.items|] == Visit(r);
    RotationBag(r.items, r.index);
  }

  lemma RotationBag<T>(s: seq<T>, k: nat)
    requires k <= |s|
    ensures multiset(s[k..] + s[..k]) == multiset(s)
  {
    assert s == s[..k] + s[k..];
  }

  lemma InsertEndBag<T>(r: Ring<T>, x: T)
    requires WellIndexed(r)
    ensures multiset(InsertEnd(r, x).items) == multiset(r.items) + multiset{x}
  {
    if r.index > 0 {
      var p := r.index - 1;
      assert r.items == r.items[..p] + r.items[p..];
    }
  }

  // ---- value order ----

  /** How many leading entries vListInsert steps over. */
  function Place<T>(s: seq<Entry<T>>, v: nat): (p: nat)
    ensures p <= |s|
  {
    if s == [] || v < s[0].value then 0 else 1 + Place(s[1..], v)
  }

  lemma {:induction false} InsertByValueSplit<T>(s: seq<Entry<T>>, e: Entry<T>)
    ensures var p := Place(s, e.value); InsertByValue(s, e) == s[..p] + [e] + s[p..]
  {
    if s != [] && s[0].value <= e.value {
      var t, q := s[1..], Place(s[1..], e.value);
      InsertByValueSplit(t, e);
      assert s[..q + 1] == [s[0]] + t[..q];
    } else {
      assert s[..0] == [] && s[0..] == s;
    }
  }

  lemma SpliceAtPlace<T>(after: seq<Entry<T>>, before: seq<Entry<T>>, e: Entry<T>)
    requires IsSplice(after, before, Place(before, e.value), e)
    ensures after == InsertByValue(before, e)
  {
    SpliceIsConcat(after, before, Place(before, e.value), e);
    InsertByValueSplit(before, e);
  }

  lemma {:induction false} PlaceIsFirstLarger<T>(s: seq<Entry<T>>, v: nat, p: nat)
    requires p <= |s| && (p < |s| ==> v < s[p].value)
    requires forall i | 0 <= i < p :: s[i].value <= v
    ensures Place(s, v) == p
  {
    if p > 0 {
      assert s[0].value <= v;
      PlaceIsFirstLarger(s[1..], v, p - 1);
    }
  }

  /** In a value-ordered list the place is after all smaller or equal values and before all larger ones. */
  lemma {:induction false} PlaceSeparates<T>(s: seq<Entry<T>>, v: nat)
    requires SortedByValue(s)
    ensures forall i | 0 <= i < Place(s, v) :: s[i].value <= v
    ensures forall i | Place(s, v) <= i < |s| :: v < s[i].value
  {
    if s != [] && s[0].value <= v {
      var t := s[1..];
      PlaceSeparates(t, v);
      assert forall i | 1 <= i < |s| :: s[i] == t[i - 1];
    }
  }

  lemma InsertKeepsSorted<T>(s: seq<Entry<T>>, e: Entry<T>)
    requires SortedByValue(s)
    ensures SortedByValue(InsertByValue(s, e))
  {
    InsertByValueSplit(s, e);
    PlaceSeparates(s, e.value);
    var p, r := Place(s, e.value), InsertByValue(s, e);
    assert forall i | 0 <= i < p :: r[i] == s[i];
    assert forall i | p < i < |r| :: r[i] == s[i - 1];
    forall i, j | 0 <= i < j < |r| ensures r[i].value <= r[j].value {
      if j < p || p < i {
      } else if i == p {
        assert r[j] == s[j - 1];
      } else if j == p {
        assert r[i] == s[i];
      }
    }
  }
}
