/** The kernel's intrusive circular doubly linked list with an end marker and a walking index. */
module Lists {
  import opened Config
  import opened Rings

  class ListItem {
    var value: nat
    var next: ListItem?
    var prev: ListItem?
    var container: List?

    /** vListInitialiseItem: the item is on no list. */
    constructor (v: nat)
      ensures value == v && container == null
    {
      value, next, prev, container := v, null, null, null;
    }
  }

  /** The nodes form one ring: each points forward to the next and the next points back. */
  ghost predicate Linked(nodes: seq<ListItem>)
    reads nodes`next, nodes`prev
  {
    && nodes != []
    && (forall i | 0 <= i < |nodes| - 1 :: nodes[i].next == nodes[i + 1] && nodes[i + 1].prev == nodes[i])
    && nodes[|nodes| - 1].next == nodes[0]
    && nodes[0].prev == nodes[|nodes| - 1]
  }

  /** The four pointer writes by which both insertions link item between two neighbours of a ring. */
  method Splice(ghost t: seq<ListItem>, ghost s: seq<ListItem>, ghost k: nat,
                before: ListItem, after: ListItem, item: ListItem)
    requires Linked(t) && Distinct(t) && item !in t && IsSplice(s, t, k, item)
    requires k > 0 && before == t[k - 1] && after == if k < |t| then t[k] else t[0]
    modifies before`next, after`prev, item`next, item`prev
    ensures Linked(s)
  {
    item.next := after;
    item.prev := before;
    before.next := item;
    after.prev := item;
    forall i | 0 <= i < |s| - 1 ensures s[i].next == s[i + 1] && s[i + 1].prev == s[i] {
      if i < k - 1 {
        assert t[i] != t[k - 1];
      } else if i > k {
        assert t[i] != t[k] && t[i - 1] != t[k - 1];
      }
    }
  }

  /** The pointer writes of uxListRemove: the neighbours of the k-th node bypass it. */
  method Bypass(ghost t: seq<ListItem>, ghost s: seq<ListItem>, ghost k: nat, item: ListItem)
    requires Linked(t) && Distinct(t) && IsBypass(s, t, k) && k > 0 && item == t[k]
    requires item.prev == t[k - 1] && item.next == if k + 1 < |t| then t[k + 1] else t[0]
    modifies item.prev`next, item.next`prev
    ensures Linked(s)
  {
    item.next.prev := item.prev;
    item.prev.next := item.next;
    ghost var after := if k + 1 < |t| then k + 1 else 0;
    forall i | 0 <= i < |s| - 1 ensures s[i].next == s[i + 1] && s[i + 1].prev == s[i] {
      var a, b := if i < k then i else i + 1, if i + 1 < k then i + 1 else i + 2;
      assert s[i] == t[a] && s[i + 1] == t[b];
      if i != k - 1 {
        assert t[a] != t[k - 1] && t[b] != t[after];
      }
    }
  }

  ghost function EntriesOf(items: seq<ListItem>): (r: seq<Entry<ListItem>>)
    reads items
    ensures |r| == |items| && forall i | 0 <= i < |items| :: r[i] == Entry(items[i], items[i].value)
  {
    seq(|items|, i requires 0 <= i < |items| reads items => Entry(items[i], items[i].value))
  }

  lemma RemoveFromView(s: seq<ListItem>, t: seq<ListItem>, k: nat, pos: nat)
    requires Distinct(t) && IsBypass(s, t, k) && k > 0 && pos < |t|
    ensures Ring(s[1..], if k <= pos then pos - 1 else pos) == Rings.Remove(Ring(t[1..], pos), t[k])
  {
    var u := t[1..];
    DistinctTail(t);
    assert IsBypass(s[1..], u, k - 1);
    BypassIsWithout(s[1..], u, k - 1);
    WithoutPrefix(u, k - 1, pos);
  }

  lemma EntriesSplice(s: seq<ListItem>, t: seq<ListItem>, before: seq<Entry<ListItem>>, item: ListItem, j: nat)
    requires t != [] && |before| == |t| - 1 && IsSplice(s, t, j + 1, item) && j == Place(before, item.value)
    requires forall i | 0 <= i < |before| :: before[i] == Entry(t[i + 1], t[i + 1].value)
    ensures EntriesOf(s[1..]) == InsertByValue(before, Entry(item, item.value))
  {
    var after, e := EntriesOf(s[1..]), Entry(item, item.value);
    forall i | 0 <= i < |after|
      ensures after[i] == if i < j then before[i] else if i == j then e else before[i - 1]
    {
      assert after[i] == Entry(s[i + 1], s[i + 1].value);
    }
    SpliceAtPlace(after, before, e);
  }

  lemma InsertEndView(s: seq<ListItem>, t: seq<ListItem>, pos: nat, item: ListItem)
    requires pos < |t| && IsSplice(s, t, if pos == 0 then |t| else pos, item)
    ensures Ring(s[1..], if pos == 0 then 0 else pos + 1) == Rings.InsertEnd(Ring(t[1..], pos), item)
  {
  }

  class List {
    const end: ListItem
    var index: ListItem
    var count: nat
    ghost var ring: seq<ListItem>  // the end marker and then the items in list order
    ghost var pos: nat             // where in the ring the index stands

    ghost predicate Valid()
      reads this, ring
    {
      && Linked(ring) && Distinct(ring)
      && ring[0] == end && end.value == MAX_DELAY
      && (forall i | 1 <= i < |ring| :: ring[i].container == this && ring[i].value <= MAX_DELAY)
      && count == |ring| - 1
      && pos < |ring| && ring[pos] == index
    }

    ghost predicate Insertable(item: ListItem)
      reads this, item
    {
      item.container == null && item != end && item.value <= MAX_DELAY
    }

    /** What the pointers represent. */
    ghost function View(): Ring<ListItem>
      requires Valid()
      reads this, ring
    {
      Ring(ring[1..], pos)
    }

    /** The items and their values in list order. */
    ghost function Entries(): seq<Entry<ListItem>>
      requires Valid()
      reads this, ring
    {
      EntriesOf(ring[1..])
    }

    /** vListInitialise. */
    constructor ()
      ensures Valid() && fresh(end) && View() == Ring([], 0)
    {
      var e := new ListItem(MAX_DELAY);
      e.next, e.prev := e, e;
      end, index, count := e, e, 0;
      ring, pos := [e], 0;
    }

    /** What both insertions do once the place is known: link item after node j and record it. */
    method LinkAfter(ghost j: nat, before: ListItem, item: ListItem)
      requires Valid() && Insertable(item)
      requires j < |ring| && before == ring[j]
      modifies `count, `ring, `pos, ring`next, ring`prev, item`next, item`prev, item`container
      ensures Valid() && IsSplice(ring, old(ring), j + 1, item)
      ensures pos == if old(pos) <= j then old(pos) else old(pos) + 1
    {
      ghost var s := MakeSplice(ring, j + 1, item);
      assert before.next == if j + 1 < |ring| then ring[j + 1] else ring[0];
      Splice(ring, s, j + 1, before, before.next, item);
      Adopt(s, j + 1, item);
    }

    /** The rest of both insertions: the container and the count follow. */
    method Adopt(ghost s: seq<ListItem>, ghost k: nat, item: ListItem)
      requires Linked(s) && Distinct(s) && IsSplice(s, ring, k, item) && 0 < k <= |ring|
      requires ring[0] == end && end.value == MAX_DELAY && item.value <= MAX_DELAY
      requires forall i | 1 <= i < |ring| :: ring[i].container == this && ring[i].value <= MAX_DELAY
      requires count == |ring| - 1 && pos < |ring| && ring[pos] == index
      modifies `count, `ring, `pos, item`container
      ensures Valid() && ring == s
      ensures pos == if old(pos) < k then old(pos) else old(pos) + 1
    {
      item.container := this;
      count := count + 1;
      ring := s;
      pos := if pos < k then pos else pos + 1;
    }

    /** vListInsertEnd: link the item just before the index. */
    method InsertEnd(item: ListItem)
      requires Valid() && Insertable(item)
      modifies `count, `ring, `pos, ring`next, ring`prev, item`next, item`prev, item`container
      ensures Valid() && View() == Rings.InsertEnd(old(View()), item)
    {
      ghost var j := if pos == 0 then |ring| - 1 else pos - 1;
      assert index.prev == ring[j];
      LinkAfter(j, index.prev, item);
      InsertEndView(ring, old(ring), old(pos), item);
    }

    /** The search of vListInsert: the node after which a value belongs. The test for the end
        marker's own value is what makes the search stop for every value. */
    method FindPlace(v: nat) returns (it: ListItem)
      requires Valid() && v <= MAX_DELAY
      ensures Place(Entries(), v) < |ring| && it == ring[Place(Entries(), v)]
    {
      ghost var j: nat := 0;
      if v == MAX_DELAY {
        it, j := end.prev, |ring| - 1;
      } else {
        it := end;
        while it.next.value <= v
          invariant j < |ring| && it == ring[j]
          invariant it.next == if j + 1 < |ring| then ring[j + 1] else ring[0]
          invariant forall i | 1 <= i <= j :: ring[i].value <= v
          decreases |ring| - j
        {
          it, j := it.next, j + 1;
        }
      }
      PlaceIsFirstLarger(Entries(), v, j);
    }

    /** vListInsert: link the item in value order, after the items of equal value. */
    method Insert(item: ListItem)
      requires Valid() && Insertable(item)
      modifies `count, `ring, `pos, ring`next, ring`prev, item`next, item`prev, item`container
      ensures Valid()
      ensures Entries() == InsertByValue(old(Entries()), Entry(item, item.value))
    {
      var it := FindPlace(item.value);
      ghost var t, before, j := ring, Entries(), Place(Entries(), item.value);
      LinkAfter(j, it, item);
      EntriesSplice(ring, t, before, item, j);
    }

    /** listGET_OWNER_OF_NEXT_ENTRY: advance the index, skipping the end marker. */
    method NextEntry() returns (item: ListItem)
      requires Valid() && count > 0
      modifies this`index, this`pos
      ensures Valid() && View() == Advance(old(View())) && item == Visit(old(View()))[0]
    {
      VisitAdvance(View());
      assert index.next == if pos + 1 < |ring| then ring[pos + 1] else ring[0];
      index := index.next;
      if index == end {
        assert ring[0].next == ring[1];
        index := index.next;
      }
      pos := if pos + 1 < |ring| then pos + 1 else 1;
      item := index;
    }

    /** uxListRemove once the container is known: unlink node k and record it. */
    method Unlink(ghost k: nat, item: ListItem)
      requires Valid() && 0 < k < |ring| && item == ring[k]
      modifies `index, `count, `ring, `pos, ring`next, ring`prev, item`container
      ensures Valid() && IsBypass(ring, old(ring), k)
      ensures pos == if k <= old(pos) then old(pos) - 1 else old(pos)
      ensures item.container == null
    {
      ghost var s := MakeBypass(ring, k);
      assert item.prev == ring[k - 1];
      assert item.next == if k + 1 < |ring| then ring[k + 1] else ring[0];
      Bypass(ring, s, k, item);
      Forget(s, k, item);
    }

    /** The rest of uxListRemove: the index, the container and the count follow. */
    method Forget(ghost s: seq<ListItem>, ghost k: nat, item: ListItem)
      requires Linked(s) && Distinct(s) && Distinct(ring) && IsBypass(s, ring, k) && 0 < k < |ring|
      requires item == ring[k] && item.prev == ring[k - 1] && ring[0] == end && end.value == MAX_DELAY
      requires forall i | 1 <= i < |ring| :: ring[i].container == this && ring[i].value <= MAX_DELAY
      requires count == |ring| - 1 && pos < |ring| && ring[pos] == index
      modifies `index, `count, `ring, `pos, item`container
      ensures Valid() && ring == s && item.container == null
      ensures pos == if k <= old(pos) then old(pos) - 1 else old(pos)
    {
      if index == item {
        index := item.prev;
      }
      item.container := null;
      count := count - 1;
      pos := if k <= pos then pos - 1 else pos;
      assert index == s[pos];
      forall i | 1 <= i < |s| ensures s[i].container == this && s[i].value <= MAX_DELAY {
        assert s[i] == if i < k then ring[i] else ring[i + 1];
      }
      ring := s;
    }

    /** uxListRemove: unlink the item from the list that holds it and count what is left. */
    static method Remove(item: ListItem) returns (left: nat)
      requires item.container != null && item.container.Valid() && item in item.container.ring[1..]
      modifies item.container`index, item.container`count, item.container`ring, item.container`pos
      modifies item.container.ring`next, item.container.ring`prev, item`container
      ensures var list := old(item.container);
              list.Valid() && list.View() == Rings.Remove(old(list.View()), item) && left == |list.View().items|
      ensures item.container == null
    {
      var list := item.container;
      ghost var t, p := list.ring, list.pos;
      ghost var k: nat :| k < |t[1..]| && t[1..][k] == item;
      list.Unlink(k + 1, item);
      left := list.count;
      RemoveFromView(list.ring, t, k + 1, p);
    }
  }
}
