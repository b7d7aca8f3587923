/** The foreign master data set of bmc.c: who is listed, which slot a new announcement goes to, and what a stale
    choice of best master does to it. */
module ForeignMasters {
  import opened Bmc

  /** foreignMasterDS: the first count records are listed, i is the slot whose turn is next. */
  datatype Table = Table(records: seq<Record>, count: nat, i: nat, best: nat)

  ghost predicate Shape(t: Table) {
    && t.count <= |t.records| && t.i < |t.records| && t.best < |t.records|
    && (t.count < |t.records| ==> t.i == t.count)
  }

  /** No port is listed twice. */
  ghost predicate Once(t: Table)
    requires Shape(t)
  {
    forall j, k | 0 <= j < k < t.count :: !SamePort(t.records[j], t.records[k])
  }

  predicate Listed(t: Table, r: Record)
    requires t.count <= |t.records|
  {
    exists k | 0 <= k < t.count :: SamePort(r, t.records[k])
  }

  /** The best record was chosen before the table was emptied and lies beyond what is listed now. */
  predicate Stale(t: Table) {
    0 < t.count <= t.best
  }

  /** The slot the search of addForeign looks at after d others. */
  function Slot(t: Table, d: nat): (k: nat)
    requires t.count > 0
    ensures d > 0 ==> k < t.count
  {
    if d == 0 then t.best else (t.best + d) % t.count
  }

  /** How many slots the search has passed when it ends; count if it finds nothing. */
  function Search(t: Table, r: Record, d: nat): (n: nat)
    requires Shape(t) && d <= t.count
    ensures d <= n <= t.count
    decreases t.count - d
  {
    if d == t.count || SamePort(r, t.records[Slot(t, d)]) then d else Search(t, r, d + 1)
  }

  /** addForeign. */
  function Announce(t: Table, r: Record): (q: Table)
    requires Shape(t)
    ensures Shape(q) && q.best == t.best && |q.records| == |t.records|
  {
    var d := Search(t, r, 0);
    if d < t.count then t.(records := t.records[Slot(t, d) := r])
    else
      Next(t.i, |t.records|);
      t.(records := t.records[t.i := r], i := (t.i + 1) % |t.records|,
         count := if t.count < |t.records| then t.count + 1 else t.count)
  }

  /** The announce receipt timeout: the table is emptied, the choice is kept. */
  function Expire(t: Table): (q: Table)
    requires Shape(t)
    ensures Shape(q) && !Stale(q) && q.count == 0
  {
    t.(count := 0, i := 0)
  }

  /** The choice bmc makes. */
  function Choose(t: Table, self: Bmc.Identity): (q: Table)
    requires Shape(t)
    ensures Shape(q) && !Stale(q)
  {
    t.(best := Scan(t.records, t.count, self))
  }

  // ---- walking around the table ----

  lemma Next(k: nat, n: nat)
    requires k < n
    ensures (k + 1) % n == if k + 1 < n then k + 1 else 0
  {
  }

  lemma Remainder(a: nat, q: nat, r: nat, n: nat)
    requires a == q * n + r && r < n
    ensures a % n == r
  {
    var p := a / n;
    assert a == p * n + a % n;
    if p < q {
      Times(p + 1, q, n);
    } else if q < p {
      Times(q + 1, p, n);
    }
  }

  lemma Times(p: nat, q: nat, n: nat)
    requires p <= q
    ensures p * n <= q * n
  {
  }

  /** Stepping on from a is stepping on from where a lies in the ring. */
  lemma StepsOn(a: nat, d: nat, n: nat)
    requires 0 < n && d < n
    ensures (a + d) % n == if a % n + d < n then a % n + d else a % n + d - n
  {
    var q, r := a / n, a % n;
    assert a == q * n + r;
    if r + d < n {
      Remainder(a + d, q, r + d, n);
    } else {
      assert (q + 1) * n == q * n + n;
      Remainder(a + d, q + 1, r + d - n, n);
    }
  }

  /** Every slot but one is reached by stepping on from the best. */
  lemma StepsTo(t: Table, k: nat)
    requires k < t.count && k != t.best % t.count
    ensures exists d | 0 < d < t.count :: Slot(t, d) == k
  {
    var m := t.best % t.count;
    var d := if k > m then k - m else k - m + t.count;
    StepsOn(t.best, d, t.count);
    assert Slot(t, d) == k;
  }

  lemma SlotNext(t: Table, d: nat)
    requires d < t.count
    ensures d + 1 < t.count ==> Slot(t, d + 1) == (Slot(t, d) + 1) % t.count
  {
    if 0 < d && d + 1 < t.count {
      StepsOn(t.best, d, t.count);
      StepsOn(t.best, d + 1, t.count);
      Next(Slot(t, d), t.count);
    }
  }

  lemma StepsMiss(t: Table, d: nat)
    requires 0 < d < t.count
    ensures Slot(t, d) != t.best % t.count
  {
    StepsOn(t.best, d, t.count);
  }

  lemma {:induction false} SearchPasses(t: Table, r: Record, d: nat)
    requires Shape(t) && d <= t.count
    ensures var n := Search(t, r, d);
            && (n < t.count ==> SamePort(r, t.records[Slot(t, n)]))
            && (forall x | d <= x < n :: !SamePort(r, t.records[Slot(t, x)]))
    decreases t.count - d
  {
    if d < t.count && !SamePort(r, t.records[Slot(t, d)]) {
      SearchPasses(t, r, d + 1);
    }
  }

  /** The search looks at the best slot and at every listed slot but the one the best slot wraps to: so with a
      stale best it looks at a slot that is not listed and leaves out one that is. */
  lemma SearchFindsExactly(t: Table, r: Record)
    requires Shape(t) && t.count > 0
    ensures Search(t, r, 0) < t.count
       <==> || SamePort(r, t.records[t.best])
            || exists k | 0 <= k < t.count && k != t.best % t.count :: SamePort(r, t.records[k])
  {
    var n := Search(t, r, 0);
    SearchPasses(t, r, 0);
    if n < t.count {
      if n > 0 {
        StepsMiss(t, n);
      }
    } else {
      assert Slot(t, 0) == t.best;
      forall k | 0 <= k < t.count && k != t.best % t.count ensures !SamePort(r, t.records[k]) {
        StepsTo(t, k);
      }
    }
  }

  // ---- who is listed ----

  /** Unless the best is stale, the search finds a listed port, and only that. */
  lemma SearchIsComplete(t: Table, r: Record)
    requires Shape(t) && !Stale(t)
    ensures Search(t, r, 0) < t.count <==> Listed(t, r)
  {
    if t.count > 0 {
      SearchFindsExactly(t, r);
      Remainder(t.best, 0, t.best, t.count);
    }
  }

  /** Writing a slot that holds the same port, or that no listed port is given up for, lists nobody twice. */
  lemma FoundKeepsOnce(t: Table, r: Record)
    requires Shape(t) && Once(t) && Search(t, r, 0) < t.count
    ensures Once(Announce(t, r))
  {
    var n := Search(t, r, 0);
    SearchPasses(t, r, 0);
    var q := Announce(t, r);
    forall k | 0 <= k < t.count
      ensures (q.records[k].source, q.records[k].port) == (t.records[k].source, t.records[k].port)
    {
      assert k == Slot(t, n) ==> SamePort(r, t.records[k]);
    }
    forall j, k | 0 <= j < k < q.count ensures !SamePort(q.records[j], q.records[k]) {
      assert !SamePort(t.records[j], t.records[k]);
    }
  }

  lemma NewKeepsOnceExactly(t: Table, r: Record)
    requires Shape(t) && Once(t) && Search(t, r, 0) == t.count
    requires t.count == |t.records| ==> !Listed(t, r)
    ensures Once(Announce(t, r)) <==> !Listed(t, r)
  {
    var q := Announce(t, r);
    if k :| 0 <= k < t.count && SamePort(r, t.records[k]) {
      assert q.records[k] == t.records[k] && q.records[t.count] == r;
      assert SamePort(q.records[k], q.records[t.count]);
    } else {
      forall j, k | 0 <= j < k < q.count ensures !SamePort(q.records[j], q.records[k]) {
        assert j != t.i && k != t.i ==> !SamePort(t.records[j], t.records[k]);
        assert k == t.i ==> !SamePort(r, t.records[j]);
        assert j == t.i ==> !SamePort(r, t.records[k]);
      }
    }
  }

  /** An announcement lists a port twice exactly when the best is stale, wraps to the slot of that very port, and is
      not itself a record of it. */
  lemma ListedOnceExactly(t: Table, r: Record)
    requires Shape(t) && Once(t)
    ensures !Once(Announce(t, r))
       <==> Stale(t) && SamePort(r, t.records[t.best % t.count]) && !SamePort(r, t.records[t.best])
  {
    if !Stale(t) {
      SearchIsComplete(t, r);
    } else {
      SearchFindsExactly(t, r);
      var m := t.best % t.count;
      assert SamePort(r, t.records[m]) ==> forall k | 0 <= k < t.count && k != m :: !SamePort(r, t.records[k]);
    }
    if Search(t, r, 0) < t.count {
      FoundKeepsOnce(t, r);
    } else {
      NewKeepsOnceExactly(t, r);
    }
  }

  /** An announcement leaves its own port unlisted exactly when the best is stale and a record of that port, and the
      port was not listed before. */
  lemma ListedExactly(t: Table, r: Record)
    requires Shape(t)
    ensures !Listed(Announce(t, r), r) <==> Stale(t) && SamePort(r, t.records[t.best]) && !Listed(t, r)
  {
    var n, q := Search(t, r, 0), Announce(t, r);
    SearchPasses(t, r, 0);
    if n == t.count {
      assert q.records[t.i] == r;
      if t.count > 0 {
        SearchFindsExactly(t, r);
      }
    } else if k :| 0 <= k < t.count && SamePort(r, t.records[k]) {
      assert SamePort(r, q.records[k]);
    }
  }

  /** s stands in the slot whose turn has come in a full table, and r needs a slot. */
  predicate GivesWay(t: Table, r: Record, s: Record)
    requires Shape(t)
  {
    t.count == |t.records| && !Listed(t, r) && SamePort(s, t.records[t.i])
  }

  /** Unless the best is stale, the port is listed with this announcement, and no other port leaves the list but one
      whose slot's turn has come in a full table. */
  lemma AnnouncedIsListed(t: Table, r: Record)
    requires Shape(t) && Once(t) && !Stale(t)
    ensures var q := Announce(t, r);
            && Once(q) && (exists k | 0 <= k < q.count :: q.records[k] == r)
            && forall s | Listed(t, s) && !GivesWay(t, r, s) :: Listed(q, s)
  {
    ListedOnceExactly(t, r);
    SearchIsComplete(t, r);
    SearchPasses(t, r, 0);
    var n, q := Search(t, r, 0), Announce(t, r);
    assert n < t.count ==> q.records[Slot(t, n)] == r;
    assert n == t.count ==> q.records[t.i] == r;
    forall s | Listed(t, s) && !GivesWay(t, r, s) ensures Listed(q, s) {
      var k :| 0 <= k < t.count && SamePort(s, t.records[k]);
      assert SamePort(s, q.records[k]);
    }
  }

  // ---- the same in the source's own form ----

  class ForeignMasterDS {
    var records: seq<Record>
    var count: nat
    var i: nat
    var best: nat

    ghost function View(): Table
      reads this
    {
      Table(records, count, i, best)
    }

    /** An empty table of so many slots. */
    constructor (slots: nat, blank: Record)
      requires slots > 0
      ensures Shape(View()) && !Stale(View()) && count == 0 && |records| == slots
    {
      count, i, best := 0, 0, 0;
      records := seq(slots, k => blank);
    }

    /** The loop of addForeign, around the table from the best record. */
    method Find(r: Record) returns (found: bool, j: nat)
      requires Shape(View())
      ensures var n := Search(View(), r, 0); found == (n < count) && (found ==> j == Slot(View(), n))
    {
      found, j := false, best;
      var n := 0;
      while n < count
        invariant n <= count && (n < count ==> j == Slot(View(), n))
        invariant Search(View(), r, n) == Search(View(), r, 0)
      {
        if SamePort(r, records[j]) {
          return true, j;
        }
        SlotNext(View(), n);
        j, n := (j + 1) % count, n + 1;
      }
    }

    /** addForeign. */
    method AddForeign(r: Record)
      requires Shape(View())
      modifies this
      ensures View() == Announce(old(View()), r)
    {
      var found, j := Find(r);
      if found {
        records := records[j := r];
      } else {
        if count < |records| {
          count := count + 1;
        }
        records := records[i := r];
        i := (i + 1) % |records|;
      }
    }

    /** What doState does to the table when the announce receipt timer expires: nobody is listed, and unless the
        first slot was the best, the next port to announce itself finds the choice of best stale. */
    method ExpireAll()
      requires Shape(View())
      modifies `count, `i
      ensures Shape(View()) && Once(View()) && !Stale(View()) && forall r :: !Listed(View(), r)
      ensures forall r :: Stale(Announce(View(), r)) <==> best > 0
    {
      count, i := 0, 0;
    }

    /** bmc: choose a record and recommend a port state for it. */
    method RunBmc(local: Record, listening: bool) returns (recommended: Recommended)
      requires Shape(View())
      modifies `best
      ensures View() == Choose(old(View()), local.source)
      ensures recommended == StateDecision(listening, count, local, records[best])
    {
      var k := 1;
      best := 0;
      while k < count
        invariant 1 <= k && (k <= count || count == 0) && best < |records|
        invariant count > 0 ==> best == Scan(records, k, local.source)
        invariant count == 0 ==> best == 0
      {
        if Compare(records[k], records[best], local.source) < 0 {
          best := k;
        }
        k := k + 1;
      }
      recommended := StateDecision(listening, count, local, records[best]);
    }
  }
}
