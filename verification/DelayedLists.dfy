/** The two delayed lists of a tick count that wraps, and what they mean in unbounded time. */
module DelayedLists {
  import opened Config
  import opened Rings

  /** A delayed list holds state list items, whose value is the time to wake. */
  type Delayed = seq<Entry<Task>>

  datatype Delays = Delays(
    tick: nat,          // xTickCount
    overflows: nat,     // xNumOfOverflows, counted without bound
    next: nat,          // xNextTaskUnblockTime
    current: Delayed,   // what pxDelayedTaskList points at
    overflow: Delayed)  // what pxOverflowDelayedTaskList points at

  function Owners(s: Delayed): (r: seq<Task>)
    ensures |r| == |s| && forall i | 0 <= i < |s| :: r[i] == s[i].owner
  {
    seq(|s|, i requires 0 <= i < |s| => s[i].owner)
  }

  /** uxListRemove of t's item. */
  function DropOwner(s: Delayed, t: Task): (r: Delayed)
    ensures forall e {:trigger e in r} | e in r :: e in s && e.owner != t
    ensures forall e {:trigger e in r} | e in s && e.owner != t :: e in r
  {
    if s == [] then []
    else if s[0].owner == t then DropOwner(s[1..], t)
    else [s[0]] + DropOwner(s[1..], t)
  }

  /** The current list holds times not yet passed, the overflow list times that come after the wrap,
      and next is never later than any time in the current list. */
  ghost predicate DelayShape(d: Delays) {
    && d.tick < TICKS && d.next < TICKS
    && SortedByValue(d.current) && SortedByValue(d.overflow)
    && (forall e <- d.current :: d.tick <= e.value < TICKS && d.next <= e.value)
    && (forall e <- d.overflow :: e.value < d.tick)
    && (d.tick == TICKS - 1 ==> d.current == [])
  }

  predicate Asleep(d: Delays, t: Task) {
    t in Owners(d.current) || t in Owners(d.overflow)
  }

  /** The value prvResetNextTaskUnblockTime stores. */
  function FirstTime(s: Delayed): nat {
    if s == [] then MAX_DELAY else s[0].value
  }

  /** The step of the tick count, with taskSWITCH_DELAYED_LISTS when it wraps. */
  function Count(d: Delays): Delays {
    if d.tick + 1 == TICKS then
      Delays(0, d.overflows + 1, FirstTime(d.overflow), d.overflow, d.current)
    else d.(tick := d.tick + 1)
  }

  /** The entries at the head whose time has come, and how they leave the list. */
  function Due(c: Delays): nat {
    if c.tick < c.next then 0 else Place(c.current, c.tick)
  }

  function Wake(c: Delays): Delays {
    if c.tick < c.next then c
    else c.(current := c.current[Due(c)..], next := FirstTime(c.current[Due(c)..]))
  }

  /** xTaskIncrementTick with the scheduler running: the lists afterwards and the tasks woken, in order. */
  function Tick(d: Delays): (Delays, seq<Task>) {
    var c := Count(d);
    (Wake(c), Owners(c.current[..Due(c)]))
  }

  /** The sum of two tick counts in 32 bits. */
  function AddTicks(a: nat, b: nat): (r: nat)
    requires a < TICKS && b < TICKS
    ensures r == (a + b) % TICKS
  {
    if a + b < TICKS then a + b else a + b - TICKS
  }

  /** The list and value part of prvAddCurrentTaskToDelayedList. */
  function Sleep(d: Delays, t: Task, ticks: nat): Delays
    requires d.tick < TICKS && ticks < TICKS
  {
    var wake := AddTicks(d.tick, ticks);
    if wake < d.tick then d.(overflow := InsertByValue(d.overflow, Entry(t, wake)))
    else d.(current := InsertByValue(d.current, Entry(t, wake)), next := if wake < d.next then wake else d.next)
  }

  function Forget(d: Delays, t: Task): Delays {
    d.(current := DropOwner(d.current, t), overflow := DropOwner(d.overflow, t))
  }

  // ---- unbounded time ----

  /** The ticks in n full turns of the counter. */
  function Epoch(n: nat): nat {
    if n == 0 then 0 else Epoch(n - 1) + TICKS
  }

  function Now(d: Delays): nat {
    Epoch(d.overflows) + d.tick
  }

  ghost function At(s: Delayed, epoch: nat): set<(Task, nat)> {
    set e <- s :: (e.owner, Epoch(epoch) + e.value)
  }

  /** Who sleeps until when, as a simple model with unbounded time would record it. */
  ghost function Deadlines(d: Delays): set<(Task, nat)> {
    At(d.current, d.overflows) + At(d.overflow, d.overflows + 1)
  }

  lemma {:induction false} EpochLength(n: nat)
    ensures Epoch(n) == n * TICKS
  {
    if n > 0 {
      EpochLength(n - 1);
    }
  }

  // ---- list facts ----

  lemma SortedSuffix(s: Delayed, n: nat)
    requires SortedByValue(s) && n <= |s|
    ensures SortedByValue(s[n..])
  {
  }

  lemma {:induction false} DropSorted(s: Delayed, t: Task)
    requires SortedByValue(s)
    ensures SortedByValue(DropOwner(s, t))
  {
    if s != [] {
      DropSorted(s[1..], t);
      var r := DropOwner(s[1..], t);
      forall i | 0 <= i < |r| ensures s[0].value <= r[i].value {
        assert r[i] in r && r[i] in s[1..];
      }
    }
  }

  lemma {:induction false} DropOwners(s: Delayed, t: Task)
    ensures Owners(DropOwner(s, t)) == Without(Owners(s), t)
  {
    if s != [] {
      OwnersCons(s);
      OwnersCons([s[0]] + DropOwner(s[1..], t));
      DropOwners(s[1..], t);
    }
  }

  lemma OwnersCons(s: Delayed)
    requires s != []
    ensures Owners(s) == [s[0].owner] + Owners(s[1..])
  {
  }

  lemma DropBag(s: Delayed, t: Task)
    ensures multiset(Owners(DropOwner(s, t))) == multiset(Owners(s))[t := 0]
  {
    DropOwners(s, t);
    WithoutBag(Owners(s), t);
  }

  lemma {:induction false} InsertBag(s: Delayed, e: Entry<Task>)
    ensures multiset(Owners(InsertByValue(s, e))) == multiset(Owners(s)) + multiset{e.owner}
  {
    OwnersCons(InsertByValue(s, e));
    if s == [] || e.value < s[0].value {
      assert InsertByValue(s, e)[1..] == s;
    } else {
      assert InsertByValue(s, e)[1..] == InsertByValue(s[1..], e);
      OwnersCons(s);
      InsertBag(s[1..], e);
    }
  }

  lemma OwnersSplit(s: Delayed, n: nat)
    requires n <= |s|
    ensures Owners(s) == Owners(s[..n]) + Owners(s[n..])
  {
  }

  lemma SplitBag(s: Delayed, n: nat)
    requires n <= |s|
    ensures multiset(Owners(s)) == multiset(Owners(s[..n])) + multiset(Owners(s[n..]))
  {
    OwnersSplit(s, n);
  }

  lemma Rearrange(a: multiset<Task>, b: multiset<Task>, c: multiset<Task>)
    ensures b + c + a == (a + b) + c == c + (a + b)
  {
  }

  /** A tick moves items from the lists to the woken tasks and loses none. */
  lemma TickBag(d: Delays)
    requires DelayShape(d)
    ensures var (q, woken) := Tick(d);
            multiset(Owners(q.current)) + multiset(Owners(q.overflow)) + multiset(woken)
            == multiset(Owners(d.current)) + multiset(Owners(d.overflow))
  {
    var c := Count(d);
    var n := Due(c);
    assert c.current[0..] == c.current;
    SplitBag(c.current, n);
    Rearrange(multiset(Owners(c.current[..n])), multiset(Owners(c.current[n..])), multiset(Owners(c.overflow)));
    assert Wake(c).current == c.current[n..] && Wake(c).overflow == c.overflow;
  }

  lemma InsertMembers(s: Delayed, e: Entry<Task>)
    ensures forall x :: x in InsertByValue(s, e) <==> x in s || x == e
  {
  }

  // ---- the steps keep the shape ----

  /** At the wrap the current list is empty, as the kernel asserts before it switches the lists. */
  lemma EmptyAtWrap(d: Delays)
    requires DelayShape(d) && d.tick + 1 == TICKS
    ensures d.current == []
  {
  }

  /** Between counting and waking, a due time may still be in the current list. */
  ghost predicate Counted(c: Delays) {
    && c.tick < TICKS && c.next < TICKS
    && SortedByValue(c.current) && SortedByValue(c.overflow)
    && (forall e <- c.current :: e.value < TICKS && c.next <= e.value)
    && (forall e <- c.overflow :: e.value < c.tick)
  }

  lemma CountShape(d: Delays)
    requires DelayShape(d)
    ensures Counted(Count(d))
  {
  }

  lemma WakeShape(c: Delays)
    requires Counted(c)
    ensures DelayShape(Wake(c)) && forall e <- Wake(c).current :: c.tick < e.value
  {
    if c.next <= c.tick {
      var n, r := Due(c), c.current[Due(c)..];
      PlaceSeparates(c.current, c.tick);
      SortedSuffix(c.current, n);
      assert forall i | 0 <= i < |r| :: r[i] == c.current[n + i];
    }
  }

  lemma TickShape(d: Delays)
    requires DelayShape(d)
    ensures DelayShape(Tick(d).0)
  {
    CountShape(d);
    WakeShape(Count(d));
  }

  lemma SleepShape(d: Delays, t: Task, ticks: nat)
    requires DelayShape(d) && ticks < TICKS && (ticks > 0 || d.tick < TICKS - 1)
    ensures DelayShape(Sleep(d, t, ticks))
  {
    var e := Entry(t, AddTicks(d.tick, ticks));
    if e.value < d.tick {
      InsertMembers(d.overflow, e);
      InsertKeepsSorted(d.overflow, e);
    } else {
      InsertMembers(d.current, e);
      InsertKeepsSorted(d.current, e);
    }
  }

  /** The shape survives a sleep in every case but one: no ticks at all at the very last tick count, where
      the list would not be empty at the wrap. */
  lemma SleepShapeExactly(d: Delays, t: Task, ticks: nat)
    requires DelayShape(d) && ticks < TICKS
    ensures DelayShape(Sleep(d, t, ticks)) <==> ticks > 0 || d.tick < TICKS - 1
  {
    if ticks > 0 || d.tick < TICKS - 1 {
      SleepShape(d, t, ticks);
    } else {
      InsertMembers(d.current, Entry(t, d.tick));
      assert Entry(t, d.tick) in Sleep(d, t, ticks).current;
    }
  }

  lemma ForgetShape(d: Delays, t: Task)
    requires DelayShape(d)
    ensures DelayShape(Forget(d, t))
  {
    DropSorted(d.current, t);
    DropSorted(d.overflow, t);
  }

  // ---- refinement of the model with unbounded time ----

  lemma AtSplit(s: Delayed, n: nat, epoch: nat)
    requires n <= |s|
    ensures At(s, epoch) == At(s[..n], epoch) + At(s[n..], epoch)
  {
  }

  lemma AtInsert(s: Delayed, e: Entry<Task>, epoch: nat, x: (Task, nat))
    requires x == (e.owner, Epoch(epoch) + e.value)
    ensures At(InsertByValue(s, e), epoch) == At(s, epoch) + {x}
  {
    InsertMembers(s, e);
    assert e in InsertByValue(s, e);
    forall y ensures y in At(InsertByValue(s, e), epoch) <==> y in At(s, epoch) || y == x {
    }
  }

  /** Counting only renames the lists: no deadline moves. */
  lemma CountRefines(d: Delays)
    requires DelayShape(d)
    ensures Deadlines(Count(d)) == Deadlines(d) && Now(Count(d)) == Now(d) + 1
  {
  }

  /** Waking takes out exactly the entries whose deadline has come. */
  lemma WakeRefines(c: Delays)
    requires Counted(c)
    ensures At(c.current[..Due(c)], c.overflows) == (set x <- Deadlines(c) | x.1 <= Now(c))
    ensures Deadlines(Wake(c)) == (set x <- Deadlines(c) | Now(c) < x.1)
  {
    var n := Due(c);
    var a, b, o := At(c.current[..n], c.overflows), At(c.current[n..], c.overflows), At(c.overflow, c.overflows + 1);
    WakeParts(c);
    DueTimes(c);
    AtSplit(c.current, n, c.overflows);
    Separate(a, b, o, Now(c));
  }

  lemma DueTimes(c: Delays)
    requires Counted(c)
    ensures Due(c) <= |c.current|
    ensures forall x <- At(c.current[..Due(c)], c.overflows) :: x.1 <= Now(c)
    ensures forall x <- At(c.current[Due(c)..], c.overflows) :: Now(c) < x.1
    ensures forall x <- At(c.overflow, c.overflows + 1) :: Now(c) < x.1
  {
    DueSeparates(c);
    AtUpTo(c.current[..Due(c)], c.overflows, c.tick);
    AtPast(c.current[Due(c)..], c.overflows, c.tick);
    AtPast(c.overflow, c.overflows + 1, -1);
  }

  lemma WakeParts(c: Delays)
    ensures Due(c) <= |c.current|
    ensures Deadlines(Wake(c)) == At(c.current[Due(c)..], c.overflows) + At(c.overflow, c.overflows + 1)
  {
  }

  lemma AtUpTo(s: Delayed, epoch: nat, v: int)
    requires forall e <- s :: e.value <= v
    ensures forall x <- At(s, epoch) :: x.1 <= Epoch(epoch) + v
  {
  }

  lemma AtPast(s: Delayed, epoch: nat, v: int)
    requires forall e <- s :: v < e.value
    ensures forall x <- At(s, epoch) :: Epoch(epoch) + v < x.1
  {
  }

  lemma DueSeparates(c: Delays)
    requires Counted(c)
    ensures Due(c) <= |c.current|
    ensures forall e <- c.current[..Due(c)] :: e.value <= c.tick
    ensures forall e <- c.current[Due(c)..] :: c.tick < e.value
  {
    PlaceSeparates(c.current, c.tick);
  }

  lemma Separate(a: set<(Task, nat)>, b: set<(Task, nat)>, o: set<(Task, nat)>, now: nat)
    requires (forall x <- a :: x.1 <= now) && (forall x <- b :: now < x.1) && (forall x <- o :: now < x.1)
    ensures a == (set x <- a + b + o | x.1 <= now) && b + o == (set x <- a + b + o | now < x.1)
  {
  }

  /** A tick wakes exactly the sleepers whose deadline has come and leaves every other one as it was. */
  lemma TickRefines(d: Delays)
    requires DelayShape(d)
    ensures var (q, woken) := Tick(d);
            && Now(q) == Now(d) + 1
            && Deadlines(q) == (set x <- Deadlines(d) | Now(d) + 1 < x.1)
            && (forall t :: t in woken <==> exists x <- Deadlines(d) :: x.0 == t && x.1 <= Now(d) + 1)
  {
    var c := Count(d);
    CountShape(d);
    CountRefines(d);
    WakeRefines(c);
    OwnersAt(c.current[..Due(c)], c.overflows);
  }

  lemma OwnersAt(s: Delayed, epoch: nat)
    ensures forall t :: t in Owners(s) <==> exists x <- At(s, epoch) :: x.0 == t
  {
    forall t | t in Owners(s) ensures exists x <- At(s, epoch) :: x.0 == t {
      var i :| 0 <= i < |s| && Owners(s)[i] == t;
      assert s[i] in s;
      assert (s[i].owner, Epoch(epoch) + s[i].value) in At(s, epoch);
    }
    forall x | x in At(s, epoch) ensures x.0 in Owners(s) {
      var e :| e in s && x.0 == e.owner;
      var i :| 0 <= i < |s| && s[i] == e;
      assert Owners(s)[i] == x.0;
    }
  }

  /** Falling asleep for a number of ticks sets the deadline that many ticks from now. */
  lemma SleepRefines(d: Delays, t: Task, ticks: nat)
    requires d.tick < TICKS && ticks < TICKS
    ensures Deadlines(Sleep(d, t, ticks)) == Deadlines(d) + {(t, Now(d) + ticks)}
    ensures Now(Sleep(d, t, ticks)) == Now(d)
  {
    var e, x := Entry(t, AddTicks(d.tick, ticks)), (t, Now(d) + ticks);
    if e.value < d.tick {
      AtInsert(d.overflow, e, d.overflows + 1, x);
    } else {
      AtInsert(d.current, e, d.overflows, x);
    }
    OneMore(d, Sleep(d, t, ticks), x);
  }

  /** One more deadline on either list. */
  lemma OneMore(d: Delays, q: Delays, x: (Task, nat))
    requires d.overflows == q.overflows
    requires || (q.overflow == d.overflow && At(q.current, q.overflows) == At(d.current, d.overflows) + {x})
             || (q.current == d.current && At(q.overflow, q.overflows + 1) == At(d.overflow, d.overflows + 1) + {x})
    ensures Deadlines(q) == Deadlines(d) + {x}
  {
    AddOne(At(d.current, d.overflows), At(d.overflow, d.overflows + 1), x);
  }

  lemma AddOne(a: set<(Task, nat)>, b: set<(Task, nat)>, x: (Task, nat))
    ensures (a + {x}) + b == (a + b) + {x} == a + (b + {x})
  {
  }

  lemma ForgetRefines(d: Delays, t: Task)
    ensures Deadlines(Forget(d, t)) == (set x <- Deadlines(d) | x.0 != t)
  {
  }
}
