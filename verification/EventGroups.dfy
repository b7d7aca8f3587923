/** event_groups.c: waiting for any or all of a set of bits, and setting, clearing and meeting on them. */
module EventGroups {
  import opened Config

  type Bits = bv32

  const CONTROL_BYTES: Bits := 0xff000000
  const CLEAR_ON_EXIT: Bits := 0x01000000
  const UNBLOCKED_BY_SET: Bits := 0x02000000
  const WAIT_FOR_ALL: Bits := 0x04000000
  const IN_USE: Bits := 0x80000000

  /** A task on xTasksWaitingForBits: its event list item's value packs the bits and how it waits. */
  datatype Waiter = Waiter(task: Task, value: Bits)

  datatype Group = Group(bits: Bits, waiting: seq<Waiter>)

  function Waited(w: Waiter): Bits {
    w.value & !CONTROL_BYTES
  }

  predicate All(w: Waiter) {
    w.value & WAIT_FOR_ALL != 0
  }

  predicate ClearsOnExit(w: Waiter) {
    w.value & CLEAR_ON_EXIT != 0
  }

  /** The value vTaskPlaceOnUnorderedEventList stores. */
  function Pack(bits: Bits, clear: bool, all: bool): Bits {
    bits | (if clear then CLEAR_ON_EXIT else 0) | (if all then WAIT_FOR_ALL else 0) | IN_USE
  }

  /** Bits that leave the control byte alone. */
  predicate UserBits(b: Bits) {
    b & CONTROL_BYTES == 0
  }

  /** prvTestWaitCondition. */
  predicate Test(current: Bits, waited: Bits, all: bool) {
    if all then current & waited == waited else current & waited != 0
  }

  predicate Match(current: Bits, w: Waiter) {
    Test(current, Waited(w), All(w))
  }

  /** All of y's bits are in x. */
  predicate Holds(x: Bits, y: Bits) {
    x & y == y
  }

  predicate PartOf(c: Bits, waited: Bits) {
    c != 0 && Holds(waited, c)
  }

  predicate Some(c: Bits, current: Bits) {
    c & current != 0
  }

  /** What a condition means: no part of the bits waited for is missing altogether, or some part of them is there. */
  lemma TestExactly(current: Bits, waited: Bits)
    ensures Test(current, waited, true) <==> forall c | PartOf(c, waited) :: Some(c, current)
    ensures Test(current, waited, false) <==> exists c :: PartOf(c, waited) && Holds(current, c)
  {
    TestAllExactly(current, waited);
    TestAnyExactly(current, waited);
  }

  lemma TestAllExactly(current: Bits, waited: Bits)
    ensures Test(current, waited, true) <==> forall c | PartOf(c, waited) :: Some(c, current)
  {
    if Test(current, waited, true) {
      forall c | PartOf(c, waited) ensures Some(c, current) {
        PartThere(current, waited, c);
      }
    } else {
      MissingPart(current, waited);
      assert PartOf(waited & !current, waited) && !Some(waited & !current, current);
    }
  }

  lemma TestAnyExactly(current: Bits, waited: Bits)
    ensures Test(current, waited, false) <==> exists c :: PartOf(c, waited) && Holds(current, c)
  {
    if Test(current, waited, false) {
      ThePart(current, waited);
      assert PartOf(current & waited, waited);
    }
    if c :| PartOf(c, waited) && Holds(current, c) {
      PartHeld(current, waited, c);
    }
  }

  lemma MissingPart(current: Bits, waited: Bits)
    requires current & waited != waited
    ensures PartOf(waited & !current, waited) && !Some(waited & !current, current)
  {
    assert (waited & current) | (waited & !current) == waited;
    assert (waited & !current) & current == 0;
    assert waited & (waited & !current) == waited & !current;
  }

  lemma ThePart(current: Bits, waited: Bits)
    ensures Holds(waited, current & waited) && Holds(current, current & waited)
  {
  }

  lemma PartThere(current: Bits, waited: Bits, c: Bits)
    requires PartOf(c, waited) && current & waited == waited
    ensures Some(c, current)
  {
    assert (current & waited) & c == current & (waited & c);
  }

  lemma PartHeld(current: Bits, waited: Bits, c: Bits)
    requires PartOf(c, waited) && Holds(current, c)
    ensures Test(current, waited, false)
  {
    assert (current & waited) & c == c;
  }

  /** Packing loses nothing. */
  lemma PackRoundTrip(t: Task, bits: Bits, clear: bool, all: bool)
    requires UserBits(bits)
    ensures var w := Waiter(t, Pack(bits, clear, all));
            Waited(w) == bits && All(w) == all && ClearsOnExit(w) == clear
  {
  }

  /** Clearing bits satisfies nobody. */
  lemma TestIsMonotone(current: Bits, cleared: Bits, waited: Bits, all: bool)
    ensures Test(current & !cleared, waited, all) ==> waited == 0 || Test(current, waited, all)
  {
  }

  /** A waiter that waits for something, and not for what is there. */
  predicate Unmet(current: Bits, w: Waiter) {
    Waited(w) != 0 && !Match(current, w)
  }

  ghost predicate AllUnmet(current: Bits, ws: seq<Waiter>) {
    forall i | 0 <= i < |ws| :: Unmet(current, ws[i])
  }

  ghost predicate Inv(g: Group) {
    UserBits(g.bits) && AllUnmet(g.bits, g.waiting)
  }

  // ---- xEventGroupSetBits ----

  function Released(ws: seq<Waiter>, b: Bits): seq<Waiter> {
    if ws == [] then [] else (if Match(b, ws[0]) then [ws[0]] else []) + Released(ws[1..], b)
  }

  function Kept(ws: seq<Waiter>, b: Bits): seq<Waiter> {
    if ws == [] then [] else (if Match(b, ws[0]) then [] else [ws[0]]) + Kept(ws[1..], b)
  }

  /** The bits to clear, with those one more waiter asked to clear if it is released. */
  function Also(clear: Bits, w: Waiter, b: Bits): Bits {
    AddIf(Match(b, w) && ClearsOnExit(w), clear, Waited(w))
  }

  function AddIf(add: bool, x: Bits, y: Bits): Bits {
    if add then x | y else x
  }

  function Both(x: Bits, y: Bits): Bits {
    x | y
  }

  /** The bits the released waiters asked to clear, beside some already collected. */
  function ToClear(clear: Bits, ws: seq<Waiter>, b: Bits): Bits
    decreases ws
  {
    if ws == [] then clear else ToClear(Also(clear, ws[0], b), ws[1..], b)
  }

  /** Setting bits: the group afterwards, and who is released with which value. */
  function SetBits(g: Group, b: Bits): (Group, seq<Waiter>) {
    Walk(g.waiting, Both(g.bits, b))
  }

  /** The walk over the list once the bits are set. */
  function Walk(ws: seq<Waiter>, now: Bits): (Group, seq<Waiter>) {
    (Group(now & !ToClear(0, ws, now), Kept(ws, now)), Released(ws, now))
  }

  lemma {:induction false} ReleasedCount(ws: seq<Waiter>, b: Bits, w: Waiter)
    ensures multiset(Released(ws, b))[w] == if Match(b, w) then multiset(ws)[w] else 0
  {
    if ws != [] {
      ReleasedCount(ws[1..], b, w);
      assert ws == [ws[0]] + ws[1..];
    }
  }

  lemma {:induction false} KeptCount(ws: seq<Waiter>, b: Bits, w: Waiter)
    ensures multiset(Kept(ws, b))[w] == if Match(b, w) then 0 else multiset(ws)[w]
  {
    if ws != [] {
      KeptCount(ws[1..], b, w);
      assert ws == [ws[0]] + ws[1..];
    }
  }

  lemma AlsoSwaps(clear: Bits, v: Waiter, w: Waiter, b: Bits)
    ensures Also(Also(clear, v, b), w, b) == Also(Also(clear, w, b), v, b)
  {
  }

  /** A waiter counts the same wherever it stands in the list. */
  lemma {:induction false} ToClearAnywhere(clear: Bits, ws: seq<Waiter>, b: Bits, i: nat)
    requires i < |ws|
    ensures ToClear(clear, ws, b) == ToClear(Also(clear, ws[i], b), ws[..i] + ws[i + 1..], b)
    decreases i
  {
    var rest := ws[..i] + ws[i + 1..];
    if i == 0 {
      assert rest == ws[1..];
    } else {
      var tail := ws[1..];
      ToClearAnywhere(Also(clear, ws[0], b), tail, b, i - 1);
      assert rest[1..] == tail[..i - 1] + tail[i..];
      AlsoSwaps(clear, ws[0], ws[i], b);
    }
  }

  lemma {:induction false} ToClearIgnoresOrder(clear: Bits, ws: seq<Waiter>, vs: seq<Waiter>, b: Bits)
    requires multiset(ws) == multiset(vs)
    ensures ToClear(clear, ws, b) == ToClear(clear, vs, b)
    decreases ws
  {
    if ws == [] {
      assert |vs| == |multiset(vs)| == 0;
    } else {
      assert ws[0] in multiset(vs);
      var i :| 0 <= i < |vs| && vs[i] == ws[0];
      var rest := vs[..i] + vs[i + 1..];
      assert ws == [ws[0]] + ws[1..] && vs == vs[..i] + [vs[i]] + vs[i + 1..];
      assert multiset(ws[1..]) == multiset(rest) by {
        Cancel(multiset{ws[0]}, multiset(ws[1..]), multiset(rest));
      }
      ToClearIgnoresOrder(Also(clear, ws[0], b), ws[1..], rest, b);
      ToClearAnywhere(clear, vs, b, i);
    }
  }

  lemma ReleasedIgnoresOrder(ws: seq<Waiter>, vs: seq<Waiter>, b: Bits)
    requires multiset(ws) == multiset(vs)
    ensures multiset(Released(ws, b)) == multiset(Released(vs, b))
  {
    forall w ensures multiset(Released(ws, b))[w] == multiset(Released(vs, b))[w] {
      ReleasedCount(ws, b, w);
      ReleasedCount(vs, b, w);
    }
  }

  lemma KeptIgnoresOrder(ws: seq<Waiter>, vs: seq<Waiter>, b: Bits)
    requires multiset(ws) == multiset(vs)
    ensures multiset(Kept(ws, b)) == multiset(Kept(vs, b))
  {
    forall w ensures multiset(Kept(ws, b))[w] == multiset(Kept(vs, b))[w] {
      KeptCount(ws, b, w);
      KeptCount(vs, b, w);
    }
  }

  /** Whom one set call releases and which bits it clears do not depend on the order of the list. */
  lemma WalkIgnoresOrder(ws: seq<Waiter>, vs: seq<Waiter>, now: Bits)
    requires multiset(ws) == multiset(vs)
    ensures var ((g, r), (h, s)) := (Walk(ws, now), Walk(vs, now));
            g.bits == h.bits && multiset(r) == multiset(s) && multiset(g.waiting) == multiset(h.waiting)
  {
    ToClearIgnoresOrder(0, ws, vs, now);
    ReleasedIgnoresOrder(ws, vs, now);
    KeptIgnoresOrder(ws, vs, now);
  }

  lemma Cancel(a: multiset<Waiter>, b: multiset<Waiter>, c: multiset<Waiter>)
    requires a + b == a + c
    ensures b == c
  {
    forall w ensures b[w] == c[w] {
      assert (a + b)[w] == (a + c)[w];
    }
  }

  // ---- which bits a set clears ----

  /** The waiter is released and asked for its bits to be cleared. */
  predicate AsksToClear(w: Waiter, now: Bits) {
    Match(now, w) && ClearsOnExit(w)
  }

  /** c holds every bit that a released waiter asked to clear. */
  ghost predicate Covers(c: Bits, ws: seq<Waiter>, now: Bits) {
    forall i | 0 <= i < |ws| && AsksToClear(ws[i], now) :: Holds(c, Waited(ws[i]))
  }

  /** c holds them and no others. */
  ghost predicate CoversExactly(c: Bits, ws: seq<Waiter>, now: Bits) {
    Covers(c, ws, now) && forall x | Covers(x, ws, now) :: Holds(x, c)
  }

  lemma OrHolds(x: Bits, y: Bits)
    ensures Holds(x | y, x) && Holds(x | y, y)
  {
  }

  lemma HoldsOr(z: Bits, x: Bits, y: Bits)
    requires Holds(z, x) && Holds(z, y)
    ensures Holds(z, x | y)
  {
    assert z & (x | y) == (z & x) | (z & y);
  }

  lemma HoldsSelf(x: Bits)
    ensures Holds(x, x)
  {
  }

  lemma AddIfHolds(add: bool, x: Bits, y: Bits)
    ensures Holds(AddIf(add, x, y), x) && (add ==> Holds(AddIf(add, x, y), y))
  {
    if add {
      OrHolds(x, y);
    } else {
      HoldsSelf(x);
    }
  }

  lemma HoldsAddIf(add: bool, x: Bits, y: Bits, z: Bits)
    requires Holds(z, x) && (add ==> Holds(z, y))
    ensures Holds(z, AddIf(add, x, y))
  {
    if add {
      HoldsOr(z, x, y);
    }
  }

  lemma HoldsOn(x: Bits, y: Bits, z: Bits)
    requires Holds(x, y) && Holds(y, z)
    ensures Holds(x, z)
  {
  }

  lemma CoversMore(r: Bits, c: Bits, ws: seq<Waiter>, now: Bits)
    requires ws != [] && Holds(r, c) && Covers(r, ws[1..], now) && (AsksToClear(ws[0], now) ==> Holds(c, Waited(ws[0])))
    ensures Covers(r, ws, now)
  {
    if AsksToClear(ws[0], now) {
      HoldsOn(r, c, Waited(ws[0]));
    }
    forall i | 0 < i < |ws| && AsksToClear(ws[i], now) ensures Holds(r, Waited(ws[i])) {
      assert ws[1..][i - 1] == ws[i];
    }
  }

  lemma {:induction false} ToClearCovers(clear: Bits, ws: seq<Waiter>, now: Bits)
    ensures Holds(ToClear(clear, ws, now), clear) && Covers(ToClear(clear, ws, now), ws, now)
    decreases ws
  {
    if ws == [] {
      HoldsSelf(clear);
    } else {
      var c := Also(clear, ws[0], now);
      var r := ToClear(c, ws[1..], now);
      ToClearCovers(c, ws[1..], now);
      AddIfHolds(AsksToClear(ws[0], now), clear, Waited(ws[0]));
      HoldsOn(r, c, clear);
      CoversMore(r, c, ws, now);
    }
  }

  lemma {:induction false} ToClearLeast(clear: Bits, ws: seq<Waiter>, now: Bits, x: Bits)
    requires Holds(x, clear) && Covers(x, ws, now)
    ensures Holds(x, ToClear(clear, ws, now))
    decreases ws
  {
    if ws != [] {
      HoldsAddIf(AsksToClear(ws[0], now), clear, Waited(ws[0]), x);
      assert Covers(x, ws[1..], now) by {
        assert forall i | 0 <= i < |ws[1..]| :: ws[1..][i] == ws[i + 1];
      }
      ToClearLeast(Also(clear, ws[0], now), ws[1..], now, x);
    }
  }

  lemma HoldsNothing(x: Bits)
    ensures Holds(x, 0)
  {
  }

  lemma ToClearExactly(ws: seq<Waiter>, now: Bits)
    ensures CoversExactly(ToClear(0, ws, now), ws, now)
  {
    ToClearCovers(0, ws, now);
    forall x | Covers(x, ws, now) ensures Holds(x, ToClear(0, ws, now)) {
      HoldsNothing(x);
      ToClearLeast(0, ws, now, x);
    }
  }

  /** Of the bits as they are once set, left are those no released waiter asked to clear: the bits such a waiter waited
      for are gone, and whatever lies outside all of them stays. */
  ghost predicate LeftExactly(ws: seq<Waiter>, now: Bits, left: Bits) {
    && Holds(now, left)
    && (forall i | 0 <= i < |ws| && AsksToClear(ws[i], now) :: left & Waited(ws[i]) == 0)
    && (forall x | Covers(x, ws, now) :: Holds(left, now & !x))
  }

  lemma MaskIn(now: Bits, c: Bits)
    ensures Holds(now, now & !c)
  {
  }

  lemma MaskOff(now: Bits, c: Bits, x: Bits)
    requires Holds(c, x)
    ensures now & !c & x == 0
  {
    assert now & !c & (c & x) == 0;
  }

  lemma MaskLess(now: Bits, c: Bits, x: Bits)
    requires Holds(x, c)
    ensures Holds(now & !c, now & !x)
  {
    assert !(x & c) & !x == !x;
    assert (now & !c) & (now & !x) == now & (!c & !x);
  }

  lemma LeavesExactly(ws: seq<Waiter>, now: Bits, c: Bits)
    requires CoversExactly(c, ws, now)
    ensures LeftExactly(ws, now, now & !c)
  {
    MaskIn(now, c);
    forall i | 0 <= i < |ws| && AsksToClear(ws[i], now) ensures now & !c & Waited(ws[i]) == 0 {
      MaskOff(now, c, Waited(ws[i]));
    }
    forall x | Covers(x, ws, now) ensures Holds(now & !c, now & !x) {
      MaskLess(now, c, x);
    }
  }

  /** What xEventGroupSetBits does, from the waiters alone. */
  ghost predicate SetExactly(g: Group, b: Bits, q: Group, released: seq<Waiter>) {
    var now := Both(g.bits, b);
    && LeftExactly(g.waiting, now, q.bits)
    && (forall w :: multiset(released)[w] == if Match(now, w) then multiset(g.waiting)[w] else 0)
    && (forall w :: multiset(q.waiting)[w] == if Match(now, w) then 0 else multiset(g.waiting)[w])
  }

  lemma WalkExactly(ws: seq<Waiter>, now: Bits)
    ensures LeftExactly(ws, now, Walk(ws, now).0.bits)
    ensures forall w :: multiset(Walk(ws, now).1)[w] == if Match(now, w) then multiset(ws)[w] else 0
    ensures forall w :: multiset(Walk(ws, now).0.waiting)[w] == if Match(now, w) then 0 else multiset(ws)[w]
  {
    ToClearExactly(ws, now);
    LeavesExactly(ws, now, ToClear(0, ws, now));
    forall w ensures multiset(Walk(ws, now).1)[w] == if Match(now, w) then multiset(ws)[w] else 0 {
      ReleasedCount(ws, now, w);
    }
    forall w ensures multiset(Walk(ws, now).0.waiting)[w] == if Match(now, w) then 0 else multiset(ws)[w] {
      KeptCount(ws, now, w);
    }
  }

  lemma SetsExactly(g: Group, b: Bits)
    ensures SetExactly(g, b, SetBits(g, b).0, SetBits(g, b).1)
  {
    WalkExactly(g.waiting, Both(g.bits, b));
  }

  /** With no such waiter every bit stays. */
  lemma NobodyAsks(ws: seq<Waiter>, now: Bits, left: Bits)
    requires LeftExactly(ws, now, left) && forall w <- ws :: !AsksToClear(w, now)
    ensures left == now
  {
    assert Covers(0, ws, now);
    Nothing(now, left);
  }

  lemma Nothing(now: Bits, left: Bits)
    requires Holds(now, left) && Holds(left, now & !0)
    ensures left == now
  {
  }

  // ---- every step ----

  datatype Step =
    | Set(bits: Bits)
    | Clear(bits: Bits)
    | Wait(task: Task, waited: Bits, clear: bool, all: bool, block: bool)
    | Sync(task: Task, bits: Bits, waited: Bits, block: bool)
    | TimeOut(task: Task)                            // the tick takes a waiter off the list
    | Recheck(waited: Bits, clear: bool, all: bool)  // what that waiter does when it runs

  predicate Enabled(a: Step) {
    match a
    case Set(b) => UserBits(b)
    case Clear(b) => UserBits(b)
    case Wait(_, waited, _, _, _) => UserBits(waited) && waited != 0
    case Sync(_, b, waited, _) => UserBits(b) && UserBits(waited) && waited != 0
    case _ => true
  }

  function ClearBits(g: Group, b: Bits): Group {
    g.(bits := g.bits & !b)
  }

  function Place(g: Group, t: Task, waited: Bits, clear: bool, all: bool): Group {
    g.(waiting := g.waiting + [Waiter(t, Pack(waited, clear, all))])
  }

  function DropTask(ws: seq<Waiter>, t: Task): seq<Waiter> {
    if ws == [] then [] else (if ws[0].task == t then [] else [ws[0]]) + DropTask(ws[1..], t)
  }

  /** xEventGroupWaitBits up to the point where it blocks or returns. */
  function WaitBits(g: Group, t: Task, waited: Bits, clear: bool, all: bool, block: bool): Group {
    if Test(g.bits, waited, all) then (if clear then ClearBits(g, waited) else g)
    else if block then Place(g, t, waited, clear, all)
    else g
  }

  /** xEventGroupSync up to the point where it blocks or returns. */
  function Meet(g: Group, t: Task, b: Bits, waited: Bits, block: bool): Group {
    MeetOn(g.waiting, Both(g.bits, b), t, waited, block)
  }

  function MeetOn(ws: seq<Waiter>, now: Bits, t: Task, waited: Bits, block: bool): Group {
    MeetFrom(Walk(ws, now).0, now, t, waited, block)
  }

  function MeetFrom(m: Group, now: Bits, t: Task, waited: Bits, block: bool): Group {
    if Test(now, waited, true) then ClearBits(m, waited)
    else if block then Place(m, t, waited, true, true)
    else m
  }

  function Next(g: Group, a: Step): Group {
    match a
    case Set(b) => SetBits(g, b).0
    case Clear(b) => ClearBits(g, b)
    case Wait(t, waited, clear, all, block) => WaitBits(g, t, waited, clear, all, block)
    case Sync(t, b, waited, block) => Meet(g, t, b, waited, block)
    case TimeOut(t) => g.(waiting := DropTask(g.waiting, t))
    case Recheck(waited, clear, all) => if Test(g.bits, waited, all) && clear then ClearBits(g, waited) else g
  }

  // ---- what each step does ----

  predicate OnlyCleared(was: Bits, now: Bits, b: Bits) {
    now & b == 0 && now | (was & b) == was
  }

  lemma ClearsOnly(bits: Bits, b: Bits)
    ensures OnlyCleared(bits, bits & !b, b)
  {
  }

  /** The task has joined the list, waiting as asked. */
  ghost predicate Joins(ws: seq<Waiter>, vs: seq<Waiter>, t: Task, waited: Bits, clear: bool, all: bool) {
    && |vs| == |ws| + 1 && vs[..|ws|] == ws
    && var w := vs[|ws|];
       w.task == t && Waited(w) == waited && ClearsOnExit(w) == clear && All(w) == all
  }

  /** A wait that is met at once clears its bits exactly if asked to; one that is not joins the list if it may block. */
  ghost predicate WaitExactly(g: Group, t: Task, waited: Bits, clear: bool, all: bool, block: bool, q: Group) {
    if Test(g.bits, waited, all) then
      q.waiting == g.waiting && if clear then OnlyCleared(g.bits, q.bits, waited) else q.bits == g.bits
    else
      q.bits == g.bits
      && if block then Joins(g.waiting, q.waiting, t, waited, clear, all) else q.waiting == g.waiting
  }

  /** A rendezvous sets its bits, which leads to m, and then clears those it waited for if all were set. */
  ghost predicate MeetExactly(now: Bits, t: Task, waited: Bits, block: bool, m: Group, q: Group) {
    if Test(now, waited, true) then q.waiting == m.waiting && OnlyCleared(m.bits, q.bits, waited)
    else
      q.bits == m.bits
      && if block then Joins(m.waiting, q.waiting, t, waited, true, true) else q.waiting == m.waiting
  }

  ghost predicate SyncExactly(g: Group, t: Task, b: Bits, waited: Bits, block: bool, q: Group) {
    exists m, released :: SetExactly(g, b, m, released) && MeetExactly(Both(g.bits, b), t, waited, block, m, q)
  }

  ghost predicate SetsOnly(g: Group, b: Bits, q: Group) {
    exists released :: SetExactly(g, b, q, released)
  }

  ghost predicate ClearExactly(g: Group, b: Bits, q: Group) {
    q.waiting == g.waiting && OnlyCleared(g.bits, q.bits, b)
  }

  ghost predicate RecheckExactly(g: Group, waited: Bits, clear: bool, all: bool, q: Group) {
    if Test(g.bits, waited, all) && clear then ClearExactly(g, waited, q) else q == g
  }

  ghost predicate TimeOutExactly(g: Group, t: Task, q: Group) {
    q.bits == g.bits && forall w :: multiset(q.waiting)[w] == if w.task == t then 0 else multiset(g.waiting)[w]
  }

  ghost predicate Does(g: Group, a: Step, q: Group) {
    match a
    case Set(b) => SetsOnly(g, b, q)
    case Clear(b) => ClearExactly(g, b, q)
    case Wait(t, waited, clear, all, block) => WaitExactly(g, t, waited, clear, all, block, q)
    case Sync(t, b, waited, block) => SyncExactly(g, t, b, waited, block, q)
    case TimeOut(t) => TimeOutExactly(g, t, q)
    case Recheck(waited, clear, all) => RecheckExactly(g, waited, clear, all, q)
  }

  lemma PlaceJoins(g: Group, t: Task, waited: Bits, clear: bool, all: bool)
    requires UserBits(waited)
    ensures Joins(g.waiting, Place(g, t, waited, clear, all).waiting, t, waited, clear, all)
  {
    PackRoundTrip(t, waited, clear, all);
  }

  lemma WaitsExactly(g: Group, t: Task, waited: Bits, clear: bool, all: bool, block: bool)
    requires UserBits(waited)
    ensures WaitExactly(g, t, waited, clear, all, block, WaitBits(g, t, waited, clear, all, block))
  {
    ClearsOnly(g.bits, waited);
    PlaceJoins(g, t, waited, clear, all);
  }

  lemma MeetsExactly(m: Group, now: Bits, t: Task, waited: Bits, block: bool)
    requires UserBits(waited)
    ensures MeetExactly(now, t, waited, block, m, MeetFrom(m, now, t, waited, block))
  {
    if Test(now, waited, true) {
      ClearsExactly(m, waited);
    } else {
      PlaceJoins(m, t, waited, true, true);
    }
  }

  lemma SyncsExactly(g: Group, t: Task, b: Bits, waited: Bits, block: bool)
    requires UserBits(waited)
    ensures SyncExactly(g, t, b, waited, block, Meet(g, t, b, waited, block))
  {
    var (m, released) := SetBits(g, b);
    SetsExactly(g, b);
    MeetsExactly(m, Both(g.bits, b), t, waited, block);
    assert SetExactly(g, b, m, released);
  }

  lemma SetsNothingElse(g: Group, b: Bits)
    ensures SetsOnly(g, b, SetBits(g, b).0)
  {
    SetsExactly(g, b);
  }

  lemma ClearsExactly(g: Group, b: Bits)
    ensures ClearExactly(g, b, ClearBits(g, b))
  {
    ClearsOnly(g.bits, b);
  }

  lemma TimeOutsExactly(g: Group, t: Task)
    ensures TimeOutExactly(g, t, g.(waiting := DropTask(g.waiting, t)))
  {
    forall w ensures multiset(DropTask(g.waiting, t))[w] == if w.task == t then 0 else multiset(g.waiting)[w] {
      DropExactly(g.waiting, t, w);
    }
  }

  lemma {:induction false} DropExactly(ws: seq<Waiter>, t: Task, w: Waiter)
    ensures multiset(DropTask(ws, t))[w] == if w.task == t then 0 else multiset(ws)[w]
  {
    if ws != [] {
      DropExactly(ws[1..], t, w);
      assert ws == [ws[0]] + ws[1..];
    }
  }

  lemma WaitStepExactly(g: Group, a: Step)
    requires Enabled(a) && a.Wait?
    ensures Does(g, a, Next(g, a))
  {
    WaitsExactly(g, a.task, a.waited, a.clear, a.all, a.block);
  }

  lemma SyncStepExactly(g: Group, a: Step)
    requires Enabled(a) && a.Sync?
    ensures Does(g, a, Next(g, a))
  {
    SyncsExactly(g, a.task, a.bits, a.waited, a.block);
  }

  lemma BitStepExactly(g: Group, a: Step)
    requires a.Set? || a.Clear? || a.Recheck?
    ensures Does(g, a, Next(g, a))
  {
    match a
    case Set(b) => SetsNothingElse(g, b);
    case Clear(b) => ClearsExactly(g, b);
    case Recheck(waited, _, _) => ClearsExactly(g, waited);
  }

  /** Every step changes the bits and the list as described, and in no other way. */
  lemma NextExactly(g: Group, a: Step)
    requires Enabled(a)
    ensures Does(g, a, Next(g, a))
  {
    if a.Wait? {
      WaitStepExactly(g, a);
    } else if a.Sync? {
      SyncStepExactly(g, a);
    } else if a.TimeOut? {
      TimeOutsExactly(g, a.task);
    } else {
      BitStepExactly(g, a);
    }
  }

  lemma StillAllUnmet(current: Bits, cleared: Bits, ws: seq<Waiter>)
    requires AllUnmet(current, ws)
    ensures AllUnmet(current & !cleared, ws)
  {
  }

  lemma ClearKeeps(g: Group, b: Bits)
    requires Inv(g)
    ensures Inv(ClearBits(g, b))
  {
    StillUserBits(g.bits, b);
    StillAllUnmet(g.bits, b, g.waiting);
  }

  /** Those kept are the ones the new bits do not satisfy. */
  lemma {:induction false} KeptUnmet(ws: seq<Waiter>, was: Bits, now: Bits)
    requires AllUnmet(was, ws)
    ensures AllUnmet(now, Kept(ws, now))
  {
    if ws != [] {
      assert Unmet(was, ws[0]);
      assert AllUnmet(was, ws[1..]) by {
        assert forall i | 0 <= i < |ws[1..]| :: ws[1..][i] == ws[i + 1];
      }
      KeptUnmet(ws[1..], was, now);
    }
  }

  lemma {:induction false} DropUnmet(ws: seq<Waiter>, b: Bits, t: Task)
    requires AllUnmet(b, ws)
    ensures AllUnmet(b, DropTask(ws, t))
  {
    if ws != [] {
      assert Unmet(b, ws[0]);
      assert AllUnmet(b, ws[1..]) by {
        assert forall i | 0 <= i < |ws[1..]| :: ws[1..][i] == ws[i + 1];
      }
      DropUnmet(ws[1..], b, t);
    }
  }

  lemma StillUserBits(x: Bits, b: Bits)
    requires UserBits(x)
    ensures UserBits(x & !b)
  {
  }

  lemma BothUserBits(x: Bits, b: Bits)
    requires UserBits(x) && UserBits(b)
    ensures UserBits(Both(x, b))
  {
  }

  lemma SetKeeps(g: Group, b: Bits)
    requires Inv(g) && UserBits(b)
    ensures Inv(SetBits(g, b).0)
  {
    BothUserBits(g.bits, b);
    WalkKeeps(g.waiting, g.bits, Both(g.bits, b));
  }

  lemma WalkKeeps(ws: seq<Waiter>, was: Bits, now: Bits)
    requires AllUnmet(was, ws) && UserBits(now)
    ensures Inv(Walk(ws, now).0)
  {
    KeptUnmet(ws, was, now);
    StillUserBits(now, ToClear(0, ws, now));
    StillAllUnmet(now, ToClear(0, ws, now), Kept(ws, now));
  }

  lemma PlaceKeeps(g: Group, t: Task, waited: Bits, clear: bool, all: bool)
    requires Inv(g) && UserBits(waited) && waited != 0 && !Test(g.bits, waited, all)
    ensures Inv(Place(g, t, waited, clear, all))
  {
    PackRoundTrip(t, waited, clear, all);
    assert Unmet(g.bits, Waiter(t, Pack(waited, clear, all)));
  }

  lemma MeetKeeps(ws: seq<Waiter>, was: Bits, now: Bits, t: Task, waited: Bits, block: bool)
    requires AllUnmet(was, ws) && UserBits(now) && UserBits(waited) && waited != 0
    ensures Inv(MeetOn(ws, now, t, waited, block))
  {
    WalkKeeps(ws, was, now);
    var g := Walk(ws, now).0;
    if Test(now, waited, true) {
      ClearKeeps(g, waited);
    } else {
      TestIsMonotone(now, ToClear(0, ws, now), waited, true);
      assert !Test(g.bits, waited, true);
      PlaceKeeps(g, t, waited, true, true);
    }
  }

  lemma NextKeeps(g: Group, a: Step)
    requires Inv(g) && Enabled(a)
    ensures Inv(Next(g, a))
  {
    match a
    case Set(b) => SetKeeps(g, b);
    case Clear(b) => ClearKeeps(g, b);
    case Wait(t, waited, clear, all, block) => WaitKeeps(g, t, waited, clear, all, block);
    case Sync(t, b, waited, block) => SyncKeeps(g, t, b, waited, block);
    case TimeOut(t) => DropKeeps(g, t);
    case Recheck(waited, clear, all) => ClearKeeps(g, waited);
  }

  lemma SyncKeeps(g: Group, t: Task, b: Bits, waited: Bits, block: bool)
    requires Inv(g) && UserBits(b) && UserBits(waited) && waited != 0
    ensures Inv(Meet(g, t, b, waited, block))
  {
    BothUserBits(g.bits, b);
    MeetKeeps(g.waiting, g.bits, Both(g.bits, b), t, waited, block);
  }

  lemma DropKeeps(g: Group, t: Task)
    requires Inv(g)
    ensures Inv(g.(waiting := DropTask(g.waiting, t)))
  {
    DropUnmet(g.waiting, g.bits, t);
  }

  lemma WaitKeeps(g: Group, t: Task, waited: Bits, clear: bool, all: bool, block: bool)
    requires Inv(g) && UserBits(waited) && waited != 0
    ensures Inv(WaitBits(g, t, waited, clear, all, block))
  {
    ClearKeeps(g, waited);
    if !Test(g.bits, waited, all) {
      PlaceKeeps(g, t, waited, clear, all);
    }
  }

  function Run(g: Group, steps: seq<Step>): Group
    decreases steps
  {
    if steps == [] then g else Run(Next(g, steps[0]), steps[1..])
  }

  lemma {:induction false} RunKeeps(g: Group, steps: seq<Step>)
    requires Inv(g) && forall i | 0 <= i < |steps| :: Enabled(steps[i])
    ensures Inv(Run(g, steps))
    decreases steps
  {
    if steps != [] {
      NextKeeps(g, steps[0]);
      RunKeeps(Next(g, steps[0]), steps[1..]);
    }
  }

  /** However tasks set, clear, wait, meet and time out, no task is left waiting for bits that are set. */
  lemma NoSatisfiedWaiter(steps: seq<Step>)
    requires forall i | 0 <= i < |steps| :: Enabled(steps[i])
    ensures var g := Run(Group(0, []), steps);
            forall i | 0 <= i < |g.waiting| :: !Test(g.bits, Waited(g.waiting[i]), All(g.waiting[i]))
  {
    assert Inv(Group(0, []));
    RunKeeps(Group(0, []), steps);
  }

  /** What a waiter released at the given bits is told, without the mark that it was a set that woke it. */
  function Told(now: Bits): Bits {
    (now | UNBLOCKED_BY_SET) & !CONTROL_BYTES
  }

  /** All these are told bits that meet their conditions. */
  ghost predicate AllMet(now: Bits, released: seq<Waiter>) {
    forall w <- released :: Match(Told(now), w)
  }

  /** A released waiter is told bits that meet its condition. */
  lemma {:induction false} ReleasedAreSatisfied(ws: seq<Waiter>, now: Bits)
    requires UserBits(now)
    ensures AllMet(now, Released(ws, now))
  {
    ToldBits(now);
    if ws != [] {
      ReleasedAreSatisfied(ws[1..], now);
    }
  }

  ghost predicate SetMeets(g: Group, b: Bits, released: seq<Waiter>) {
    AllMet(Both(g.bits, b), released)
  }

  lemma SetSatisfies(g: Group, b: Bits)
    requires UserBits(g.bits) && UserBits(b)
    ensures SetMeets(g, b, SetBits(g, b).1)
  {
    BothUserBits(g.bits, b);
    ReleasedAreSatisfied(g.waiting, Both(g.bits, b));
  }

  lemma ToldBits(now: Bits)
    requires UserBits(now)
    ensures Told(now) == now
  {
  }

  /** How far a walk over ws has come: left is still to be visited. */
  ghost predicate Walked(ws: seq<Waiter>, now: Bits, left: seq<Waiter>, kept: seq<Waiter>,
                         released: seq<Waiter>, clear: Bits)
  {
    && kept + Kept(left, now) == Kept(ws, now)
    && released + Released(left, now) == Released(ws, now)
    && ToClear(clear, left, now) == ToClear(0, ws, now)
  }

  lemma WalkNext(ws: seq<Waiter>, now: Bits, left: seq<Waiter>, kept: seq<Waiter>, released: seq<Waiter>, clear: Bits)
    requires left != [] && Walked(ws, now, left, kept, released, clear)
    ensures var m, w := Match(now, left[0]), [left[0]];
            Walked(ws, now, left[1..], kept + (if m then [] else w), released + (if m then w else []),
                   Also(clear, left[0], now))
  {
  }

  /** The first waiter left is unlinked, or passed over. */
  lemma Moves(kept: seq<Waiter>, left: seq<Waiter>)
    requires left != []
    ensures var all, i := kept + left, |kept|;
            && all[i] == left[0] && all[..i] + all[i + 1..] == kept + left[1..]
            && all == kept + [left[0]] + left[1..]
  {
  }

  lemma Nobody(kept: seq<Waiter>, released: seq<Waiter>)
    ensures kept + [] == kept && released + [] == released
  {
  }

  lemma WalkDone(ws: seq<Waiter>, now: Bits, kept: seq<Waiter>, released: seq<Waiter>, clear: Bits)
    requires Walked(ws, now, [], kept, released, clear)
    ensures Walk(ws, now) == (Group(now & !clear, kept), released)
  {
    assert kept + [] == kept && released + [] == released;
  }

  // ---- the same in the source's own form ----

  class EventGroup {
    var eventBits: Bits
    var tasksWaiting: seq<Waiter>

    ghost function View(): Group
      reads this
    {
      Group(eventBits, tasksWaiting)
    }

    /** The loop of xEventGroupSetBits: unlink the waiters that match and collect the bits they asked to clear, and no
        others. */
    method WalkList() returns (toClear: Bits, released: seq<Waiter>)
      modifies `tasksWaiting
      ensures (Group(eventBits & !toClear, tasksWaiting), released) == Walk(old(tasksWaiting), eventBits)
      ensures LeftExactly(old(tasksWaiting), eventBits, eventBits & !toClear)
    {
      WalkExactly(tasksWaiting, eventBits);
      toClear, released := UnlinkMatching();
    }

    method UnlinkMatching() returns (toClear: Bits, released: seq<Waiter>)
      modifies `tasksWaiting
      ensures (Group(eventBits & !toClear, tasksWaiting), released) == Walk(old(tasksWaiting), eventBits)
    {
      ghost var ws, left, kept := tasksWaiting, tasksWaiting, [];
      var i := 0;
      toClear, released := 0, [];
      while i < |tasksWaiting|
        invariant i == |kept| && tasksWaiting == kept + left
        invariant Walked(ws, eventBits, left, kept, released, toClear)
        decreases |left|
      {
        var w := tasksWaiting[i];
        WalkNext(ws, eventBits, left, kept, released, toClear);
        Moves(kept, left);
        Nobody(kept, released);
        var matched := Match(eventBits, w);
        toClear := AddIf(matched && ClearsOnExit(w), toClear, Waited(w));
        if matched {
          released := released + [w];
          tasksWaiting := tasksWaiting[..i] + tasksWaiting[i + 1..];
        } else {
          kept := kept + [w];
          i := i + 1;
        }
        left := left[1..];
      }
      WalkDone(ws, eventBits, kept, released, toClear);
    }

    /** Set bits, walk the list, and clear what the released waiters asked to clear. */
    method SetAndWalk(b: Bits) returns (released: seq<Waiter>)
      modifies this
      ensures (View(), released) == SetBits(old(View()), b)
    {
      eventBits := eventBits | b;
      var toClear;
      toClear, released := WalkList();
      eventBits := eventBits & !toClear;
    }

    /** vTaskPlaceOnUnorderedEventList. */
    method PlaceOnList(t: Task, waited: Bits, clear: bool, all: bool)
      modifies `tasksWaiting
      ensures View() == Place(old(View()), t, waited, clear, all)
    {
      tasksWaiting := tasksWaiting + [Waiter(t, Pack(waited, clear, all))];
    }

    method Clear(b: Bits)
      modifies `eventBits
      ensures View() == ClearBits(old(View()), b)
    {
      eventBits := eventBits & !b;
    }

    method TestOrPlace(t: Task, waited: Bits, clear: bool, all: bool, block: bool) returns (told: Bits)
      modifies this
      ensures View() == WaitBits(old(View()), t, waited, clear, all, block) && told == old(eventBits)
    {
      told := eventBits;
      if Test(eventBits, waited, all) {
        if clear {
          Clear(waited);
        }
      } else if block {
        PlaceOnList(t, waited, clear, all);
      }
    }

    /** xEventGroupSync once the task's own bits are set. */
    method Rendezvous(ghost ws: seq<Waiter>, now: Bits, t: Task, waited: Bits, block: bool) returns (told: Bits)
      requires View() == Walk(ws, now).0
      modifies this
      ensures View() == MeetOn(ws, now, t, waited, block)
      ensures told == ToldOn(ws, now, waited)
    {
      told := eventBits;
      if Test(now, waited, true) {
        told := now;
        eventBits := eventBits & !waited;
      } else if block {
        PlaceOnList(t, waited, true, true);
      }
    }

    method SetAndMeet(t: Task, b: Bits, waited: Bits, block: bool) returns (told: Bits)
      modifies this
      ensures View() == Meet(old(View()), t, b, waited, block)
      ensures told == ToldBy(old(View()), b, waited)
    {
      ghost var ws := tasksWaiting;
      var now := Both(eventBits, b);
      var released := SetAndWalk(b);
      told := Rendezvous(ws, now, t, waited, block);
    }

    /** The bits leave the control byte alone, and no task waits for bits that are set. */
    ghost predicate Valid()
      reads this
    {
      Inv(View())
    }

    /** xEventGroupSetBits leaves no satisfied waiter, and tells every released one bits that satisfy it; of the bits it
        clears exactly those a released waiter asked it to, and answers what is left. */
    method SetEventBits(b: Bits) returns (told: Bits, released: seq<Waiter>)
      requires Valid() && UserBits(b)
      modifies this
      ensures Valid() && (View(), released) == SetBits(old(View()), b) && told == eventBits
      ensures SetMeets(old(View()), b, released) && SetExactly(old(View()), b, View(), released)
    {
      ghost var g := View();
      SetKeeps(g, b);
      SetSatisfies(g, b);
      SetsExactly(g, b);
      released := SetAndWalk(b);
      told := eventBits;
    }

    /** xEventGroupWaitBits until it blocks or returns the bits it was told. */
    method WaitForBits(t: Task, waited: Bits, clear: bool, all: bool, block: bool) returns (told: Bits)
      requires Valid() && UserBits(waited) && waited != 0
      modifies this
      ensures Valid() && View() == WaitBits(old(View()), t, waited, clear, all, block) && told == old(eventBits)
      ensures WaitExactly(old(View()), t, waited, clear, all, block, View())
    {
      WaitKeeps(View(), t, waited, clear, all, block);
      WaitsExactly(View(), t, waited, clear, all, block);
      told := TestOrPlace(t, waited, clear, all, block);
    }

    /** xEventGroupClearBits: exactly the given bits go, nobody is satisfied by that, and the answer is the bits as they
        were. */
    method ClearEventBits(b: Bits) returns (told: Bits)
      requires Valid()
      modifies `eventBits
      ensures Valid() && told == old(eventBits) && OnlyCleared(told, eventBits, b)
    {
      told := eventBits;
      ClearKeeps(View(), b);
      ClearsOnly(eventBits, b);
      Clear(b);
    }

    /** xEventGroupSync until it blocks or returns the bits it was told, which hold those it waits for exactly when
        they were all set. */
    method Synchronise(t: Task, b: Bits, waited: Bits, block: bool) returns (told: Bits)
      requires Valid() && UserBits(b) && UserBits(waited) && waited != 0
      modifies this
      ensures Valid() && View() == Meet(old(View()), t, b, waited, block)
      ensures MetExactly(told, old(View()), b, waited)
      ensures SyncExactly(old(View()), t, b, waited, block, View())
    {
      SyncsExactly(View(), t, b, waited, block);
      SyncKeeps(View(), t, b, waited, block);
      ToldExactly(View(), b, waited);
      told := SetAndMeet(t, b, waited, block);
    }
  }

  /** What xEventGroupSync has in hand when it returns or blocks. */
  function ToldOn(ws: seq<Waiter>, now: Bits, waited: Bits): Bits {
    if Test(now, waited, true) then now else Walk(ws, now).0.bits
  }

  function ToldBy(g: Group, b: Bits, waited: Bits): Bits {
    ToldOn(g.waiting, Both(g.bits, b), waited)
  }

  /** The bits told hold those waited for exactly when these were all set once the task had set its own. */
  predicate MetExactly(told: Bits, g: Group, b: Bits, waited: Bits) {
    Test(told, waited, true) <==> Test(Both(g.bits, b), waited, true)
  }

  lemma ToldExactly(g: Group, b: Bits, waited: Bits)
    requires waited != 0
    ensures MetExactly(ToldBy(g, b, waited), g, b, waited)
  {
    var now := Both(g.bits, b);
    TestIsMonotone(now, ToClear(0, g.waiting, now), waited, true);
  }
}
