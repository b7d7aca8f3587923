/** The ready lists, one circular list per priority, and the choice of the next task to run. */
module ReadyLists {
  import opened Config
  import opened Rings

  /** pxReadyTasksLists and uxTopReadyPriority. */
  datatype Ready = Ready(lists: seq<Ring<Task>>, top: nat)

  /** One list per priority, holding only live tasks of that priority, and none above top. */
  ghost predicate ReadyShape(r: Ready, prio: map<Task, nat>) {
    && |r.lists| == MAX_PRIORITIES && r.top < MAX_PRIORITIES
    && (forall p | 0 <= p < MAX_PRIORITIES :: WellIndexed(r.lists[p]) && OfPriority(r.lists[p].items, prio, p))
    && (forall p | r.top < p < MAX_PRIORITIES :: r.lists[p].items == [])
  }

  ghost predicate OfPriority(items: seq<Task>, prio: map<Task, nat>, p: nat) {
    forall t <- items :: t in prio && prio[t] == p
  }

  predicate IsReady(r: Ready, t: Task) {
    exists p | 0 <= p < |r.lists| :: t in r.lists[p].items
  }

  predicate SomeReady(r: Ready) {
    exists p | 0 <= p < |r.lists| :: r.lists[p].items != []
  }

  /** prvAddTaskToReadyList. */
  function Add(r: Ready, p: nat, t: Task): (q: Ready)
    requires p < |r.lists| && WellIndexed(r.lists[p])
  {
    Ready(r.lists[p := Rings.InsertEnd(r.lists[p], t)], if p > r.top then p else r.top)
  }

  /** uxListRemove, from whichever list holds the task. */
  function Take(lists: seq<Ring<Task>>, t: Task): (q: seq<Ring<Task>>)
    requires forall p | 0 <= p < |lists| :: WellIndexed(lists[p])
    ensures |q| == |lists| && forall p | 0 <= p < |lists| :: q[p] == Remove(lists[p], t)
  {
    seq(|lists|, p requires 0 <= p < |lists| => Remove(lists[p], t))
  }

  function Withdraw(r: Ready, t: Task): (q: Ready)
    requires forall p | 0 <= p < |r.lists| :: WellIndexed(r.lists[p])
  {
    r.(lists := Take(r.lists, t))
  }

  /** The search of taskSELECT_HIGHEST_PRIORITY_TASK, from priority p downwards. */
  function Highest(lists: seq<Ring<Task>>, p: nat): (q: nat)
    requires p < |lists| && exists i | 0 <= i <= p :: lists[i].items != []
    ensures q <= p && lists[q].items != [] && forall i | q < i <= p :: lists[i].items == []
  {
    if lists[p].items != [] then p else Highest(lists, p - 1)
  }

  /** taskSELECT_HIGHEST_PRIORITY_TASK: the next task in turn of the highest non-empty priority. */
  function Select(r: Ready, prio: map<Task, nat>): (q: (Ready, Task))
    requires ReadyShape(r, prio) && SomeReady(r)
  {
    var p := Highest(r.lists, r.top);
    var l := Advance(r.lists[p]);
    (Ready(r.lists[p := l], p), l.items[l.index - 1])
  }

  /** Tasks joining the ready lists one after the other. */
  function AddAll(r: Ready, prio: map<Task, nat>, s: seq<Task>): (q: Ready)
    requires ReadyShape(r, prio) && forall t <- s :: t in prio && prio[t] < MAX_PRIORITIES
    ensures ReadyShape(q, prio)
    decreases s
  {
    if s == [] then r
    else
      AddShape(r, prio, s[0]);
      AddAll(Add(r, prio[s[0]], s[0]), prio, s[1..])
  }

  // ---- multiplicities ----

  ghost function Bag(lists: seq<Ring<Task>>): multiset<Task> {
    if lists == [] then multiset{} else multiset(lists[0].items) + Bag(lists[1..])
  }

  lemma {:induction false} BagUpdate(lists: seq<Ring<Task>>, p: nat, l: Ring<Task>)
    requires p < |lists|
    ensures Bag(lists[p := l]) + multiset(lists[p].items) == Bag(lists) + multiset(l.items)
  {
    var rest := lists[1..];
    if p == 0 {
      assert lists[p := l] == [l] + rest;
    } else {
      assert lists[p := l][1..] == rest[p - 1 := l] && lists[p] == rest[p - 1];
      BagUpdate(rest, p - 1, l);
      assert Bag(lists[p := l]) == multiset(lists[0].items) + Bag(rest[p - 1 := l]);
      AddFront(multiset(lists[0].items), Bag(rest[p - 1 := l]), multiset(lists[p].items), Bag(rest), multiset(l.items));
    }
  }

  lemma AddFront(m: multiset<Task>, a: multiset<Task>, b: multiset<Task>, c: multiset<Task>, d: multiset<Task>)
    requires a + b == c + d
    ensures (m + a) + b == (m + c) + d
  {
    forall t ensures ((m + a) + b)[t] == ((m + c) + d)[t] {
      assert (a + b)[t] == (c + d)[t];
    }
  }

  lemma Cancel(a: multiset<Task>, b: multiset<Task>, c: multiset<Task>, x: multiset<Task>)
    requires a + c == b + (c + x)
    ensures a == b + x
  {
    forall t ensures a[t] == (b + x)[t] {
      assert (a + c)[t] == (b + (c + x))[t];
    }
  }

  lemma {:induction false} BagMember(lists: seq<Ring<Task>>, t: Task)
    ensures t in Bag(lists) <==> exists p | 0 <= p < |lists| :: t in lists[p].items
  {
    if lists != [] {
      BagMember(lists[1..], t);
      if t in Bag(lists[1..]) {
        var p :| 0 <= p < |lists[1..]| && t in lists[1..][p].items;
        assert t in lists[p + 1].items;
      }
      if p :| 1 <= p < |lists| && t in lists[p].items {
        assert t in lists[1..][p - 1].items;
      }
    }
  }

  lemma {:induction false} BagTake(lists: seq<Ring<Task>>, t: Task)
    requires forall p | 0 <= p < |lists| :: WellIndexed(lists[p])
    ensures Bag(Take(lists, t)) == Bag(lists)[t := 0]
  {
    if lists != [] {
      assert Take(lists, t)[1..] == Take(lists[1..], t);
      WithoutBag(lists[0].items, t);
      BagTake(lists[1..], t);
    }
  }

  lemma AddShape(r: Ready, prio: map<Task, nat>, t: Task)
    requires ReadyShape(r, prio) && t in prio && prio[t] < MAX_PRIORITIES
    ensures var q := Add(r, prio[t], t);
            ReadyShape(q, prio) && Bag(q.lists) == Bag(r.lists) + multiset{t}
  {
    var p := prio[t];
    InsertEndBag(r.lists[p], t);
    BagUpdate(r.lists, p, Rings.InsertEnd(r.lists[p], t));
    Cancel(Bag(Add(r, p, t).lists), Bag(r.lists), multiset(r.lists[p].items), multiset{t});
  }

  lemma {:induction false} AddAllBag(r: Ready, prio: map<Task, nat>, s: seq<Task>)
    requires ReadyShape(r, prio) && forall t <- s :: t in prio && prio[t] < MAX_PRIORITIES
    ensures Bag(AddAll(r, prio, s).lists) == Bag(r.lists) + multiset(s)
    decreases s
  {
    if s != [] {
      AddShape(r, prio, s[0]);
      AddAllBag(Add(r, prio[s[0]], s[0]), prio, s[1..]);
      HeadFirst(Bag(r.lists), s);
    }
  }

  lemma HeadFirst(m: multiset<Task>, s: seq<Task>)
    requires s != []
    ensures m + multiset{s[0]} + multiset(s[1..]) == m + multiset(s)
  {
    assert s == [s[0]] + s[1..];
  }

  lemma WithdrawShape(r: Ready, prio: map<Task, nat>, t: Task)
    requires ReadyShape(r, prio)
    ensures ReadyShape(Withdraw(r, t), prio) && Bag(Withdraw(r, t).lists) == Bag(r.lists)[t := 0]
  {
    BagTake(r.lists, t);
  }

  /** Selection keeps the lists and ends on a ready task that no ready task outranks. */
  lemma SelectIsHighest(r: Ready, prio: map<Task, nat>)
    requires ReadyShape(r, prio) && SomeReady(r)
    ensures var (q, t) := Select(r, prio);
            && IsReady(r, t) && (forall u | IsReady(r, u) :: prio[u] <= prio[t])
  {
  }

  lemma SelectBag(r: Ready, prio: map<Task, nat>)
    requires ReadyShape(r, prio) && SomeReady(r)
    ensures Bag(Select(r, prio).0.lists) == Bag(r.lists)
  {
    var p := Highest(r.lists, r.top);
    BagUpdate(r.lists, p, Advance(r.lists[p]));
    Cancel(Bag(Select(r, prio).0.lists), Bag(r.lists), multiset(r.lists[p].items), multiset{});
  }

  lemma SelectShape(r: Ready, prio: map<Task, nat>)
    requires ReadyShape(r, prio) && SomeReady(r)
    ensures var q := Select(r, prio).0; ReadyShape(q, prio) && Bag(q.lists) == Bag(r.lists)
  {
    SelectBag(r, prio);
  }

  // ---- who is ready after each step ----

  lemma AddReady(r: Ready, prio: map<Task, nat>, t: Task, u: Task)
    requires ReadyShape(r, prio) && t in prio && prio[t] < MAX_PRIORITIES
    ensures IsReady(Add(r, prio[t], t), u) <==> IsReady(r, u) || u == t
  {
    AddShape(r, prio, t);
    BagMember(r.lists, u);
    BagMember(Add(r, prio[t], t).lists, u);
  }

  lemma WithdrawReady(r: Ready, prio: map<Task, nat>, t: Task, u: Task)
    requires ReadyShape(r, prio)
    ensures IsReady(Withdraw(r, t), u) <==> IsReady(r, u) && u != t
  {
  }

  lemma AddAllReady(r: Ready, prio: map<Task, nat>, s: seq<Task>, u: Task)
    requires ReadyShape(r, prio) && forall t <- s :: t in prio && prio[t] < MAX_PRIORITIES
    ensures IsReady(AddAll(r, prio, s), u) <==> IsReady(r, u) || u in s
  {
    AddAllBag(r, prio, s);
    BagMember(r.lists, u);
    BagMember(AddAll(r, prio, s).lists, u);
    assert u in multiset(s) <==> u in s;
  }

  lemma SelectReady(r: Ready, prio: map<Task, nat>, u: Task)
    requires ReadyShape(r, prio) && SomeReady(r)
    ensures IsReady(Select(r, prio).0, u) <==> IsReady(r, u)
  {
    SelectShape(r, prio);
    BagMember(r.lists, u);
    BagMember(Select(r, prio).0.lists, u);
  }

  // ---- turns ----

  /** The selection is the task next in turn of the highest non-empty priority; it goes to the end of the turns of its
      list, and no other list is touched. */
  lemma SelectTakesTurn(r: Ready, prio: map<Task, nat>)
    requires ReadyShape(r, prio) && SomeReady(r)
    ensures var (q, t) := Select(r, prio);
            var p := q.top;
            && |q.lists| == |r.lists| && p < |r.lists| && r.lists[p].items != []
            && (forall i | p < i < |r.lists| :: r.lists[i].items == [])
            && q.lists == r.lists[p := q.lists[p]] && q.lists[p].items == r.lists[p].items
            && t == Visit(r.lists[p])[0] && Visit(q.lists[p]) == Visit(r.lists[p])[1..] + [t]
  {
    VisitAdvance(r.lists[Highest(r.lists, r.top)]);
  }

  /** The tasks n selections choose, one after the other. */
  function Chosen(r: Ready, prio: map<Task, nat>, n: nat): seq<Task>
    requires ReadyShape(r, prio) && SomeReady(r)
    decreases n
  {
    if n == 0 then []
    else
      var (q, t) := Select(r, prio);
      SelectShape(r, prio);
      StillReady(r, prio);
      [t] + Chosen(q, prio, n - 1)
  }

  lemma StillReady(r: Ready, prio: map<Task, nat>)
    requires ReadyShape(r, prio) && SomeReady(r)
    ensures SomeReady(Select(r, prio).0)
  {
    SelectTakesTurn(r, prio);
  }

  /** The list the next selection is made from. */
  function TopList(r: Ready): Ring<Task>
    requires SomeReady(r) && (forall p | r.top < p < |r.lists| :: r.lists[p].items == []) && r.top < |r.lists|
  {
    r.lists[Highest(r.lists, r.top)]
  }

  lemma TopStays(r: Ready, prio: map<Task, nat>)
    requires ReadyShape(r, prio) && SomeReady(r)
    ensures var q := Select(r, prio).0;
            && ReadyShape(q, prio) && SomeReady(q) && TopList(q) == Advance(TopList(r))
            && WellIndexed(TopList(r)) && TopList(r).items != []
  {
    SelectShape(r, prio);
    StillReady(r, prio);
  }

  /** As long as the ready lists do not change otherwise, the tasks of the highest priority are chosen in turn. */
  lemma {:induction false} ChosenInTurn(r: Ready, prio: map<Task, nat>, n: nat)
    requires ReadyShape(r, prio) && SomeReady(r)
    ensures WellIndexed(TopList(r)) && TopList(r).items != [] && Chosen(r, prio, n) == Selected(TopList(r), n)
    decreases n
  {
    TopStays(r, prio);
    if n > 0 {
      ChosenInTurn(Select(r, prio).0, prio, n - 1);
    }
  }

  /** So each of them is chosen equally often. */
  lemma EqualTurns(r: Ready, prio: map<Task, nat>)
    requires ReadyShape(r, prio) && SomeReady(r)
    ensures var l := TopList(r).items;
            multiset(Chosen(r, prio, |l|)) == multiset(l)
  {
    ChosenInTurn(r, prio, |TopList(r).items|);
    EqualShare(TopList(r));
  }
}
