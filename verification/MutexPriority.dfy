/** Bounded priority inversion: the holder of a mutex runs at the priority of its waiters or higher. */
module MutexPriority {
  import opened Config
  import R = Rings
  import opened Mutexes

  /** No task waits for a mutex while it holds one. */
  ghost predicate Calm(s: State)
    requires WellKeyed(s)
  {
    forall t <- s.phase :: InCall(s.phase[t]) ==> s.held[t] == 0
  }

  /** Highest priority first. */
  ghost predicate Descending(w: seq<Task>, prio: map<Task, nat>) {
    && (forall i | 0 <= i < |w| :: w[i] in prio)
    && (forall i, j | 0 <= i < j < |w| :: prio[w[j]] <= prio[w[i]])
  }

  ghost predicate Ordered(s: State)
    requires WellKeyed(s)
  {
    forall m <- s.holder :: Descending(s.waiters[m], s.prio)
  }

  /** Unless a switch has been asked for, the running task is ready and no less urgent than any task that waits for
      an available mutex. */
  ghost predicate Ahead(s: State)
    requires WellKeyed(s)
  {
    !s.yielding ==> Ready(s, s.current) && forall m <- s.holder :: AheadAt(s, m)
  }

  ghost predicate AheadAt(s: State, m: Mutex)
    requires WellKeyed(s) && m in s.holder
  {
    s.count[m] > 0 ==> FirstPriority(s.waiters[m], s.prio) <= s.prio[s.current]
  }

  /** About to test the mutex. */
  predicate OnTheWay(p: Phase, m: Mutex) {
    p == Retry(m) || p == LastTry(m)
  }

  /** A task on its way to the mutex that is no less urgent than those still waiting. */
  ghost predicate Covers(s: State, r: Task, m: Mutex)
    requires WellKeyed(s) && m in s.holder
  {
    r in s.phase && OnTheWay(s.phase[r], m) && FirstPriority(s.waiters[m], s.prio) <= s.prio[r]
  }

  /** An available mutex that tasks wait for has such a task. */
  ghost predicate Covered(s: State)
    requires WellKeyed(s)
  {
    forall m <- s.holder :: s.count[m] > 0 && s.waiters[m] != [] ==> exists r :: Covers(s, r, m)
  }

  /** The holder is no less urgent than the first waiter. */
  ghost predicate Bounded(s: State)
    requires WellKeyed(s)
  {
    forall m <- s.holder :: s.holder[m].By? && s.holder[m].task in s.prio ==>
      FirstPriority(s.waiters[m], s.prio) <= s.prio[s.holder[m].task]
  }

  ghost predicate Inv(s: State) {
    Cons(s) && Calm(s) && Ordered(s) && Ahead(s) && Covered(s) && Bounded(s)
  }

  /** A task blocks on a mutex only while it holds none. */
  predicate Disciplined(s: State, a: Step)
    requires WellKeyed(s)
  {
    a.Block? ==> s.held[s.current] == 0
  }

  /** The running task is about to give the last mutex it holds and lose a higher priority; a task no higher than
      its base waits first for that mutex, and a task above its base waits for another, which is available. */
  ghost predicate AboutToInvert(s: State, given: Mutex, taken: Mutex, waiter: Task)
    requires WellKeyed(s)
  {
    && Enabled(s, Give(given)) && Disinherits(s)
    && s.waiters[given] != [] && FirstPriority(s.waiters[given], s.prio) <= s.base[s.current]
    && taken in s.holder && taken != given && s.count[taken] > 0
    && waiter in s.phase && s.phase[waiter] == Waiting(taken) && s.base[s.current] < s.prio[waiter]
  }

  ghost predicate Spared(s: State, a: Step)
    requires WellKeyed(s)
  {
    a.Give? ==> !exists taken: Mutex, waiter: Task :: AboutToInvert(s, a.mutex, taken, waiter)
  }

  // ---- what does not change ----

  /** Steps never change the priority of a task that waits or is about to retry. */
  lemma PrioStays(s: State, a: Step, t: Task)
    requires Cons(s) && Calm(s) && Enabled(s, a)
    requires t in s.phase && InCall(s.phase[t])
    ensures t in Next(s, a).prio && Next(s, a).prio[t] == s.prio[t]
  {
    match a
    case Block(m) => BlockSpares(s, m, t);
    case Give(m) => HolderHolds(s, m);
    case GiveUp(m) => GiveUpSpares(s, m, t);
    case _ =>
  }

  lemma BlockSpares(s: State, m: Mutex, t: Task)
    requires Cons(s) && Calm(s) && Enabled(s, Block(m)) && t in s.phase && InCall(s.phase[t])
    ensures t in Next(s, Block(m)).prio && Next(s, Block(m)).prio[t] == s.prio[t]
  {
    if s.holder[m].By? {
      HolderHolds(s, m);
    }
  }

  lemma GiveUpSpares(s: State, m: Mutex, t: Task)
    requires Cons(s) && Calm(s) && Enabled(s, GiveUp(m)) && t in s.phase && InCall(s.phase[t])
    ensures t in Next(s, GiveUp(m)).prio && Next(s, GiveUp(m)).prio[t] == s.prio[t]
  {
    if s.holder[m].By? {
      HolderHolds(s, m);
    }
  }

  /** Waiters keep their priorities, so a list that is not touched keeps its first priority and its order. */
  lemma LineStays(s: State, a: Step, m: Mutex)
    requires Cons(s) && Calm(s) && Enabled(s, a) && m in s.holder
    ensures FirstPriority(s.waiters[m], Next(s, a).prio) == FirstPriority(s.waiters[m], s.prio)
    ensures Descending(s.waiters[m], s.prio) ==> Descending(s.waiters[m], Next(s, a).prio)
  {
    assert InLine(s.waiters[m], m, s.phase);
    var w, q := s.waiters[m], Next(s, a);
    forall i | 0 <= i < |w| ensures w[i] in q.prio && q.prio[w[i]] == s.prio[w[i]] {
      PrioStays(s, a, w[i]);
    }
  }

  lemma CalmTask(s: State, a: Step, t: Task)
    requires Cons(s) && Calm(s) && Enabled(s, a) && Disciplined(s, a)
    requires var q := Next(s, a); t in q.phase && InCall(q.phase[t])
    ensures t in Next(s, a).held && Next(s, a).held[t] == 0
  {
    if Spares(s, a, t) {
      CalmOther(s, a, t);
    } else {
      CalmCurrent(s, a);
    }
  }

  /** A task that does not make the step was taking before. */
  lemma CalmOther(s: State, a: Step, t: Task)
    requires Cons(s) && Calm(s) && Enabled(s, a) && Spares(s, a, t)
    requires var q := Next(s, a); t in q.phase && InCall(q.phase[t])
    ensures t in Next(s, a).held && Next(s, a).held[t] == 0
  {
    if a.Give? {
      CalmGive(s, a.mutex, t);
    } else if a.TimeOut? {
      CalmTimeOut(s, a.task, t);
    } else if a.Take? || a.Block? || a.GiveUp? || a.Return? {
      CalmLeaver(s, a, t);
    } else {
      CalmMove(s, a, t);
    }
  }

  lemma CalmLeaver(s: State, a: Step, t: Task)
    requires Cons(s) && Calm(s) && Enabled(s, a) && (a.Take? || a.Block? || a.GiveUp? || a.Return?) && t != s.current
    requires var q := Next(s, a); t in q.phase && InCall(q.phase[t])
    ensures t in Next(s, a).held && Next(s, a).held[t] == 0
  {
    assert InCall(s.phase[t]);
  }

  lemma CalmMove(s: State, a: Step, t: Task)
    requires Cons(s) && Calm(s) && Enabled(s, a) && Spares(s, a, t)
    requires !a.Take? && !a.Block? && !a.Give? && !a.TimeOut? && !a.GiveUp? && !a.Return?
    requires var q := Next(s, a); t in q.phase && InCall(q.phase[t])
    ensures t in Next(s, a).held && Next(s, a).held[t] == 0
  {
    assert InCall(s.phase[t]);
  }

  lemma CalmTimeOut(s: State, u: Task, t: Task)
    requires Cons(s) && Calm(s) && Enabled(s, TimeOut(u))
    requires var q := Next(s, TimeOut(u)); t in q.phase && InCall(q.phase[t])
    ensures t in Next(s, TimeOut(u)).held && Next(s, TimeOut(u)).held[t] == 0
  {
    assert InCall(s.phase[u]);
  }

  lemma CalmCurrent(s: State, a: Step)
    requires Cons(s) && Calm(s) && Enabled(s, a) && Disciplined(s, a) && !Spares(s, a, s.current)
    requires var (q, t) := (Next(s, a), s.current); t in q.phase && InCall(q.phase[t])
    ensures s.current in Next(s, a).held && Next(s, a).held[s.current] == 0
  {
    match a
    case Give(m) => CalmGive(s, m, s.current);
    case FindAvailable(_) | FindEmpty(_) => assert InCall(s.phase[s.current]);
    case _ =>
  }

  lemma CalmGive(s: State, m: Mutex, t: Task)
    requires Cons(s) && Calm(s) && Enabled(s, Give(m))
    requires var q := Next(s, Give(m)); t in q.phase && InCall(q.phase[t])
    ensures t in Next(s, Give(m)).held && Next(s, Give(m)).held[t] == 0
  {
    HolderHolds(s, m);
    assert InLine(s.waiters[m], m, s.phase);
  }

  lemma NextCalm(s: State, a: Step)
    requires Cons(s) && Calm(s) && Enabled(s, a) && Disciplined(s, a)
    ensures Cons(Next(s, a)) && Calm(Next(s, a))
  {
    NextCons(s, a);
    var q := Next(s, a);
    forall t | t in q.phase && InCall(q.phase[t]) ensures q.held[t] == 0 {
      CalmTask(s, a, t);
    }
  }

  // ---- order of the lists ----

  lemma FirstDescending(t: Task, r: seq<Task>, prio: map<Task, nat>)
    requires Descending(r, prio) && t in prio && forall i | 0 <= i < |r| :: prio[r[i]] <= prio[t]
    ensures Descending([t] + r, prio)
  {
  }

  lemma {:induction false} EnqueueDescending(w: seq<Task>, prio: map<Task, nat>, t: Task)
    requires Descending(w, prio) && t in prio
    ensures Descending(Enqueue(w, prio, t), prio)
  {
    if w == [] || prio[w[0]] < prio[t] {
      FirstDescending(t, w, prio);
    } else {
      var q := Enqueue(w[1..], prio, t);
      EnqueueDescending(w[1..], prio, t);
      EnqueueHas(w[1..], prio, t);
      forall i | 0 <= i < |q| ensures prio[q[i]] <= prio[w[0]] {
        assert q[i] in q;
      }
      FirstDescending(w[0], q, prio);
    }
  }

  lemma {:induction false} WithoutDescending(w: seq<Task>, prio: map<Task, nat>, t: Task)
    requires Descending(w, prio)
    ensures Descending(R.Without(w, t), prio) && FirstPriority(R.Without(w, t), prio) <= FirstPriority(w, prio)
  {
    if w != [] {
      var r := R.Without(w[1..], t);
      WithoutDescending(w[1..], prio, t);
      if w[0] != t {
        forall i | 0 <= i < |r| ensures prio[r[i]] <= prio[w[0]] {
          assert r[i] in r;
        }
        FirstDescending(w[0], r, prio);
      }
    }
  }

  lemma TailDescending(w: seq<Task>, prio: map<Task, nat>)
    requires Descending(w, prio) && w != []
    ensures Descending(w[1..], prio) && FirstPriority(w[1..], prio) <= FirstPriority(w, prio)
  {
  }

  lemma EnqueueFirst(w: seq<Task>, prio: map<Task, nat>, t: Task)
    requires Descending(w, prio) && t in prio
    ensures var (x, y) := (FirstPriority(w, prio), prio[t]);
            FirstPriority(Enqueue(w, prio, t), prio) <= if x < y then y else x
  {
  }

  lemma OrderedAt(s: State, a: Step, m: Mutex)
    requires Cons(s) && Calm(s) && Enabled(s, a) && m in s.holder && Descending(s.waiters[m], s.prio)
    requires m in Next(s, a).waiters
    ensures Descending(Next(s, a).waiters[m], Next(s, a).prio)
  {
    LineStays(s, a, m);
    var q, w := Next(s, a), s.waiters[m];
    if a.Block? {
      BlockLine(s, a.mutex);
      EnqueueDescending(w, q.prio, s.current);
    } else if a.Give? {
      GiveEffect(s, a.mutex);
      if w != [] {
        TailDescending(w, q.prio);
      }
    } else if a.TimeOut? {
      TimeOutLine(s, a.task);
      WithoutDescending(w, q.prio, a.task);
    }
  }

  lemma BlockLine(s: State, m: Mutex)
    requires Cons(s) && Enabled(s, Block(m))
    ensures var q := Next(s, Block(m));
            && s.current in q.prio && (forall i | 0 <= i < |s.waiters[m]| :: s.waiters[m][i] in q.prio)
            && q.waiters == s.waiters[m := Enqueue(s.waiters[m], q.prio, s.current)]
  {
    assert InLine(s.waiters[m], m, s.phase);
  }

  lemma TimeOutLine(s: State, t: Task)
    requires Cons(s) && Enabled(s, TimeOut(t))
    ensures var m := s.phase[t].mutex;
            m in s.waiters && Next(s, TimeOut(t)).waiters == s.waiters[m := R.Without(s.waiters[m], t)]
  {
  }

  lemma NextOrdered(s: State, a: Step)
    requires Cons(s) && Calm(s) && Ordered(s) && Enabled(s, a)
    ensures Cons(Next(s, a)) && Ordered(Next(s, a))
  {
    NextCons(s, a);
    SameMutexes(s, a);
    forall m | m in s.holder ensures Descending(Next(s, a).waiters[m], Next(s, a).prio) {
      OrderedAt(s, a, m);
    }
  }

  // ---- who is on the way ----

  /** A task on its way stays there unless it runs, and then its mutex is not available. */
  lemma StaysOnTheWay(s: State, a: Step, r: Task, m: Mutex)
    requires Cons(s) && Enabled(s, a) && r in s.phase && OnTheWay(s.phase[r], m) && m in s.holder && s.count[m] > 0
    requires !(a.Take? && a.mutex == m)
    ensures r in Next(s, a).phase && OnTheWay(Next(s, a).phase[r], m)
  {
    if Spares(s, a, r) {
      PhaseStays(s, a, r);
    } else {
      GoesOn(s, a, m);
    }
  }

  lemma GoesOn(s: State, a: Step, m: Mutex)
    requires Cons(s) && Enabled(s, a) && !Spares(s, a, s.current) && OnTheWay(s.phase[s.current], m)
    requires m in s.holder && s.count[m] > 0 && !(a.Take? && a.mutex == m)
    ensures a == FindAvailable(m) && OnTheWay(Next(s, a).phase[s.current], m)
  {
  }

  /** Until it is taken, nobody new joins the line of an available mutex. */
  lemma LineShrinks(s: State, a: Step, m: Mutex)
    requires Cons(s) && Calm(s) && Ordered(s) && Enabled(s, a) && m in s.holder && s.count[m] > 0
    ensures var q := Next(s, a);
            m in q.waiters && FirstPriority(q.waiters[m], q.prio) <= FirstPriority(s.waiters[m], s.prio)
    ensures s.waiters[m] == [] ==> Next(s, a).waiters[m] == []
  {
    LineStays(s, a, m);
    var w, q := s.waiters[m], Next(s, a);
    match a
    case Give(k) => HolderHolds(s, k); assert k != m;
    case TimeOut(t) => if s.phase[t].mutex == m { WithoutDescending(w, q.prio, t); }
    case _ =>
  }

  /** The first waiter a give wakes is on its way, and no less urgent than the rest. */
  lemma GiveCovers(s: State, m: Mutex)
    requires Cons(s) && Calm(s) && Ordered(s) && Enabled(s, Give(m)) && |s.waiters[m]| > 1
    ensures WellKeyed(Next(s, Give(m))) && Covers(Next(s, Give(m)), s.waiters[m][0], m)
  {
    NextCons(s, Give(m));
    HolderHolds(s, m);
    LineStays(s, Give(m), m);
    TailDescending(s.waiters[m], Next(s, Give(m)).prio);
    assert InLine(s.waiters[m], m, s.phase);
    PrioStays(s, Give(m), s.waiters[m][0]);
  }

  lemma NextCovered(s: State, a: Step)
    requires Cons(s) && Calm(s) && Ordered(s) && Covered(s) && Enabled(s, a)
    ensures WellKeyed(Next(s, a)) && Covered(Next(s, a))
  {
    NextCons(s, a);
    var q := Next(s, a);
    forall m | m in q.holder && q.count[m] > 0 && q.waiters[m] != [] ensures exists r :: Covers(q, r, m) {
      CoveredAt(s, a, m);
    }
  }

  lemma CoveredAt(s: State, a: Step, m: Mutex)
    requires Cons(s) && Calm(s) && Ordered(s) && Covered(s) && Enabled(s, a) && WellKeyed(Next(s, a))
    requires var q := Next(s, a); m in q.holder && q.count[m] > 0 && q.waiters[m] != []
    ensures exists r :: Covers(Next(s, a), r, m)
  {
    if a.Give? && a.mutex == m {
      HolderHolds(s, m);
      GiveCovers(s, m);
    } else {
      StillCovered(s, a, m);
    }
  }

  lemma StillCovered(s: State, a: Step, m: Mutex)
    requires Cons(s) && Calm(s) && Ordered(s) && Covered(s) && Enabled(s, a) && WellKeyed(Next(s, a))
    requires var q := Next(s, a); m in q.holder && q.count[m] > 0 && q.waiters[m] != []
    requires !(a.Give? && a.mutex == m)
    ensures exists r :: Covers(Next(s, a), r, m)
  {
    AvailableBefore(s, a, m);
    LineShrinks(s, a, m);
    var r :| Covers(s, r, m);
    CoversStill(s, a, r, m);
  }

  lemma CoversStill(s: State, a: Step, r: Task, m: Mutex)
    requires Cons(s) && Calm(s) && Ordered(s) && Enabled(s, a) && m in s.holder && Covers(s, r, m) && s.count[m] > 0
    requires !(a.Take? && a.mutex == m) && WellKeyed(Next(s, a)) && m in Next(s, a).holder
    ensures Covers(Next(s, a), r, m)
  {
    LineShrinks(s, a, m);
    StaysOnTheWay(s, a, r, m);
    PrioStays(s, a, r);
  }

  lemma AvailableBefore(s: State, a: Step, m: Mutex)
    requires Cons(s) && Enabled(s, a) && !(a.Give? && a.mutex == m)
    requires var q := Next(s, a); m in q.holder && m in q.count && q.count[m] > 0
    ensures m in s.holder && s.count[m] > 0 && !(a.Take? && a.mutex == m)
  {
    match a
    case Give(k) => HolderHolds(s, k);
    case _ =>
  }

  // ---- the running task ----

  lemma WaiterBelowFirst(s: State, m: Mutex, t: Task)
    requires Cons(s) && Ordered(s) && t in s.phase && s.phase[t] == Waiting(m) && m in s.holder
    ensures t in s.prio && s.prio[t] <= FirstPriority(s.waiters[m], s.prio)
  {
    var w := s.waiters[m];
    assert Descending(w, s.prio) && t in w;
  }

  lemma FirstWaits(s: State, m: Mutex)
    requires Cons(s) && m in s.holder && s.waiters[m] != []
    ensures var w := s.waiters[m][0]; w in s.phase && s.phase[w] == Waiting(m) && w in s.prio
  {
    assert InLine(s.waiters[m], m, s.phase);
  }

  /** The give at which a task is about to invert asks for no yield, and leaves the other waiters above it. */
  lemma GiveLosesYield(s: State, given: Mutex, taken: Mutex, waiter: Task)
    requires Cons(s) && AboutToInvert(s, given, taken, waiter)
    ensures var q := Next(s, Give(given));
            && !q.yielding && q.current == s.current && q.phase[s.current].Idle?
            && taken in q.count && q.count[taken] > 0
            && q.prio == s.prio[s.current := s.base[s.current]]
            && waiter in q.phase && q.phase[waiter] == Waiting(taken)
            && s.current != waiter
  {
    HolderHolds(s, given);
    FirstWaits(s, given);
  }

  /** What a give changes for the running task and for the lines. */
  lemma GiveEffect(s: State, given: Mutex)
    requires Cons(s) && Enabled(s, Give(given))
    ensures var (q, c, w) := (Next(s, Give(given)), s.current, s.waiters[given]);
            && s.held[c] > 0 && q.current == c && q.phase.Keys == s.phase.Keys && Ready(q, c)
            && q.prio == s.prio[c := if Disinherits(s) then s.base[c] else s.prio[c]]
            && q.count == s.count[given := 1] && q.waiters == s.waiters[given := if w == [] then [] else w[1..]]
            && q.holder == s.holder[given := Free] && q.base == s.base
            && c in s.held && q.held == s.held[c := s.held[c] - 1]
            && (!q.yielding ==> if w == [] then !Disinherits(s) else FirstPriority(w, s.prio) <= q.prio[c])
            && (w != [] ==> w[0] in s.prio && w[0] != c && q.phase[w[0]] == Retry(given))
  {
    HolderHolds(s, given);
    if s.waiters[given] != [] {
      FirstWaits(s, given);
    }
    GivenEffect(s, given);
  }

  lemma GivenEffect(s: State, given: Mutex)
    requires WellKeyed(s) && given in s.holder && s.held[s.current] > 0 && s.phase[s.current].Idle?
    requires var w := s.waiters[given]; w != [] ==> w[0] in s.prio && w[0] != s.current
    ensures var (q, c, w) := (GiveMutex(s, given), s.current, s.waiters[given]);
            && q.current == c && q.phase.Keys == s.phase.Keys && Ready(q, c)
            && q.prio == s.prio[c := if Disinherits(s) then s.base[c] else s.prio[c]]
            && q.count == s.count[given := 1] && q.waiters == s.waiters[given := if w == [] then [] else w[1..]]
            && q.holder == s.holder[given := Free] && q.base == s.base && q.held == s.held[c := s.held[c] - 1]
            && (!q.yielding ==> if w == [] then !Disinherits(s) else FirstPriority(w, s.prio) <= q.prio[c])
            && (w != [] ==> q.phase[w[0]] == Retry(given))
  {
  }

  /** With no such waiter the line of another available mutex is at or below the giver afterwards. */
  lemma GiveStaysAheadAt(s: State, given: Mutex, m: Mutex)
    requires Cons(s) && Ahead(s) && Enabled(s, Give(given)) && m in s.holder && m != given && s.count[m] > 0
    requires !exists waiter: Task :: AboutToInvert(s, given, m, waiter)
    requires !Next(s, Give(given)).yielding
    ensures FirstPriority(s.waiters[m], s.prio) <= Next(s, Give(given)).prio[s.current]
  {
    GiveEffect(s, given);
    assert AheadAt(s, m);
    if s.waiters[m] != [] {
      FirstWaits(s, m);
      assert !AboutToInvert(s, given, m, s.waiters[m][0]);
    }
  }

  lemma GiveStaysAhead(s: State, given: Mutex)
    requires Cons(s) && Calm(s) && Ordered(s) && Ahead(s) && Enabled(s, Give(given)) && Spared(s, Give(given))
    ensures WellKeyed(Next(s, Give(given))) && Ahead(Next(s, Give(given)))
  {
    NextCons(s, Give(given));
    GiveEffect(s, given);
    var q := Next(s, Give(given));
    if !q.yielding {
      forall m | m in q.holder ensures AheadAt(q, m) {
        GiveLeavesAheadAt(s, given, m);
      }
    }
  }

  lemma GiveLeavesAheadAt(s: State, given: Mutex, m: Mutex)
    requires Cons(s) && Calm(s) && Ordered(s) && Ahead(s) && Enabled(s, Give(given))
    requires WellKeyed(Next(s, Give(given))) && m in Next(s, Give(given)).holder && !Next(s, Give(given)).yielding
    requires !exists waiter: Task :: AboutToInvert(s, given, m, waiter)
    ensures AheadAt(Next(s, Give(given)), m)
  {
    GiveEffect(s, given);
    SameMutexes(s, Give(given));
    LineStays(s, Give(given), m);
    if m != given {
      if s.count[m] > 0 {
        GiveStaysAheadAt(s, given, m);
      }
    } else if s.waiters[m] != [] {
      TailDescending(s.waiters[m], Next(s, Give(given)).prio);
    }
  }

  /** A give keeps the running task ahead exactly when no task waits that it is about to fall behind. */
  lemma GiveStaysAheadExactly(s: State, given: Mutex)
    requires Cons(s) && Calm(s) && Ordered(s) && Ahead(s) && Enabled(s, Give(given))
    ensures WellKeyed(Next(s, Give(given)))
    ensures Ahead(Next(s, Give(given))) <==> Spared(s, Give(given))
  {
    NextCons(s, Give(given));
    if taken: Mutex, waiter: Task :| AboutToInvert(s, given, taken, waiter) {
      GiveFallsBehind(s, given, taken, waiter);
    } else {
      GiveStaysAhead(s, given);
    }
  }

  lemma GiveFallsBehind(s: State, given: Mutex, taken: Mutex, waiter: Task)
    requires Cons(s) && Ordered(s) && Calm(s) && AboutToInvert(s, given, taken, waiter)
    ensures var q := Next(s, Give(given));
            && WellKeyed(q) && taken in q.holder && !AheadAt(q, taken) && !q.yielding
            && q.prio[q.current] < FirstPriority(q.waiters[taken], q.prio)
  {
    NextCons(s, Give(given));
    NextOrdered(s, Give(given));
    SameMutexes(s, Give(given));
    GiveLosesYield(s, given, taken, waiter);
    WaiterBelowFirst(Next(s, Give(given)), taken, waiter);
  }

  /** A switch ends on a task ahead of those that wait, because the tasks on their way are ready. */
  lemma SwitchAhead(s: State, t: Task)
    requires Cons(s) && Covered(s) && Enabled(s, Switch(t))
    ensures WellKeyed(Next(s, Switch(t))) && Ahead(Next(s, Switch(t)))
  {
    var q := Next(s, Switch(t));
    forall m | m in q.holder && q.count[m] > 0 && q.waiters[m] != []
      ensures FirstPriority(q.waiters[m], q.prio) <= q.prio[t]
    {
      var r :| Covers(s, r, m);
      assert Ready(s, r);
    }
  }

  /** The other steps neither lower the running task nor raise the lines of available mutexes. */
  lemma OtherAheadAt(s: State, a: Step, m: Mutex)
    requires Cons(s) && Calm(s) && Ordered(s) && Ahead(s) && Enabled(s, a) && !a.Give? && !a.Switch?
    requires WellKeyed(Next(s, a)) && m in Next(s, a).holder && !Next(s, a).yielding
    ensures AheadAt(Next(s, a), m)
  {
    if Next(s, a).count[m] > 0 {
      AvailableBefore(s, a, m);
      LineShrinks(s, a, m);
    }
  }

  lemma OtherAhead(s: State, a: Step)
    requires Cons(s) && Calm(s) && Ordered(s) && Ahead(s) && Enabled(s, a) && !a.Give? && !a.Switch?
    ensures WellKeyed(Next(s, a)) && Ahead(Next(s, a))
  {
    NextCons(s, a);
    var q := Next(s, a);
    if !q.yielding {
      forall m | m in q.holder ensures AheadAt(q, m) {
        OtherAheadAt(s, a, m);
      }
    }
  }

  lemma NextAhead(s: State, a: Step)
    requires Cons(s) && Calm(s) && Ordered(s) && Ahead(s) && Covered(s) && Enabled(s, a) && Spared(s, a)
    ensures WellKeyed(Next(s, a)) && Ahead(Next(s, a))
  {
    match a
    case Give(m) => GiveStaysAhead(s, m);
    case Switch(t) => SwitchAhead(s, t);
    case _ => OtherAhead(s, a);
  }

  // ---- the holder's priority ----

  ghost predicate BoundedAt(s: State, m: Mutex)
    requires WellKeyed(s) && m in s.holder
  {
    s.holder[m].By? && s.holder[m].task in s.prio ==> FirstPriority(s.waiters[m], s.prio) <= s.prio[s.holder[m].task]
  }

  /** The task that takes an available mutex is ahead of those waiting for it. */
  lemma TakeBounds(s: State, m: Mutex)
    requires Cons(s) && Ahead(s) && Enabled(s, Take(m))
    ensures WellKeyed(TakeMutex(s, m)) && BoundedAt(TakeMutex(s, m), m)
  {
    TakeKeeps(s, m);
    assert AheadAt(s, m);
  }

  /** The holder inherits the priority of the task that joins the line. */
  lemma BlockBounds(s: State, m: Mutex)
    requires Cons(s) && Calm(s) && Enabled(s, Block(m)) && WellKeyed(Next(s, Block(m)))
    requires Descending(s.waiters[m], s.prio) && BoundedAt(s, m)
    ensures BoundedAt(Next(s, Block(m)), m)
  {
    LineStays(s, Block(m), m);
    EnqueueFirst(s.waiters[m], Next(s, Block(m)).prio, s.current);
  }

  /** After a waiter gives up the holder keeps the priority of the first that is left. */
  lemma GiveUpBounds(s: State, m: Mutex)
    requires Cons(s) && Calm(s) && Enabled(s, GiveUp(m)) && BoundedAt(s, m) && WellKeyed(Next(s, GiveUp(m)))
    ensures BoundedAt(Next(s, GiveUp(m)), m)
  {
    LineStays(s, GiveUp(m), m);
    DropBounds(s, m);
  }

  lemma DropBounds(s: State, m: Mutex)
    requires WellKeyed(s) && m in s.holder && BoundedAt(s, m)
    ensures var (h, q) := (s.holder[m], GiveUpOn(s, m));
            h.By? && h.task in s.prio ==> h.task in q.prio && FirstPriority(s.waiters[m], s.prio) <= q.prio[h.task]
  {
  }

  /** A holder of one mutex holds no other. */
  lemma OnlyOne(holder: map<Mutex, Holder>, t: Task, m: Mutex, k: Mutex)
    requires m in holder && k in holder && holder[m] == By(t) && holder[k] == By(t) && |HeldBy(holder, t)| == 1
    ensures m == k
  {
    var x := HeldBy(holder, t);
    assert m in x && k in x;
    var y := x - {m};
    assert |y| == 0;
    assert k !in y;
  }

  /** The step is a take, block, give or giving up of mutex k. */
  predicate Concerns(a: Step, k: Mutex) {
    match a
    case Take(m) => m == k
    case Block(m) => m == k
    case Give(m) => m == k
    case GiveUp(m) => m == k
    case _ => false
  }

  /** The priority of the holder of another mutex than the step is about does not fall. */
  lemma HolderStays(s: State, a: Step, k: Mutex)
    requires Cons(s) && Enabled(s, a) && k in s.holder && s.holder[k].By?
    requires !Concerns(a, k)
    ensures s.holder[k].task in Next(s, a).prio && s.prio[s.holder[k].task] <= Next(s, a).prio[s.holder[k].task]
  {
    var h := s.holder[k].task;
    match a
    case Give(m) => HolderHolds(s, m); GiverStays(s, m, k);
    case GiveUp(m) => GiveUpStays(s, m, k);
    case _ =>
  }

  lemma GiverStays(s: State, m: Mutex, k: Mutex)
    requires Cons(s) && m in s.holder && s.holder[m] == By(s.current) && k in s.holder && s.holder[k].By? && m != k
    requires s.held[s.current] > 0
    ensures var h := s.holder[k].task; h in GiveMutex(s, m).prio && s.prio[h] == GiveMutex(s, m).prio[h]
  {
    if s.holder[k].task == s.current && s.held[s.current] == 1 {
      OnlyOne(s.holder, s.current, m, k);
    }
  }

  lemma GiveUpStays(s: State, m: Mutex, k: Mutex)
    requires Cons(s) && m in s.holder && k in s.holder && s.holder[k].By? && m != k
    ensures var h, q := s.holder[k].task, GiveUpOn(s, m);
            h in q.prio && s.prio[h] == q.prio[h]
  {
    if s.holder[m] == s.holder[k] && s.held[s.holder[k].task] == 1 {
      OnlyOne(s.holder, s.holder[k].task, m, k);
    }
  }

  lemma BoundedStays(s: State, a: Step, k: Mutex)
    requires Inv(s) && Enabled(s, a) && k in s.holder && WellKeyed(Next(s, a)) && k in Next(s, a).holder
    requires !Concerns(a, k)
    ensures BoundedAt(Next(s, a), k)
  {
    SameHolder(s, a, k);
    if s.holder[k].By? {
      HolderStays(s, a, k);
      LineStays(s, a, k);
      LineOfOther(s, a, k);
    }
  }

  lemma SameHolder(s: State, a: Step, k: Mutex)
    requires Cons(s) && Enabled(s, a) && k in s.holder && k in Next(s, a).holder
    requires !Concerns(a, k)
    ensures Next(s, a).holder[k] == s.holder[k]
  {
    match a
    case Give(m) => HolderHolds(s, m);
    case _ =>
  }

  lemma LineOfOther(s: State, a: Step, k: Mutex)
    requires Cons(s) && Calm(s) && Ordered(s) && Enabled(s, a) && k in s.holder && k in Next(s, a).waiters
    requires !Concerns(a, k)
    ensures FirstPriority(Next(s, a).waiters[k], Next(s, a).prio) <= FirstPriority(s.waiters[k], s.prio)
  {
    LineStays(s, a, k);
    match a
    case Give(m) => HolderHolds(s, m);
    case TimeOut(t) => if s.phase[t].mutex == k { WithoutDescending(s.waiters[k], Next(s, a).prio, t); }
    case _ =>
  }

  lemma NextBounded(s: State, a: Step)
    requires Inv(s) && Enabled(s, a)
    ensures WellKeyed(Next(s, a)) && Bounded(Next(s, a))
  {
    NextCons(s, a);
    var q := Next(s, a);
    forall k | k in q.holder ensures BoundedAt(q, k) {
      BoundedHere(s, a, k);
    }
  }

  lemma BoundedThere(s: State, a: Step, k: Mutex)
    requires Inv(s) && Enabled(s, a) && WellKeyed(Next(s, a)) && Concerns(a, k) && k in Next(s, a).holder
    ensures BoundedAt(Next(s, a), k)
  {
    assert k in s.holder ==> BoundedAt(s, k);
    if a.Take? {
      TakeBounds(s, k);
    } else if a.Block? {
      BlockBounds(s, k);
    } else if a.Give? {
      GiveFrees(s, k);
    } else {
      GiveUpBounds(s, k);
    }
  }

  lemma BoundedHere(s: State, a: Step, k: Mutex)
    requires Inv(s) && Enabled(s, a) && WellKeyed(Next(s, a)) && k in Next(s, a).holder
    ensures BoundedAt(Next(s, a), k)
  {
    SameMutexes(s, a);
    if Concerns(a, k) {
      BoundedThere(s, a, k);
    } else {
      BoundedStays(s, a, k);
    }
  }

  lemma SameMutexes(s: State, a: Step)
    requires Cons(s) && Enabled(s, a)
    ensures Next(s, a).holder.Keys == s.holder.Keys
  {
    match a
    case Give(m) => HolderHolds(s, m);
    case _ =>
  }

  lemma NextInv(s: State, a: Step)
    requires Inv(s) && Enabled(s, a) && Disciplined(s, a) && Spared(s, a)
    ensures Inv(Next(s, a))
  {
    NextCalm(s, a);
    NextOrdered(s, a);
    NextAhead(s, a);
    NextCovered(s, a);
    NextBounded(s, a);
  }

  // ---- runs ----

  /** A run in which tasks block only while they hold nothing, and no task gives when it is about to invert. */
  ghost predicate Orderly(s: Kept, run: seq<Step>)
    requires Possible(s, run)
    decreases run
  {
    run == [] || (Disciplined(s, run[0]) && Spared(s, run[0]) && Orderly(Advance(s, run[0]), run[1..]))
  }

  lemma {:induction false} RunInv(s: Kept, run: seq<Step>)
    requires Inv(s) && Possible(s, run) && Orderly(s, run)
    ensures Inv(After(s, run))
    decreases run
  {
    if run != [] {
      NextInv(s, run[0]);
      RunInv(Advance(s, run[0]), run[1..]);
    }
  }

  /** In every state of such a run, across takes, gives, timeouts and third tasks taking the mutex first, the
      holder of a mutex has at least the priority of every task waiting for it. */
  lemma InversionIsBounded(s: Kept, run: seq<Step>, m: Mutex, t: Task)
    requires Inv(s) && Possible(s, run) && Orderly(s, run)
    requires var q := After(s, run); t in q.phase && q.phase[t] == Waiting(m) && m in q.holder && q.holder[m].By?
    ensures var q := After(s, run);
            t in q.prio && q.holder[m].task in q.prio && q.prio[t] <= q.prio[q.holder[m].task]
  {
    RunInv(s, run);
    var q := After(s, run);
    HolderIsTask(q, m);
    WaiterBelowFirst(q, m, t);
    assert BoundedAt(q, m);
  }

  lemma HolderIsTask(q: State, m: Mutex)
    requires Cons(q) && m in q.holder && q.holder[m].By?
    ensures q.holder[m].task in q.prio
  {
  }

  /** Taking a mutex after a give leaves its holder below a task that waits for it exactly when the give was made by
      a task about to invert. */
  lemma TakeInvertsExactly(s: State, given: Mutex, taken: Mutex)
    requires Inv(s) && Enabled(s, Give(given)) && WellKeyed(Next(s, Give(given)))
    requires Enabled(Next(s, Give(given)), Take(taken))
    ensures var z := TakeMutex(Next(s, Give(given)), taken);
            && WellKeyed(z) && taken in z.holder
            && (!BoundedAt(z, taken) <==> exists waiter: Task :: AboutToInvert(s, given, taken, waiter))
  {
    NextCons(s, Give(given));
    var q := Next(s, Give(given));
    TakeKeeps(q, taken);
    assert q.count[taken] > 0;
    if waiter: Task :| AboutToInvert(s, given, taken, waiter) {
      GiveFallsBehind(s, given, taken, waiter);
    } else {
      GiveLeavesAheadAt(s, given, taken);
    }
  }

  /** Tasks of given priorities before any mutex is used. */
  function Unused(prio: map<Task, nat>, mutexes: set<Mutex>, first: Task): State {
    State(prio, prio, map t <- prio :: 0, map t <- prio :: Idle,
          map m <- mutexes :: Free, map m <- mutexes :: 1, map m <- mutexes :: [], {}, first, false)
  }

  lemma UnusedInv(prio: map<Task, nat>, mutexes: set<Mutex>, first: Task)
    requires first in prio
    ensures Inv(Unused(prio, mutexes, first))
  {
  }
}
