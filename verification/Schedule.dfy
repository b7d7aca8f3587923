/** The scheduler as its documentation describes it: who is ready, who sleeps until when, who waits for an event, in
    time that does not wrap; and that every step of tasks.c does to its lists what is described here. */
module Schedule {
  import opened Config
  import opened Numbers
  import opened Rings
  import opened ReadyLists
  import opened DelayedLists
  import K = Kernel
  import S = KernelSteps

  datatype Schedule = Schedule(
    ready: set<Task>,
    asleep: set<(Task, nat)>,   // with the time to wake
    waiting: set<Task>,         // for an event, whether or not asleep as well
    parked: set<Task>,          // to be ready when the scheduler is resumed
    terminated: set<Task>,
    now: nat,
    pended: nat,
    suspended: nat,
    prio: map<Task, nat>,
    base: map<Task, nat>,
    held: map<Task, nat>,
    current: Task,
    yieldPending: bool)

  ghost function ReadyTasks(k: K.Kernel): set<Task> {
    set t <- k.prio | IsReady(k.ready, t)
  }

  /** What the kernel's lists mean. */
  ghost function Meaning(k: K.Kernel): Schedule {
    Schedule(ReadyTasks(k), Deadlines(k.delays), k.waiting, (set t <- k.pendingReady), (set t <- k.terminated),
             Now(k.delays), k.pended, k.suspended, k.prio, k.base, k.held, k.current, k.yieldPending)
  }

  function Priority(s: Schedule, t: Task): nat {
    if t in s.prio then s.prio[t] else 0
  }

  predicate Outranks(s: Schedule, t: Task) {
    Priority(s, t) > Priority(s, s.current)
  }

  predicate Rivals(s: Schedule, t: Task) {
    Priority(s, t) >= Priority(s, s.current)
  }

  predicate AnyRival(s: Schedule, among: set<Task>) {
    exists t <- among :: Rivals(s, t)
  }

  // ---- what the steps mean ----

  /** t is ready, and neither asleep nor waiting. */
  function Readied(s: Schedule, t: Task): Schedule {
    s.(ready := s.ready + {t}, asleep := (set x <- s.asleep | x.0 != t), waiting := s.waiting - {t},
       parked := s.parked - {t})
  }

  function DueBy(s: Schedule, time: nat): set<Task> {
    set x <- s.asleep | x.1 <= time :: x.0
  }

  /** n ticks pass: exactly the sleepers whose time has come are ready, and wait no longer. */
  function Elapsed(s: Schedule, n: nat): Schedule {
    var w := s.now + n;
    s.(ready := s.ready + DueBy(s, w), asleep := (set x <- s.asleep | w < x.1), waiting := s.waiting - DueBy(s, w),
       now := w)
  }

  /** Somebody else is ready to share the running task's time. */
  ghost predicate Shared(s: Schedule) {
    exists t, u :: t != u && t in s.ready && u in s.ready && Priority(s, t) == Priority(s, u) == Priority(s, s.current)
  }

  /** The same for ticks made up for after a suspension: a yield is due if one was, if they woke a rival, or if time is
      shared at the end. */
  ghost function Replayed(s: Schedule, n: nat): Schedule {
    if n == 0 then s
    else
      var q := Elapsed(s, n);
      q.(yieldPending := s.yieldPending || AnyRival(s, DueBy(s, s.now + n)) || Shared(q))
  }

  /** Every parked task is ready; a yield is due if one is a rival. */
  function Unparked(s: Schedule): Schedule {
    s.(ready := s.ready + s.parked, asleep := (set x <- s.asleep | x.0 !in s.parked), waiting := s.waiting - s.parked,
       parked := {}, yieldPending := s.yieldPending || AnyRival(s, s.parked))
  }

  ghost function MadeUp(s: Schedule): Schedule {
    Replayed(Unparked(s), s.pended).(pended := 0)
  }

  /** A suspension ends. */
  ghost function Resumed(s: Schedule): Schedule
    requires s.suspended > 0
  {
    var r := s.(suspended := s.suspended - 1);
    if r.suspended > 0 then r else MadeUp(r)
  }

  // ---- readying a task ----

  lemma ReadyIsLive(k: K.Kernel, t: Task)
    requires K.Structure(k)
    ensures t in ReadyTasks(k) <==> IsReady(k.ready, t)
  {
  }

  lemma MakeReadyMeans(k: K.Kernel, t: Task)
    requires K.Structure(k) && t in k.prio && t !in k.terminated
    ensures Meaning(K.MakeReady(k, t)) == Readied(Meaning(k), t)
  {
    K.DetachStructure(k, t);
    ForgetRefines(k.delays, t);
    WithoutAbsent(k.terminated, t);
    MakeReadyReady(k, t);
    Unparks(k.pendingReady, t);
  }

  lemma MakeReadyReady(k: K.Kernel, t: Task)
    requires K.Structure(k) && t in k.prio
    ensures ReadyTasks(K.MakeReady(k, t)) == ReadyTasks(k) + {t}
  {
    K.DetachStructure(k, t);
    forall u ensures IsReady(K.MakeReady(k, t).ready, u) <==> IsReady(k.ready, u) || u == t {
      WithdrawReady(k.ready, k.prio, t, u);
      AddReady(Withdraw(k.ready, t), k.prio, t, u);
    }
  }

  lemma Unparks(s: seq<Task>, t: Task)
    ensures (set u <- Without(s, t)) == (set u <- s) - {t}
  {
    K.WithoutMembers(s, t);
  }

  /** A sleeping task is on no other state list. */
  lemma AsleepOnly(k: K.Kernel, t: Task)
    requires K.Partition(k) && Asleep(k.delays, t)
    ensures t in k.prio && t !in k.terminated && !IsReady(k.ready, t)
  {
    K.Live(k, t);
    BagMember(k.ready.lists, t);
    assert t in multiset(Owners(k.delays.current)) + multiset(Owners(k.delays.overflow));
    assert t in multiset(k.terminated) <==> t in k.terminated;
    assert K.StateBag(k)[t] <= 1;
  }

  // ---- resuming ----

  /** One parked task made ready and the rest later come to the same. */
  lemma UnparkedAfter(s: Schedule, t: Task)
    requires t in s.parked
    ensures Unparked(Readied(s, t).(yieldPending := s.yieldPending || Rivals(s, t))) == Unparked(s)
  {
    var q := Readied(s, t).(yieldPending := s.yieldPending || Rivals(s, t));
    assert s.parked == {t} + q.parked;
    Regroup(s.ready, s.waiting, {t}, q.parked);
    OthersAsleep(s.asleep, t, s.parked);
    RivalFirst(s, q, t);
  }

  lemma OthersAsleep(asleep: set<(Task, nat)>, t: Task, parked: set<Task>)
    requires t in parked
    ensures var rest := set x <- asleep | x.0 != t;
            (set x <- rest | x.0 !in parked - {t}) == (set x <- asleep | x.0 !in parked)
  {
  }

  lemma RivalFirst(s: Schedule, q: Schedule, t: Task)
    requires t in s.parked && q.parked == s.parked - {t} && q.prio == s.prio && q.current == s.current
    ensures AnyRival(s, s.parked) <==> Rivals(s, t) || AnyRival(q, q.parked)
  {
    assert forall u :: Rivals(s, u) <==> Rivals(q, u);
    if u :| u in s.parked && Rivals(s, u) {
      assert u == t || (u in q.parked && Rivals(q, u));
    }
    if u :| u in q.parked && Rivals(q, u) {
      assert u in s.parked && Rivals(s, u);
    }
  }

  lemma UnparkOneMeans(k: K.Kernel)
    requires K.Core(k) && k.pendingReady != []
    ensures var t := k.pendingReady[0];
            Meaning(K.UnparkOne(k))
            == Readied(Meaning(k), t).(yieldPending := k.yieldPending || Rivals(Meaning(k), t))
  {
    var t := k.pendingReady[0];
    assert t in k.pendingReady;
    AsleepOnly(k, t);
    MakeReadyMeans(k, t);
  }

  lemma {:induction false} MovePendingMeans(k: K.Kernel)
    requires K.Core(k)
    ensures Meaning(K.MovePending(k)) == Unparked(Meaning(k))
    decreases |k.pendingReady|
  {
    if k.pendingReady == [] {
      NobodyParked(Meaning(k));
    } else {
      UnparkOneMeans(k);
      UnparkedAfter(Meaning(k), k.pendingReady[0]);
      MovePendingMeans(K.UnparkOne(k));
    }
  }

  lemma NobodyParked(s: Schedule)
    requires s.parked == {}
    ensures Unparked(s) == s
  {
    assert (set x <- s.asleep | x.0 !in s.parked) == s.asleep;
  }

  lemma UnparkAllMeans(k: K.Kernel)
    requires K.Core(k)
    ensures Meaning(K.UnparkAll(k)) == Unparked(Meaning(k))
  {
    MovePendingMeans(k);
    K.ResetNextCore(K.MovePending(k));
  }

  // ---- ticks ----

  lemma TickMeans(k: K.Kernel)
    requires K.Core(k) && k.suspended == 0
    ensures Meaning(K.Tick(k)) == Elapsed(Meaning(k), 1)
  {
    TickTimes(k.delays, Meaning(k));
    TickReadies(k);
    TickedMeans(k, K.Tick(k), set t <- DelayedLists.Tick(k.delays).1);
  }

  lemma TickedMeans(k: K.Kernel, q: K.Kernel, woken: set<Task>)
    requires q == k.(delays := q.delays, ready := q.ready, waiting := k.waiting - woken)
    requires var s := Meaning(k);
             && Now(q.delays) == s.now + 1 && DueBy(s, s.now + 1) == woken
             && Deadlines(q.delays) == Elapsed(s, 1).asleep
    requires ReadyTasks(q) == ReadyTasks(k) + woken
    ensures Meaning(q) == Elapsed(Meaning(k), 1)
  {
  }

  /** Who a tick wakes, and who sleeps on. */
  lemma TickTimes(d: Delays, s: Schedule)
    requires DelayShape(d) && s.asleep == Deadlines(d) && s.now == Now(d)
    ensures var (q, woken) := DelayedLists.Tick(d);
            && Now(q) == s.now + 1 && DueBy(s, s.now + 1) == (set t <- woken) && Deadlines(q) == Elapsed(s, 1).asleep
  {
    TickRefines(d);
  }

  lemma TickReadies(k: K.Kernel)
    requires K.Core(k) && k.suspended == 0
    ensures ReadyTasks(K.Tick(k)) == ReadyTasks(k) + (set t <- DelayedLists.Tick(k.delays).1)
  {
    K.WokenAreLive(k);
    forall t ensures IsReady(K.Tick(k).ready, t) <==> IsReady(k.ready, t) || t in DelayedLists.Tick(k.delays).1 {
      AddAllReady(k.ready, k.prio, DelayedLists.Tick(k.delays).1, t);
    }
  }

  /** What xTaskIncrementTick answers. */
  lemma TickAnswers(k: K.Kernel)
    requires K.Inv(k) && k.suspended == 0
    ensures K.TickAsksForSwitch(k) == Replayed(Meaning(k), 1).yieldPending
  {
    WokenRival(k);
    TickMeans(k);
    K.TickCore(k);
    SharedList(K.Tick(k));
  }

  lemma WokenRival(k: K.Kernel)
    requires K.Core(k)
    ensures K.AnyAtLeast(DelayedLists.Tick(k.delays).1, k.prio, k.prio[k.current])
       <==> AnyRival(Meaning(k), DueBy(Meaning(k), Now(k.delays) + 1))
  {
    var woken, s := DelayedLists.Tick(k.delays).1, Meaning(k);
    TickTimes(k.delays, s);
    K.WokenAreLive(k);
    if AnyRival(s, DueBy(s, s.now + 1)) {
      var t :| t in DueBy(s, s.now + 1) && Rivals(s, t);
      assert t in woken;
    }
    if K.AnyAtLeast(woken, k.prio, k.prio[k.current]) {
      var t :| t in woken && t in k.prio && k.prio[k.current] <= k.prio[t];
      assert Rivals(s, t);
    }
  }

  /** Two tasks share the running task's ready list. */
  lemma SharedList(k: K.Kernel)
    requires K.Structure(k) && K.Partition(k)
    ensures |k.ready.lists[k.prio[k.current]].items| > 1 <==> Shared(Meaning(k))
  {
    var p, s := k.prio[k.current], Meaning(k);
    var l := k.ready.lists[p].items;
    if |l| > 1 {
      OnceListed(k, p);
      Listed(k, l[0], p);
      Listed(k, l[1], p);
    }
    if Shared(s) {
      var t, u :| t != u && t in s.ready && u in s.ready && Priority(s, t) == Priority(s, u) == Priority(s, s.current);
      Listed(k, t, p);
      Listed(k, u, p);
      TwoMembers(l, t, u);
    }
  }

  lemma TwoMembers(l: seq<Task>, t: Task, u: Task)
    requires t in l && u in l && t != u
    ensures |l| > 1
  {
  }

  lemma Listed(k: K.Kernel, t: Task, p: nat)
    requires K.Structure(k) && p < MAX_PRIORITIES
    ensures t in k.ready.lists[p].items <==> t in ReadyTasks(k) && k.prio[t] == p
  {
  }

  lemma OnceListed(k: K.Kernel, p: nat)
    requires K.Structure(k) && K.Partition(k) && p < MAX_PRIORITIES
    ensures Distinct(k.ready.lists[p].items)
  {
    var l := k.ready.lists[p].items;
    BagAt(k.ready.lists, p);
    forall t ensures multiset(l)[t] <= 1 {
      assert multiset(l)[t] <= K.StateBag(k)[t] <= 1;
    }
    DistinctBag(l);
  }

  lemma DistinctBag(l: seq<Task>)
    requires forall t :: multiset(l)[t] <= 1
    ensures Distinct(l)
  {
    forall i, j | 0 <= i < j < |l| ensures l[i] != l[j] {
      assert l == l[..j] + l[j..];
      assert l[i] in multiset(l[..j]) && l[j] in multiset(l[j..]);
      assert multiset(l)[l[j]] == multiset(l[..j])[l[j]] + multiset(l[j..])[l[j]] <= 1;
    }
  }

  lemma {:induction false} BagAt(lists: seq<Ring<Task>>, p: nat)
    requires p < |lists|
    ensures multiset(lists[p].items) <= Bag(lists)
  {
    if p > 0 {
      BagAt(lists[1..], p - 1);
    }
  }

  lemma ReplayTickMeans(k: K.Kernel)
    ensures K.Replayable(k) ==> Meaning(K.PendedTick(k)) == Replayed(Meaning(k), 1)
  {
    if K.Replayable(k) {
      TickMeans(k);
      TickAnswers(k);
    }
  }

  /** Ticks made up for one at a time come to the same as all at once. */
  lemma ReplayedLast(s: Schedule, n: nat)
    ensures Replayed(Replayed(s, n), 1) == Replayed(s, n + 1)
  {
    if n > 0 {
      var q := Elapsed(s, n);
      ElapsedLast(s, n);
      DueLast(s, n);
      RivalsAmong(s, q, DueBy(s, s.now + n), DueBy(q, q.now + 1));
      SharedStays(s, n);
    }
  }

  lemma DueLast(s: Schedule, n: nat)
    ensures DueBy(s, s.now + n + 1) == DueBy(s, s.now + n) + DueBy(Elapsed(s, n), s.now + n + 1)
  {
  }

  lemma ElapsedLast(s: Schedule, n: nat)
    ensures Elapsed(Elapsed(s, n), 1) == Elapsed(s, n + 1)
  {
    DueLast(s, n);
    Regroup(s.ready, s.waiting, DueBy(s, s.now + n), DueBy(Elapsed(s, n), s.now + n + 1));
    SleepOn(s.asleep, s.now + n);
  }

  lemma SleepOn(asleep: set<(Task, nat)>, w: nat)
    ensures (set x <- (set y <- asleep | w < y.1) | w + 1 < x.1) == (set x <- asleep | w + 1 < x.1)
  {
  }

  lemma Regroup(r: set<Task>, w: set<Task>, a: set<Task>, b: set<Task>)
    ensures (r + a) + b == r + (a + b) && (w - a) - b == w - (a + b)
  {
  }

  lemma RivalsAmong(s: Schedule, q: Schedule, a: set<Task>, b: set<Task>)
    requires q.prio == s.prio && q.current == s.current
    ensures AnyRival(s, a + b) <==> AnyRival(s, a) || AnyRival(q, b)
  {
    assert forall t :: Rivals(s, t) <==> Rivals(q, t);
    if t :| t in a && Rivals(s, t) {
      assert t in a + b;
    }
    if t :| t in b && Rivals(q, t) {
      assert t in a + b && Rivals(s, t);
    }
    if t :| t in a + b && Rivals(s, t) {
      assert t in a || (t in b && Rivals(q, t));
    }
  }

  /** Time shared stays shared. */
  lemma SharedStays(s: Schedule, n: nat)
    ensures Shared(Elapsed(s, n)) ==> Shared(Elapsed(s, n + 1))
  {
    var q, r := Elapsed(s, n), Elapsed(s, n + 1);
    assert DueBy(s, s.now + n) <= DueBy(s, s.now + n + 1);
    if t, u :| t != u && t in q.ready && u in q.ready && Priority(q, t) == Priority(q, u) == Priority(q, q.current) {
      assert t in r.ready && u in r.ready && Priority(r, t) == Priority(r, u) == Priority(r, r.current);
    }
  }

  ghost function ReplayedOne(s: Schedule): Schedule {
    Replayed(s, 1)
  }

  lemma {:induction false} ReplayedOneByOne(s: Schedule, n: nat)
    ensures Iterate(ReplayedOne, s, n) == Replayed(s, n)
  {
    if n > 0 {
      var before := Iterate(ReplayedOne, s, n - 1);
      ReplayedOneByOne(s, n - 1);
      IterateLast(ReplayedOne, s, n - 1);
      OneMoreReplayed(s, n - 1, before);
    }
  }

  lemma OneMoreReplayed(s: Schedule, n: nat, before: Schedule)
    requires before == Replayed(s, n)
    ensures ReplayedOne(before) == Replayed(s, n + 1)
  {
    ReplayedLast(s, n);
  }

  lemma ReplayedFirst(s: Schedule, n: nat)
    requires n > 0
    ensures Replayed(ReplayedOne(s), n - 1) == Replayed(s, n)
  {
    ReplayedOneByOne(s, n);
    ReplayedOneByOne(ReplayedOne(s), n - 1);
  }

  /** Ticks that were pended, made up for one after the other. */
  lemma {:induction false} TickManyMeans(k: K.Kernel, n: nat)
    ensures K.Replayable(k) ==> Meaning(K.TickMany(k, n)) == Replayed(Meaning(k), n)
    decreases n
  {
    if n > 0 && K.Replayable(k) {
      K.PendedTickKeeps(k);
      ReplayTickMeans(k);
      TickManyMeans(K.PendedTick(k), n - 1);
      ReplayedFirst(Meaning(k), n);
    }
  }

  lemma CatchUpMeans(k: K.Kernel)
    requires K.Core(k) && k.suspended == 0
    ensures Meaning(K.CatchUp(k)) == MadeUp(Meaning(k))
  {
    UnparkAllMeans(k);
    TickManyMeans(K.UnparkAll(k), k.pended);
    assert K.CatchUp(k) == K.TickMany(K.UnparkAll(k), k.pended).(pended := 0);
  }

  lemma SuspendedMeans(k: K.Kernel, n: nat)
    ensures Meaning(k.(suspended := n)) == Meaning(k).(suspended := n)
  {
    assert ReadyTasks(k.(suspended := n)) == ReadyTasks(k);
  }

  lemma ResumeMeans(k: K.Kernel)
    requires K.Inv(k) && k.suspended > 0
    ensures Meaning(K.ResumeAll(k)) == Resumed(Meaning(k))
  {
    SuspendedMeans(k, k.suspended - 1);
    ResumingMeans(k, k.(suspended := k.suspended - 1));
  }

  lemma ResumingMeans(k: K.Kernel, q: K.Kernel)
    requires K.Inv(k) && k.suspended > 0 && q == k.(suspended := k.suspended - 1)
    ensures Meaning(K.ResumeAll(k)) == if q.suspended > 0 then Meaning(q) else MadeUp(Meaning(q))
  {
    K.SuspendedCore(k, k.suspended - 1);
    LoweredMeans(q);
  }

  lemma LoweredMeans(k: K.Kernel)
    ensures K.Core(k) && k.suspended == 0 ==> Meaning(K.CatchUp(k)) == MadeUp(Meaning(k))
  {
    if K.Core(k) && k.suspended == 0 {
      CatchUpMeans(k);
    }
  }

  // ---- what the tasks get ----

  lemma AsleepMeans(d: Delays, t: Task)
    ensures Asleep(d, t) <==> exists x <- Deadlines(d) :: x.0 == t
  {
    OwnersAt(d.current, d.overflows);
    OwnersAt(d.overflow, d.overflows + 1);
  }

  /** All these are ready, and none of them is asleep. */
  ghost predicate AllAwake(k: K.Kernel, among: seq<Task>) {
    forall t <- among :: K.Awake(k, t)
  }

  lemma AwakeMeans(k: K.Kernel, t: Task)
    requires K.Structure(k)
    ensures K.Awake(k, t)
       <==> t in ReadyTasks(k) && (forall x <- Deadlines(k.delays) :: x.0 != t)
            && t !in k.waiting && t !in k.pendingReady
  {
    AsleepMeans(k.delays, t);
  }

  /** Whoever was parked is ready once the parked tasks have been moved. */
  lemma MovePendingWakes(k: K.Kernel)
    requires K.Core(k)
    ensures AllAwake(K.MovePending(k), k.pendingReady)
  {
    MovePendingMeans(k);
    var q, s := K.MovePending(k), Meaning(k);
    forall t | t in k.pendingReady ensures K.Awake(q, t) {
      assert t in s.parked;
      assert t in Meaning(q).ready && t !in Meaning(q).waiting;
      AwakeMeans(q, t);
    }
  }

  /** No task that an interrupt parked is lost: with the scheduler running again each is ready. */
  lemma ResumeWakes(k: K.Kernel)
    requires K.Inv(k) && k.suspended == 1
    ensures AllAwake(K.ResumeAll(k), k.pendingReady)
  {
    ResumeMeans(k);
    var q, s := K.ResumeAll(k), Meaning(k);
    ParkedAreReady(s);
    forall t | t in k.pendingReady ensures K.Awake(q, t) {
      assert t in s.parked;
      AwakeMeans(q, t);
    }
  }

  lemma ParkedAreReady(s: Schedule)
    requires s.suspended == 1
    ensures var q := Resumed(s);
            && q.parked == {} && s.parked <= q.ready && s.parked !! q.waiting
            && forall x <- q.asleep :: x.0 !in s.parked && x in s.asleep
  {
  }

  /** Nobody ready outranks the running task, unless a yield is pending. */
  ghost predicate Settled(s: Schedule) {
    s.yieldPending || forall t <- s.ready :: !Outranks(s, t)
  }

  lemma ResumedSettled(s: Schedule)
    requires s.suspended == 1 && Settled(s)
    ensures Settled(Resumed(s))
  {
    var r := s.(suspended := 0);
    var u := Unparked(r);
    assert Settled(u) by {
      forall t | t in u.ready && Outranks(u, t) ensures u.yieldPending {
        assert Outranks(s, t) && Rivals(r, t);
      }
    }
    ReplayedSettled(u, s.pended);
  }

  lemma ReplayedSettled(s: Schedule, n: nat)
    requires Settled(s)
    ensures Settled(Replayed(s, n))
  {
    var q := Replayed(s, n);
    forall t | t in q.ready && Outranks(q, t) ensures q.yieldPending {
      assert Outranks(s, t) && Rivals(s, t);
    }
  }

  /** If no ready task outranked the running one when the last suspension ends, or a yield was pending, then the same
      holds of all the tasks readied since: no preemption is lost. */
  lemma ResumeLosesNoYield(k: K.Kernel)
    requires K.Inv(k) && k.suspended == 1
    requires k.yieldPending || forall t | IsReady(k.ready, t) :: t in k.prio && k.prio[t] <= k.prio[k.current]
    ensures var q := K.ResumeAll(k);
            q.yieldPending || forall t | IsReady(q.ready, t) :: t in q.prio && q.prio[t] <= q.prio[q.current]
  {
    SettledMeans(k);
    ResumeMeans(k);
    ResumedSettled(Meaning(k));
    SettledMeans(K.ResumeAll(k));
  }

  lemma SettledMeans(k: K.Kernel)
    requires K.Structure(k)
    ensures Settled(Meaning(k))
       <==> k.yieldPending || forall t | IsReady(k.ready, t) :: t in k.prio && k.prio[t] <= k.prio[k.current]
  {
    assert forall t :: t in ReadyTasks(k) <==> IsReady(k.ready, t);
  }
}
