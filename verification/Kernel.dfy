/** The scheduler state of tasks.c and what each kernel step does to it. */
module Kernel {
  import opened Config
  import opened Rings
  import opened ReadyLists
  import opened DelayedLists

  datatype Kernel = Kernel(
    delays: Delays,
    pended: nat,               // uxPendedTicks
    suspended: nat,            // uxSchedulerSuspended
    ready: Ready,
    terminated: seq<Task>,     // xTasksWaitingTermination
    pendingReady: seq<Task>,   // event list items parked while the scheduler is suspended
    waiting: set<Task>,        // tasks whose event list item is on some object's event list
    prio: map<Task, nat>,      // uxPriority of every live task
    base: map<Task, nat>,      // uxBasePriority
    held: map<Task, nat>,      // uxMutexesHeld
    current: Task,
    yieldPending: bool)

  // ---- the invariant ----

  /** Every state list item on every state list, with multiplicity. */
  ghost function StateBag(k: Kernel): multiset<Task> {
    multiset(Owners(k.delays.current)) + multiset(Owners(k.delays.overflow)) + multiset(k.terminated)
    + Bag(k.ready.lists)
  }

  ghost predicate Priorities(k: Kernel) {
    && k.base.Keys == k.prio.Keys && k.held.Keys == k.prio.Keys && k.current in k.prio
    && (forall t <- k.prio :: k.prio[t] < MAX_PRIORITIES && k.base[t] < MAX_PRIORITIES)
  }

  ghost predicate Structure(k: Kernel) {
    Priorities(k) && ReadyShape(k.ready, k.prio) && DelayShape(k.delays)
  }

  /** Each live task's state list item is on exactly one state list, once. */
  ghost predicate Partition(k: Kernel) {
    StateBag(k) == multiset(k.prio.Keys)
  }

  /** Event list items belong to blocked tasks, each on one event list or parked, never both. */
  ghost predicate Events(k: Kernel) {
    && (forall t <- k.waiting :: Asleep(k.delays, t) && t !in k.pendingReady)
    && (forall t <- k.pendingReady :: Asleep(k.delays, t))
    && Distinct(k.pendingReady)
  }

  ghost predicate Core(k: Kernel) {
    Structure(k) && Partition(k) && Events(k)
  }

  /** Nothing stays parked once the scheduler runs. */
  ghost predicate Inv(k: Kernel) {
    Core(k) && (k.suspended == 0 ==> k.pendingReady == [])
  }

  // ---- building blocks ----

  /** uxListRemove on a task's state list item, wherever it is. */
  function Detach(k: Kernel, t: Task): Kernel
    requires ReadyShape(k.ready, k.prio)
  {
    k.(delays := Forget(k.delays, t), terminated := Without(k.terminated, t), ready := Withdraw(k.ready, t))
  }

  /** prvAddTaskToReadyList. */
  function AddToReady(k: Kernel, t: Task): Kernel
    requires ReadyShape(k.ready, k.prio) && t in k.prio && k.prio[t] < MAX_PRIORITIES
  {
    k.(ready := Add(k.ready, k.prio[t], t))
  }

  /** uxListRemove on a task's event list item, wherever it is. */
  function DetachEvent(k: Kernel, t: Task): Kernel {
    k.(waiting := k.waiting - {t}, pendingReady := Without(k.pendingReady, t))
  }

  lemma DetachStructure(k: Kernel, t: Task)
    requires Structure(k)
    ensures Structure(Detach(k, t))
  {
    WithdrawShape(k.ready, k.prio, t);
    ForgetShape(k.delays, t);
  }

  lemma DetachBag(k: Kernel, t: Task)
    requires ReadyShape(k.ready, k.prio)
    ensures StateBag(Detach(k, t)) == StateBag(k)[t := 0]
  {
    var d := Detach(k, t);
    DropBag(k.delays.current, t);
    DropBag(k.delays.overflow, t);
    WithoutBag(k.terminated, t);
    WithdrawShape(k.ready, k.prio, t);
    var a, b := multiset(Owners(k.delays.current)), multiset(Owners(k.delays.overflow));
    var c, e := multiset(k.terminated), Bag(k.ready.lists);
    assert StateBag(d) == a[t := 0] + b[t := 0] + c[t := 0] + e[t := 0];
    assert StateBag(k) == a + b + c + e;
  }

  lemma ForgetAsleep(d: Delays, t: Task)
    ensures forall u :: Asleep(Forget(d, t), u) <==> u != t && Asleep(d, u)
  {
    DropOwners(d.current, t);
    DropOwners(d.overflow, t);
  }

  lemma AddEffect(k: Kernel, t: Task)
    requires Structure(k) && t in k.prio
    ensures Structure(AddToReady(k, t)) && StateBag(AddToReady(k, t)) == StateBag(k) + multiset{t}
  {
    AddShape(k.ready, k.prio, t);
  }

  /** A task on any state list is live. */
  lemma Live(k: Kernel, t: Task)
    requires Partition(k)
    ensures Asleep(k.delays, t) || t in k.terminated || IsReady(k.ready, t) <==> t in k.prio
  {
    BagMember(k.ready.lists, t);
    assert t in multiset(k.prio.Keys) <==> t in StateBag(k);
  }

  // ---- readying a task ----

  /** Take a task off every list it is on and put it at the end of its ready list. */
  function MakeReady(k: Kernel, t: Task): Kernel
    requires Structure(k) && t in k.prio
  {
    DetachStructure(k, t);
    AddToReady(DetachEvent(Detach(k, t), t), t)
  }

  lemma MakeReadyCore(k: Kernel, t: Task)
    requires Core(k) && t in k.prio
    ensures Core(MakeReady(k, t))
  {
    MakeReadyPartition(k, t);
    ForgetAsleep(k.delays, t);
    WithoutDistinct(k.pendingReady, t);
  }

  lemma MakeReadyPartition(k: Kernel, t: Task)
    requires Structure(k) && Partition(k) && t in k.prio
    ensures Structure(MakeReady(k, t)) && Partition(MakeReady(k, t))
  {
    DetachStructure(k, t);
    DetachBag(k, t);
    var d := DetachEvent(Detach(k, t), t);
    assert StateBag(d) == StateBag(Detach(k, t));
    AddEffect(d, t);
  }

  lemma YieldCore(k: Kernel, y: bool)
    requires Core(k)
    ensures Core(k.(yieldPending := y))
  {
  }

  lemma SuspendedCore(k: Kernel, n: nat)
    requires Core(k)
    ensures Core(k.(suspended := n))
  {
    assert StateBag(k.(suspended := n)) == StateBag(k);
  }

  // ---- xTaskIncrementTick ----

  function Tick(k: Kernel): Kernel
    requires Core(k)
  {
    if k.suspended > 0 then k.(pended := k.pended + 1)
    else
      var (d, woken) := DelayedLists.Tick(k.delays);
      WokenAreLive(k);
      k.(delays := d, ready := AddAll(k.ready, k.prio, woken), waiting := k.waiting - (set t <- woken))
  }

  /** Some task of s has at least priority p. */
  predicate AnyAtLeast(s: seq<Task>, prio: map<Task, nat>, p: nat) {
    exists t <- s :: t in prio && p <= prio[t]
  }

  /** What xTaskIncrementTick answers: whether the port should switch context. */
  predicate TickAsksForSwitch(k: Kernel)
    requires Core(k)
  {
    || k.yieldPending
    || (k.suspended == 0
        && var p := k.prio[k.current];
           || AnyAtLeast(DelayedLists.Tick(k.delays).1, k.prio, p)
           || |Tick(k).ready.lists[p].items| > 1)
  }

  lemma WokenAreLive(k: Kernel)
    requires Core(k)
    ensures forall t <- DelayedLists.Tick(k.delays).1 ::
              Asleep(k.delays, t) && t in k.prio && k.prio[t] < MAX_PRIORITIES
  {
    TickBag(k.delays);
    var (d, woken) := DelayedLists.Tick(k.delays);
    forall t <- woken ensures Asleep(k.delays, t) && t in k.prio {
      assert t in multiset(woken);
      assert t in multiset(Owners(k.delays.current)) + multiset(Owners(k.delays.overflow));
      Live(k, t);
    }
  }

  lemma TickPartition(k: Kernel)
    requires Core(k) && k.suspended == 0
    ensures Structure(Tick(k)) && Partition(Tick(k))
  {
    var (d, woken) := DelayedLists.Tick(k.delays);
    WokenAreLive(k);
    TickShape(k.delays);
    TickBag(k.delays);
    AddAllBag(k.ready, k.prio, woken);
    MoveBags(multiset(Owners(d.current)), multiset(Owners(d.overflow)), multiset(woken),
             multiset(Owners(k.delays.current)), multiset(Owners(k.delays.overflow)),
             multiset(k.terminated), Bag(k.ready.lists));
  }

  lemma MoveBags(a': multiset<Task>, b': multiset<Task>, w: multiset<Task>,
                 a: multiset<Task>, b: multiset<Task>, c: multiset<Task>, e: multiset<Task>)
    requires a' + b' + w == a + b
    ensures a' + b' + c + (e + w) == a + b + c + e
  {
  }

  lemma TickCore(k: Kernel)
    requires Core(k) && (k.suspended == 0 ==> k.pendingReady == [])
    ensures Core(Tick(k))
  {
    if k.suspended == 0 {
      TickPartition(k);
      TickBag(k.delays);
      var (d, woken) := DelayedLists.Tick(k.delays);
      forall t | Asleep(k.delays, t) && t !in woken ensures Asleep(d, t) {
        assert t in multiset(Owners(d.current)) + multiset(Owners(d.overflow)) + multiset(woken);
      }
    }
  }

  // ---- xTaskResumeAll ----

  lemma FirstParkedReady(k: Kernel)
    requires Core(k) && k.pendingReady != []
    ensures k.pendingReady[0] in k.prio
    ensures var m := MakeReady(k, k.pendingReady[0]);
            && Core(m) && |m.pendingReady| < |k.pendingReady|
            && m.suspended == k.suspended && m.pended == k.pended && m.prio == k.prio && Now(m.delays) == Now(k.delays)
  {
    var t := k.pendingReady[0];
    Live(k, t);
    MakeReadyCore(k, t);
    WithoutDistinct(k.pendingReady, t);
  }

  /** One turn of its first loop: the first task an interrupt parked goes to its ready list. */
  function UnparkOne(k: Kernel): (r: Kernel)
    requires Core(k) && k.pendingReady != []
    ensures Core(r) && |r.pendingReady| < |k.pendingReady|
    ensures r.suspended == k.suspended && r.pended == k.pended && r.prio == k.prio && Now(r.delays) == Now(k.delays)
  {
    FirstParkedReady(k);
    var t := k.pendingReady[0];
    var m, y := MakeReady(k, t), k.yieldPending || k.prio[k.current] <= k.prio[t];
    YieldCore(m, y);
    m.(yieldPending := y)
  }

  function MovePending(k: Kernel): (r: Kernel)
    requires Core(k)
    ensures Core(r) && r.pendingReady == []
    ensures r.suspended == k.suspended && r.pended == k.pended && r.prio == k.prio && Now(r.delays) == Now(k.delays)
    decreases |k.pendingReady|
  {
    if k.pendingReady == [] then k else MovePending(UnparkOne(k))
  }

  /** One pended tick replayed: the answer of xTaskIncrementTick becomes xYieldPending. */
  function ReplayTick(k: Kernel): Kernel
    requires Inv(k) && k.suspended == 0
  {
    Tick(k).(yieldPending := TickAsksForSwitch(k))
  }

  lemma ReplayTickInv(k: Kernel)
    requires Inv(k) && k.suspended == 0
    ensures var r := ReplayTick(k);
            Inv(r) && r.suspended == 0 && r.pended == k.pended && Now(r.delays) == Now(k.delays) + 1
  {
    TickCore(k);
    TickNow(k);
    YieldCore(Tick(k), TickAsksForSwitch(k));
  }

  lemma TickNow(k: Kernel)
    requires Core(k)
    ensures Now(Tick(k).delays) + Tick(k).pended == Now(k.delays) + k.pended + 1
    ensures k.suspended == 0 ==> Tick(k).pended == k.pended
    ensures Tick(k).suspended == k.suspended
  {
    TickRefines(k.delays);
  }

  ghost predicate Replayable(k: Kernel) {
    Inv(k) && k.suspended == 0
  }

  /** A pended tick is replayed in a state that allows it. */
  ghost function PendedTick(k: Kernel): Kernel {
    if Replayable(k) then ReplayTick(k) else k
  }

  ghost function TickMany(k: Kernel, n: nat): Kernel {
    Iterate(PendedTick, k, n)
  }

  function Processed(k: Kernel): int {
    Now(k.delays)
  }

  lemma PendedTickKeeps(k: Kernel)
    requires Replayable(k)
    ensures Replayable(PendedTick(k)) && Processed(PendedTick(k)) == Processed(k) + 1
  {
    ReplayTickInv(k);
  }

  lemma PendedTicksKeep()
    ensures forall k | Replayable(k) :: Replayable(PendedTick(k)) && Processed(PendedTick(k)) == Processed(k) + 1
  {
    forall k | Replayable(k) ensures Replayable(PendedTick(k)) && Processed(PendedTick(k)) == Processed(k) + 1 {
      PendedTickKeeps(k);
    }
  }

  lemma TickManyReplayable(k: Kernel, n: nat)
    requires Replayable(k)
    ensures Replayable(TickMany(k, n))
  {
    PendedTicksKeep();
    IterateKeeps(PendedTick, Replayable, k, n);
  }

  lemma TickManyCounts(k: Kernel, n: nat)
    requires Replayable(k)
    ensures Processed(TickMany(k, n)) == Processed(k) + n
  {
    PendedTicksKeep();
    IterateCounts(PendedTick, Replayable, Processed, k, n);
  }

  /** prvResetNextTaskUnblockTime. */
  function ResetNext(k: Kernel): Kernel {
    k.(delays := k.delays.(next := FirstTime(k.delays.current)))
  }

  lemma ResetNextCore(k: Kernel)
    requires Core(k)
    ensures Core(ResetNext(k)) && Deadlines(ResetNext(k).delays) == Deadlines(k.delays)
  {
  }

  /** Every parked task becomes ready, and the next unblock time is recomputed if there was one. */
  function UnparkAll(k: Kernel): (r: Kernel)
    requires Core(k)
    ensures Core(r) && r.pendingReady == []
    ensures r.suspended == k.suspended && r.pended == k.pended && r.prio == k.prio && Now(r.delays) == Now(k.delays)
  {
    var m := MovePending(k);
    ResetNextCore(m);
    if k.pendingReady == [] then m else ResetNext(m)
  }

  /** What xTaskResumeAll does once the scheduler runs: ready the parked tasks and replay the pended ticks. */
  ghost function CatchUp(k: Kernel): (r: Kernel)
    requires Core(k) && k.suspended == 0
    ensures Inv(r) && Now(r.delays) == Now(k.delays) + k.pended && r.suspended == 0 && r.pended == 0
  {
    var m := UnparkAll(k);
    TickManyReplayable(m, m.pended);
    TickManyCounts(m, m.pended);
    var q := TickMany(m, m.pended).(pended := 0);
    assert StateBag(q) == StateBag(TickMany(m, m.pended));
    q
  }

  ghost function ResumeAll(k: Kernel): (r: Kernel)
    requires Inv(k) && k.suspended > 0
    ensures Inv(r) && Now(r.delays) + r.pended == Now(k.delays) + k.pended
    ensures r.suspended == k.suspended - 1 && (r.suspended == 0 ==> r.pended == 0)
  {
    SuspendedCore(k, k.suspended - 1);
    var q := k.(suspended := k.suspended - 1);
    if q.suspended > 0 then q else CatchUp(q)
  }

  // ---- vTaskSwitchContext ----

  function SwitchContext(k: Kernel): Kernel
    requires ReadyShape(k.ready, k.prio) && (k.suspended == 0 ==> SomeReady(k.ready))
  {
    if k.suspended > 0 then k.(yieldPending := true)
    else
      var (r, t) := Select(k.ready, k.prio);
      k.(yieldPending := false, ready := r, current := t)
  }

  /** Outside a suspension the switch ends on a ready task that no ready task outranks. */
  lemma SwitchRunsHighest(k: Kernel)
    requires Inv(k) && k.suspended == 0 && SomeReady(k.ready)
    ensures var r := SwitchContext(k);
            && Inv(r) && IsReady(r.ready, r.current)
            && forall t | IsReady(r.ready, t) :: r.prio[t] <= r.prio[r.current]
  {
    SelectShape(k.ready, k.prio);
    SelectIsHighest(k.ready, k.prio);
    var r := SwitchContext(k);
    assert StateBag(r) == StateBag(k);
    forall t ensures IsReady(r.ready, t) <==> IsReady(k.ready, t) {
      BagMember(k.ready.lists, t);
      BagMember(r.ready.lists, t);
    }
    Live(k, r.current);
  }

  // ---- blocking and unblocking ----

  /** prvAddCurrentTaskToDelayedList. */
  function SleepCurrent(k: Kernel, ticks: nat): (r: Kernel)
    requires Structure(k) && ticks < TICKS
    ensures (k.current, Now(k.delays) + ticks) in Deadlines(r.delays) && Now(r.delays) == Now(k.delays)
  {
    DetachStructure(k, k.current);
    SleepRefines(Forget(k.delays, k.current), k.current, ticks);
    var d := Detach(k, k.current);
    d.(delays := Sleep(d.delays, k.current, ticks))
  }

  /** vTaskPlaceOnEventList and its variants: on an event list, and asleep until the timeout. */
  function BlockCurrent(k: Kernel, ticks: nat): Kernel
    requires Structure(k) && ticks < TICKS
  {
    SleepCurrent(k.(waiting := k.waiting + {k.current}), ticks)
  }

  /** A delay of no ticks at the very last tick count would outlive the wrap. */
  predicate CanSleep(k: Kernel, ticks: nat) {
    ticks < TICKS && (ticks > 0 || k.delays.tick < TICKS - 1)
  }

  lemma SleepPartition(k: Kernel, ticks: nat)
    requires Structure(k) && Partition(k) && CanSleep(k, ticks)
    ensures Structure(SleepCurrent(k, ticks)) && Partition(SleepCurrent(k, ticks))
  {
    DetachStructure(k, k.current);
    DetachBag(k, k.current);
    SleepShape(Detach(k, k.current).delays, k.current, ticks);
    DetachedSleeps(Detach(k, k.current), ticks);
  }

  /** A task that is on no list goes to sleep. */
  lemma DetachedSleeps(d: Kernel, ticks: nat)
    requires d.delays.tick < TICKS && ticks < TICKS
    ensures StateBag(d.(delays := Sleep(d.delays, d.current, ticks))) == StateBag(d) + multiset{d.current}
  {
    SleepBag(d.delays, d.current, ticks);
  }

  lemma SleepBag(d: Delays, t: Task, ticks: nat)
    requires d.tick < TICKS && ticks < TICKS
    ensures var q := Sleep(d, t, ticks);
            multiset(Owners(q.current)) + multiset(Owners(q.overflow))
            == multiset(Owners(d.current)) + multiset(Owners(d.overflow)) + multiset{t}
  {
    var e := Entry(t, AddTicks(d.tick, ticks));
    InsertBag(d.current, e);
    InsertBag(d.overflow, e);
  }

  lemma SleepAsleep(k: Kernel, ticks: nat)
    requires Structure(k) && ticks < TICKS
    ensures forall t :: Asleep(SleepCurrent(k, ticks).delays, t) <==> Asleep(k.delays, t) || t == k.current
  {
    var d := Detach(k, k.current);
    SleepBag(d.delays, k.current, ticks);
    ForgetAsleep(k.delays, k.current);
    var q := SleepCurrent(k, ticks).delays;
    forall t ensures Asleep(q, t) <==> Asleep(d.delays, t) || t == k.current {
      assert t in multiset(Owners(q.current)) + multiset(Owners(q.overflow)) <==> Asleep(q, t);
      assert t in multiset(Owners(d.delays.current)) + multiset(Owners(d.delays.overflow)) <==> Asleep(d.delays, t);
    }
  }

  lemma SleepInv(k: Kernel, ticks: nat)
    requires Inv(k) && CanSleep(k, ticks)
    ensures Inv(SleepCurrent(k, ticks))
  {
    SleepPartition(k, ticks);
    SleepAsleep(k, ticks);
  }

  lemma BlockInv(k: Kernel, ticks: nat)
    requires Inv(k) && CanSleep(k, ticks) && k.current !in k.pendingReady
    ensures Inv(BlockCurrent(k, ticks))
  {
    var w := k.(waiting := k.waiting + {k.current});
    assert StateBag(w) == StateBag(k);
    SleepPartition(w, ticks);
    SleepAsleep(w, ticks);
  }

  /** xTaskRemoveFromEventList: ready the task now, or park it while the scheduler is suspended. */
  function Unblock(k: Kernel, t: Task): Kernel
    requires Structure(k) && t in k.prio
  {
    var r := if k.suspended == 0 then MakeReady(k, t)
             else k.(waiting := k.waiting - {t}, pendingReady := k.pendingReady + [t]);
    r.(yieldPending := k.yieldPending || k.prio[k.current] < k.prio[t])
  }

  /** vTaskRemoveFromUnorderedEventList: ready the task at once. */
  function Release(k: Kernel, t: Task): Kernel
    requires Structure(k) && t in k.prio
  {
    MakeReady(k, t).(yieldPending := k.yieldPending || k.prio[k.current] < k.prio[t])
  }

  lemma ReleaseInv(k: Kernel, t: Task)
    requires Inv(k) && Asleep(k.delays, t)
    ensures t in k.prio && Inv(Release(k, t))
  {
    Live(k, t);
    MakeReadyCore(k, t);
    assert StateBag(Release(k, t)) == StateBag(MakeReady(k, t));
  }

  lemma UnblockInv(k: Kernel, t: Task)
    requires Inv(k) && Asleep(k.delays, t) && t !in k.pendingReady
    ensures t in k.prio && Inv(Unblock(k, t))
  {
    if k.suspended == 0 {
      ReleaseInv(k, t);
    } else {
      Live(k, t);
      assert StateBag(Unblock(k, t)) == StateBag(k);
    }
  }

  // ---- who is woken ----

  /** Nobody but t becomes ready, wakes, stops waiting or is parked, or the reverse. */
  ghost predicate OthersStay(k: Kernel, q: Kernel, t: Task) {
    && (forall u | u != t :: IsReady(q.ready, u) <==> IsReady(k.ready, u))
    && (forall u | u != t :: Asleep(q.delays, u) <==> Asleep(k.delays, u))
    && (forall u | u != t :: u in q.waiting <==> u in k.waiting)
    && (forall u | u != t :: u in q.pendingReady <==> u in k.pendingReady)
  }

  ghost predicate Awake(k: Kernel, t: Task) {
    IsReady(k.ready, t) && !Asleep(k.delays, t) && t !in k.waiting && t !in k.pendingReady
  }

  lemma MakeReadyWakes(k: Kernel, t: Task)
    requires Structure(k) && t in k.prio
    ensures Awake(MakeReady(k, t), t) && OthersStay(k, MakeReady(k, t), t)
  {
    var q := MakeReady(k, t);
    DetachStructure(k, t);
    ForgetAsleep(k.delays, t);
    WithoutMembers(k.pendingReady, t);
    forall u ensures IsReady(q.ready, u) <==> IsReady(k.ready, u) || u == t {
      WithdrawReady(k.ready, k.prio, t, u);
      AddReady(Withdraw(k.ready, t), k.prio, t, u);
    }
  }

  lemma WithoutMembers(s: seq<Task>, t: Task)
    ensures forall u :: u in Without(s, t) <==> u in s && u != t
  {
    WithoutBag(s, t);
    forall u ensures u in Without(s, t) <==> u in s && u != t {
      assert u in multiset(Without(s, t)) <==> u in multiset(s)[t := 0];
      assert u in multiset(s) <==> u in s;
    }
  }

  /** What xTaskRemoveFromEventList promises: with the scheduler running the task is ready, otherwise it is parked to
      be; either way it waits no longer, and nobody else is touched. */
  ghost predicate TakenOff(k: Kernel, q: Kernel, t: Task) {
    && (if k.suspended == 0 then Awake(q, t) else t !in q.waiting && t in q.pendingReady)
    && OthersStay(k, q, t)
  }

  lemma UnblockTakesOff(k: Kernel, t: Task)
    requires Structure(k) && t in k.prio
    ensures TakenOff(k, Unblock(k, t), t)
  {
    MakeReadyWakes(k, t);
  }

  lemma ReleaseWakes(k: Kernel, t: Task)
    requires Structure(k) && t in k.prio
    ensures Awake(Release(k, t), t) && OthersStay(k, Release(k, t), t)
  {
    MakeReadyWakes(k, t);
  }
}
