/** Every run of kernel steps: what it keeps, who it runs, and when it wakes a sleeping task. */
module KernelRuns {
  import opened Config
  import opened Rings
  import opened ReadyLists
  import opened DelayedLists
  import K = Kernel
  import S = KernelSteps

  /** prvInitialiseTaskLists: one empty ready list per priority. */
  function EmptyLists(): (r: seq<Ring<Task>>)
    ensures |r| == MAX_PRIORITIES && forall p | 0 <= p < MAX_PRIORITIES :: r[p] == Ring([], 0)
  {
    seq(MAX_PRIORITIES, p => Ring([], 0))
  }

  /** The scheduler as vTaskStartScheduler leaves it: the idle task alone, ready at priority 0. */
  function Boot(idle: Task): K.Kernel {
    K.Kernel(Delays(0, 0, MAX_DELAY, [], []), 0, 0, Ready(EmptyLists()[0 := Ring([idle], 0)], 0), [], [], {},
             map[idle := 0], map[idle := 0], map[idle := 0], idle, false)
  }

  function Initial(idle: Task): (k: K.Kernel)
    ensures K.Inv(k)
  {
    BootInv(idle);
    Boot(idle)
  }

  lemma BootInv(idle: Task)
    ensures K.Inv(Boot(idle))
  {
    BootBag(idle);
    assert Boot(idle).prio.Keys == {idle};
  }

  lemma BootBag(idle: Task)
    ensures K.StateBag(Boot(idle)) == multiset{idle}
  {
    EmptyBag(EmptyLists());
    BagUpdate(EmptyLists(), 0, Ring([idle], 0));
  }

  lemma {:induction false} EmptyBag(lists: seq<Ring<Task>>)
    requires forall p | 0 <= p < |lists| :: lists[p].items == []
    ensures Bag(lists) == multiset{}
  {
    if lists != [] {
      EmptyBag(lists[1..]);
    }
  }

  /** A scheduler state with the kernel's invariant. */
  type State = k: K.Kernel | K.Inv(k) ghost witness Initial(0)

  /** One critical section, one interrupt or one call with the scheduler suspended. */
  datatype Step =
    | Tick
    | Suspend
    | Resume
    | Switch
    | Sleep(ticks: nat)
    | Block(ticks: nat)
    | Unblock(task: Task)
    | Release(task: Task)
    | SetPriority(task: Task, asked: nat)
    | Inherit(task: Task)
    | Disinherit
    | TimedOut(task: Task, waiting: nat)
    | Hold
    | Create(task: Task, priority: nat)
    | Delete(task: Task)
    | Reap

  /** What the kernel's assertions and callers guarantee before the step. */
  predicate Enabled(k: K.Kernel, s: Step) {
    match s
    case Tick | Suspend | Hold => true
    case Resume => k.suspended > 0
    case Switch => k.suspended == 0 ==> SomeReady(k.ready)
    case Sleep(n) => IsReady(k.ready, k.current) && 0 < n < TICKS
    case Block(n) => IsReady(k.ready, k.current) && 0 < n < TICKS
    case Unblock(t) => t in k.waiting
    case Release(t) => t in k.waiting && k.suspended > 0
    case SetPriority(t, _) => t in k.prio
    case Inherit(t) => t in k.prio
    case Disinherit => IsReady(k.ready, k.current) && k.current in k.held && k.held[k.current] > 0
    case TimedOut(t, p) => t in k.prio && p < MAX_PRIORITIES
    case Create(t, p) => t !in k.prio && p < MAX_PRIORITIES
    case Delete(t) => t in k.prio
    case Reap => k.terminated != [] && k.terminated[0] != k.current
  }

  ghost function Effect(k: State, s: Step): K.Kernel
    requires Enabled(k, s)
  {
    match s
    case Tick => K.Tick(k)
    case Suspend => k.(suspended := k.suspended + 1)
    case Resume => K.ResumeAll(k)
    case Switch => K.SwitchContext(k)
    case Sleep(n) => K.SleepCurrent(k, n)
    case Block(n) => K.BlockCurrent(k, n)
    case Unblock(t) => Waiting(k, t); K.Unblock(k, t)
    case Release(t) => Waiting(k, t); K.Release(k, t)
    case SetPriority(t, p) => S.PrioritySet(k, t, p)
    case Inherit(t) => S.Inherit(k, t).0
    case Disinherit => S.Disinherit(k).0
    case TimedOut(t, p) => S.DisinheritAfterTimeout(k, t, p)
    case Hold => S.HoldOneMore(k)
    case Create(t, p) => S.Create(k, t, p)
    case Delete(t) => S.Delete(k, t)
    case Reap => S.Reap(k)
  }

  lemma Waiting(k: State, t: Task)
    requires t in k.waiting
    ensures Asleep(k.delays, t) && t in k.prio && t !in k.pendingReady
  {
    K.Live(k, t);
  }

  /** Every step keeps the invariant. */
  lemma EffectInv(k: State, s: Step)
    requires Enabled(k, s)
    ensures K.Inv(Effect(k, s))
  {
    match s
    case Tick => K.TickCore(k);
    case Suspend => SuspendInv(k);
    case Resume =>
    case Switch => SwitchInv(k);
    case Sleep(n) => K.SleepInv(k, n);
    case Block(n) => Running(k); K.BlockInv(k, n);
    case Unblock(t) => Waiting(k, t); K.UnblockInv(k, t);
    case Release(t) => Waiting(k, t); K.ReleaseInv(k, t);
    case SetPriority(t, p) => S.PrioritySetInv(k, t, p);
    case Inherit(t) => S.InheritInv(k, t);
    case Disinherit => S.DisinheritInv(k);
    case TimedOut(t, p) => S.DisinheritAfterTimeoutInv(k, t, p);
    case Hold => S.RecordsInv(k, k.base, k.held[k.current := k.held[k.current] + 1]);
    case Create(t, p) => S.CreateInv(k, t, p);
    case Delete(t) => S.DeleteInv(k, t);
    case Reap => S.ReapInv(k);
  }

  lemma SuspendInv(k: State)
    ensures K.Inv(k.(suspended := k.suspended + 1))
  {
  }

  lemma SwitchInv(k: State)
    requires (k.suspended == 0 ==> SomeReady(k.ready))
    ensures K.Inv(K.SwitchContext(k))
  {
    if k.suspended == 0 {
      K.SwitchRunsHighest(k);
    } else {
      assert K.StateBag(K.SwitchContext(k)) == K.StateBag(k);
    }
  }

  /** A ready task is neither asleep nor parked. */
  lemma Running(k: State)
    requires IsReady(k.ready, k.current)
    ensures !Asleep(k.delays, k.current) && k.current !in k.pendingReady
  {
    BagMember(k.ready.lists, k.current);
    S.OnlyReady(k, k.current);
  }

  // ---- runs ----

  ghost function Next(k: State, s: Step): (q: State)
    requires Enabled(k, s)
  {
    EffectInv(k, s);
    Effect(k, s)
  }

  ghost predicate Possible(k: State, run: seq<Step>)
    decreases run
  {
    run == [] || (Enabled(k, run[0]) && Possible(Next(k, run[0]), run[1..]))
  }

  ghost function After(k: State, run: seq<Step>): (r: State)
    requires Possible(k, run)
    decreases run
  {
    if run == [] then k else After(Next(k, run[0]), run[1..])
  }

  /** In every reachable state each live task's state list item is on exactly one state list, the ready
      lists hold their own priority, and none above the recorded top is used. */
  lemma AlwaysPartitioned(idle: Task, run: seq<Step>)
    requires Possible(Initial(idle), run)
    ensures var k := After(Initial(idle), run);
            && (forall t :: K.StateBag(k)[t] == if t in k.prio then 1 else 0)
            && (forall p, t | 0 <= p < MAX_PRIORITIES && t in k.ready.lists[p].items :: t in k.prio && k.prio[t] == p)
            && (forall p | 0 <= p < MAX_PRIORITIES && k.ready.lists[p].items != [] :: p <= k.ready.top)
  {
  }

  /** After any run, a switch with the scheduler running ends on a ready task of maximal priority. */
  lemma AlwaysRunsHighest(idle: Task, run: seq<Step>)
    requires Possible(Initial(idle), run)
    requires var k := After(Initial(idle), run); k.suspended == 0 && SomeReady(k.ready)
    ensures var k := Next(After(Initial(idle), run), Switch);
            IsReady(k.ready, k.current) && k.current in k.prio
            && forall t | IsReady(k.ready, t) :: t in k.prio && k.prio[t] <= k.prio[k.current]
  {
    var k := After(Initial(idle), run);
    K.SwitchRunsHighest(k);
    var q := Next(k, Switch);
    forall t | IsReady(q.ready, t) ensures t in q.prio {
      K.Live(q, t);
    }
  }

  /** A tick that asks for no switch leaves the running task unoutranked and with no equal to share with. */
  lemma NoSwitchMissed(k: State)
    requires k.suspended == 0 && IsReady(k.ready, k.current) && !K.TickAsksForSwitch(k)
    requires forall t | IsReady(k.ready, t) :: t in k.prio && k.prio[t] <= k.prio[k.current]
    ensures var q := K.Tick(k);
            && (forall t | IsReady(q.ready, t) :: t in k.prio && k.prio[t] <= k.prio[k.current])
            && |q.ready.lists[k.prio[k.current]].items| <= 1
  {
    K.WokenAreLive(k);
    var woken := DelayedLists.Tick(k.delays).1;
    forall t | IsReady(K.Tick(k).ready, t) ensures t in k.prio && k.prio[t] <= k.prio[k.current] {
      AddAllReady(k.ready, k.prio, woken, t);
    }
  }

  // ---- no tick is lost ----

  /** The ticks that have happened, processed or pended. */
  function RealTime(k: K.Kernel): nat {
    Now(k.delays) + k.pended
  }

  ghost predicate CaughtUp(k: K.Kernel) {
    k.suspended == 0 ==> k.pended == 0
  }

  function Ticks(run: seq<Step>): nat {
    if run == [] then 0 else (if run[0].Tick? then 1 else 0) + Ticks(run[1..])
  }

  lemma EffectTime(k: State, s: Step)
    requires CaughtUp(k) && Enabled(k, s)
    ensures RealTime(Effect(k, s)) == RealTime(k) + if s.Tick? then 1 else 0
    ensures CaughtUp(Effect(k, s))
  {
    match s
    case Tick => K.TickNow(k);
    case Resume =>
    case Suspend | Switch | Sleep(_) | Block(_) | Unblock(_) | Release(_) => MovesKeepTime(k, s);
    case _ => RecordsKeepTime(k, s);
  }

  lemma MovesKeepTime(k: State, s: Step)
    requires Enabled(k, s)
    requires s.Suspend? || s.Switch? || s.Sleep? || s.Block? || s.Unblock? || s.Release?
    ensures RealTime(Effect(k, s)) == RealTime(k) && Effect(k, s).pended == k.pended
    ensures Effect(k, s).suspended == 0 ==> k.suspended == 0
  {
  }

  lemma RecordsKeepTime(k: State, s: Step)
    requires Enabled(k, s)
    requires || s.SetPriority? || s.Inherit? || s.Disinherit? || s.TimedOut?
             || s.Hold? || s.Create? || s.Delete? || s.Reap?
    ensures RealTime(Effect(k, s)) == RealTime(k) && Effect(k, s).pended == k.pended
    ensures Effect(k, s).suspended == 0 ==> k.suspended == 0
  {
  }

  /** Suspending the scheduler loses no tick: processed plus pended ticks are exactly those that came. */
  lemma {:induction false} NoTickLost(k: State, run: seq<Step>)
    requires CaughtUp(k) && Possible(k, run)
    ensures RealTime(After(k, run)) == RealTime(k) + Ticks(run) && CaughtUp(After(k, run))
    decreases run
  {
    if run != [] {
      EffectTime(k, run[0]);
      NoTickLost(Next(k, run[0]), run[1..]);
    }
  }
}
