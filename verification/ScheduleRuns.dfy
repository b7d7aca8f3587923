/** Every run of the kernel is a run of the scheduler its documentation describes. */
module ScheduleRuns {
  import opened Config
  import opened Numbers
  import opened Rings
  import opened ReadyLists
  import opened DelayedLists
  import opened KernelRuns
  import opened KernelTime
  import opened Schedule
  import K = Kernel
  import S = KernelSteps

  // ---- what each step does ----

  /** The running task sleeps for so many ticks. */
  function Slept(s: Schedule, ticks: nat): Schedule {
    s.(ready := s.ready - {s.current},
       asleep := (set x <- s.asleep | x.0 != s.current) + {(s.current, s.now + ticks)})
  }

  /** Unless the scheduler is suspended the task is ready at once. */
  function Unblocked(s: Schedule, t: Task): Schedule {
    var q := if s.suspended == 0 then Readied(s, t) else s.(waiting := s.waiting - {t}, parked := s.parked + {t});
    q.(yieldPending := s.yieldPending || Outranks(s, t))
  }

  /** The new priority is the base priority, and the priority unless t has inherited one. */
  function Reprioritised(s: Schedule, t: Task, asked: nat): Schedule {
    var p := Min(asked, MAX_PRIORITIES - 1);
    if t !in s.prio || t !in s.base then s
    else s.(base := s.base[t := p], prio := s.prio[t := if s.prio[t] == s.base[t] then p else s.prio[t]])
  }

  /** t is gone, but for the idle task to free it if it was running. */
  function Deleted(s: Schedule, t: Task): Schedule {
    var q := Unlisted(s, t);
    if t == s.current then q.(terminated := q.terminated + {t}) else Freed(q, t)
  }

  function Unlisted(s: Schedule, t: Task): Schedule {
    s.(ready := s.ready - {t}, asleep := (set x <- s.asleep | x.0 != t), waiting := s.waiting - {t},
       parked := s.parked - {t}, terminated := s.terminated - {t})
  }

  function Freed(s: Schedule, t: Task): Schedule {
    s.(terminated := s.terminated - {t}, prio := s.prio - {t}, base := s.base - {t}, held := s.held - {t})
  }

  /** A mutex is given; with the last one an inherited priority goes. */
  function Given(s: Schedule): Schedule {
    if s.current !in s.held || s.held[s.current] == 0 || s.current !in s.base then s
    else
      var left := s.held[s.current] - 1;
      s.(held := s.held[s.current := left],
         prio := if left == 0 then s.prio[s.current := s.base[s.current]] else s.prio)
  }

  /** After a timeout a holder of one mutex drops to the first priority still waiting for it, or to its base. */
  function Dropped(s: Schedule, t: Task, waiting: nat): Schedule {
    if t in s.held && s.held[t] == 1 && t in s.base then s.(prio := s.prio[t := Max(s.base[t], waiting)]) else s
  }

  /** What a step may do. */
  ghost predicate Does(s: Schedule, a: Step, q: Schedule) {
    match a
    case Tick => q == if s.suspended > 0 then s.(pended := s.pended + 1) else Elapsed(s, 1)
    case Suspend => q == s.(suspended := s.suspended + 1)
    case Resume => s.suspended > 0 && q == Resumed(s)
    case Switch =>
      if s.suspended > 0 then q == s.(yieldPending := true)
      else q == s.(current := q.current, yieldPending := false)
           && q.current in s.ready && forall t <- s.ready :: Priority(s, t) <= Priority(s, q.current)
    case Sleep(n) => q == Slept(s, n)
    case Block(n) => q == Slept(s, n).(waiting := s.waiting + {s.current})
    case Unblock(t) => q == Unblocked(s, t)
    case Release(t) => q == Readied(s, t).(yieldPending := s.yieldPending || Outranks(s, t))
    case SetPriority(t, asked) => q == Reprioritised(s, t, asked)
    case Inherit(t) => q == s.(prio := s.prio[t := Max(Priority(s, t), Priority(s, s.current))])
    case Disinherit => q == Given(s)
    case TimedOut(t, waiting) => q == Dropped(s, t, waiting)
    case Hold => s.current in s.held && q == s.(held := s.held[s.current := s.held[s.current] + 1])
    case Create(t, p) =>
      q == s.(ready := s.ready + {t}, prio := s.prio[t := p], base := s.base[t := p], held := s.held[t := 0])
    case Delete(t) => q == Deleted(s, t)
    case Reap => exists t <- s.terminated :: t != s.current && q == Freed(s, t)
  }

  // ---- and does ----

  lemma SwitchDoes(k: State)
    requires Enabled(k, Switch)
    ensures Does(Meaning(k), Switch, Meaning(K.SwitchContext(k)))
  {
    if k.suspended == 0 {
      K.SwitchRunsHighest(k);
      SwitchReadies(k);
    }
  }

  lemma SwitchReadies(k: K.Kernel)
    requires K.Inv(k) && k.suspended == 0 && SomeReady(k.ready)
    ensures ReadyTasks(K.SwitchContext(k)) == ReadyTasks(k)
  {
    forall t ensures IsReady(K.SwitchContext(k).ready, t) <==> IsReady(k.ready, t) {
      SelectReady(k.ready, k.prio, t);
    }
  }

  lemma DetachMeans(k: K.Kernel, t: Task)
    requires K.Structure(k) && t !in k.terminated
    ensures Meaning(K.Detach(k, t))
         == Meaning(k).(ready := ReadyTasks(k) - {t}, asleep := (set x <- Deadlines(k.delays) | x.0 != t))
  {
    ForgetRefines(k.delays, t);
    WithoutAbsent(k.terminated, t);
    forall u ensures IsReady(Withdraw(k.ready, t), u) <==> IsReady(k.ready, u) && u != t {
      WithdrawReady(k.ready, k.prio, t, u);
    }
  }

  /** s, with one more sleeper. */
  function Delayed(s: Schedule, ticks: nat): Schedule {
    s.(asleep := s.asleep + {(s.current, s.now + ticks)})
  }

  lemma DelayedMeans(d: K.Kernel, ticks: nat)
    requires d.delays.tick < TICKS && ticks < TICKS
    ensures Meaning(d.(delays := DelayedLists.Sleep(d.delays, d.current, ticks))) == Delayed(Meaning(d), ticks)
  {
    SleepRefines(d.delays, d.current, ticks);
    assert ReadyTasks(d.(delays := DelayedLists.Sleep(d.delays, d.current, ticks))) == ReadyTasks(d);
  }

  lemma SleepIsDelay(k: K.Kernel, ticks: nat, d: K.Kernel)
    requires K.Structure(k) && ticks < TICKS && d == K.Detach(k, k.current)
    ensures Meaning(K.SleepCurrent(k, ticks)) == Delayed(Meaning(d), ticks)
  {
    DelayedMeans(d, ticks);
  }

  lemma SleepMeans(k: K.Kernel, ticks: nat)
    requires K.Structure(k) && ticks < TICKS && k.current !in k.terminated
    ensures Meaning(K.SleepCurrent(k, ticks)) == Slept(Meaning(k), ticks)
  {
    SleepIsDelay(k, ticks, K.Detach(k, k.current));
    DetachMeans(k, k.current);
  }

  /** A ready task is not terminated. */
  lemma ReadyOnly(k: K.Kernel, t: Task)
    requires K.Partition(k) && IsReady(k.ready, t)
    ensures t !in k.terminated
  {
    BagMember(k.ready.lists, t);
    S.OnlyReady(k, t);
    assert t in multiset(k.terminated) <==> t in k.terminated;
  }

  lemma SleepDoes(k: State, ticks: nat)
    requires Enabled(k, Sleep(ticks))
    ensures Does(Meaning(k), Sleep(ticks), Meaning(K.SleepCurrent(k, ticks)))
  {
    ReadyOnly(k, k.current);
    SleepMeans(k, ticks);
  }

  lemma BlockDoes(k: State, ticks: nat)
    requires Enabled(k, Block(ticks))
    ensures Does(Meaning(k), Block(ticks), Meaning(K.BlockCurrent(k, ticks)))
  {
    ReadyOnly(k, k.current);
    BlockMeans(k, ticks);
  }

  lemma BlockMeans(k: K.Kernel, ticks: nat)
    requires K.Structure(k) && ticks < TICKS && k.current !in k.terminated
    ensures Meaning(K.BlockCurrent(k, ticks)) == Slept(Meaning(k), ticks).(waiting := k.waiting + {k.current})
  {
    SleepMeans(k, ticks);
    BlockIsSleep(k, ticks);
    WaitingMeans(K.SleepCurrent(k, ticks), k.waiting + {k.current});
  }

  lemma BlockIsSleep(k: K.Kernel, ticks: nat)
    requires K.Structure(k) && ticks < TICKS
    ensures K.BlockCurrent(k, ticks) == K.SleepCurrent(k, ticks).(waiting := k.waiting + {k.current})
  {
  }

  lemma WaitingMeans(k: K.Kernel, w: set<Task>)
    ensures Meaning(k.(waiting := w)) == Meaning(k).(waiting := w)
  {
    assert ReadyTasks(k.(waiting := w)) == ReadyTasks(k);
  }

  lemma UnblockDoes(k: State, t: Task)
    requires Enabled(k, Unblock(t))
    ensures t in k.prio && Does(Meaning(k), Unblock(t), Meaning(K.Unblock(k, t)))
  {
    Waiting(k, t);
    if k.suspended == 0 {
      AsleepOnly(k, t);
      MakeReadyMeans(k, t);
    } else {
      assert (set u <- k.pendingReady + [t]) == (set u <- k.pendingReady) + {t};
    }
  }

  lemma ReleaseDoes(k: State, t: Task)
    requires Enabled(k, Release(t))
    ensures t in k.prio && Does(Meaning(k), Release(t), Meaning(K.Release(k, t)))
  {
    Waiting(k, t);
    AsleepOnly(k, t);
    MakeReadyMeans(k, t);
  }

  // ---- priorities ----

  lemma RequeueMeans(k: K.Kernel, t: Task, p: nat)
    requires K.Structure(k) && t in k.prio && p < MAX_PRIORITIES
    ensures Meaning(S.Requeue(k, t, p)) == Meaning(k).(prio := k.prio[t := p])
  {
    assert k.prio[t := p].Keys == k.prio.Keys;
    forall u ensures IsReady(S.Requeue(k, t, p).ready, u) <==> IsReady(k.ready, u) {
      MoveReady(k, t, p, u);
    }
  }

  lemma MoveReady(k: K.Kernel, t: Task, p: nat, u: Task)
    requires K.Structure(k) && t in k.prio && p < MAX_PRIORITIES
    ensures IsReady(S.Move(k.ready, k.prio, t, p), u) <==> IsReady(k.ready, u)
  {
    if t in k.ready.lists[k.prio[t]].items {
      S.WithdrawRetarget(k.ready, k.prio, t, p);
      WithdrawReady(k.ready, k.prio, t, u);
      AddReady(Withdraw(k.ready, t), k.prio[t := p], t, u);
    }
  }

  lemma PrioritySetDoes(k: State, t: Task, asked: nat)
    requires t in k.prio
    ensures Does(Meaning(k), SetPriority(t, asked), Meaning(S.PrioritySet(k, t, asked)))
  {
    var p := S.Capped(asked);
    if k.base[t] == p {
      assert k.base[t := p] == k.base && k.prio[t := k.prio[t]] == k.prio;
    } else {
      RequeueMeans(k, t, if k.base[t] == k.prio[t] then p else k.prio[t]);
    }
  }

  lemma InheritDoes(k: State, t: Task)
    requires t in k.prio
    ensures Does(Meaning(k), Inherit(t), Meaning(S.Inherit(k, t).0))
  {
    if k.prio[t] < k.prio[k.current] {
      RequeueMeans(k, t, k.prio[k.current]);
    } else {
      assert k.prio[t := k.prio[t]] == k.prio;
    }
  }

  lemma DisinheritDoes(k: State)
    requires Enabled(k, Disinherit)
    ensures Does(Meaning(k), Disinherit, Meaning(S.Disinherit(k).0))
  {
    var k1 := k.(held := k.held[k.current := k.held[k.current] - 1]);
    S.RecordsInv(k, k.base, k1.held);
    HeldMeans(k, k1.held);
    if k.held[k.current] == 1 {
      LowerMeans(k1);
    } else {
      assert S.Disinherit(k).0 == k1;
    }
  }

  lemma HeldMeans(k: K.Kernel, held: map<Task, nat>)
    ensures Meaning(k.(held := held)) == Meaning(k).(held := held)
  {
    assert ReadyTasks(k.(held := held)) == ReadyTasks(k);
  }

  /** Whether or not the task is at its base, it is there afterwards. */
  lemma LowerMeans(k: K.Kernel)
    requires K.Structure(k)
    ensures var t := k.current;
            Meaning(if k.prio[t] != k.base[t] then S.Requeue(k, t, k.base[t]) else k)
            == Meaning(k).(prio := k.prio[t := k.base[t]])
  {
    RequeueMeans(k, k.current, k.base[k.current]);
    assert k.prio[k.current := k.prio[k.current]] == k.prio;
  }

  lemma TimedOutDoes(k: State, t: Task, waiting: nat)
    requires Enabled(k, TimedOut(t, waiting))
    ensures Does(Meaning(k), TimedOut(t, waiting), Meaning(S.DisinheritAfterTimeout(k, t, waiting)))
  {
    RequeueMeans(k, t, Max(k.base[t], waiting));
    assert k.prio[t := k.prio[t]] == k.prio;
  }

  // ---- creation and deletion ----

  lemma CreateDoes(k: State, t: Task, p: nat)
    requires Enabled(k, Create(t, p))
    ensures Does(Meaning(k), Create(t, p), Meaning(S.Create(k, t, p)))
  {
    var prio := k.prio[t := p];
    assert ReadyShape(k.ready, prio);
    forall u ensures IsReady(S.Create(k, t, p).ready, u) <==> IsReady(k.ready, u) || u == t {
      AddReady(k.ready, prio, t, u);
    }
  }

  lemma UnlistedMeans(k: K.Kernel, t: Task)
    requires K.Structure(k)
    ensures Meaning(K.DetachEvent(K.Detach(k, t), t)) == Unlisted(Meaning(k), t)
  {
    ForgetRefines(k.delays, t);
    Unparks(k.pendingReady, t);
    Unparks(k.terminated, t);
    forall u ensures IsReady(Withdraw(k.ready, t), u) <==> IsReady(k.ready, u) && u != t {
      WithdrawReady(k.ready, k.prio, t, u);
    }
  }

  lemma DeleteMeans(k: K.Kernel, t: Task)
    requires K.Structure(k)
    ensures Meaning(S.Delete(k, t)) == Deleted(Meaning(k), t)
  {
    UnlistedMeans(k, t);
    OffTheLists(K.DetachEvent(K.Detach(k, t), t), Meaning(k), t);
  }

  lemma OffTheLists(d: K.Kernel, s: Schedule, t: Task)
    requires Meaning(d) == Unlisted(s, t)
    ensures t == d.current ==> Meaning(d.(terminated := d.terminated + [t])) == Deleted(s, t)
    ensures t != d.current ==>
            Meaning(K.ResetNext(d.(prio := d.prio - {t}, base := d.base - {t}, held := d.held - {t}))) == Deleted(s, t)
  {
    assert t !in Meaning(d).ready && t !in Meaning(d).terminated;
    TerminatedMeans(d, t);
    FreedMeans(d, t);
  }

  lemma DeleteDoes(k: State, t: Task)
    requires Enabled(k, Delete(t))
    ensures Does(Meaning(k), Delete(t), Meaning(S.Delete(k, t)))
  {
    DeleteMeans(k, t);
  }

  lemma TerminatedMeans(d: K.Kernel, t: Task)
    ensures Meaning(d.(terminated := d.terminated + [t]))
         == Meaning(d).(terminated := (set u <- d.terminated) + {t})
  {
    assert (set u <- d.terminated + [t]) == (set u <- d.terminated) + {t};
  }

  lemma FreedMeans(d: K.Kernel, t: Task)
    requires t !in ReadyTasks(d) && t !in d.terminated
    ensures Meaning(K.ResetNext(d.(prio := d.prio - {t}, base := d.base - {t}, held := d.held - {t})))
         == Freed(Meaning(d), t)
  {
    assert ReadyTasks(d.(prio := d.prio - {t})) == ReadyTasks(d);
    assert (set u <- d.terminated) - {t} == (set u <- d.terminated);
  }

  lemma ReapDoes(k: State)
    requires Enabled(k, Reap)
    ensures Does(Meaning(k), Reap, Meaning(S.Reap(k)))
  {
    var t := k.terminated[0];
    assert t in k.terminated;
    ReapedOnce(k);
    assert Meaning(S.Reap(k)) == Freed(Meaning(k), t);
  }

  lemma ReapedOnce(k: K.Kernel)
    requires K.Partition(k) && k.terminated != []
    ensures var t := k.terminated[0];
            (set u <- k.terminated[1..]) == (set u <- k.terminated) - {t} && ReadyTasks(S.Reap(k)) == ReadyTasks(k)
  {
    var t, rest := k.terminated[0], k.terminated[1..];
    assert k.terminated == [t] + rest;
    assert t in multiset(k.terminated) && (t in rest ==> t in multiset(rest));
    assert K.StateBag(k)[t] <= 1;
    BagMember(k.ready.lists, t);
  }

  lemma TickDoes(k: State)
    ensures Does(Meaning(k), Tick, Meaning(K.Tick(k)))
  {
    if k.suspended == 0 {
      TickMeans(k);
    } else {
      PendedMeans(k, k.pended + 1);
    }
  }

  lemma PendedMeans(k: K.Kernel, n: nat)
    ensures Meaning(k.(pended := n)) == Meaning(k).(pended := n)
  {
    assert ReadyTasks(k.(pended := n)) == ReadyTasks(k);
  }

  lemma HoldDoes(k: State)
    ensures Does(Meaning(k), Hold, Meaning(S.HoldOneMore(k)))
  {
    assert ReadyTasks(S.HoldOneMore(k)) == ReadyTasks(k);
  }

  /** The steps that put tasks on lists. */
  predicate Lists(a: Step) {
    || a.Tick? || a.Suspend? || a.Resume? || a.Switch? || a.Sleep? || a.Block? || a.Unblock? || a.Release?
  }

  lemma ListStepRefines(k: State, a: Step)
    requires Enabled(k, a) && Lists(a)
    ensures Does(Meaning(k), a, Meaning(Effect(k, a)))
  {
    match a
    case Tick => TickDoes(k);
    case Suspend => SuspendedMeans(k, k.suspended + 1);
    case Resume => ResumeMeans(k);
    case Switch => SwitchDoes(k);
    case Sleep(n) => SleepDoes(k, n);
    case Block(n) => BlockDoes(k, n);
    case Unblock(t) => UnblockDoes(k, t);
    case Release(t) => ReleaseDoes(k, t);
  }

  lemma RecordStepRefines(k: State, a: Step)
    requires Enabled(k, a) && !Lists(a)
    ensures Does(Meaning(k), a, Meaning(Effect(k, a)))
  {
    match a
    case SetPriority(t, p) => PrioritySetDoes(k, t, p);
    case Inherit(t) => InheritDoes(k, t);
    case Disinherit => DisinheritDoes(k);
    case TimedOut(t, p) => TimedOutDoes(k, t, p);
    case Hold => HoldDoes(k);
    case Create(t, p) => CreateDoes(k, t, p);
    case Delete(t) => DeleteDoes(k, t);
    case Reap => ReapDoes(k);
  }

  /** Every step of tasks.c on its lists does what it does in the description. */
  lemma StepRefines(k: State, a: Step)
    requires Enabled(k, a)
    ensures Does(Meaning(k), a, Meaning(Effect(k, a)))
  {
    if Lists(a) {
      ListStepRefines(k, a);
    } else {
      RecordStepRefines(k, a);
    }
  }

  // ---- over whole runs ----

  /** The idle task alone, ready. */
  function Beginning(idle: Task): Schedule {
    Schedule({idle}, {}, {}, {}, {}, 0, 0, 0, map[idle := 0], map[idle := 0], map[idle := 0], idle, false)
  }

  ghost predicate Leads(s: Schedule, run: seq<Step>, q: Schedule)
    decreases run
  {
    if run == [] then q == s else exists m :: Does(s, run[0], m) && Leads(m, run[1..], q)
  }

  lemma {:induction false} RunLeads(k: State, run: seq<Step>)
    requires Possible(k, run)
    ensures Leads(Meaning(k), run, Meaning(After(k, run)))
    decreases run
  {
    if run != [] {
      StepRefines(k, run[0]);
      RunLeads(Next(k, run[0]), run[1..]);
    }
  }

  lemma BootMeans(idle: Task)
    ensures Meaning(Initial(idle)) == Beginning(idle)
  {
    assert idle in Initial(idle).ready.lists[0].items;
    assert ReadyTasks(Initial(idle)) == {idle};
  }

  /** Every run of the kernel is a run of the scheduler described, from the idle task alone to what the kernel's lists
      then mean. */
  lemma EveryRunRefines(idle: Task, run: seq<Step>)
    requires Possible(Initial(idle), run)
    ensures Leads(Beginning(idle), run, Meaning(After(Initial(idle), run)))
  {
    BootMeans(idle);
    RunLeads(Initial(idle), run);
  }

  // ---- what follows for one task ----

  /** t is ready, or will be when the scheduler is resumed. */
  predicate OnItsWay(s: Schedule, t: Task) {
    t in s.ready || t in s.parked
  }

  /** The steps that ready tasks: whoever was ready or parked still is. */
  lemma ReadyingKeepsOnWay(s: Schedule, a: Step, q: Schedule, t: Task)
    requires Does(s, a, q) && OnItsWay(s, t) && (a.Tick? || a.Resume?)
    ensures OnItsWay(q, t)
  {
  }

  lemma DoesKeepOnWay(k: State, a: Step, q: Schedule, t: Task)
    requires Does(Meaning(k), a, q) && OnItsWay(Meaning(k), t) && !Touches(k, a, t)
    ensures OnItsWay(q, t)
  {
    if a.Tick? || a.Resume? {
      ReadyingKeepsOnWay(Meaning(k), a, q, t);
    } else {
      OthersKeepOnWay(Meaning(k), a, q, t);
    }
  }

  lemma OthersKeepOnWay(s: Schedule, a: Step, q: Schedule, t: Task)
    requires Does(s, a, q) && OnItsWay(s, t) && !a.Tick? && !a.Resume?
    requires (a.Sleep? || a.Block? ==> s.current != t) && (a.Unblock? || a.Release? || a.Delete? ==> a.task != t)
    ensures OnItsWay(q, t)
  {
  }

  lemma {:induction false} StaysOnWay(k: State, run: seq<Step>, t: Task)
    requires Possible(k, run) && Undisturbed(k, run, t) && OnItsWay(Meaning(k), t)
    ensures OnItsWay(Meaning(After(k, run)), t)
    decreases run
  {
    if run != [] {
      StepRefines(k, run[0]);
      DoesKeepOnWay(k, run[0], Meaning(Next(k, run[0])), t);
      StaysOnWay(Next(k, run[0]), run[1..], t);
    }
  }

  /** Once a task has been taken off its event list it is ready whenever the scheduler runs, until some later step is
      aimed at it: no wake-up is dropped on the way, however suspensions and ticks come between. */
  lemma NoWakeUpDropped(k: State, t: Task, run: seq<Step>)
    requires Enabled(k, Unblock(t)) && Possible(Next(k, Unblock(t)), run) && Undisturbed(Next(k, Unblock(t)), run, t)
    ensures var q := After(Next(k, Unblock(t)), run);
            IsReady(q.ready, t) || (q.suspended > 0 && t in q.pendingReady)
  {
    UnblockedOnWay(k, t);
    StaysOnWay(Next(k, Unblock(t)), run, t);
    OnWayMeans(After(Next(k, Unblock(t)), run), t);
  }

  lemma UnblockedOnWay(k: State, t: Task)
    requires Enabled(k, Unblock(t))
    ensures OnItsWay(Meaning(Next(k, Unblock(t))), t)
  {
    StepRefines(k, Unblock(t));
  }

  lemma OnWayMeans(q: State, t: Task)
    requires OnItsWay(Meaning(q), t)
    ensures IsReady(q.ready, t) || (q.suspended > 0 && t in q.pendingReady)
  {
  }

  /** A yield asked for stays asked for until the scheduler, running, switches. */
  lemma DoesKeepYield(s: Schedule, a: Step, q: Schedule)
    requires Does(s, a, q) && s.yieldPending && !(a.Switch? && s.suspended == 0)
    ensures q.yieldPending
  {
  }

  ghost predicate NeverSwitches(k: State, run: seq<Step>)
    requires Possible(k, run)
    decreases run
  {
    run == [] || (!(run[0].Switch? && k.suspended == 0) && NeverSwitches(Next(k, run[0]), run[1..]))
  }

  lemma {:induction false} YieldStays(k: State, run: seq<Step>)
    requires Possible(k, run) && NeverSwitches(k, run) && k.yieldPending
    ensures After(k, run).yieldPending
    decreases run
  {
    if run != [] {
      StepRefines(k, run[0]);
      DoesKeepYield(Meaning(k), run[0], Meaning(Next(k, run[0])));
      YieldStays(Next(k, run[0]), run[1..]);
    }
  }

  /** A switch asked for during a suspension is not forgotten: a yield is pending until the scheduler, running again,
      switches. */
  lemma DeferredSwitchIsKept(k: State, run: seq<Step>)
    requires k.suspended > 0 && Possible(Next(k, Switch), run) && NeverSwitches(Next(k, Switch), run)
    ensures Next(k, Switch).current == k.current && After(Next(k, Switch), run).yieldPending
  {
    StepRefines(k, Switch);
    YieldStays(Next(k, Switch), run);
  }
}
