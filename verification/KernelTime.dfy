/** When a sleeping task becomes ready, over every run that leaves it alone. */
module KernelTime {
  import opened Config
  import opened Numbers
  import opened Rings
  import opened ReadyLists
  import opened DelayedLists
  import opened KernelRuns
  import K = Kernel
  import S = KernelSteps

  /** t sleeps until the processed tick w, and is ready from then on. */
  ghost predicate OnTime(k: K.Kernel, t: Task, w: nat) {
    && t in k.prio && t !in k.pendingReady
    && if Now(k.delays) < w then (t, w) in Deadlines(k.delays) else IsReady(k.ready, t)
  }

  /** The step is aimed at t: t itself sleeps or blocks, or some task readies or deletes it. */
  predicate Touches(k: K.Kernel, s: Step, t: Task) {
    match s
    case Sleep(_) | Block(_) => k.current == t
    case Unblock(u) => u == t
    case Release(u) => u == t
    case Delete(u) => u == t
    case _ => false
  }

  /** Two states that treat t alike. */
  ghost predicate Same(k: K.Kernel, q: K.Kernel, t: Task) {
    && (t in k.prio ==> t in q.prio) && (t !in k.pendingReady ==> t !in q.pendingReady)
    && Now(q.delays) == Now(k.delays)
    && (forall w: nat :: (t, w) in Deadlines(k.delays) ==> (t, w) in Deadlines(q.delays))
    && (IsReady(k.ready, t) ==> IsReady(q.ready, t))
  }

  lemma SameOnTime(k: K.Kernel, q: K.Kernel, t: Task, w: nat)
    requires OnTime(k, t, w) && Same(k, q, t)
    ensures OnTime(q, t, w)
  {
  }

  lemma TickOnTime(k: K.Kernel, t: Task, w: nat)
    requires K.Inv(k) && k.suspended == 0 && OnTime(k, t, w)
    ensures OnTime(K.Tick(k), t, w)
  {
    TickRefines(k.delays);
    K.WokenAreLive(k);
    AddAllReady(k.ready, k.prio, DelayedLists.Tick(k.delays).1, t);
  }

  lemma TickManyOnTime(k: K.Kernel, n: nat, t: Task, w: nat)
    requires K.Inv(k) && k.suspended == 0 && OnTime(k, t, w)
    ensures OnTime(K.TickMany(k, n), t, w)
  {
    var p := (x: K.Kernel) => K.Replayable(x) && OnTime(x, t, w);
    forall x | p(x) ensures p(K.PendedTick(x)) {
      K.ReplayTickInv(x);
      TickOnTime(x, t, w);
      SameOnTime(K.Tick(x), K.ReplayTick(x), t, w);
    }
    IterateKeeps(K.PendedTick, p, k, n);
  }

  lemma MakeReadySame(k: K.Kernel, u: Task, t: Task)
    requires K.Structure(k) && u in k.prio && u != t
    ensures Same(k, K.MakeReady(k, u), t)
  {
    ForgetRefines(k.delays, u);
    K.DetachStructure(k, u);
    WithdrawReady(k.ready, k.prio, u, t);
    AddReady(Withdraw(k.ready, u), k.prio, u, t);
  }

  lemma {:induction false} MovePendingSame(k: K.Kernel, t: Task)
    requires K.Core(k) && t !in k.pendingReady
    ensures Same(k, K.MovePending(k), t)
    decreases |k.pendingReady|
  {
    if k.pendingReady != [] {
      var u := k.pendingReady[0];
      K.Live(k, u);
      MakeReadySame(k, u, t);
      MovePendingSame(K.UnparkOne(k), t);
    }
  }

  lemma ResumeOnTime(k: K.Kernel, t: Task, w: nat)
    requires K.Inv(k) && k.suspended > 0 && OnTime(k, t, w)
    ensures OnTime(K.ResumeAll(k), t, w)
  {
    if k.suspended == 1 {
      K.SuspendedCore(k, 0);
      CatchUpOnTime(k.(suspended := 0), t, w);
    }
  }

  lemma CatchUpOnTime(k: K.Kernel, t: Task, w: nat)
    requires K.Core(k) && k.suspended == 0 && OnTime(k, t, w)
    ensures OnTime(K.CatchUp(k), t, w)
  {
    MovePendingSame(k, t);
    K.ResetNextCore(K.MovePending(k));
    SameOnTime(k, K.UnparkAll(k), t, w);
    TickManyOnTime(K.UnparkAll(k), K.UnparkAll(k).pended, t, w);
  }

  lemma SleepSame(k: K.Kernel, ticks: nat, t: Task)
    requires K.Inv(k) && 0 < ticks < TICKS && k.current != t
    ensures Same(k, K.SleepCurrent(k, ticks), t)
  {
    var d := K.Detach(k, k.current);
    ForgetRefines(k.delays, k.current);
    K.DetachStructure(k, k.current);
    SleepRefines(d.delays, k.current, ticks);
    WithdrawReady(k.ready, k.prio, k.current, t);
  }

  lemma BlockSame(k: K.Kernel, ticks: nat, t: Task)
    requires K.Inv(k) && 0 < ticks < TICKS && k.current != t
    ensures Same(k, K.BlockCurrent(k, ticks), t)
  {
    var d := K.Detach(k, k.current);
    ForgetRefines(k.delays, k.current);
    K.DetachStructure(k, k.current);
    SleepRefines(d.delays, k.current, ticks);
    WithdrawReady(k.ready, k.prio, k.current, t);
  }

  /** Requeueing at a new priority leaves every task ready that was. */
  lemma RequeueSame(k: K.Kernel, u: Task, p: nat, t: Task)
    requires K.Structure(k) && u in k.prio && p < MAX_PRIORITIES
    ensures Same(k, S.Requeue(k, u, p), t)
  {
    if u in k.ready.lists[k.prio[u]].items {
      S.WithdrawRetarget(k.ready, k.prio, u, p);
      WithdrawReady(k.ready, k.prio, u, t);
      AddReady(Withdraw(k.ready, u), k.prio[u := p], u, t);
    }
  }

  lemma CreateSame(k: K.Kernel, u: Task, p: nat, t: Task)
    requires K.Inv(k) && u !in k.prio && p < MAX_PRIORITIES
    ensures Same(k, S.Create(k, u, p), t)
  {
    S.CreateInv(k, u, p);
    var q := k.prio[u := p];
    assert ReadyShape(k.ready, q);
    AddReady(k.ready, q, u, t);
  }

  lemma DeleteSame(k: K.Kernel, u: Task, t: Task)
    requires K.Inv(k) && u in k.prio && u != t
    ensures Same(k, S.Delete(k, u), t)
  {
    ForgetRefines(k.delays, u);
    WithdrawReady(k.ready, k.prio, u, t);
    var d := Forget(k.delays, u);
    NextDeadlines(d, FirstTime(d.current));
  }

  lemma NextDeadlines(d: Delays, n: nat)
    ensures Deadlines(d.(next := n)) == Deadlines(d) && Now(d.(next := n)) == Now(d)
  {
  }

  /** A terminated task is neither asleep nor ready, so freeing it touches no sleeper. */
  lemma ReapOnTime(k: K.Kernel, t: Task, w: nat)
    requires K.Inv(k) && k.terminated != [] && OnTime(k, t, w)
    ensures OnTime(S.Reap(k), t, w)
  {
    var u := k.terminated[0];
    TerminatedOnly(k, u);
    if t == u && Now(k.delays) < w {
      DeadlineAsleep(k.delays, t, w);
    }
  }

  lemma TerminatedOnly(k: K.Kernel, u: Task)
    requires K.Partition(k) && u in k.terminated
    ensures !Asleep(k.delays, u) && !IsReady(k.ready, u)
  {
    BagMember(k.ready.lists, u);
    assert u in multiset(k.terminated);
    assert K.StateBag(k)[u] <= 1;
  }

  lemma DeadlineAsleep(d: Delays, t: Task, w: nat)
    requires (t, w) in Deadlines(d)
    ensures Asleep(d, t)
  {
  }

  lemma SwitchSame(k: K.Kernel, t: Task)
    requires K.Inv(k) && (k.suspended == 0 ==> SomeReady(k.ready))
    ensures Same(k, K.SwitchContext(k), t)
  {
    if k.suspended == 0 {
      SelectReady(k.ready, k.prio, t);
    }
  }

  lemma UnblockSame(k: K.Kernel, u: Task, t: Task)
    requires K.Inv(k) && u in k.prio && u != t
    ensures Same(k, K.Unblock(k, u), t) && Same(k, K.Release(k, u), t)
  {
    MakeReadySame(k, u, t);
  }

  lemma EffectOnTime(k: State, s: Step, t: Task, w: nat)
    requires Enabled(k, s) && !Touches(k, s, t) && OnTime(k, t, w)
    ensures OnTime(Effect(k, s), t, w)
  {
    match s
    case Tick => if k.suspended == 0 { TickOnTime(k, t, w); }
    case Resume => ResumeOnTime(k, t, w);
    case Switch => SwitchSame(k, t);
    case Sleep(n) => SleepSame(k, n, t);
    case Block(n) => BlockSame(k, n, t);
    case Unblock(u) => Waiting(k, u); UnblockSame(k, u, t);
    case Release(u) => Waiting(k, u); UnblockSame(k, u, t);
    case SetPriority(u, p) => PrioritySame(k, u, p, t);
    case Inherit(u) => RequeueSame(k, u, k.prio[k.current], t);
    case Disinherit => DisinheritSame(k, t);
    case TimedOut(u, p) => TimedOutSame(k, u, p, t);
    case Create(u, p) => CreateSame(k, u, p, t);
    case Delete(u) => DeleteSame(k, u, t);
    case Reap => ReapOnTime(k, t, w);
    case _ =>
  }

  lemma PrioritySame(k: K.Kernel, u: Task, p: nat, t: Task)
    requires K.Inv(k) && u in k.prio
    ensures Same(k, S.PrioritySet(k, u, p), t)
  {
    var c := S.Capped(p);
    RequeueSame(k, u, if k.base[u] == k.prio[u] then c else k.prio[u], t);
  }

  lemma DisinheritSame(k: K.Kernel, t: Task)
    requires K.Inv(k) && IsReady(k.ready, k.current) && k.held[k.current] > 0
    ensures Same(k, S.Disinherit(k).0, t)
  {
    var c := k.current;
    var h := k.held[c := k.held[c] - 1];
    S.RecordsInv(k, k.base, h);
    RequeueSame(k.(held := h), c, k.base[c], t);
  }

  lemma TimedOutSame(k: K.Kernel, u: Task, p: nat, t: Task)
    requires K.Inv(k) && u in k.prio && p < MAX_PRIORITIES
    ensures Same(k, S.DisinheritAfterTimeout(k, u, p), t)
  {
    RequeueSame(k, u, Max(k.base[u], p), t);
  }

  /** No step of the run is aimed at t. */
  ghost predicate Undisturbed(k: State, run: seq<Step>, t: Task)
    requires Possible(k, run)
    decreases run
  {
    run == [] || (!Touches(k, run[0], t) && Undisturbed(Next(k, run[0]), run[1..], t))
  }

  lemma {:induction false} RunOnTime(k: State, run: seq<Step>, t: Task, w: nat)
    requires Possible(k, run) && Undisturbed(k, run, t) && OnTime(k, t, w)
    ensures OnTime(After(k, run), t, w)
    decreases run
  {
    if run != [] {
      EffectOnTime(k, run[0], t, w);
      RunOnTime(Next(k, run[0]), run[1..], t, w);
    }
  }

  lemma AsleepOrReady(q: K.Kernel, t: Task, w: nat)
    requires K.Inv(q) && OnTime(q, t, w)
    ensures IsReady(q.ready, t) <==> w <= Now(q.delays)
    ensures Asleep(q.delays, t) <==> Now(q.delays) < w
  {
    BagMember(q.ready.lists, t);
    if IsReady(q.ready, t) {
      S.OnlyReady(q, t);
    }
    if Now(q.delays) < w {
      DeadlineAsleep(q.delays, t, w);
    }
  }

  lemma SleepsOnTime(k: K.Kernel, ticks: nat)
    requires K.Structure(k) && k.current !in k.pendingReady && 0 < ticks < TICKS
    ensures OnTime(K.SleepCurrent(k, ticks), k.current, Now(k.delays) + ticks)
    ensures OnTime(K.BlockCurrent(k, ticks), k.current, Now(k.delays) + ticks)
  {
  }

  /** The running task going to sleep for a number of ticks, waiting for an event or not, sleeps until that
      many ticks from now; no time passes and no tick is lost meanwhile. */
  lemma FallsAsleep(k: State, ticks: nat, k1: K.Kernel)
    requires IsReady(k.ready, k.current) && 0 < ticks < TICKS
    requires k1 == K.SleepCurrent(k, ticks) || k1 == K.BlockCurrent(k, ticks)
    ensures OnTime(k1, k.current, Now(k.delays) + ticks)
    ensures RealTime(k1) == RealTime(k) && (CaughtUp(k) ==> CaughtUp(k1))
  {
    Running(k);
    SleepsOnTime(k, ticks);
  }

  /** A task that sleeps until tick w stays asleep until that tick is processed and is ready from then on,
      whatever wraps, suspensions and other tasks' steps come between; and processed plus pended ticks are
      exactly the ticks that came, with none pended while the scheduler runs. */
  lemma WakesOnTime(k: State, run: seq<Step>, t: Task, w: nat)
    requires CaughtUp(k) && Possible(k, run) && Undisturbed(k, run, t) && OnTime(k, t, w)
    ensures var q := After(k, run);
            && (IsReady(q.ready, t) <==> w <= Now(q.delays))
            && (Asleep(q.delays, t) <==> Now(q.delays) < w)
            && Now(q.delays) + q.pended == Now(k.delays) + k.pended + Ticks(run)
            && (q.suspended == 0 ==> q.pended == 0)
  {
    RunOnTime(k, run, t, w);
    NoTickLost(k, run);
    AsleepOrReady(After(k, run), t, w);
  }

  // ---- somebody is always ready ----

  /** The idle task neither sleeps nor blocks nor is deleted. */
  ghost predicate KeepsIdle(k: State, run: seq<Step>, idle: Task)
    requires Possible(k, run)
    decreases run
  {
    run == [] || (!PutsAway(k, run[0], idle) && KeepsIdle(Next(k, run[0]), run[1..], idle))
  }

  predicate PutsAway(k: K.Kernel, s: Step, idle: Task) {
    match s
    case Sleep(_) | Block(_) => k.current == idle
    case Delete(u) => u == idle
    case _ => false
  }

  /** Nobody can unblock a ready task, so nothing else is aimed at it. */
  lemma ReadyUntouched(k: State, s: Step, idle: Task)
    requires Enabled(k, s) && IsReady(k.ready, idle) && !PutsAway(k, s, idle)
    ensures !Touches(k, s, idle)
  {
    if idle in k.waiting {
      Waiting(k, idle);
      BagMember(k.ready.lists, idle);
      S.OnlyReady(k, idle);
    }
  }

  lemma {:induction false} StaysReady(k: State, run: seq<Step>, idle: Task)
    requires Possible(k, run) && KeepsIdle(k, run, idle) && OnTime(k, idle, 0)
    ensures IsReady(After(k, run).ready, idle)
    decreases run
  {
    if run != [] {
      ReadyUntouched(k, run[0], idle);
      EffectOnTime(k, run[0], idle, 0);
      StaysReady(Next(k, run[0]), run[1..], idle);
    }
  }

  /** Unless the idle task is put to sleep or deleted, the search for a ready list always ends at one, and a switch
      with the scheduler running ends on a ready task of maximal priority. */
  lemma SomebodyAlwaysReady(idle: Task, run: seq<Step>)
    requires Possible(Initial(idle), run) && KeepsIdle(Initial(idle), run, idle)
    ensures var k := After(Initial(idle), run);
            && SomeReady(k.ready) && Enabled(k, Switch)
            && (k.suspended == 0 ==> var q := Next(k, Switch);
                  IsReady(q.ready, q.current) && q.current in q.prio
                  && forall t | IsReady(q.ready, t) :: t in q.prio && q.prio[t] <= q.prio[q.current])
  {
    var b := Initial(idle);
    assert idle in b.ready.lists[0].items;
    StaysReady(b, run, idle);
    if After(b, run).suspended == 0 {
      AlwaysRunsHighest(idle, run);
    }
  }
}
