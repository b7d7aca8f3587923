/** tasks.c in its own form: file-scope variables updated in place, and the loops of the tick, the resume
    and the task selection, each proved against the specification in Kernel. */
module Tasks {
  import opened Config
  import opened Rings
  import opened ReadyLists
  import opened DelayedLists
  import K = Kernel
  import S = KernelSteps
  import Schedule

  ghost predicate Live(s: seq<Task>, prio: map<Task, nat>) {
    forall t <- s :: t in prio && prio[t] < MAX_PRIORITIES
  }

  /** Tasks joining the ready lists: the last one joins what the others made. */
  lemma {:induction false} AddAllLast(r: Ready, prio: map<Task, nat>, s: seq<Task>, t: Task)
    requires ReadyShape(r, prio) && Live(s, prio) && t in prio && prio[t] < MAX_PRIORITIES
    ensures Live(s + [t], prio) && AddAll(r, prio, s + [t]) == Add(AddAll(r, prio, s), prio[t], t)
    decreases s
  {
    if s == [] {
      AddShape(r, prio, t);
    } else {
      assert (s + [t])[1..] == s[1..] + [t];
      AddShape(r, prio, s[0]);
      AddAllLast(Add(r, prio[s[0]], s[0]), prio, s[1..], t);
    }
  }

  /** woken are the owners at the head of c's current list that are due, and rest is what follows them. */
  ghost predicate PassedOver(c: Delays, rest: Delayed, woken: seq<Task>) {
    && |woken| + |rest| == |c.current| && rest == c.current[|woken|..]
    && (forall i | 0 <= i < |woken| :: woken[i] == c.current[i].owner && c.current[i].value <= c.tick)
  }

  lemma PassNext(c: Delays, rest: Delayed, woken: seq<Task>)
    requires PassedOver(c, rest, woken) && rest != [] && rest[0].value <= c.tick
    ensures PassedOver(c, rest[1..], woken + [rest[0].owner])
    ensures rest[0].owner in Owners(c.current)
  {
    assert Owners(c.current)[|woken|] == rest[0].owner;
  }

  lemma PassedAll(c: Delays, rest: Delayed, woken: seq<Task>)
    requires PassedOver(c, rest, woken) && (rest != [] ==> c.tick < rest[0].value) && c.next <= c.tick
    ensures woken == Owners(c.current[..Due(c)]) && rest == c.current[Due(c)..]
  {
    PlaceIsFirstLarger(c.current, c.tick, |woken|);
  }

  /** Whichever list is current after counting, its tasks are live. */
  lemma SleepersLive(k: K.Kernel)
    requires K.Inv(k)
    ensures Live(Owners(DelayedLists.Count(k.delays).current), k.prio)
  {
    forall t | Asleep(k.delays, t) ensures t in k.prio {
      K.Live(k, t);
    }
  }

  class Scheduler {
    var tickCount: nat
    var numOfOverflows: nat
    var nextTaskUnblockTime: nat
    var delayed: Delayed
    var overflowDelayed: Delayed
    var pendedTicks: nat
    var suspended: nat
    var readyLists: seq<Ring<Task>>
    var topReadyPriority: nat
    var waitingTermination: seq<Task>
    var pendingReady: seq<Task>
    var onEventList: set<Task>
    var priority: map<Task, nat>
    var basePriority: map<Task, nat>
    var mutexesHeld: map<Task, nat>
    var current: Task
    var yieldPending: bool

    ghost function View(): K.Kernel
      reads this
    {
      K.Kernel(Sleepers(), pendedTicks, suspended, Ready(readyLists, topReadyPriority), waitingTermination,
               pendingReady, onEventList, priority, basePriority, mutexesHeld, current, yieldPending)
    }

    ghost function Sleepers(): Delays
      reads this
    {
      Delays(tickCount, numOfOverflows, nextTaskUnblockTime, delayed, overflowDelayed)
    }

    /** taskSWITCH_DELAYED_LISTS and the increment before it. */
    method Count()
      modifies `tickCount, `numOfOverflows, `nextTaskUnblockTime, `delayed, `overflowDelayed
      ensures Sleepers() == DelayedLists.Count(old(Sleepers()))
    {
      tickCount := if tickCount + 1 == TICKS then 0 else tickCount + 1;
      if tickCount == 0 {
        delayed, overflowDelayed := overflowDelayed, delayed;
        numOfOverflows := numOfOverflows + 1;
        ResetNextTaskUnblockTime();
      }
    }

    /** prvResetNextTaskUnblockTime. */
    method ResetNextTaskUnblockTime()
      modifies `nextTaskUnblockTime
      ensures nextTaskUnblockTime == FirstTime(delayed) && View() == K.ResetNext(old(View()))
    {
      nextTaskUnblockTime := if delayed == [] then MAX_DELAY else delayed[0].value;
    }

    /** prvAddTaskToReadyList. */
    method AddTaskToReadyList(t: Task)
      requires ReadyShape(Ready(readyLists, topReadyPriority), priority)
      requires t in priority && priority[t] < MAX_PRIORITIES
      modifies `readyLists, `topReadyPriority
      ensures Ready(readyLists, topReadyPriority) == Add(old(Ready(readyLists, topReadyPriority)), priority[t], t)
    {
      var p := priority[t];
      if p > topReadyPriority {
        topReadyPriority := p;
      }
      readyLists := readyLists[p := Rings.InsertEnd(readyLists[p], t)];
    }

    /** taskSELECT_HIGHEST_PRIORITY_TASK. */
    method SelectHighestPriorityTask()
      requires ReadyShape(Ready(readyLists, topReadyPriority), priority)
      requires SomeReady(Ready(readyLists, topReadyPriority))
      modifies `readyLists, `topReadyPriority, `current
      ensures (Ready(readyLists, topReadyPriority), current)
           == Select(old(Ready(readyLists, topReadyPriority)), priority)
    {
      var top := topReadyPriority;
      while readyLists[top].items == []
        invariant top <= topReadyPriority
        invariant exists i | 0 <= i <= top :: readyLists[i].items != []
        invariant Highest(readyLists, top) == Highest(readyLists, topReadyPriority)
        decreases top
      {
        top := top - 1;
      }
      var l := Advance(readyLists[top]);
      readyLists := readyLists[top := l];
      current := l.items[l.index - 1];
      topReadyPriority := top;
    }

    /** The task at the head of the delayed list leaves it and any event list, and becomes ready. */
    method WakeFirst() returns (t: Task)
      requires ReadyShape(Ready(readyLists, topReadyPriority), priority) && delayed != []
      requires delayed[0].owner in priority && priority[delayed[0].owner] < MAX_PRIORITIES
      modifies `delayed, `readyLists, `topReadyPriority, `onEventList
      ensures t == old(delayed[0].owner) && delayed == old(delayed[1..])
      ensures Ready(readyLists, topReadyPriority) == Add(old(Ready(readyLists, topReadyPriority)), priority[t], t)
      ensures onEventList == old(onEventList) - {t}
    {
      t := delayed[0].owner;
      delayed := delayed[1..];
      onEventList := onEventList - {t};
      AddTaskToReadyList(t);
    }

    /** The loop of xTaskIncrementTick: wake the tasks at the head of the delayed list whose time has come. */
    method WakeDue(ghost c: Delays, ghost r0: Ready) returns (switch: bool, ghost woken: seq<Task>)
      requires c == Sleepers() && r0 == Ready(readyLists, topReadyPriority) && c.next <= c.tick
      requires ReadyShape(r0, priority) && current in priority
      requires Live(Owners(c.current), priority)
      modifies `nextTaskUnblockTime, `delayed, `readyLists, `topReadyPriority, `onEventList
      ensures PassedOver(c, delayed, woken) && (delayed != [] ==> c.tick < delayed[0].value)
      ensures nextTaskUnblockTime == FirstTime(delayed) && Live(woken, priority)
      ensures Ready(readyLists, topReadyPriority) == AddAll(r0, priority, woken)
      ensures onEventList == old(onEventList) - (set t <- woken)
      ensures switch == K.AnyAtLeast(woken, priority, priority[current])
    {
      switch, woken := false, [];
      while delayed != [] && delayed[0].value <= tickCount
        invariant PassedOver(c, delayed, woken)
        invariant Live(woken, priority)
        invariant Ready(readyLists, topReadyPriority) == AddAll(r0, priority, woken)
        invariant onEventList == old(onEventList) - (set t <- woken)
        invariant switch == K.AnyAtLeast(woken, priority, priority[current])
        decreases |delayed|
      {
        PassNext(c, delayed, woken);
        AddAllLast(r0, priority, woken, delayed[0].owner);
        var t := WakeFirst();
        if priority[current] <= priority[t] {
          switch := true;
        }
        woken := woken + [t];
      }
      ResetNextTaskUnblockTime();
    }

    /** The part of xTaskIncrementTick that runs unless the scheduler is suspended. */
    method ProcessTick() returns (switch: bool, ghost woken: seq<Task>)
      requires ReadyShape(Ready(readyLists, topReadyPriority), priority) && current in priority
      requires Live(Owners(DelayedLists.Count(Sleepers()).current), priority)
      modifies `tickCount, `numOfOverflows, `nextTaskUnblockTime, `delayed, `overflowDelayed
      modifies `readyLists, `topReadyPriority, `onEventList
      ensures (Sleepers(), woken) == Tick(old(Sleepers())) && Live(woken, priority)
      ensures Ready(readyLists, topReadyPriority) == AddAll(old(Ready(readyLists, topReadyPriority)), priority, woken)
      ensures onEventList == old(onEventList) - (set t <- woken)
      ensures switch == K.AnyAtLeast(woken, priority, priority[current])
    {
      ghost var d, r := Sleepers(), Ready(readyLists, topReadyPriority);
      Count();
      ghost var c := Sleepers();
      switch, woken := false, [];
      if nextTaskUnblockTime <= tickCount {
        switch, woken := WakeDue(c, r);
        PassedAll(c, delayed, woken);
        assert Sleepers() == Wake(c);
      }
    }

    /** The part of xTaskIncrementTick made while the scheduler runs: a switch is due if a task woken is no less urgent
        than the running one, or another of its priority is ready. */
    method TickAndShare() returns (switch: bool)
      requires K.Inv(View()) && suspended == 0
      modifies `tickCount, `numOfOverflows, `nextTaskUnblockTime, `delayed, `overflowDelayed
      modifies `readyLists, `topReadyPriority, `onEventList
      ensures View() == K.Tick(old(View()))
      ensures switch <==> || K.AnyAtLeast(Tick(old(Sleepers())).1, priority, priority[current])
                          || |K.Tick(old(View())).ready.lists[priority[current]].items| > 1
    {
      K.TickCore(View());
      SleepersLive(View());
      switch := TickOnce(View());
      if |readyLists[priority[current]].items| > 1 {
        switch := true;
      }
    }

    method TickOnce(ghost k: K.Kernel) returns (switch: bool)
      requires k == View() && K.Core(k) && suspended == 0
      requires Live(Owners(DelayedLists.Count(k.delays).current), k.prio)
      modifies `tickCount, `numOfOverflows, `nextTaskUnblockTime, `delayed, `overflowDelayed
      modifies `readyLists, `topReadyPriority, `onEventList
      ensures View() == K.Tick(k)
      ensures switch == K.AnyAtLeast(Tick(k.delays).1, k.prio, k.prio[k.current])
    {
      ghost var woken: seq<Task>;
      switch, woken := ProcessTick();
    }

    /** xTaskIncrementTick. */
    method IncrementTick() returns (switch: bool)
      requires K.Inv(View())
      modifies this
      ensures View() == K.Tick(old(View())) && switch == K.TickAsksForSwitch(old(View()))
    {
      switch := false;
      if suspended == 0 {
        switch := TickAndShare();
      } else {
        pendedTicks := pendedTicks + 1;
      }
      if yieldPending {
        switch := true;
      }
    }

    /** vTaskSwitchContext. */
    method SwitchContext()
      requires ReadyShape(Ready(readyLists, topReadyPriority), priority)
      requires suspended == 0 ==> SomeReady(Ready(readyLists, topReadyPriority))
      modifies `readyLists, `topReadyPriority, `current, `yieldPending
      ensures View() == K.SwitchContext(old(View()))
      ensures suspended > 0 ==> yieldPending && current == old(current)
    {
      if suspended > 0 {
        yieldPending := true;
      } else {
        yieldPending := false;
        SelectHighestPriorityTask();
      }
    }

    /** uxListRemove on a task's state list item. */
    method RemoveStateItem(t: Task, ghost k: K.Kernel)
      requires k == View() && ReadyShape(k.ready, k.prio)
      modifies `delayed, `overflowDelayed, `waitingTermination, `readyLists
      ensures View() == K.Detach(k, t)
    {
      delayed, overflowDelayed := DropOwner(delayed, t), DropOwner(overflowDelayed, t);
      waitingTermination := Without(waitingTermination, t);
      readyLists := Take(readyLists, t);
    }

    /** uxListRemove on a task's state list item and prvAddTaskToReadyList. */
    method MoveToReady(t: Task, ghost r: Ready)
      requires r == Ready(readyLists, topReadyPriority) && ReadyShape(r, priority)
      requires t in priority && priority[t] < MAX_PRIORITIES
      modifies `delayed, `overflowDelayed, `waitingTermination, `readyLists, `topReadyPriority
      ensures Sleepers() == Forget(old(Sleepers()), t) && waitingTermination == Without(old(waitingTermination), t)
      ensures Ready(readyLists, topReadyPriority) == Add(Withdraw(r, t), priority[t], t)
    {
      WithdrawShape(r, priority, t);
      RemoveStateItem(t, View());
      AddTaskToReadyList(t);
    }

    /** uxListRemove on both items of a task and prvAddTaskToReadyList. */
    method ReadyNow(t: Task)
      requires K.Structure(View()) && t in priority
      modifies `delayed, `overflowDelayed, `waitingTermination, `readyLists, `topReadyPriority
      modifies `onEventList, `pendingReady
      ensures View() == K.MakeReady(old(View()), t)
    {
      ghost var r := Ready(readyLists, topReadyPriority);
      assert ReadyShape(r, priority);
      onEventList := onEventList - {t};
      pendingReady := Without(pendingReady, t);
      MoveToReady(t, r);
    }

    /** xTaskRemoveFromEventList, once the first task of the event list is known: the answer is whether it outranks
        the running task. */
    method RemoveFromEventList(t: Task) returns (outranks: bool)
      requires K.Structure(View()) && t in priority
      modifies this
      ensures View() == K.Unblock(old(View()), t) && (outranks ==> yieldPending)
      ensures outranks <==> old(priority[t] > priority[current])
      ensures K.TakenOff(old(View()), View(), t)
    {
      K.UnblockTakesOff(View(), t);
      if suspended == 0 {
        ReadyNow(t);
      } else {
        onEventList := onEventList - {t};
        pendingReady := pendingReady + [t];
      }
      outranks := priority[t] > priority[current];
      if outranks {
        yieldPending := true;
      }
    }

    /** prvAddCurrentTaskToDelayedList. */
    method AddCurrentTaskToDelayedList(ticksToWait: nat)
      requires K.Structure(View()) && ticksToWait < TICKS
      modifies `delayed, `overflowDelayed, `waitingTermination, `readyLists, `nextTaskUnblockTime
      ensures View() == K.SleepCurrent(old(View()), ticksToWait)
    {
      RemoveStateItem(current, View());
      var timeToWake := AddTicks(tickCount, ticksToWait);
      if timeToWake < tickCount {
        overflowDelayed := InsertByValue(overflowDelayed, Entry(current, timeToWake));
      } else {
        delayed := InsertByValue(delayed, Entry(current, timeToWake));
        if timeToWake < nextTaskUnblockTime {
          nextTaskUnblockTime := timeToWake;
        }
      }
    }

    /** The first loop of xTaskResumeAll: ready the tasks interrupts parked. */
    method MovePendingReady()
      requires K.Core(View())
      modifies this
      ensures View() == K.MovePending(old(View()))
      ensures pendingReady == [] && Schedule.AllAwake(View(), old(pendingReady))
    {
      ghost var k := View();
      Schedule.MovePendingWakes(k);
      while pendingReady != []
        invariant K.Core(View()) && K.MovePending(View()) == K.MovePending(k)
        decreases |pendingReady|
      {
        MoveOne(View());
      }
    }

    method MoveOne(ghost k: K.Kernel)
      requires k == View() && K.Core(k) && pendingReady != []
      modifies this
      ensures View() == K.UnparkOne(k)
    {
      var t := pendingReady[0];
      ReadyParked(k);
      if priority[t] >= priority[current] {
        yieldPending := true;
      }
    }

    method ReadyParked(ghost k: K.Kernel)
      requires k == View() && K.Core(k) && pendingReady != []
      modifies this
      ensures k.pendingReady[0] in k.prio && View() == K.MakeReady(k, k.pendingReady[0])
    {
      K.Live(k, pendingReady[0]);
      ReadyNow(pendingReady[0]);
    }

    /** One turn of the second loop of xTaskResumeAll, after i others. */
    method ReplayTick(ghost start: K.Kernel, ghost i: nat)
      requires K.Replayable(start) && View() == K.TickMany(start, i)
      modifies this
      ensures View() == K.TickMany(start, i + 1)
    {
      K.TickManyReplayable(start, i);
      IterateLast(K.PendedTick, start, i);
      ghost var k := View();
      var switch := IncrementTick();
      if switch {
        yieldPending := true;
      }
      assert View() == K.PendedTick(k);
    }

    /** The second loop of xTaskResumeAll. */
    method ReplayTicks(n: nat, ghost start: K.Kernel)
      requires start == View() && K.Replayable(start)
      modifies this
      ensures View() == K.TickMany(start, n)
    {
      var counts := n;
      while counts > 0
        invariant 0 <= counts <= n && View() == K.TickMany(start, n - counts)
      {
        ReplayTick(start, n - counts);
        counts := counts - 1;
      }
    }

    /** What xTaskResumeAll does for the ticks that came meanwhile. */
    method ReplayPendedTicks(ghost k: K.Kernel)
      requires k == View() && K.Replayable(k)
      modifies this
      ensures View() == K.TickMany(k, k.pended).(pended := 0)
    {
      ReplayTicks(pendedTicks, k);
      pendedTicks := 0;
    }

    /** xTaskResumeAll: the answer is whether the scheduler runs again with a yield requested. */
    method ResumeAll() returns (alreadyYielded: bool)
      requires K.Inv(View()) && suspended > 0
      modifies this
      ensures View() == K.ResumeAll(old(View()))
      ensures alreadyYielded <==> suspended == 0 && yieldPending
      ensures suspended == 0 ==> Schedule.AllAwake(View(), old(pendingReady))
    {
      if suspended == 1 {
        Schedule.ResumeWakes(View());
      }
      LowerSuspended(View());
      alreadyYielded := suspended == 0 && yieldPending;
    }

    method LowerSuspended(ghost k: K.Kernel)
      requires k == View() && K.Inv(k) && suspended > 0
      modifies this
      ensures View() == K.ResumeAll(k)
    {
      K.SuspendedCore(k, suspended - 1);
      suspended := suspended - 1;
      if suspended == 0 {
        CatchUp(k.(suspended := 0));
      }
    }

    method CatchUp(ghost k: K.Kernel)
      requires k == View() && K.Core(k) && suspended == 0
      modifies this
      ensures View() == K.CatchUp(k)
    {
      UnparkAll(k);
      ReplayPendedTicks(K.UnparkAll(k));
    }

    /** What xTaskResumeAll does for the tasks that interrupts parked. */
    method UnparkAll(ghost k: K.Kernel)
      requires k == View() && K.Core(k)
      modifies this
      ensures View() == K.UnparkAll(k) && K.Core(View()) && pendingReady == []
      ensures suspended == old(suspended)
    {
      var moved := pendingReady != [];
      MovePendingReady();
      K.ResetNextCore(View());
      if moved {
        ResetNextTaskUnblockTime();
      }
    }

    /** The part the priority changes share: a ready task moves to the list of its new priority. */
    method Requeue(t: Task, p: nat)
      requires ReadyShape(Ready(readyLists, topReadyPriority), priority)
      requires t in priority && priority[t] < MAX_PRIORITIES && p < MAX_PRIORITIES
      modifies `readyLists, `topReadyPriority, `priority
      ensures Ready(readyLists, topReadyPriority)
           == S.Move(old(Ready(readyLists, topReadyPriority)), old(priority), t, p)
      ensures priority == old(priority[t := p])
    {
      if t in readyLists[priority[t]].items {
        S.WithdrawRetarget(Ready(readyLists, topReadyPriority), priority, t, p);
        readyLists := Take(readyLists, t);
        priority := priority[t := p];
        AddTaskToReadyList(t);
      } else {
        priority := priority[t := p];
      }
    }

    /** xTaskPriorityInherit. */
    method PriorityInherit(holder: Task) returns (inherited: bool)
      requires K.Structure(View()) && holder in priority
      modifies `readyLists, `topReadyPriority, `priority
      ensures (View(), inherited) == S.Inherit(old(View()), holder)
    {
      if priority[holder] < priority[current] {
        Requeue(holder, priority[current]);
        inherited := true;
      } else {
        inherited := basePriority[holder] < priority[current];
      }
    }

    /** xTaskPriorityDisinherit. */
    method PriorityDisinherit() returns (switch: bool)
      requires K.Structure(View()) && IsReady(Ready(readyLists, topReadyPriority), current) && mutexesHeld[current] > 0
      modifies `readyLists, `topReadyPriority, `priority, `mutexesHeld
      ensures (View(), switch) == S.Disinherit(old(View()))
    {
      mutexesHeld := mutexesHeld[current := mutexesHeld[current] - 1];
      switch := priority[current] != basePriority[current] && mutexesHeld[current] == 0;
      if switch {
        ReturnToBase(View());
      }
    }

    method ReturnToBase(ghost k: K.Kernel)
      requires k == View() && K.Structure(k)
      modifies `readyLists, `topReadyPriority, `priority
      ensures View() == S.Requeue(k, k.current, k.base[k.current])
    {
      Requeue(current, basePriority[current]);
    }
  }
}
