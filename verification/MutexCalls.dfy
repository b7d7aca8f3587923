/** The mutex paths of queue.c in their own form: the queue and task records updated in place, keeping the ledger. */
module MutexCalls {
  import opened Config
  import opened Numbers
  import opened Mutexes
  import opened MutexPriority
  import opened ReadyLists
  import K = Kernel
  import S = KernelSteps

  /** A take succeeds exactly on a mutex nobody holds. */
  lemma AvailableExactly(s: State, m: Mutex)
    requires Cons(s) && m in s.holder
    ensures s.count[m] <= 1 && (s.count[m] > 0 <==> s.holder[m].Free?)
  {
  }

  /** The test of xQueueSemaphoreTake: take the mutex, or leave if the wait is over. */
  function Tested(s: State, m: Mutex): State
    requires WellKeyed(s) && m in s.holder
  {
    if s.count[m] > 0 then TakeMutex(s, m) else if s.phase[s.current].LastTry? then Leave(s) else s
  }

  lemma TestKeeps(s: State, m: Mutex)
    requires Cons(s) && Running(s) && m in s.holder && s.phase[s.current] in {Idle, Retry(m), LastTry(m)}
    ensures Cons(Tested(s, m))
  {
    if s.count[m] > 0 {
      NextCons(s, Take(m));
    } else if s.phase[s.current].LastTry? {
      NextCons(s, Return(m));
    }
  }

  lemma TestIsStep(s: State, m: Mutex)
    requires Cons(s) && Running(s) && m in s.holder && s.phase[s.current] in {Idle, Retry(m), LastTry(m)}
    ensures Tested(s, m) == if s.holder[m].Free? then Next(s, Take(m))
                            else if s.phase[s.current].LastTry? then Next(s, Return(m)) else s
    ensures AssertionFails(s, m) <==> s.holder[m].By? && s.phase[s.current].LastTry? && s.current in s.raised
  {
    AvailableExactly(s, m);
    if s.holder[m].Free? {
      assert Tested(s, m) == TakeMutex(s, m);
    }
  }

  /** After blocking the holder is no less urgent than the caller, who waits among the others in order. */
  ghost predicate Joined(s: State, q: State, m: Mutex) {
    && m in s.holder && s.holder[m].By? && q.holder == s.holder && s.current in s.prio && s.holder[m].task in s.prio
    && (var h := s.holder[m].task; q.prio == s.prio[h := Max(s.prio[h], s.prio[s.current])])
    && m in s.waiters && m in q.waiters && multiset(q.waiters[m]) == multiset(s.waiters[m]) + multiset{s.current}
    && (Descending(s.waiters[m], q.prio) ==> Descending(q.waiters[m], q.prio))
  }

  lemma BlockJoins(s: State, m: Mutex)
    requires Cons(s) && Enabled(s, Block(m))
    ensures Joined(s, Next(s, Block(m)), m)
  {
    AvailableExactly(s, m);
    HolderHolds(s, m);
    LineJoined(s, m);
  }

  lemma LineJoined(s: State, m: Mutex)
    requires Cons(s) && Enabled(s, Block(m))
    ensures var q := Next(s, Block(m));
            && m in q.waiters && multiset(q.waiters[m]) == multiset(s.waiters[m]) + multiset{s.current}
            && (Descending(s.waiters[m], q.prio) ==> Descending(q.waiters[m], q.prio))
  {
    var w, prio := s.waiters[m], Next(s, Block(m)).prio;
    assert InLine(w, m, s.phase);
    EnqueueMembers(w, prio, s.current);
    if Descending(w, prio) {
      EnqueueDescending(w, prio, s.current);
    }
  }

  /** After a give the mutex is free, its first waiter is on its way, and the giver has what it held besides, or its
      base; unless a yield is asked for it is no less urgent than that waiter, or, if nobody waited, than before. */
  ghost predicate Given(s: State, q: State, m: Mutex) {
    && m in q.holder && q.holder[m].Free? && s.current in s.prio && s.current in q.prio && s.current in q.base
    && s.current in s.held && s.current in q.held && q.held[s.current] + 1 == s.held[s.current]
    && q.prio == s.prio[s.current := if q.held[s.current] == 0 then q.base[s.current] else s.prio[s.current]]
    && m in s.waiters && m in q.waiters
    && var w := s.waiters[m];
       if w == [] then q.waiters[m] == [] && (!q.yielding ==> q.prio[s.current] == s.prio[s.current])
       else q.waiters[m] == w[1..] && w[0] in q.phase && q.phase[w[0]] == Retry(m) && w[0] in q.prio
            && (!q.yielding ==> q.prio[w[0]] <= q.prio[s.current])
  }

  lemma GiveGives(s: State, m: Mutex)
    requires Cons(s) && Enabled(s, Give(m))
    ensures Cons(Next(s, Give(m))) && Given(s, Next(s, Give(m)), m)
  {
    NextCons(s, Give(m));
    GiveEffect(s, m);
  }

  /** After a timeout a holder of one mutex goes down to the first task still waiting for it, but not below its base,
      if the caller made somebody inherit; no other priority changes, and none if nobody holds the mutex by then. */
  ghost predicate Left(s: State, q: State, m: Mutex) {
    && m in s.holder && q.holder == s.holder && m in q.waiters
    && s.current in q.phase && q.phase[s.current].Idle? && s.current !in q.raised
    && (s.current !in s.raised || s.holder[m].Free? ==> q.prio == s.prio)
    && (s.holder[m].By? ==>
          var h := s.holder[m].task;
          && h in s.prio && h in q.prio && h in q.base && h in q.held
          && q.prio == s.prio[h := q.prio[h]] && q.base[h] <= q.prio[h] && (q.held[h] != 1 ==> q.prio == s.prio)
          && (s.current in s.raised && q.held[h] == 1 ==>
                q.prio[h] == Max(q.base[h], FirstPriority(q.waiters[m], s.prio))))
  }

  lemma GiveUpLeaves(s: State, m: Mutex)
    requires Cons(s) && Enabled(s, GiveUp(m))
    ensures Left(s, Next(s, GiveUp(m)), m)
  {
    if s.holder[m].By? {
      HolderHolds(s, m);
      HolderIsTask(s, m);
      assert s.base[s.holder[m].task] <= s.prio[s.holder[m].task];
    }
    GivenUpLeft(s, m);
  }

  lemma GivenUpLeft(s: State, m: Mutex)
    requires WellKeyed(s) && m in s.holder
    requires s.holder[m].By? ==> s.holder[m].task in s.prio && s.base[s.holder[m].task] <= s.prio[s.holder[m].task]
    ensures Left(s, GiveUpOn(s, m), m)
  {
  }

  class MutexQueues {
    var priority: map<Task, nat>
    var basePriority: map<Task, nat>
    var mutexesHeld: map<Task, nat>
    var phase: map<Task, Phase>
    var mutexHolder: map<Mutex, Holder>
    var messagesWaiting: map<Mutex, nat>
    var waitingToReceive: map<Mutex, seq<Task>>
    var inheritanceOccurred: set<Task>
    var current: Task
    var yieldRequired: bool

    ghost function View(): State
      reads this
    {
      State(priority, basePriority, mutexesHeld, phase, mutexHolder, messagesWaiting, waitingToReceive,
            inheritanceOccurred, current, yieldRequired)
    }

    method TakeIfAvailable(m: Mutex) returns (taken: bool)
      requires WellKeyed(View()) && m in mutexHolder && messagesWaiting[m] <= 1
      modifies this
      ensures taken == (old(messagesWaiting)[m] > 0)
      ensures View() == if taken then TakeMutex(old(View()), m) else old(View())
    {
      taken := messagesWaiting[m] > 0;
      if taken {
        messagesWaiting := messagesWaiting[m := messagesWaiting[m] - 1];
        mutexesHeld := mutexesHeld[current := mutexesHeld[current] + 1];
        mutexHolder := mutexHolder[m := By(current)];
        phase := phase[current := Idle];
        inheritanceOccurred := inheritanceOccurred - {current};
      }
    }

    /** A wait that is over ends with an unsuccessful test. */
    method TestOnce(m: Mutex) returns (taken: bool, asserted: bool)
      requires WellKeyed(View()) && m in mutexHolder && messagesWaiting[m] <= 1
      modifies this
      ensures taken == (old(messagesWaiting)[m] > 0) && View() == Tested(old(View()), m)
      ensures asserted <==> taken || !old(phase[current].LastTry? && current in inheritanceOccurred)
    {
      asserted := true;
      taken := TakeIfAvailable(m);
      if !taken && phase[current].LastTry? {
        asserted := current !in inheritanceOccurred;
        LeaveCall();
      }
    }

    /** xTaskPriorityInherit. */
    method RaiseHolder(h: Holder) returns (raised: bool)
      requires WellKeyed(View())
      modifies `priority
      ensures raised == Raises(old(View()), h)
      ensures priority == if h.By? && h.task in old(priority) then Inherit(old(priority), h.task, current)
                          else old(priority)
    {
      raised := false;
      if h.By? && h.task in priority {
        raised := priority[h.task] < priority[current] || basePriority[h.task] < priority[current];
        if priority[h.task] < priority[current] {
          priority := priority[h.task := priority[current]];
        }
      }
    }

    /** xTaskPriorityInherit and vTaskPlaceOnEventList. */
    method InheritAndPlace(m: Mutex)
      requires WellKeyed(View()) && m in mutexHolder
      requires forall i | 0 <= i < |waitingToReceive[m]| :: waitingToReceive[m][i] in priority
      modifies this
      ensures View() == BlockOn(old(View()), m)
    {
      var raised := RaiseHolder(mutexHolder[m]);
      inheritanceOccurred := if raised then inheritanceOccurred + {current} else inheritanceOccurred - {current};
      waitingToReceive := waitingToReceive[m := Enqueue(waitingToReceive[m], priority, current)];
      phase := phase[current := Waiting(m)];
      yieldRequired := true;
    }

    /** prvCopyDataToQueue on a mutex, with xTaskPriorityDisinherit. */
    method ReleaseMutex(m: Mutex) returns (lowered: bool)
      requires WellKeyed(View()) && m in mutexHolder && mutexesHeld[current] > 0
      modifies `mutexesHeld, `priority, `mutexHolder, `messagesWaiting
      ensures View() == LetGo(old(View()), m) && lowered == Disinherits(old(View()))
    {
      mutexesHeld := mutexesHeld[current := mutexesHeld[current] - 1];
      lowered := priority[current] != basePriority[current] && mutexesHeld[current] == 0;
      if lowered {
        priority := priority[current := basePriority[current]];
      }
      mutexHolder := mutexHolder[m := Free];
      messagesWaiting := messagesWaiting[m := 1];
    }

    /** prvCopyDataToQueue and xTaskRemoveFromEventList. */
    method ReleaseAndWake(m: Mutex)
      requires WellKeyed(View()) && m in mutexHolder && mutexesHeld[current] > 0
      requires waitingToReceive[m] != [] ==> waitingToReceive[m][0] in priority
      modifies this
      ensures View() == WakeFirst(LetGo(old(View()), m), m, Disinherits(old(View())))
    {
      var lowered := ReleaseMutex(m);
      var w := waitingToReceive[m];
      if w != [] {
        waitingToReceive := waitingToReceive[m := w[1..]];
        phase := phase[w[0] := Retry(m)];
        if priority[w[0]] > priority[current] {
          yieldRequired := true;
        }
      } else if lowered {
        yieldRequired := true;
      }
    }

    /** prvGetDisinheritPriorityAfterTimeout and vTaskPriorityDisinheritAfterTimeout. */
    method DisinheritAndLeave(m: Mutex)
      requires WellKeyed(View()) && m in mutexHolder
      modifies `phase, `priority, `inheritanceOccurred
      ensures View() == GiveUpOn(old(View()), m)
    {
      if current in inheritanceOccurred && mutexHolder[m].By? && mutexHolder[m].task in priority {
        var h, highest := mutexHolder[m].task, FirstPriority(waitingToReceive[m], priority);
        var toUse := if basePriority[h] < highest then highest else basePriority[h];
        if priority[h] != toUse && mutexesHeld[h] == 1 {
          priority := priority[h := toUse];
        }
      }
      LeaveCall();
    }

    method LeaveCall()
      requires WellKeyed(View())
      modifies `phase, `inheritanceOccurred
      ensures View() == Leave(old(View()))
    {
      phase := phase[current := Idle];
      inheritanceOccurred := inheritanceOccurred - {current};
    }

    /** The ledger of the mutexes, and waiting lists that hold exactly the waiting tasks. */
    ghost predicate Valid()
      reads this
    {
      Cons(View())
    }

    /** The first critical section of xQueueSemaphoreTake on a mutex: it is taken exactly when nobody holds it. A task
        whose wait is over leaves if somebody does; asserted is whether the assertion it makes then holds. */
    method TryTake(m: Mutex) returns (taken: bool, asserted: bool)
      requires Valid() && Running(View()) && m in mutexHolder && phase[current] in {Idle, Retry(m), LastTry(m)}
      modifies this
      ensures Valid() && taken == old(mutexHolder[m].Free?) && (asserted <==> !AssertionFails(old(View()), m))
      ensures View() == if taken then Next(old(View()), Take(m))
                        else if old(phase[current]).LastTry? then Next(old(View()), Return(m)) else old(View())
    {
      AvailableExactly(View(), m);
      TestKeeps(View(), m);
      TestIsStep(View(), m);
      taken, asserted := TestOnce(m);
    }

    /** The emptiness test of xQueueSemaphoreTake after a timeout, outside any critical section. */
    method TestAfterTimeout(m: Mutex) returns (empty: bool)
      requires Valid() && Running(View()) && m in mutexHolder && phase[current] == Retry(m)
      modifies `phase
      ensures Valid() && empty == mutexHolder[m].By?
      ensures View() == Next(old(View()), if empty then FindEmpty(m) else FindAvailable(m))
      ensures phase == old(phase)[current := if empty then Leaving(m) else LastTry(m)]
    {
      AvailableExactly(View(), m);
      NextCons(View(), if messagesWaiting[m] == 0 then FindEmpty(m) else FindAvailable(m));
      empty := TestEmpty(m);
    }

    method TestEmpty(m: Mutex) returns (empty: bool)
      requires WellKeyed(View()) && m in mutexHolder
      modifies `phase
      ensures empty == (messagesWaiting[m] == 0)
      ensures View() == Move(old(View()), if empty then FindEmpty(m) else FindAvailable(m))
    {
      empty := messagesWaiting[m] == 0;
      phase := phase[current := if empty then Leaving(m) else LastTry(m)];
    }

    /** xQueueSemaphoreTake from the lock to the block. */
    method WaitForMutex(m: Mutex)
      requires Valid() && Enabled(View(), Block(m))
      modifies this
      ensures Valid() && View() == Next(old(View()), Block(m)) && Joined(old(View()), View(), m)
    {
      NextCons(View(), Block(m));
      BlockJoins(View(), m);
      assert InLine(waitingToReceive[m], m, phase);
      InheritAndPlace(m);
    }

    /** xQueueGenericSend on a mutex. */
    method GiveMutex(m: Mutex)
      requires Valid() && Enabled(View(), Give(m))
      modifies this
      ensures Valid() && View() == Next(old(View()), Give(m)) && Given(old(View()), View(), m)
    {
      GiveGives(View(), m);
      HolderHolds(View(), m);
      ReleaseAndWake(m);
    }

    /** The critical section of xQueueSemaphoreTake after a timeout, by when the mutex may have been given or taken
        again. */
    method LeaveAfterTimeout(m: Mutex)
      requires Valid() && Enabled(View(), GiveUp(m))
      modifies `phase, `priority, `inheritanceOccurred
      ensures Valid() && View() == Next(old(View()), GiveUp(m)) && Left(old(View()), View(), m)
    {
      NextCons(View(), GiveUp(m));
      GiveUpLeaves(View(), m);
      DisinheritAndLeave(m);
    }
  }

  // ---- the scheduler's side ----

  /** The kernel's priority inheritance changes the priorities as stated here, and moves ready tasks besides. */
  lemma InheritAgrees(k: K.Kernel, holder: Task)
    requires K.Structure(k) && holder in k.prio
    ensures S.Inherit(k, holder).0.prio == Inherit(k.prio, holder, k.current)
    ensures S.Inherit(k, holder).1
       <==> k.prio[holder] < k.prio[k.current] || k.base[holder] < k.prio[k.current]
  {
  }

  lemma DisinheritAgrees(k: K.Kernel)
    requires K.Structure(k) && IsReady(k.ready, k.current) && k.held[k.current] > 0
    ensures S.Disinherit(k).0.prio == Disinherit(k.prio, k.base, k.held[k.current] - 1, k.current)
    ensures S.Disinherit(k).1 <==> k.held[k.current] == 1 && k.prio[k.current] != k.base[k.current]
  {
  }

  lemma DropAgrees(k: K.Kernel, holder: Task, waiting: nat)
    requires K.Structure(k) && holder in k.prio && waiting < MAX_PRIORITIES
    ensures S.DisinheritAfterTimeout(k, holder, waiting).prio
         == DropAfterTimeout(k.prio, k.base, k.held[holder], holder, waiting)
  {
  }
}
