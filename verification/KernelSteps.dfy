/** Priority changes, task creation and deletion, and what every run of kernel steps keeps. */
module KernelSteps {
  import opened Config
  import opened Numbers
  import opened Rings
  import opened ReadyLists
  import opened DelayedLists
  import opened Kernel

  // ---- priorities ----

  /** A task in its ready list moves to the end of the list of its new priority. */
  function Move(r: Ready, prio: map<Task, nat>, t: Task, p: nat): Ready
    requires ReadyShape(r, prio) && t in prio && prio[t] < MAX_PRIORITIES && p < MAX_PRIORITIES
  {
    if t in r.lists[prio[t]].items then
      WithdrawShape(r, prio, t);
      Add(Withdraw(r, t), p, t)
    else r
  }

  /** Change a task's priority, and its ready list with it. */
  function Requeue(k: Kernel, t: Task, p: nat): Kernel
    requires Structure(k) && t in k.prio && p < MAX_PRIORITIES
  {
    k.(ready := Move(k.ready, k.prio, t, p), prio := k.prio[t := p])
  }

  lemma WithdrawRetarget(r: Ready, prio: map<Task, nat>, t: Task, p: nat)
    requires ReadyShape(r, prio) && p < MAX_PRIORITIES
    ensures ReadyShape(Withdraw(r, t), prio[t := p])
  {
  }

  lemma RequeuePartition(k: Kernel, t: Task, p: nat)
    requires Structure(k) && Partition(k) && t in k.prio && p < MAX_PRIORITIES
    ensures Structure(Requeue(k, t, p)) && Partition(Requeue(k, t, p))
  {
    if t in k.ready.lists[k.prio[t]].items {
      RequeueReady(k, t, p);
    } else {
      NotReadyKeeps(k, t, p);
      assert StateBag(k.(prio := k.prio[t := p])) == StateBag(k);
    }
  }

  lemma RequeueReady(k: Kernel, t: Task, p: nat)
    requires Structure(k) && Partition(k) && t in k.prio && p < MAX_PRIORITIES && t in k.ready.lists[k.prio[t]].items
    ensures Structure(Requeue(k, t, p)) && Partition(Requeue(k, t, p))
  {
    WithdrawTargeted(k, t, p);
    AddEffect(k.(ready := Withdraw(k.ready, t), prio := k.prio[t := p]), t);
    assert k.prio[t := p].Keys == k.prio.Keys;
  }

  /** A ready task taken off its list, with its new priority. */
  lemma WithdrawTargeted(k: Kernel, t: Task, p: nat)
    requires Structure(k) && Partition(k) && t in k.prio && p < MAX_PRIORITIES && t in k.ready.lists[k.prio[t]].items
    ensures var w := k.(ready := Withdraw(k.ready, t), prio := k.prio[t := p]);
            Structure(w) && StateBag(w) == StateBag(k)[t := 0]
  {
    assert k.prio[t := p].Keys == k.prio.Keys;
    WithdrawRetarget(k.ready, k.prio, t, p);
    WithdrawBag(k, t);
    assert StateBag(k.(ready := Withdraw(k.ready, t), prio := k.prio[t := p]))
        == StateBag(k.(ready := Withdraw(k.ready, t)));
  }

  /** Off its own ready list a task is on no ready list, so its priority may change where it stands. */
  lemma NotReadyKeeps(k: Kernel, t: Task, p: nat)
    requires Structure(k) && t in k.prio && p < MAX_PRIORITIES && t !in k.ready.lists[k.prio[t]].items
    ensures Structure(k.(prio := k.prio[t := p]))
  {
  }

  /** Taking a ready task off its ready list takes it off every state list. */
  lemma WithdrawBag(k: Kernel, t: Task)
    requires Structure(k) && Partition(k) && t in k.prio && t in k.ready.lists[k.prio[t]].items
    ensures StateBag(k.(ready := Withdraw(k.ready, t))) == StateBag(k)[t := 0]
  {
    BagMember(k.ready.lists, t);
    OnlyReady(k, t);
    WithdrawShape(k.ready, k.prio, t);
    TakeLast(multiset(Owners(k.delays.current)), multiset(Owners(k.delays.overflow)), multiset(k.terminated),
             Bag(k.ready.lists), t);
  }

  lemma TakeLast(a: multiset<Task>, b: multiset<Task>, c: multiset<Task>, e: multiset<Task>, t: Task)
    requires t !in a && t !in b && t !in c
    ensures a + b + c + e[t := 0] == (a + b + c + e)[t := 0]
  {
  }

  /** A task counted in the ready lists is on no other state list. */
  lemma OnlyReady(k: Kernel, t: Task)
    requires Partition(k) && t in Bag(k.ready.lists)
    ensures t !in multiset(Owners(k.delays.current)) && t !in multiset(Owners(k.delays.overflow))
    ensures t !in multiset(k.terminated)
  {
    assert multiset(k.prio.Keys)[t] <= 1;
    assert StateBag(k)[t] <= 1;
  }

  lemma RequeueInv(k: Kernel, t: Task, p: nat)
    requires Inv(k) && t in k.prio && p < MAX_PRIORITIES
    ensures Inv(Requeue(k, t, p))
  {
    RequeuePartition(k, t, p);
  }

  function Capped(p: nat): (q: nat)
    ensures q < MAX_PRIORITIES
  {
    if p >= MAX_PRIORITIES then MAX_PRIORITIES - 1 else p
  }

  /** vTaskPrioritySet: an inherited priority stays, only the base changes; the task is requeued either way. */
  function PrioritySet(k: Kernel, t: Task, asked: nat): Kernel
    requires Structure(k) && t in k.prio
  {
    var p := Capped(asked);
    if k.base[t] == p then k
    else
      var r := Requeue(k, t, if k.base[t] == k.prio[t] then p else k.prio[t]);
      r.(base := r.base[t := p])
  }

  /** xTaskPriorityInherit, for the current task blocking on a mutex of the holder. */
  function Inherit(k: Kernel, holder: Task): (r: (Kernel, bool))
    requires Structure(k) && holder in k.prio
  {
    if k.prio[holder] < k.prio[k.current] then (Requeue(k, holder, k.prio[k.current]), true)
    else (k, k.base[holder] < k.prio[k.current])
  }

  /** xTaskPriorityDisinherit, for the current task giving a mutex. */
  function Disinherit(k: Kernel): (r: (Kernel, bool))
    requires Structure(k) && IsReady(k.ready, k.current) && k.held[k.current] > 0
  {
    var t := k.current;
    var k1 := k.(held := k.held[t := k.held[t] - 1]);
    if k.prio[t] != k.base[t] && k1.held[t] == 0 then (Requeue(k1, t, k.base[t]), true) else (k1, false)
  }

  /** vTaskPriorityDisinheritAfterTimeout. */
  function DisinheritAfterTimeout(k: Kernel, holder: Task, waiting: nat): Kernel
    requires Structure(k) && holder in k.prio && waiting < MAX_PRIORITIES
  {
    var p := Max(k.base[holder], waiting);
    if k.prio[holder] != p && k.held[holder] == 1 then Requeue(k, holder, p) else k
  }

  /** pvTaskIncrementMutexHeldCount. */
  function HoldOneMore(k: Kernel): Kernel
    requires Structure(k)
  {
    k.(held := k.held[k.current := k.held[k.current] + 1])
  }

  /** Mutex counts and base priorities say nothing about the lists. */
  lemma RecordsInv(k: Kernel, base: map<Task, nat>, held: map<Task, nat>)
    requires Inv(k) && base.Keys == held.Keys == k.prio.Keys && forall t <- base :: base[t] < MAX_PRIORITIES
    ensures Inv(k.(base := base, held := held))
  {
  }

  lemma PrioritySetInv(k: Kernel, t: Task, asked: nat)
    requires Inv(k) && t in k.prio
    ensures Inv(PrioritySet(k, t, asked))
  {
    var p := Capped(asked);
    if k.base[t] != p {
      var r := Requeue(k, t, if k.base[t] == k.prio[t] then p else k.prio[t]);
      RequeueInv(k, t, if k.base[t] == k.prio[t] then p else k.prio[t]);
      SetBaseInv(r, t, p);
    }
  }

  lemma SetBaseInv(k: Kernel, t: Task, p: nat)
    requires Inv(k) && t in k.prio && p < MAX_PRIORITIES
    ensures Inv(k.(base := k.base[t := p]))
  {
  }

  lemma InheritInv(k: Kernel, holder: Task)
    requires Inv(k) && holder in k.prio
    ensures Inv(Inherit(k, holder).0)
  {
    RequeueInv(k, holder, k.prio[k.current]);
  }

  lemma DisinheritInv(k: Kernel)
    requires Inv(k) && IsReady(k.ready, k.current) && k.held[k.current] > 0
    ensures Inv(Disinherit(k).0)
  {
    var t := k.current;
    var h := k.held[t := k.held[t] - 1];
    RecordsInv(k, k.base, h);
    RequeueInv(k.(held := h), t, k.base[t]);
  }

  lemma DisinheritAfterTimeoutInv(k: Kernel, holder: Task, waiting: nat)
    requires Inv(k) && holder in k.prio && waiting < MAX_PRIORITIES
    ensures Inv(DisinheritAfterTimeout(k, holder, waiting))
  {
    var p := Max(k.base[holder], waiting);
    assert p < MAX_PRIORITIES;
    if k.prio[holder] != p && k.held[holder] == 1 {
      RequeueInv(k, holder, p);
    }
  }

  // ---- creation and deletion ----

  /** prvAddNewTaskToReadyList while the scheduler runs. */
  function Create(k: Kernel, t: Task, p: nat): Kernel
    requires Structure(k) && t !in k.prio && p < MAX_PRIORITIES
  {
    var k1 := k.(prio := k.prio[t := p], base := k.base[t := p], held := k.held[t := 0]);
    AddToReady(k1, t)
  }

  /** vTaskDelete: the running task waits for the idle task to free it, any other is gone at once. */
  function Delete(k: Kernel, t: Task): Kernel
    requires Structure(k)
  {
    var d := DetachEvent(Detach(k, t), t);
    if t == k.current then d.(terminated := d.terminated + [t])
    else ResetNext(d.(prio := d.prio - {t}, base := d.base - {t}, held := d.held - {t}))
  }

  /** One turn of prvCheckTasksWaitingTermination. */
  function Reap(k: Kernel): Kernel
    requires k.terminated != []
  {
    var t := k.terminated[0];
    k.(terminated := k.terminated[1..], prio := k.prio - {t}, base := k.base - {t}, held := k.held - {t})
  }

  lemma CreateInv(k: Kernel, t: Task, p: nat)
    requires Inv(k) && t !in k.prio && p < MAX_PRIORITIES
    ensures Inv(Create(k, t, p))
  {
    KnownStructure(k, t, p);
    JoinsReady(k.(prio := k.prio[t := p], base := k.base[t := p], held := k.held[t := 0]), t, k.prio.Keys);
  }

  lemma JoinsReady(k: Kernel, t: Task, others: set<Task>)
    requires Structure(k) && Events(k) && (k.suspended == 0 ==> k.pendingReady == [])
    requires t !in others && k.prio.Keys == others + {t} && StateBag(k) == multiset(others)
    ensures Inv(AddToReady(k, t))
  {
    AddEffect(k, t);
    assert multiset(others + {t}) == multiset(others) + multiset{t};
  }

  /** A task that exists and is on no list yet. */
  lemma KnownStructure(k: Kernel, t: Task, p: nat)
    requires Inv(k) && t !in k.prio && p < MAX_PRIORITIES
    ensures var k1 := k.(prio := k.prio[t := p], base := k.base[t := p], held := k.held[t := 0]);
            && Structure(k1) && Events(k1) && StateBag(k1) == multiset(k.prio.Keys)
            && k1.prio.Keys == k.prio.Keys + {t}
  {
  }

  /** Off every list a task is on none. */
  lemma OffAllLists(k: Kernel, t: Task)
    requires Inv(k) && t in k.prio
    ensures var d := DetachEvent(Detach(k, t), t);
            && Structure(d) && Events(d) && StateBag(d) == multiset(k.prio.Keys)[t := 0] && !IsReady(d.ready, t)
  {
    DetachStructure(k, t);
    DetachBag(k, t);
    ForgetAsleep(k.delays, t);
    WithoutDistinct(k.pendingReady, t);
    assert StateBag(DetachEvent(Detach(k, t), t)) == StateBag(Detach(k, t));
  }

  lemma DeleteSelf(k: Kernel)
    requires Inv(k)
    ensures Inv(Delete(k, k.current))
  {
    OffAllLists(k, k.current);
    var d := DetachEvent(Detach(k, k.current), k.current);
    assert StateBag(Delete(k, k.current)) == StateBag(d) + multiset{k.current};
  }

  lemma DeleteInv(k: Kernel, t: Task)
    requires Inv(k) && t in k.prio
    ensures Inv(Delete(k, t))
  {
    if t == k.current {
      DeleteSelf(k);
    } else {
      OffAllLists(k, t);
      DeleteOther(k, DetachEvent(Detach(k, t), t), t);
    }
  }

  lemma DeleteOther(k: Kernel, d: Kernel, t: Task)
    requires Structure(d) && Events(d) && d.prio == k.prio && d.current == k.current && t != k.current
    requires StateBag(d) == multiset(k.prio.Keys)[t := 0]
    requires !IsReady(d.ready, t)
    ensures Core(ResetNext(d.(prio := d.prio - {t}, base := d.base - {t}, held := d.held - {t})))
  {
    var e := d.(prio := d.prio - {t}, base := d.base - {t}, held := d.held - {t});
    assert e.prio.Keys == d.prio.Keys - {t};
    assert StateBag(e) == StateBag(d);
    assert Structure(e) by {
      forall p, u | 0 <= p < MAX_PRIORITIES && u in d.ready.lists[p].items ensures u != t {
        assert IsReady(d.ready, u);
      }
    }
    ResetNextCore(e);
  }

  lemma ReapInv(k: Kernel)
    requires Inv(k) && k.terminated != [] && k.terminated[0] != k.current
    ensures Inv(Reap(k))
  {
    var t, r := k.terminated[0], Reap(k);
    assert r.prio.Keys == k.prio.Keys - {t};
    assert k.terminated == [t] + r.terminated;
    TakeOne(multiset(Owners(k.delays.current)), multiset(Owners(k.delays.overflow)), multiset(r.terminated),
            Bag(k.ready.lists), k.prio.Keys, t);
    BagMember(k.ready.lists, t);
    forall p, u | 0 <= p < MAX_PRIORITIES && u in k.ready.lists[p].items ensures u != t {
    }
  }

  lemma TakeOne(a: multiset<Task>, b: multiset<Task>, c: multiset<Task>, e: multiset<Task>, s: set<Task>, t: Task)
    requires a + b + (multiset{t} + c) + e == multiset(s)
    ensures a + b + c + e == multiset(s - {t}) && t !in e
  {
    forall u ensures (a + b + c + e)[u] == multiset(s - {t})[u] {
      assert (a + b + (multiset{t} + c) + e)[u] == multiset(s)[u];
    }
    assert (a + b + (multiset{t} + c) + e)[t] <= 1;
  }
}
