/** The queue lock of queue.c as a protocol of atomic steps: tasks that test, block and wake on one queue, and
    interrupts that post and take while a task holds the lock. */
module QueueLock {
  import opened Config
  import opened Numbers
  import opened Rings

  const UNLOCKED: int := -1
  const UNMODIFIED: int := 0

  datatype Side = Rx | Tx

  /** What the task that suspended the scheduler is doing; Free when the scheduler runs. */
  datatype Phase =
    | Free
    | Locked(task: Task, side: Side)    // after prvLockQueue
    | Checked(task: Task, side: Side)   // found the queue empty, or full, under the lock
    | Closing                           // about to run prvUnlockQueue
    | HalfOpen                          // between its two critical sections

  datatype State = State(
    length: nat,
    messages: nat,
    receivers: seq<Task>,       // xTasksWaitingToReceive
    senders: seq<Task>,         // xTasksWaitingToSend
    txLock: int, rxLock: int,   // cTxLock and cRxLock
    freshRx: set<Task>,         // unblocked from receivers and not yet testing the queue again
    freshTx: set<Task>,
    phase: Phase)

  datatype Step =
    | Send(task: Task, overwrite: bool)
    | Receive(task: Task)
    | Peek(task: Task)
    | FindEmpty(task: Task)
    | FindFull(task: Task)
    | TimeOut(task: Task)
    | Lock(task: Task, side: Side)
    | Check
    | GiveUp
    | Place(at: nat)
    | UnlockTx
    | UnlockRx
    | IsrSend(overwrite: bool)
    | IsrReceive

  predicate Room(s: State, overwrite: bool) {
    s.messages < s.length || (overwrite && s.length == 1)
  }

  predicate Idle(s: State, t: Task) {
    s.phase.Free? && t !in s.receivers && t !in s.senders
  }

  predicate Enabled(s: State, a: Step) {
    match a
    case Send(t, o) => Idle(s, t) && Room(s, o)
    case Receive(t) => Idle(s, t) && s.messages > 0
    case Peek(t) => Idle(s, t) && s.messages > 0
    case FindEmpty(t) => Idle(s, t) && s.messages == 0
    case FindFull(t) => Idle(s, t) && s.messages == s.length
    case TimeOut(t) => s.phase.Free? && (t in s.receivers || t in s.senders)
    case Lock(t, _) => Idle(s, t) && t !in s.freshRx && t !in s.freshTx
    case Check | GiveUp => s.phase.Locked?
    case Place(k) => s.phase.Checked? && k <= |if s.phase.side.Rx? then s.receivers else s.senders|
    case UnlockTx => s.phase.Closing?
    case UnlockRx => s.phase.HalfOpen?
    case IsrSend(o) => Room(s, o)
    case IsrReceive => s.messages > 0
  }

  /** Fewer than 128 interrupt operations per lock period: the count still fits its int8_t. */
  predicate Bounded(s: State, a: Step) {
    (a.IsrSend? ==> s.txLock < 127) && (a.IsrReceive? ==> s.rxLock < 127)
  }

  function Increment8(x: int): int {
    if x == 127 then -128 else x + 1
  }

  /** Put one more message in; an overwrite of a full queue of length 1 adds none. */
  function Put(s: State): State {
    s.(messages := if s.messages < s.length then s.messages + 1 else s.messages)
  }

  function WakeReceiver(s: State): State {
    if s.receivers == [] then s else s.(receivers := s.receivers[1..], freshRx := s.freshRx + {s.receivers[0]})
  }

  function WakeSender(s: State): State {
    if s.senders == [] then s else s.(senders := s.senders[1..], freshTx := s.freshTx + {s.senders[0]})
  }

  /** The loop of prvUnlockQueue over cTxLock. */
  function WakeReceivers(s: State, n: int): State
    decreases n
  {
    if n <= UNMODIFIED || s.receivers == [] then s else WakeReceivers(WakeReceiver(s), n - 1)
  }

  function WakeSenders(s: State, n: int): State
    decreases n
  {
    if n <= UNMODIFIED || s.senders == [] then s else WakeSenders(WakeSender(s), n - 1)
  }

  function Insert(w: seq<Task>, k: nat, t: Task): seq<Task>
    requires k <= |w|
  {
    w[..k] + [t] + w[k..]
  }

  function CheckQueue(s: State): State
    requires s.phase.Locked?
  {
    var blocked := if s.phase.side.Rx? then s.messages == 0 else s.messages == s.length;
    s.(phase := if blocked then Checked(s.phase.task, s.phase.side) else Closing)
  }

  function PlaceTask(s: State, k: nat): State
    requires s.phase.Checked? && k <= |if s.phase.side.Rx? then s.receivers else s.senders|
  {
    if s.phase.side.Rx? then s.(receivers := Insert(s.receivers, k, s.phase.task), phase := Closing)
    else s.(senders := Insert(s.senders, k, s.phase.task), phase := Closing)
  }

  function Next(s: State, a: Step): State
    requires Enabled(s, a)
  {
    match a
    case Send(t, _) => WakeReceiver(Put(s).(freshTx := s.freshTx - {t}))
    case Receive(t) => WakeSender(s.(messages := s.messages - 1, freshRx := s.freshRx - {t}))
    case Peek(t) => WakeReceiver(s.(freshRx := s.freshRx - {t}))
    case FindEmpty(t) => s.(freshRx := s.freshRx - {t})
    case FindFull(t) => s.(freshTx := s.freshTx - {t})
    case TimeOut(t) => s.(receivers := Without(s.receivers, t), senders := Without(s.senders, t))
    case Lock(t, side) =>
      s.(phase := Locked(t, side),
         rxLock := if s.rxLock == UNLOCKED then UNMODIFIED else s.rxLock,
         txLock := if s.txLock == UNLOCKED then UNMODIFIED else s.txLock)
    case Check => CheckQueue(s)
    case GiveUp => s.(phase := Closing)
    case Place(k) => PlaceTask(s, k)
    case UnlockTx => WakeReceivers(s, s.txLock).(txLock := UNLOCKED, phase := HalfOpen)
    case UnlockRx => WakeSenders(s, s.rxLock).(rxLock := UNLOCKED, phase := Free)
    case IsrSend(_) => if s.txLock == UNLOCKED then WakeReceiver(Put(s)) else Put(s).(txLock := Increment8(s.txLock))
    case IsrReceive =>
      var r := s.(messages := s.messages - 1);
      if s.rxLock == UNLOCKED then WakeSender(r) else r.(rxLock := Increment8(s.rxLock))
  }

  // ---- the invariant ----

  function Pending(lock: int): nat {
    if lock > UNMODIFIED then lock else 0
  }

  /** Nobody waits for a message that nobody has been woken for. */
  predicate NoLostWakeUp(s: State) {
    && (s.receivers != [] ==> s.messages <= |s.freshRx|)
    && (s.senders != [] ==> s.length - s.messages <= |s.freshTx|)
  }

  predicate Owed(s: State) {
    && (s.receivers != [] ==> s.messages <= |s.freshRx| + Pending(s.txLock))
    && (s.senders != [] ==> s.length - s.messages <= |s.freshTx| + Pending(s.rxLock))
  }

  ghost predicate Apart(s: State) {
    && Distinct(s.receivers) && Distinct(s.senders)
    && (forall t <- s.receivers :: t !in s.freshRx) && (forall t <- s.senders :: t !in s.freshTx)
  }

  predicate LocksMatch(s: State) {
    match s.phase
    case Free => s.txLock == UNLOCKED && s.rxLock == UNLOCKED
    case HalfOpen => s.txLock == UNLOCKED && s.rxLock >= UNMODIFIED
    case _ => s.txLock >= UNMODIFIED && s.rxLock >= UNMODIFIED
  }

  /** The locking task is on neither list until it places itself, and what it found under the lock still
      holds but for the interrupts counted since. */
  predicate LockerReady(s: State) {
    && (s.phase.Locked? || s.phase.Checked? ==>
          var t := s.phase.task;
          t !in s.receivers && t !in s.senders && t !in s.freshRx && t !in s.freshTx)
    && (s.phase.Checked? && s.phase.side.Rx? ==> s.messages <= s.txLock)
    && (s.phase.Checked? && s.phase.side.Tx? ==> s.length - s.messages <= s.rxLock)
  }

  ghost predicate Inv(s: State) {
    s.messages <= s.length && Owed(s) && Apart(s) && LocksMatch(s) && LockerReady(s)
  }

  lemma WakeReceiverEffect(s: State)
    requires Apart(s)
    ensures var r := WakeReceiver(s);
            && Apart(r) && r == s.(receivers := r.receivers, freshRx := r.freshRx)
            && (forall t <- r.receivers :: t in s.receivers)
            && (forall t <- r.freshRx :: t in s.freshRx || t in s.receivers)
            && (r.receivers != [] ==> |r.freshRx| == |s.freshRx| + 1)
  {
  }

  lemma WakeSenderEffect(s: State)
    requires Apart(s)
    ensures var r := WakeSender(s);
            && Apart(r) && r == s.(senders := r.senders, freshTx := r.freshTx)
            && (forall t <- r.senders :: t in s.senders)
            && (forall t <- r.freshTx :: t in s.freshTx || t in s.senders)
            && (r.senders != [] ==> |r.freshTx| == |s.freshTx| + 1)
  {
  }

  /** r is s with w of its receivers woken. */
  ghost predicate Woke(s: State, r: State, w: nat) {
    && r == s.(receivers := r.receivers, freshRx := r.freshRx) && Apart(r)
    && |r.receivers| == |s.receivers| - w && |r.freshRx| == |s.freshRx| + w
    && (forall t <- r.receivers :: t in s.receivers) && (forall t <- r.freshRx :: t in s.freshRx || t in s.receivers)
  }

  /** prvUnlockQueue wakes one receiver for every counted post, or all of them. */
  lemma {:induction false} WakeReceiversEffect(s: State, n: int)
    requires Apart(s)
    ensures Woke(s, WakeReceivers(s, n), Min(Pending(n), |s.receivers|))
    decreases n
  {
    if n > UNMODIFIED && s.receivers != [] {
      WakeReceiverEffect(s);
      WakeReceiversEffect(WakeReceiver(s), n - 1);
    }
  }

  lemma {:induction false} WakeSendersEffect(s: State, n: int)
    requires Apart(s)
    ensures var r := WakeSenders(s, n);
            && Apart(r) && r == s.(senders := r.senders, freshTx := r.freshTx)
            && (r.senders != [] ==> |r.freshTx| == |s.freshTx| + Pending(n))
    decreases n
  {
    if n > UNMODIFIED && s.senders != [] {
      WakeSenderEffect(s);
      WakeSendersEffect(WakeSender(s), n - 1);
    }
  }

  function Members(w: seq<Task>): set<Task> {
    set t <- w
  }

  lemma OneMoreMember(awake: set<Task>, w: seq<Task>, n: nat)
    requires n < |w|
    ensures awake + Members(w[..n + 1]) == (awake + {w[0]}) + Members(w[1..][..n])
  {
    assert w[..n + 1] == [w[0]] + w[1..][..n];
  }

  lemma NoMember(awake: set<Task>, w: seq<Task>)
    ensures awake + Members(w[..0]) == awake && w[0..] == w
  {
  }

  /** Those woken are the first in line, and they alone. */
  lemma {:induction false} FirstReceiversWoken(s: State, n: int)
    ensures var w := Min(Pending(n), |s.receivers|);
            WakeReceivers(s, n) == s.(receivers := s.receivers[w..], freshRx := s.freshRx + Members(s.receivers[..w]))
    decreases n
  {
    if n > UNMODIFIED && s.receivers != [] {
      var w := Min(n - 1, |s.receivers| - 1);
      FirstReceiversWoken(WakeReceiver(s), n - 1);
      OneMoreMember(s.freshRx, s.receivers, w);
      assert s.receivers[w + 1..] == s.receivers[1..][w..];
    } else {
      NoMember(s.freshRx, s.receivers);
    }
  }

  lemma {:induction false} FirstSendersWoken(s: State, n: int)
    ensures var w := Min(Pending(n), |s.senders|);
            WakeSenders(s, n) == s.(senders := s.senders[w..], freshTx := s.freshTx + Members(s.senders[..w]))
    decreases n
  {
    if n > UNMODIFIED && s.senders != [] {
      var w := Min(n - 1, |s.senders| - 1);
      FirstSendersWoken(WakeSender(s), n - 1);
      OneMoreMember(s.freshTx, s.senders, w);
      assert s.senders[w + 1..] == s.senders[1..][w..];
    } else {
      NoMember(s.freshTx, s.senders);
    }
  }

  lemma InsertDistinct(w: seq<Task>, k: nat, t: Task)
    requires Distinct(w) && t !in w && k <= |w|
    ensures Distinct(Insert(w, k, t)) && forall u :: u in Insert(w, k, t) <==> u in w || u == t
  {
  }

  /** What a task does while the scheduler runs. */
  lemma TaskStepKeeps(s: State, a: Step)
    requires Inv(s) && Enabled(s, a) && (a.Send? || a.Receive? || a.Peek? || a.FindEmpty? || a.FindFull?)
    ensures Inv(Next(s, a))
  {
    match a
    case Send(t, _) => WakeReceiverEffect(Put(s).(freshTx := s.freshTx - {t}));
    case Receive(t) => WakeSenderEffect(s.(messages := s.messages - 1, freshRx := s.freshRx - {t}));
    case Peek(t) => WakeReceiverEffect(s.(freshRx := s.freshRx - {t}));
    case _ =>
  }

  /** What the task holding the lock does. */
  lemma LockStepKeeps(s: State, a: Step)
    requires Inv(s) && Enabled(s, a)
    requires a.TimeOut? || a.Lock? || a.Check? || a.GiveUp? || a.Place? || a.UnlockTx? || a.UnlockRx?
    ensures Inv(Next(s, a))
  {
    match a
    case TimeOut(t) => WithoutDistinct(s.receivers, t); WithoutDistinct(s.senders, t);
    case Place(k) => InsertDistinct(if s.phase.side.Rx? then s.receivers else s.senders, k, s.phase.task);
    case UnlockTx => WakeReceiversEffect(s, s.txLock);
    case UnlockRx => WakeSendersEffect(s, s.rxLock);
    case _ =>
  }

  lemma IsrSendKeeps(s: State, overwrite: bool)
    requires Inv(s) && Room(s, overwrite) && s.txLock < 127
    ensures Inv(Next(s, IsrSend(overwrite)))
  {
    WakeReceiverEffect(Put(s));
  }

  lemma IsrReceiveKeeps(s: State)
    requires Inv(s) && s.messages > 0 && s.rxLock < 127
    ensures Inv(Next(s, IsrReceive))
  {
    WakeSenderEffect(s.(messages := s.messages - 1));
  }

  /** What an interrupt does, at any moment. */
  lemma IsrStepKeeps(s: State, a: Step)
    requires Inv(s) && Enabled(s, a) && Bounded(s, a) && (a.IsrSend? || a.IsrReceive?)
    ensures Inv(Next(s, a))
  {
    match a
    case IsrSend(overwrite) => IsrSendKeeps(s, overwrite);
    case IsrReceive => IsrReceiveKeeps(s);
  }

  lemma NextKeeps(s: State, a: Step)
    requires Inv(s) && Enabled(s, a) && Bounded(s, a)
    ensures Inv(Next(s, a))
  {
    match a
    case Send(_, _) | Receive(_) | Peek(_) | FindEmpty(_) | FindFull(_) => TaskStepKeeps(s, a);
    case IsrSend(_) | IsrReceive => IsrStepKeeps(s, a);
    case _ => LockStepKeeps(s, a);
  }

  predicate Possible(s: State, run: seq<Step>)
    decreases run
  {
    run == [] || (Enabled(s, run[0]) && Bounded(s, run[0]) && Possible(Next(s, run[0]), run[1..]))
  }

  function After(s: State, run: seq<Step>): State
    requires Possible(s, run)
    decreases run
  {
    if run == [] then s else After(Next(s, run[0]), run[1..])
  }

  lemma {:induction false} RunKeeps(s: State, run: seq<Step>)
    requires Inv(s) && Possible(s, run)
    ensures Inv(After(s, run))
    decreases run
  {
    if run != [] {
      NextKeeps(s, run[0]);
      RunKeeps(Next(s, run[0]), run[1..]);
    }
  }

  function Created(length: nat): State {
    State(length, 0, [], [], UNLOCKED, UNLOCKED, {}, {}, Free)
  }

  /** Whatever tasks and interrupts do in whatever order, whenever the queue is unlocked there are at most as
      many messages as woken receivers while a receiver waits, and dually for senders and free places. */
  lemma NoWakeUpIsLost(length: nat, run: seq<Step>)
    requires Possible(Created(length), run)
    ensures var s := After(Created(length), run); s.txLock == UNLOCKED && s.rxLock == UNLOCKED ==> NoLostWakeUp(s)
  {
    RunKeeps(Created(length), run);
  }

  // ---- no message is lost or made up ----

  /** The messages a step puts in: an overwrite of a full queue puts in none more. */
  function Added(s: State, a: Step): nat {
    if (a.Send? || a.IsrSend?) && s.messages < s.length then 1 else 0
  }

  function Removed(a: Step): nat {
    if a.Receive? || a.IsrReceive? then 1 else 0
  }

  function AddedBy(s: State, run: seq<Step>): nat
    requires Possible(s, run)
    decreases run
  {
    if run == [] then 0 else Added(s, run[0]) + AddedBy(Next(s, run[0]), run[1..])
  }

  function RemovedBy(run: seq<Step>): nat {
    if run == [] then 0 else Removed(run[0]) + RemovedBy(run[1..])
  }

  lemma {:induction false} WakingKeepsMessages(s: State, n: int)
    ensures WakeReceivers(s, n).messages == s.messages && WakeReceivers(s, n).length == s.length
    ensures WakeSenders(s, n).messages == s.messages && WakeSenders(s, n).length == s.length
  {
    FirstReceiversWoken(s, n);
    FirstSendersWoken(s, n);
  }

  lemma StepBalances(s: State, a: Step)
    requires Enabled(s, a)
    ensures Next(s, a).messages + Removed(a) == s.messages + Added(s, a) && Next(s, a).length == s.length
  {
    WakingKeepsMessages(s, s.txLock);
    WakingKeepsMessages(s, s.rxLock);
  }

  /** Over every run the messages in the queue are those put in less those taken out, and never more than it holds. */
  lemma {:induction false} MessagesBalance(s: State, run: seq<Step>)
    requires s.messages <= s.length && Possible(s, run)
    ensures After(s, run).messages + RemovedBy(run) == s.messages + AddedBy(s, run)
    ensures After(s, run).messages <= After(s, run).length == s.length
    decreases run
  {
    if run != [] {
      StepBalances(s, run[0]);
      MessagesBalance(Next(s, run[0]), run[1..]);
    }
  }

  // ---- who blocks, and who leaves ----

  /** A task that has locked the queue goes on to block exactly if the queue is empty, or full for a sender; then it is in
      line where it was put, with nobody else moved. */
  lemma BlocksExactly(s: State, k: nat)
    requires s.phase.Locked?
    ensures var (q, side, t) := (Next(s, Check), s.phase.side, s.phase.task);
            && q == s.(phase := q.phase)
            && (q.phase == Checked(t, side) <==> if side.Rx? then s.messages == 0 else s.messages == s.length)
            && (q.phase == Checked(t, side) || q.phase.Closing?)
            && (q.phase.Checked? && side.Rx? && k <= |s.receivers| ==>
                  var r := Next(q, Place(k));
                  r.phase.Closing? && r.senders == s.senders && |r.receivers| == |s.receivers| + 1
                  && r.receivers[k] == t && r.receivers[..k] + r.receivers[k + 1..] == s.receivers)
            && (q.phase.Checked? && side.Tx? && k <= |s.senders| ==>
                  var r := Next(q, Place(k));
                  r.phase.Closing? && r.receivers == s.receivers && |r.senders| == |s.senders| + 1
                  && r.senders[k] == t && r.senders[..k] + r.senders[k + 1..] == s.senders)
  {
    if k <= |s.receivers| {
      InsertLeaves(s.receivers, k, s.phase.task);
    }
    if k <= |s.senders| {
      InsertLeaves(s.senders, k, s.phase.task);
    }
  }

  lemma InsertLeaves(w: seq<Task>, k: nat, t: Task)
    requires k <= |w|
    ensures var r := Insert(w, k, t); |r| == |w| + 1 && r[k] == t && r[..k] + r[k + 1..] == w
  {
  }

  /** A task that times out leaves its line, and nobody else does. */
  lemma TimeOutLeaves(s: State, t: Task, u: Task)
    requires Enabled(s, TimeOut(t))
    ensures var q := Next(s, TimeOut(t));
            && (u in q.receivers <==> u in s.receivers && u != t) && (u in q.senders <==> u in s.senders && u != t)
            && q == s.(receivers := q.receivers, senders := q.senders)
  {
    WithoutMember(s.receivers, t, u);
    WithoutMember(s.senders, t, u);
  }

  lemma WithoutMember(w: seq<Task>, t: Task, u: Task)
    ensures u in Without(w, t) <==> u in w && u != t
  {
    WithoutBag(w, t);
    assert u in multiset(Without(w, t)) <==> u in multiset(w)[t := 0];
    assert u in multiset(w) <==> u in w;
  }

  // ---- why the bound is needed ----

  /** n posts by interrupts. */
  function Posts(s: State, n: nat): State
    decreases n
  {
    if n == 0 || !Room(s, false) then s else Posts(Next(s, IsrSend(false)), n - 1)
  }

  /** The int8_t reading of a count of at most 255. */
  function Wrapped8(n: nat): int
    requires n <= 255
  {
    if n < 128 then n else n - 256
  }

  /** A receiver that has found the queue empty under the lock, then n posts, then it places itself and unlocks. */
  function BlockAmidPosts(s: State, n: nat, k: nat): State
    requires s.phase.Checked? && s.phase.side.Rx? && k <= |Posts(s, n).receivers|
  {
    PostsPhase(s, n);
    Unlocked(PlaceTask(Posts(s, n), k))
  }

  function Unlocked(s: State): State
    requires s.phase.Closing?
  {
    var h := Next(s, UnlockTx);
    Next(h, UnlockRx)
  }

  lemma {:induction false} PostsPhase(s: State, n: nat)
    ensures Posts(s, n).phase == s.phase
    decreases n
  {
    if n > 0 && Room(s, false) {
      PostsPhase(Next(s, IsrSend(false)), n - 1);
    }
  }

  /** Up to 255 posts are only counted, though from the 128th on the count reads negative. */
  lemma {:induction false} PostsCounted(s: State, c: nat, n: nat)
    requires s.messages + n <= s.length && c + n <= 255 && s.txLock == Wrapped8(c)
    ensures Posts(s, n) == s.(messages := s.messages + n, txLock := Wrapped8(c + n))
    decreases n
  {
    if n > 0 {
      PostsCounted(Next(s, IsrSend(false)), c + 1, n - 1);
    }
  }

  /** From the 256th on the count reads as unlocked, and posts wake receivers though the queue is locked. */
  lemma {:induction false} PostsWake(s: State, n: nat)
    requires s.messages + n <= s.length && s.txLock == UNLOCKED
    ensures Posts(s, n) == WakeReceivers(s.(messages := s.messages + n), n)
    decreases n
  {
    if n > 0 {
      var r := WakeReceiver(Put(s));
      PostsWake(r, n - 1);
      if s.receivers == [] {
        NobodyToWake(s.(messages := s.messages + n), n - 1);
      }
    }
  }

  lemma NobodyToWake(s: State, n: int)
    requires s.receivers == []
    ensures WakeReceivers(s, n) == s
  {
  }

  lemma {:induction false} PostsSplit(s: State, n: nat, more: nat)
    requires s.messages + n + more <= s.length
    ensures Posts(s, n + more) == Posts(Posts(s, n), more)
    decreases n
  {
    if n > 0 {
      PostsSplit(Next(s, IsrSend(false)), n - 1, more);
    }
  }

  /** How many of r receivers n posts in all wake in one lock period, before it ends and as it ends. */
  function WokenEarly(n: nat, r: nat): nat {
    if n <= 255 then 0 else Min(n - 255, r)
  }

  function WokenLate(n: nat): nat {
    if n <= 127 then n else 0
  }

  /** When the count has come to 255 it reads as unlocked. */
  lemma ReadsUnlocked(s: State)
    requires UNMODIFIED <= s.txLock <= 127 && s.messages + 255 - s.txLock <= s.length
    ensures Posts(s, 255 - s.txLock) == s.(messages := s.messages + 255 - s.txLock, txLock := UNLOCKED)
  {
    PostsCounted(s, s.txLock, 255 - s.txLock);
  }

  /** Once the count reads as unlocked, the further posts wake. */
  lemma PostsOnward(s: State, k: nat, q: State, more: nat, r: State)
    requires s.messages + k + more <= s.length && Posts(s, k) == q == s.(messages := s.messages + k, txLock := UNLOCKED)
    requires r == s.(messages := s.messages + k + more, txLock := UNLOCKED)
    ensures Posts(s, k + more) == WakeReceivers(r, more)
  {
    PostsSplit(s, k, more);
    PostsWake(q, more);
    assert q.(messages := q.messages + more) == r;
  }

  lemma ManyPosts(s: State, n: nat)
    requires s.messages + n <= s.length && UNMODIFIED <= s.txLock <= 127 && s.txLock + n > 255
    ensures Posts(s, n) ==
            WakeReceivers(s.(messages := s.messages + n, txLock := UNLOCKED), s.txLock + n - 255)
  {
    var k := 255 - s.txLock;
    ReadsUnlocked(s);
    PostsOnward(s, k, Posts(s, k), n - k, s.(messages := s.messages + n, txLock := UNLOCKED));
  }

  lemma PostsEffect(s: State, n: nat)
    requires Apart(s) && s.messages + n <= s.length && UNMODIFIED <= s.txLock <= 127
    ensures var p := Posts(s, n);
            && Woke(s.(messages := s.messages + n, txLock := p.txLock), p, WokenEarly(s.txLock + n, |s.receivers|))
            && Pending(p.txLock) == WokenLate(s.txLock + n)
  {
    var c := s.txLock + n;
    if c <= 255 {
      PostsCounted(s, s.txLock, n);
    } else {
      ManyPosts(s, n);
      WakeReceiversEffect(s.(messages := s.messages + n, txLock := UNLOCKED), c - 255);
    }
  }

  lemma UnlockedEffect(s: State)
    requires s.phase.Closing? && Apart(s) && s.messages <= s.length
    requires s.senders != [] ==> s.length - s.messages <= |s.freshTx| + Pending(s.rxLock)
    ensures var p := Pending(s.txLock);
            NoLostWakeUp(Unlocked(s)) <==> |s.receivers| <= p || s.messages <= |s.freshRx| + p
  {
    WakeReceiversEffect(s, s.txLock);
    WakeSendersEffect(Next(s, UnlockTx), s.rxLock);
  }

  /** A message is left with a receiver waiting and nobody woken for it exactly when receivers remain after those
      the wrapped count still wakes, and fewer were woken than there are messages. */
  lemma WakeUpLostExactly(s: State, n: nat, k: nat)
    requires Inv(s) && s.phase.Checked? && s.phase.side.Rx? && s.txLock <= 127
    requires s.messages + n <= s.length && k <= |Posts(s, n).receivers|
    ensures var w := WokenEarly(s.txLock + n, |s.receivers|) + WokenLate(s.txLock + n);
            NoLostWakeUp(BlockAmidPosts(s, n, k)) <==> |s.receivers| < w || s.messages + n <= |s.freshRx| + w
  {
    PostsPhase(s, n);
    PostsEffect(s, n);
    var p := Posts(s, n);
    InsertDistinct(p.receivers, k, p.phase.task);
    UnlockedEffect(PlaceTask(p, k));
  }

  /** So with fewer than 128 in the lock period none is lost, and for a lone receiver the 128th loses it. */
  lemma LoneReceiver(length: nat, t: Task, n: nat)
    requires n <= length
    ensures var s := Created(length).(txLock := 0, rxLock := 0, phase := Checked(t, Rx));
            Posts(s, n).receivers == [] && (NoLostWakeUp(BlockAmidPosts(s, n, 0)) <==> n <= 127)
  {
    var s := Created(length).(txLock := 0, rxLock := 0, phase := Checked(t, Rx));
    PostsEffect(s, n);
    WakeUpLostExactly(s, n, 0);
  }

  // ---- the same for a sender ----

  function OtherSide(p: Phase): Phase {
    match p
    case Locked(t, side) => Locked(t, if side.Rx? then Tx else Rx)
    case Checked(t, side) => Checked(t, if side.Rx? then Tx else Rx)
    case _ => p
  }

  /** Senders wait for free places as receivers wait for messages. */
  function Mirror(s: State): State
    requires s.messages <= s.length
  {
    State(s.length, s.length - s.messages, s.senders, s.receivers, s.rxLock, s.txLock, s.freshTx, s.freshRx,
          OtherSide(s.phase))
  }

  /** An interrupt that takes a message is the mirror image of one that posts. */
  lemma MirrorIsr(s: State)
    requires 0 < s.messages <= s.length
    ensures Next(Mirror(s), IsrSend(false)) == Mirror(Next(s, IsrReceive))
  {
  }

  /** n receives by interrupts. */
  function Takes(s: State, n: nat): State
    decreases n
  {
    if n == 0 || s.messages == 0 then s else Takes(Next(s, IsrReceive), n - 1)
  }

  lemma {:induction false} MirrorTakes(s: State, n: nat)
    requires s.messages <= s.length
    ensures Takes(s, n).length == s.length && Takes(s, n).messages <= s.length
    ensures Posts(Mirror(s), n) == Mirror(Takes(s, n))
    decreases n
  {
    if n > 0 && s.messages > 0 {
      MirrorIsr(s);
      MirrorTakes(Next(s, IsrReceive), n - 1);
    }
  }

  lemma {:induction false} MirrorWakes(s: State, n: int)
    requires s.messages <= s.length
    ensures WakeSenders(s, n).messages == s.messages && WakeSenders(s, n).length == s.length
    ensures WakeReceivers(Mirror(s), n) == Mirror(WakeSenders(s, n))
    decreases n
  {
    if n > UNMODIFIED {
      MirrorWakes(WakeSender(s), n - 1);
    }
  }

  /** A sender that has found the queue full under the lock, then n receives, then it places itself and unlocks. */
  function BlockAmidTakes(s: State, n: nat, k: nat): State
    requires s.phase.Checked? && s.phase.side.Tx? && s.messages <= s.length && k <= |Takes(s, n).senders|
  {
    TakesPhase(s, n);
    Unlocked(PlaceTask(Takes(s, n), k))
  }

  lemma {:induction false} TakesPhase(s: State, n: nat)
    ensures Takes(s, n).phase == s.phase
    decreases n
  {
    if n > 0 && s.messages > 0 {
      TakesPhase(Next(s, IsrReceive), n - 1);
    }
  }

  /** What the two critical sections of prvUnlockQueue leave owed to senders. */
  lemma UnlockedSenders(s: State)
    requires s.phase.Closing? && Apart(s) && s.messages <= s.length
    requires s.receivers != [] ==> s.messages <= |s.freshRx| + Pending(s.txLock)
    ensures var p := Pending(s.rxLock);
            NoLostWakeUp(Unlocked(s)) <==> |s.senders| <= p || s.length - s.messages <= |s.freshTx| + p
  {
    WakeReceiversEffect(s, s.txLock);
    var h := Next(s, UnlockTx);
    MirrorWakes(h, h.rxLock);
    WakeReceiversEffect(Mirror(h), h.rxLock);
  }

  lemma TakesEffect(s: State, n: nat)
    requires Apart(s) && n <= s.messages <= s.length && UNMODIFIED <= s.rxLock <= 127
    ensures var (p, w) := (Takes(s, n), WokenEarly(s.rxLock + n, |s.senders|));
            && p == s.(messages := s.messages - n, senders := p.senders, freshTx := p.freshTx, rxLock := p.rxLock)
            && Apart(p) && |p.senders| == |s.senders| - w && |p.freshTx| == |s.freshTx| + w
            && (forall t <- p.senders :: t in s.senders)
            && (forall t <- p.freshTx :: t in s.freshTx || t in s.senders)
            && Pending(p.rxLock) == WokenLate(s.rxLock + n)
  {
    MirrorTakes(s, n);
    PostsEffect(Mirror(s), n);
  }

  /** A free place is left with a sender waiting and nobody woken for it exactly when senders remain after those the
      wrapped count still wakes, and fewer were woken than there are places. */
  lemma SenderLostExactly(s: State, n: nat, k: nat)
    requires Inv(s) && s.phase.Checked? && s.phase.side.Tx? && s.rxLock <= 127
    requires n <= s.messages && k <= |Takes(s, n).senders|
    ensures var w := WokenEarly(s.rxLock + n, |s.senders|) + WokenLate(s.rxLock + n);
            NoLostWakeUp(BlockAmidTakes(s, n, k))
            <==> |s.senders| < w || s.length - s.messages + n <= |s.freshTx| + w
  {
    TakesPhase(s, n);
    TakesEffect(s, n);
    var p := Takes(s, n);
    InsertDistinct(p.senders, k, p.phase.task);
    UnlockedSenders(PlaceTask(p, k));
  }

  // ---- the same in the source's own form ----

  class Queue {
    const length: nat
    var messagesWaiting: nat
    var waitingToReceive: seq<Task>
    var waitingToSend: seq<Task>
    var txLock: int
    var rxLock: int
    ghost var freshRx: set<Task>
    ghost var freshTx: set<Task>
    ghost var phase: Phase

    ghost function View(): State
      reads this
    {
      State(length, messagesWaiting, waitingToReceive, waitingToSend, txLock, rxLock, freshRx, freshTx, phase)
    }

    /** xTaskRemoveFromEventList on the tasks waiting to receive. */
    method RemoveReceiver()
      requires waitingToReceive != []
      modifies `waitingToReceive, `freshRx
      ensures View() == WakeReceiver(old(View()))
    {
      freshRx := freshRx + {waitingToReceive[0]};
      waitingToReceive := waitingToReceive[1..];
    }

    method RemoveSender()
      requires waitingToSend != []
      modifies `waitingToSend, `freshTx
      ensures View() == WakeSender(old(View()))
    {
      freshTx := freshTx + {waitingToSend[0]};
      waitingToSend := waitingToSend[1..];
    }

    /** The invariant of the protocol: no waiting task is owed a wake-up beyond those counted. */
    ghost predicate Valid()
      reads this
    {
      Inv(View())
    }

    /** prvLockQueue, which from here on makes interrupts count. */
    method LockQueue(ghost t: Task, ghost side: Side)
      requires Enabled(View(), Lock(t, side))
      modifies `txLock, `rxLock, `phase
      ensures View() == Next(old(View()), Lock(t, side)) && (old(Valid()) ==> Valid())
      ensures old(Valid()) ==> txLock == rxLock == UNMODIFIED
    {
      if Inv(View()) {
        LockStepKeeps(View(), Lock(t, side));
      }
      SetLocks(t, side);
    }

    method SetLocks(ghost t: Task, ghost side: Side)
      requires Enabled(View(), Lock(t, side))
      modifies `txLock, `rxLock, `phase
      ensures View() == Next(old(View()), Lock(t, side))
    {
      if rxLock == UNLOCKED {
        rxLock := UNMODIFIED;
      }
      if txLock == UNLOCKED {
        txLock := UNMODIFIED;
      }
      phase := Locked(t, side);
    }

    /** The first critical section of prvUnlockQueue: the receivers owed a wake-up have it. */
    method UnlockTxHalf()
      requires phase.Closing?
      modifies `waitingToReceive, `freshRx, `txLock, `phase
      ensures View() == Next(old(View()), UnlockTx) && (old(Valid()) ==> Valid())
      ensures old(Valid()) && waitingToReceive != [] ==> messagesWaiting <= |freshRx|
      ensures var w := Min(Pending(old(txLock)), |old(waitingToReceive)|);
              waitingToReceive == old(waitingToReceive)[w..]
              && freshRx == old(freshRx) + Members(old(waitingToReceive)[..w])
    {
      FirstReceiversWoken(View(), txLock);
      if Inv(View()) {
        LockStepKeeps(View(), UnlockTx);
      }
      WakeCounted();
    }

    method WakeCounted()
      requires phase.Closing?
      modifies `waitingToReceive, `freshRx, `txLock, `phase
      ensures View() == Next(old(View()), UnlockTx)
    {
      var count := txLock;
      ghost var s := View();
      while count > UNMODIFIED
        invariant WakeReceivers(View(), count) == WakeReceivers(s, s.txLock)
        invariant unchanged(`txLock, `phase)
        decreases count
      {
        if waitingToReceive == [] {
          break;
        }
        RemoveReceiver();
        count := count - 1;
      }
      txLock := UNLOCKED;
      phase := HalfOpen;
    }

    /** The second critical section of prvUnlockQueue: no wake-up is owed to anybody. */
    method UnlockRxHalf()
      requires phase.HalfOpen?
      modifies `waitingToSend, `freshTx, `rxLock, `phase
      ensures View() == Next(old(View()), UnlockRx) && (old(Valid()) ==> Valid() && NoLostWakeUp(View()))
      ensures var w := Min(Pending(old(rxLock)), |old(waitingToSend)|);
              waitingToSend == old(waitingToSend)[w..] && freshTx == old(freshTx) + Members(old(waitingToSend)[..w])
    {
      FirstSendersWoken(View(), rxLock);
      if Inv(View()) {
        LockStepKeeps(View(), UnlockRx);
      }
      WakeCountedSenders();
    }

    method WakeCountedSenders()
      requires phase.HalfOpen?
      modifies `waitingToSend, `freshTx, `rxLock, `phase
      ensures View() == Next(old(View()), UnlockRx)
    {
      var count := rxLock;
      ghost var s := View();
      while count > UNMODIFIED
        invariant WakeSenders(View(), count) == WakeSenders(s, s.rxLock)
        invariant unchanged(`rxLock, `phase)
        decreases count
      {
        if waitingToSend == [] {
          break;
        }
        RemoveSender();
        count := count - 1;
      }
      rxLock := UNLOCKED;
      phase := Free;
    }

    /** The count and event list part of xQueueGenericSendFromISR. */
    method SendFromIsr(overwrite: bool) returns (sent: bool)
      requires overwrite ==> length == 1
      modifies `messagesWaiting, `waitingToReceive, `freshRx, `txLock
      ensures sent == Room(old(View()), overwrite)
      ensures View() == if sent then Next(old(View()), IsrSend(overwrite)) else old(View())
      ensures old(Valid()) && old(txLock) < 127 ==> Valid()
      ensures sent && old(txLock) == UNLOCKED && old(waitingToReceive) != [] ==>
              old(waitingToReceive) == [old(waitingToReceive[0])] + waitingToReceive
              && old(waitingToReceive[0]) in freshRx
      ensures !sent || old(txLock) != UNLOCKED ==> waitingToReceive == old(waitingToReceive) && freshRx == old(freshRx)
    {
      if Inv(View()) && txLock < 127 && Room(View(), overwrite) {
        IsrStepKeeps(View(), IsrSend(overwrite));
      }
      sent := Post(overwrite);
    }

    method Post(overwrite: bool) returns (sent: bool)
      requires overwrite ==> length == 1
      modifies `messagesWaiting, `waitingToReceive, `freshRx, `txLock
      ensures sent == Room(old(View()), overwrite)
      ensures View() == if sent then Next(old(View()), IsrSend(overwrite)) else old(View())
    {
      sent := messagesWaiting < length || overwrite;
      if sent {
        var lock := txLock;
        if messagesWaiting < length {
          messagesWaiting := messagesWaiting + 1;
        }
        if lock == UNLOCKED {
          if waitingToReceive != [] {
            RemoveReceiver();
          }
        } else {
          txLock := Increment8(lock);
        }
      }
    }

    /** The count and event list part of xQueueReceiveFromISR. */
    method ReceiveFromIsr() returns (received: bool)
      modifies `messagesWaiting, `waitingToSend, `freshTx, `rxLock
      ensures received == (old(messagesWaiting) > 0)
      ensures View() == if received then Next(old(View()), IsrReceive) else old(View())
      ensures old(Valid()) && old(rxLock) < 127 ==> Valid()
      ensures received && old(rxLock) == UNLOCKED && old(waitingToSend) != [] ==>
              old(waitingToSend) == [old(waitingToSend[0])] + waitingToSend && old(waitingToSend[0]) in freshTx
      ensures !received || old(rxLock) != UNLOCKED ==> waitingToSend == old(waitingToSend) && freshTx == old(freshTx)
    {
      if Inv(View()) && rxLock < 127 && messagesWaiting > 0 {
        IsrStepKeeps(View(), IsrReceive);
      }
      received := TakeOne();
    }

    method TakeOne() returns (received: bool)
      modifies `messagesWaiting, `waitingToSend, `freshTx, `rxLock
      ensures received == (old(messagesWaiting) > 0)
      ensures View() == if received then Next(old(View()), IsrReceive) else old(View())
    {
      received := messagesWaiting > 0;
      if received {
        var lock := rxLock;
        messagesWaiting := messagesWaiting - 1;
        if lock == UNLOCKED {
          if waitingToSend != [] {
            RemoveSender();
          }
        } else {
          rxLock := Increment8(lock);
        }
      }
    }
  }
}
