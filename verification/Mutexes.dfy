/** Mutexes with priority inheritance: taking, waiting, giving and timing out, as queue.c and tasks.c do it
    together. */
module Mutexes {
  import opened Config
  import opened Rings

  type Mutex = nat

  datatype Holder = Free | By(task: Task)

  /** Where a task stands with respect to mutexes. */
  datatype Phase =
    | Idle                   // ready and outside xQueueSemaphoreTake
    | Waiting(mutex: Mutex)  // on the mutex's xTasksWaitingToReceive
    | Retry(mutex: Mutex)    // off that list, by a give or a timeout, and about to test again
    | LastTry(mutex: Mutex)  // timed out, found the mutex available, and about to test once more
    | Leaving(mutex: Mutex)  // timed out, found the mutex taken, and about to disinherit
    | Elsewhere              // blocked on something else

  datatype State = State(
    prio: map<Task, nat>,
    base: map<Task, nat>,
    held: map<Task, nat>,               // uxMutexesHeld
    phase: map<Task, Phase>,
    holder: map<Mutex, Holder>,         // xMutexHolder
    count: map<Mutex, nat>,             // uxMessagesWaiting
    waiters: map<Mutex, seq<Task>>,
    raised: set<Task>,                  // xInheritanceOccurred of the tasks inside xQueueSemaphoreTake
    current: Task,
    yielding: bool)                     // a context switch has been asked for

  datatype Step =
    | Take(mutex: Mutex)
    | Block(mutex: Mutex)
    | Give(mutex: Mutex)
    | TimeOut(task: Task)
    | FindAvailable(mutex: Mutex)   // the emptiness test after a timeout
    | FindEmpty(mutex: Mutex)
    | GiveUp(mutex: Mutex)          // the disinheritance, in a critical section of its own
    | Return(mutex: Mutex)          // the last test fails
    | BlockElsewhere
    | WakeElsewhere(task: Task)
    | Switch(task: Task)

  predicate Ready(s: State, t: Task) {
    t in s.phase && !s.phase[t].Waiting? && !s.phase[t].Elsewhere?
  }

  /** No ready task has a higher priority than t. */
  predicate Highest(s: State, t: Task) {
    t in s.prio && forall u <- s.phase :: Ready(s, u) && u in s.prio ==> s.prio[u] <= s.prio[t]
  }

  predicate WellKeyed(s: State) {
    && s.base.Keys == s.prio.Keys && s.held.Keys == s.prio.Keys && s.phase.Keys == s.prio.Keys
    && s.count.Keys == s.holder.Keys && s.waiters.Keys == s.holder.Keys
    && s.current in s.prio
  }

  predicate Running(s: State) {
    s.current in s.phase && Ready(s, s.current) && !s.yielding
  }

  predicate Enabled(s: State, a: Step)
    requires WellKeyed(s)
  {
    match a
    case Take(m) =>
      Running(s) && m in s.holder && s.count[m] > 0 && s.phase[s.current] in {Idle, Retry(m), LastTry(m)}
    case Block(m) =>
      Running(s) && m in s.holder && s.count[m] == 0 && s.phase[s.current] in {Idle, Retry(m)}
    case Give(m) => Running(s) && m in s.holder && s.holder[m] == By(s.current) && s.phase[s.current].Idle?
    case TimeOut(t) => t in s.phase && s.phase[t].Waiting?
    case FindAvailable(m) => Running(s) && m in s.holder && s.phase[s.current] == Retry(m) && s.count[m] > 0
    case FindEmpty(m) => Running(s) && m in s.holder && s.phase[s.current] == Retry(m) && s.count[m] == 0
    case GiveUp(m) => Running(s) && m in s.holder && s.phase[s.current] == Leaving(m)
    case Return(m) => Running(s) && m in s.holder && s.phase[s.current] == LastTry(m) && s.count[m] == 0
    case BlockElsewhere => Running(s) && s.phase[s.current].Idle?
    case WakeElsewhere(t) => t in s.phase && s.phase[t].Elsewhere?
    case Switch(t) => Ready(s, t) && Highest(s, t)
  }

  // ---- the parts of a step ----

  /** xTaskPriorityInherit on the priorities. */
  function Inherit(prio: map<Task, nat>, holder: Task, blocked: Task): map<Task, nat>
    requires holder in prio && blocked in prio
  {
    if prio[holder] < prio[blocked] then prio[holder := prio[blocked]] else prio
  }

  /** xTaskPriorityDisinherit on the priorities, the task being left with so many mutexes. */
  function Disinherit(prio: map<Task, nat>, base: map<Task, nat>, left: nat, t: Task): map<Task, nat>
    requires t in prio && t in base
  {
    if prio[t] != base[t] && left == 0 then prio[t := base[t]] else prio
  }

  /** vTaskPriorityDisinheritAfterTimeout on the priorities. */
  function DropAfterTimeout(prio: map<Task, nat>, base: map<Task, nat>, held: nat, t: Task,
                            waiting: nat): map<Task, nat>
    requires t in prio && t in base
  {
    var p := if base[t] < waiting then waiting else base[t];
    if prio[t] != p && held == 1 then prio[t := p] else prio
  }

  /** vListInsert with the value configMAX_PRIORITIES less the priority: highest first, then first come. */
  function Enqueue(w: seq<Task>, prio: map<Task, nat>, t: Task): (r: seq<Task>)
    requires t in prio && forall i | 0 <= i < |w| :: w[i] in prio
  {
    if w == [] || prio[w[0]] < prio[t] then [t] + w else [w[0]] + Enqueue(w[1..], prio, t)
  }

  /** prvGetDisinheritPriorityAfterTimeout. */
  function FirstPriority(w: seq<Task>, prio: map<Task, nat>): nat {
    if w != [] && w[0] in prio then prio[w[0]] else 0
  }

  // ---- the steps ----

  function TakeMutex(s: State, m: Mutex): State
    requires WellKeyed(s) && m in s.holder
  {
    s.(count := s.count[m := 0], holder := s.holder[m := By(s.current)],
       held := s.held[s.current := s.held[s.current] + 1], phase := s.phase[s.current := Idle],
       raised := s.raised - {s.current})
  }

  function BlockOn(s: State, m: Mutex): State
    requires WellKeyed(s) && m in s.holder && forall i | 0 <= i < |s.waiters[m]| :: s.waiters[m][i] in s.prio
  {
    var h := s.holder[m];
    var prio := if h.By? && h.task in s.prio then Inherit(s.prio, h.task, s.current) else s.prio;
    s.(prio := prio, waiters := s.waiters[m := Enqueue(s.waiters[m], prio, s.current)],
       phase := s.phase[s.current := Waiting(m)], yielding := true,
       raised := if Raises(s, h) then s.raised + {s.current} else s.raised - {s.current})
  }

  /** The answer of xTaskPriorityInherit. */
  predicate Raises(s: State, h: Holder)
    requires WellKeyed(s)
  {
    h.By? && h.task in s.prio && (s.prio[h.task] < s.prio[s.current] || s.base[h.task] < s.prio[s.current])
  }

  /** The disinheriting part of a give, in prvCopyDataToQueue. */
  function LetGo(s: State, m: Mutex): State
    requires WellKeyed(s) && m in s.holder && s.held[s.current] > 0
  {
    var left := s.held[s.current] - 1;
    s.(count := s.count[m := 1], holder := s.holder[m := Free], held := s.held[s.current := left],
       prio := Disinherit(s.prio, s.base, left, s.current))
  }

  /** Whether a give returns the giver to its base priority. */
  predicate Disinherits(s: State)
    requires WellKeyed(s)
  {
    s.held[s.current] == 1 && s.prio[s.current] != s.base[s.current]
  }

  /** The waking part: the first waiter leaves the list, and a yield is asked for if it has a higher priority;
      only when nobody waits does the giver's own loss of priority ask for one. */
  function WakeFirst(s: State, m: Mutex, lowered: bool): State
    requires WellKeyed(s) && m in s.holder
  {
    var w := s.waiters[m];
    if w == [] then s.(yielding := s.yielding || lowered)
    else
      s.(waiters := s.waiters[m := w[1..]], phase := s.phase[w[0] := Retry(m)],
         yielding := s.yielding || (w[0] in s.prio && s.prio[s.current] < s.prio[w[0]]))
  }

  function GiveMutex(s: State, m: Mutex): State
    requires WellKeyed(s) && m in s.holder && s.held[s.current] > 0
  {
    WakeFirst(LetGo(s, m), m, Disinherits(s))
  }

  function TimeOutTask(s: State, t: Task): State
    requires WellKeyed(s) && t in s.phase && s.phase[t].Waiting? && s.phase[t].mutex in s.holder
  {
    var m := s.phase[t].mutex;
    s.(waiters := s.waiters[m := Without(s.waiters[m], t)], phase := s.phase[t := Retry(m)],
       yielding := s.yielding || s.prio[s.current] <= s.prio[t])
  }

  /** The task leaves xQueueSemaphoreTake without the mutex. */
  function Leave(s: State): State
    requires WellKeyed(s)
  {
    s.(phase := s.phase[s.current := Idle], raised := s.raised - {s.current})
  }

  function GiveUpOn(s: State, m: Mutex): State
    requires WellKeyed(s) && m in s.holder
  {
    var h, first := s.holder[m], FirstPriority(s.waiters[m], s.prio);
    Leave(s).(
       prio := if s.current in s.raised && h.By? && h.task in s.prio
               then DropAfterTimeout(s.prio, s.base, s.held[h.task], h.task, first) else s.prio)
  }

  /** The phases after the steps that change nothing but who runs and who is where. */
  function MovePhases(s: State, a: Step): map<Task, Phase> {
    match a
    case FindAvailable(m) => s.phase[s.current := LastTry(m)]
    case FindEmpty(m) => s.phase[s.current := Leaving(m)]
    case BlockElsewhere => s.phase[s.current := Elsewhere]
    case WakeElsewhere(t) => s.phase[t := Idle]
    case _ => s.phase
  }

  predicate MoveAsks(s: State, a: Step) {
    match a
    case BlockElsewhere => true
    case WakeElsewhere(t) => s.yielding || (s.current in s.prio && t in s.prio && s.prio[s.current] < s.prio[t])
    case Switch(_) => false
    case _ => s.yielding
  }

  function Move(s: State, a: Step): State {
    s.(phase := MovePhases(s, a), yielding := MoveAsks(s, a), current := if a.Switch? then a.task else s.current)
  }

  /** What the step does, and what it leaves alone. */
  function Next(s: State, a: Step): (q: State)
    requires Cons(s) && Enabled(s, a)
    ensures q.base == s.base && q.prio.Keys == s.prio.Keys
    ensures !a.Take? && !a.Give? ==> q.holder == s.holder && q.count == s.count && q.held == s.held
    ensures !a.Block? && !a.Give? && !a.TimeOut? ==> q.waiters == s.waiters
    ensures !a.Block? && !a.Give? && !a.GiveUp? ==> q.prio == s.prio
    ensures !a.Take? && !a.Block? && !a.GiveUp? && !a.Return? ==> q.raised == s.raised
    ensures !a.Switch? ==> q.current == s.current
  {
    match a
    case Take(m) => TakeMutex(s, m)
    case Block(m) => BlockOn(s, m)
    case Give(m) => HolderHolds(s, m); GiveMutex(s, m)
    case TimeOut(t) => TimeOutTask(s, t)
    case GiveUp(m) => GiveUpOn(s, m)
    case Return(m) => Leave(s)
    case _ => Move(s, a)
  }

  // ---- conservation ----

  ghost function HeldBy(holder: map<Mutex, Holder>, t: Task): set<Mutex> {
    set m <- holder | holder[m] == By(t)
  }

  /** Every mutex is either available or held by a task. */
  ghost predicate Accounted(count: map<Mutex, nat>, holder: map<Mutex, Holder>, tasks: set<Task>) {
    && count.Keys == holder.Keys
    && (forall m <- holder :: count[m] + (if holder[m].By? then 1 else 0) == 1)
    && (forall m <- holder :: holder[m].By? ==> holder[m].task in tasks)
  }

  /** Every task's count is the number of mutexes that name it. */
  ghost predicate Counted(held: map<Task, nat>, holder: map<Mutex, Holder>) {
    forall t <- held :: held[t] == |HeldBy(holder, t)|
  }

  /** A priority is never below the base, and is the base when no mutex is held. */
  ghost predicate Raised(prio: map<Task, nat>, base: map<Task, nat>, held: map<Task, nat>)
    requires base.Keys == prio.Keys && held.Keys == prio.Keys
  {
    forall t <- prio :: base[t] <= prio[t] && (held[t] == 0 ==> prio[t] == base[t])
  }

  ghost predicate Ledger(s: State)
    requires WellKeyed(s)
  {
    Accounted(s.count, s.holder, s.prio.Keys) && Counted(s.held, s.holder) && Raised(s.prio, s.base, s.held)
  }

  ghost predicate InLine(w: seq<Task>, m: Mutex, phase: map<Task, Phase>) {
    && (forall i | 0 <= i < |w| :: w[i] in phase && phase[w[i]] == Waiting(m))
    && (forall i, j | 0 <= i < j < |w| :: w[i] != w[j])
  }

  /** The waiting lists hold exactly the waiting tasks. */
  ghost predicate Lines(waiters: map<Mutex, seq<Task>>, phase: map<Task, Phase>) {
    && (forall m <- waiters :: InLine(waiters[m], m, phase))
    && (forall t <- phase :: phase[t].Waiting? ==> phase[t].mutex in waiters && t in waiters[phase[t].mutex])
  }

  ghost predicate Cons(s: State) {
    WellKeyed(s) && Ledger(s) && Lines(s.waiters, s.phase)
  }

  /** The holder of a mutex holds at least one. */
  lemma HolderHolds(s: State, m: Mutex)
    requires WellKeyed(s) && Ledger(s) && m in s.holder && s.holder[m].By?
    ensures s.held[s.holder[m].task] > 0
  {
    assert m in HeldBy(s.holder, s.holder[m].task);
  }

  lemma CountTake(holder: map<Mutex, Holder>, m: Mutex, c: Task, t: Task)
    requires m in holder && holder[m].Free?
    ensures |HeldBy(holder[m := By(c)], t)| == |HeldBy(holder, t)| + if t == c then 1 else 0
  {
    var a, b := HeldBy(holder, t), HeldBy(holder[m := By(c)], t);
    assert m !in a && b == if t == c then a + {m} else a;
  }

  lemma CountGive(holder: map<Mutex, Holder>, m: Mutex, c: Task, t: Task)
    requires m in holder && holder[m] == By(c)
    ensures |HeldBy(holder[m := Free], t)| == |HeldBy(holder, t)| - if t == c then 1 else 0
  {
    var a, b := HeldBy(holder, t), HeldBy(holder[m := Free], t);
    assert (t == c ==> m in a) && b == if t == c then a - {m} else a;
  }

  lemma TakeCounted(held: map<Task, nat>, holder: map<Mutex, Holder>, m: Mutex, c: Task)
    requires Counted(held, holder) && c in held && m in holder && holder[m].Free?
    ensures Counted(held[c := held[c] + 1], holder[m := By(c)])
  {
    forall t | t in held ensures held[c := held[c] + 1][t] == |HeldBy(holder[m := By(c)], t)| {
      CountTake(holder, m, c, t);
    }
  }

  lemma GiveCounted(held: map<Task, nat>, holder: map<Mutex, Holder>, m: Mutex, c: Task)
    requires Counted(held, holder) && c in held && m in holder && holder[m] == By(c) && held[c] > 0
    ensures Counted(held[c := held[c] - 1], holder[m := Free])
  {
    forall t | t in held ensures held[c := held[c] - 1][t] == |HeldBy(holder[m := Free], t)| {
      CountGive(holder, m, c, t);
    }
  }

  lemma TakeKeeps(s: State, m: Mutex)
    requires WellKeyed(s) && Ledger(s) && m in s.holder && s.count[m] > 0
    ensures WellKeyed(TakeMutex(s, m)) && Ledger(TakeMutex(s, m))
  {
    TakeAccounted(s.count, s.holder, s.prio.Keys, m, s.current);
    TakeCounted(s.held, s.holder, m, s.current);
    TakeRaised(s.prio, s.base, s.held, s.current);
  }

  lemma TakeAccounted(count: map<Mutex, nat>, holder: map<Mutex, Holder>, tasks: set<Task>, m: Mutex, c: Task)
    requires Accounted(count, holder, tasks) && m in holder && c in tasks
    ensures Accounted(count[m := 0], holder[m := By(c)], tasks)
  {
  }

  lemma TakeRaised(prio: map<Task, nat>, base: map<Task, nat>, held: map<Task, nat>, c: Task)
    requires base.Keys == prio.Keys && held.Keys == prio.Keys && c in prio && Raised(prio, base, held)
    ensures held[c := held[c] + 1].Keys == prio.Keys && Raised(prio, base, held[c := held[c] + 1])
  {
  }

  lemma GiveAccounted(count: map<Mutex, nat>, holder: map<Mutex, Holder>, tasks: set<Task>, m: Mutex)
    requires Accounted(count, holder, tasks) && m in holder
    ensures Accounted(count[m := 1], holder[m := Free], tasks)
  {
  }

  lemma GiveRaised(prio: map<Task, nat>, base: map<Task, nat>, held: map<Task, nat>, c: Task, left: nat)
    requires base.Keys == prio.Keys && held.Keys == prio.Keys && c in prio && Raised(prio, base, held)
    ensures var q := Disinherit(prio, base, left, c);
            q.Keys == prio.Keys && held[c := left].Keys == prio.Keys && Raised(q, base, held[c := left])
  {
  }

  lemma LetGoKeeps(s: State, m: Mutex)
    requires WellKeyed(s) && Ledger(s) && m in s.holder && s.holder[m] == By(s.current)
    ensures s.held[s.current] > 0 && WellKeyed(LetGo(s, m)) && Ledger(LetGo(s, m))
  {
    HolderHolds(s, m);
    GiveCounted(s.held, s.holder, m, s.current);
    GiveAccounted(s.count, s.holder, s.prio.Keys, m);
    GiveRaised(s.prio, s.base, s.held, s.current, s.held[s.current] - 1);
  }

  lemma BlockKeeps(s: State, m: Mutex)
    requires WellKeyed(s) && Ledger(s) && m in s.holder
    requires forall i | 0 <= i < |s.waiters[m]| :: s.waiters[m][i] in s.prio
    ensures WellKeyed(BlockOn(s, m)) && Ledger(BlockOn(s, m))
  {
    if s.holder[m].By? {
      HolderHolds(s, m);
    }
  }

  lemma GiveUpKeeps(s: State, m: Mutex)
    requires WellKeyed(s) && Ledger(s) && m in s.holder
    ensures WellKeyed(GiveUpOn(s, m)) && Ledger(GiveUpOn(s, m))
  {
    if s.holder[m].By? {
      HolderHolds(s, m);
    }
  }

  lemma {:induction false} EnqueueMembers(w: seq<Task>, prio: map<Task, nat>, t: Task)
    requires t in prio && forall i | 0 <= i < |w| :: w[i] in prio
    ensures multiset(Enqueue(w, prio, t)) == multiset(w) + multiset{t}
  {
    if w == [] || prio[w[0]] < prio[t] {
    } else {
      assert w == [w[0]] + w[1..];
      EnqueueMembers(w[1..], prio, t);
    }
  }

  /** The books balance after every step. */
  lemma NextLedger(s: State, a: Step)
    requires Cons(s) && Enabled(s, a)
    ensures WellKeyed(Next(s, a)) && Ledger(Next(s, a))
  {
    match a
    case Take(m) => TakeKeeps(s, m);
    case Block(m) => BlockKeeps(s, m);
    case Give(m) => LetGoKeeps(s, m); WakeKeeps(LetGo(s, m), m, Disinherits(s));
    case TimeOut(t) => TimeOutLedger(s, t);
    case GiveUp(m) => GiveUpKeeps(s, m);
    case Return(m) => LeaveLedger(s);
    case _ => MoveLedger(s, a);
  }

  lemma TimeOutLedger(s: State, t: Task)
    requires WellKeyed(s) && Ledger(s) && t in s.phase && s.phase[t].Waiting? && s.phase[t].mutex in s.holder
    ensures WellKeyed(TimeOutTask(s, t)) && Ledger(TimeOutTask(s, t))
  {
  }

  lemma LeaveLedger(s: State)
    requires WellKeyed(s) && Ledger(s)
    ensures WellKeyed(Leave(s)) && Ledger(Leave(s))
  {
  }

  lemma MoveLedger(s: State, a: Step)
    requires WellKeyed(s) && Ledger(s) && MovePhases(s, a).Keys == s.phase.Keys && (a.Switch? ==> a.task in s.phase)
    ensures WellKeyed(Move(s, a)) && Ledger(Move(s, a))
  {
  }

  lemma WakeKeeps(s: State, m: Mutex, lowered: bool)
    requires WellKeyed(s) && Ledger(s) && m in s.holder
    requires forall i | 0 <= i < |s.waiters[m]| :: s.waiters[m][i] in s.phase
    ensures WellKeyed(WakeFirst(s, m, lowered)) && Ledger(WakeFirst(s, m, lowered))
  {
  }

  // ---- the lines ----

  lemma MoveKeepsLines(waiters: map<Mutex, seq<Task>>, phase: map<Task, Phase>, t: Task, p: Phase)
    requires Lines(waiters, phase) && t in phase && !phase[t].Waiting? && !p.Waiting?
    ensures Lines(waiters, phase[t := p])
  {
  }

  /** A task joins a line. */
  lemma JoinKeepsLines(waiters: map<Mutex, seq<Task>>, phase: map<Task, Phase>, t: Task, m: Mutex, w: seq<Task>)
    requires Lines(waiters, phase) && t in phase && !phase[t].Waiting? && m in waiters
    requires InLine(w, m, phase[t := Waiting(m)]) && forall u :: u in w <==> u in waiters[m] || u == t
    ensures Lines(waiters[m := w], phase[t := Waiting(m)])
  {
  }

  lemma EnqueueHas(w: seq<Task>, prio: map<Task, nat>, t: Task)
    requires t in prio && forall i | 0 <= i < |w| :: w[i] in prio
    ensures forall u :: u in Enqueue(w, prio, t) <==> u in w || u == t
  {
  }

  lemma {:induction false} EnqueueKeepsLine(w: seq<Task>, prio: map<Task, nat>, t: Task, m: Mutex,
                                            phase: map<Task, Phase>)
    requires InLine(w, m, phase) && t in phase && t !in w && phase.Keys == prio.Keys
    ensures InLine(Enqueue(w, prio, t), m, phase[t := Waiting(m)])
  {
    var r := Enqueue(w, prio, t);
    if w == [] || prio[w[0]] < prio[t] {
      assert forall i | 1 <= i < |r| :: r[i] == w[i - 1];
    } else {
      EnqueueKeepsLine(w[1..], prio, t, m, phase);
      EnqueueHas(w[1..], prio, t);
      var q := Enqueue(w[1..], prio, t);
      assert forall i | 1 <= i < |r| :: r[i] == q[i - 1] && q[i - 1] in q;
      assert w[0] !in w[1..];
    }
  }

  /** A task leaves its line. */
  lemma LeaveKeepsLines(waiters: map<Mutex, seq<Task>>, phase: map<Task, Phase>, t: Task, m: Mutex, w: seq<Task>)
    requires Lines(waiters, phase) && t in phase && phase[t] == Waiting(m) && m in waiters
    requires InLine(w, m, phase) && forall u :: u in w <==> u in waiters[m] && u != t
    ensures Lines(waiters[m := w], phase[t := Retry(m)])
  {
  }

  lemma FirstInLine(t: Task, w: seq<Task>, m: Mutex, phase: map<Task, Phase>)
    requires InLine(w, m, phase) && t in phase && phase[t] == Waiting(m) && t !in w
    ensures InLine([t] + w, m, phase)
  {
  }

  lemma {:induction false} WithoutKeepsLine(w: seq<Task>, m: Mutex, phase: map<Task, Phase>, t: Task)
    requires InLine(w, m, phase)
    ensures InLine(Without(w, t), m, phase)
  {
    if w != [] {
      WithoutKeepsLine(w[1..], m, phase, t);
      assert w[0] !in w[1..];
      if w[0] != t {
        FirstInLine(w[0], Without(w[1..], t), m, phase);
      }
    }
  }

  /** Every step keeps the lists and the tasks' phases in agreement. */
  lemma NextLines(s: State, a: Step)
    requires Cons(s) && Enabled(s, a)
    ensures var q := Next(s, a); Lines(q.waiters, q.phase)
  {
    match a
    case Take(m) => MoveKeepsLines(s.waiters, s.phase, s.current, Idle);
    case Block(m) => BlockKeepsLines(s, m);
    case Give(m) => HolderHolds(s, m); WakeKeepsLines(LetGo(s, m), m, Disinherits(s));
    case TimeOut(t) =>
      var m := s.phase[t].mutex;
      WithoutKeepsLine(s.waiters[m], m, s.phase, t);
      LeaveKeepsLines(s.waiters, s.phase, t, m, Without(s.waiters[m], t));
    case FindAvailable(m) => MoveKeepsLines(s.waiters, s.phase, s.current, LastTry(m));
    case FindEmpty(m) => MoveKeepsLines(s.waiters, s.phase, s.current, Leaving(m));
    case GiveUp(m) => MoveKeepsLines(s.waiters, s.phase, s.current, Idle);
    case Return(m) => MoveKeepsLines(s.waiters, s.phase, s.current, Idle);
    case BlockElsewhere => MoveKeepsLines(s.waiters, s.phase, s.current, Elsewhere);
    case WakeElsewhere(t) => MoveKeepsLines(s.waiters, s.phase, t, Idle);
    case Switch(t) =>
  }

  lemma BlockKeepsLines(s: State, m: Mutex)
    requires Cons(s) && m in s.holder && !s.phase[s.current].Waiting?
    ensures forall i | 0 <= i < |s.waiters[m]| :: s.waiters[m][i] in s.prio
    ensures var q := BlockOn(s, m); Lines(q.waiters, q.phase)
  {
    var w, prio := s.waiters[m], BlockOn(s, m).prio;
    assert InLine(w, m, s.phase);
    EnqueueKeepsLine(w, prio, s.current, m, s.phase);
    EnqueueHas(w, prio, s.current);
    JoinKeepsLines(s.waiters, s.phase, s.current, m, Enqueue(w, prio, s.current));
  }

  lemma WakeKeepsLines(s: State, m: Mutex, lowered: bool)
    requires WellKeyed(s) && Lines(s.waiters, s.phase) && m in s.holder
    ensures var q := WakeFirst(s, m, lowered); Lines(q.waiters, q.phase)
  {
  }

  /** The step is not made by t. */
  predicate Spares(s: State, a: Step, t: Task) {
    s.current != t || a.TimeOut? || a.WakeElsewhere? || a.Switch?
  }

  /** A step leaves the phase of a task that does not make it, unless the task is blocked. */
  lemma PhaseStays(s: State, a: Step, t: Task)
    requires Cons(s) && Enabled(s, a) && Spares(s, a, t) && t in s.phase && Ready(s, t)
    ensures t in Next(s, a).phase && Next(s, a).phase[t] == s.phase[t]
  {
    if a.Give? {
      GiveLeaves(s, a.mutex, t);
    } else if a.Take? || a.Block? || a.GiveUp? || a.Return? {
      OthersLeave(s, a, t);
    } else if a.TimeOut? {
      TimeOutLeaves(s, a.task, t);
    } else {
      MoveLeaves(s, a, t);
    }
  }

  lemma OthersLeave(s: State, a: Step, t: Task)
    requires Cons(s) && Enabled(s, a) && t in s.phase && t != s.current
    requires a.Take? || a.Block? || a.GiveUp? || a.Return?
    ensures t in Next(s, a).phase && Next(s, a).phase[t] == s.phase[t]
  {
  }

  lemma TimeOutLeaves(s: State, u: Task, t: Task)
    requires Cons(s) && Enabled(s, TimeOut(u)) && t in s.phase && t != u
    ensures t in Next(s, TimeOut(u)).phase && Next(s, TimeOut(u)).phase[t] == s.phase[t]
  {
  }

  lemma MoveLeaves(s: State, a: Step, t: Task)
    requires Cons(s) && Enabled(s, a) && Spares(s, a, t) && t in s.phase && Ready(s, t)
    requires !a.Take? && !a.Block? && !a.Give? && !a.TimeOut? && !a.GiveUp? && !a.Return?
    ensures t in Next(s, a).phase && Next(s, a).phase[t] == s.phase[t]
  {
  }

  lemma GiveLeaves(s: State, k: Mutex, t: Task)
    requires Cons(s) && Enabled(s, Give(k)) && t in s.phase && Ready(s, t)
    ensures t in Next(s, Give(k)).phase && Next(s, Give(k)).phase[t] == s.phase[t]
  {
    HolderHolds(s, k);
    assert InLine(s.waiters[k], k, s.phase);
  }

  lemma NextCons(s: State, a: Step)
    requires Cons(s) && Enabled(s, a)
    ensures Cons(Next(s, a))
  {
    NextLedger(s, a);
    NextLines(s, a);
  }

  // ---- runs ----

  /** One task, running, and no mutexes. */
  function Booted(): State {
    State(map[0 := 0], map[0 := 0], map[0 := 0], map[0 := Idle], map[], map[], map[], {}, 0, false)
  }

  type Kept = s: State | Cons(s) ghost witness Booted()

  function Advance(s: Kept, a: Step): Kept
    requires Enabled(s, a)
  {
    NextCons(s, a);
    Next(s, a)
  }

  predicate Possible(s: Kept, run: seq<Step>)
    decreases run
  {
    run == [] || (Enabled(s, run[0]) && Possible(Advance(s, run[0]), run[1..]))
  }

  function After(s: Kept, run: seq<Step>): Kept
    requires Possible(s, run)
    decreases run
  {
    if run == [] then s else After(Advance(s, run[0]), run[1..])
  }

  /** In every reachable state the messages waiting on a mutex plus its holder make one, each task's count is the
      number of mutexes that name it, and a task that holds none runs at its base priority. */
  lemma Conservation(s: Kept, run: seq<Step>)
    requires Possible(s, run)
    ensures var q := After(s, run);
            && (forall m <- q.holder :: q.count[m] + (if q.holder[m].By? then 1 else 0) == 1)
            && (forall t <- q.prio :: q.held[t] == |HeldBy(q.holder, t)|)
            && (forall t <- q.prio :: q.base[t] <= q.prio[t] && (q.held[t] == 0 ==> q.prio[t] == q.base[t]))
  {
  }

  // ---- inheritance is remembered within a call only ----

  predicate InCall(p: Phase) {
    !p.Idle? && !p.Elsewhere?
  }

  /** Only a task inside xQueueSemaphoreTake remembers that it made somebody inherit. */
  ghost predicate Remembers(s: State) {
    forall t <- s.raised :: t in s.phase && InCall(s.phase[t])
  }

  lemma OthersRemember(s: State, a: Step, t: Task)
    requires Cons(s) && Remembers(s) && Enabled(s, a) && t != s.current && t in Next(s, a).raised
    ensures t in Next(s, a).phase && InCall(Next(s, a).phase[t])
  {
    assert t in s.raised && InCall(s.phase[t]);
    if a.Give? {
      GivesWhere(s, a.mutex, t);
    }
  }

  /** A give wakes a waiter, and leaves everybody else where he is. */
  lemma GivesWhere(s: State, m: Mutex, t: Task)
    requires Cons(s) && Enabled(s, Give(m)) && t in s.phase
    ensures var q := Next(s, Give(m));
            t in q.phase && (q.phase[t] == s.phase[t] || (s.phase[t] == Waiting(m) && q.phase[t] == Retry(m)))
  {
    HolderHolds(s, m);
    assert InLine(s.waiters[m], m, s.phase);
  }

  lemma CurrentRemembers(s: State, a: Step)
    requires Cons(s) && Remembers(s) && Enabled(s, a) && s.current in Next(s, a).raised
    ensures var (q, t) := (Next(s, a), s.current); t in q.phase && InCall(q.phase[t])
  {
    if a.Give? {
      GivesWhere(s, a.mutex, s.current);
    }
  }

  lemma RemembersKeeps(s: State, a: Step)
    requires Cons(s) && Remembers(s) && Enabled(s, a)
    ensures Remembers(Next(s, a))
  {
    forall t | t in Next(s, a).raised ensures t in Next(s, a).phase && InCall(Next(s, a).phase[t]) {
      if t == s.current {
        CurrentRemembers(s, a);
      } else {
        OthersRemember(s, a, t);
      }
    }
  }

  /** Over every run, a task that is outside the call, having taken the mutex or left without it, starts its next one
      afresh. */
  lemma {:induction false} ForgottenOutside(s: Kept, run: seq<Step>)
    requires Remembers(s) && Possible(s, run)
    ensures Remembers(After(s, run))
    decreases run
  {
    if run != [] {
      RemembersKeeps(s, run[0]);
      ForgottenOutside(Advance(s, run[0]), run[1..]);
    }
  }

  // ---- the assertion on the last test ----

  /** xQueueSemaphoreTake asserts that a task whose last test fails made nobody inherit. */
  predicate AssertionFails(s: State, m: Mutex)
    requires WellKeyed(s)
  {
    Enabled(s, Return(m)) && s.current in s.raised
  }

  predicate Rests(s: Kept, run: seq<Step>, t: Task)
    requires Possible(s, run)
    decreases run
  {
    run == [] || (Spares(s, run[0], t) && Rests(Advance(s, run[0]), run[1..], t))
  }

  lemma RestingStays(s: State, a: Step, t: Task, m: Mutex)
    requires Cons(s) && Enabled(s, a) && Spares(s, a, t) && t in s.phase && s.phase[t] == LastTry(m)
    ensures var q := Next(s, a);
            t in q.phase && q.phase[t] == LastTry(m) && (t in q.raised <==> t in s.raised)
  {
    PhaseStays(s, a, t);
    FlagStays(s, a, t);
  }

  lemma FlagStays(s: State, a: Step, t: Task)
    requires Cons(s) && Enabled(s, a) && Spares(s, a, t)
    ensures t in Next(s, a).raised <==> t in s.raised
  {
    if a.Take? || a.Block? || a.GiveUp? || a.Return? {
      FlagOfOther(s, a, t);
    }
  }

  lemma FlagOfOther(s: State, a: Step, t: Task)
    requires Cons(s) && Enabled(s, a) && t != s.current && (a.Take? || a.Block? || a.GiveUp? || a.Return?)
    ensures t in Next(s, a).raised <==> t in s.raised
  {
  }

  lemma {:induction false} RestingRun(s: Kept, run: seq<Step>, t: Task, m: Mutex)
    requires Possible(s, run) && Rests(s, run, t) && t in s.phase && s.phase[t] == LastTry(m)
    ensures var q := After(s, run);
            t in q.phase && q.phase[t] == LastTry(m) && (t in q.raised <==> t in s.raised)
    decreases run
  {
    if run != [] {
      RestingStays(s, run[0], t, m);
      RestingRun(Advance(s, run[0]), run[1..], t, m);
    }
  }

  /** A mutex stays available until it is taken. */
  lemma StaysAvailable(s: State, a: Step, m: Mutex)
    requires Cons(s) && Enabled(s, a) && m in s.count && s.count[m] > 0 && a != Take(m)
    ensures m in Next(s, a).count && Next(s, a).count[m] > 0
  {
    if a.Give? {
      GiveFrees(s, a.mutex);
    } else if a.Take? {
      assert Next(s, a) == TakeMutex(s, a.mutex);
    }
  }

  lemma GiveFrees(s: State, m: Mutex)
    requires Cons(s) && Enabled(s, Give(m))
    ensures var q := Next(s, Give(m)); q.count == s.count[m := 1] && q.holder == s.holder[m := Free]
  {
    HolderHolds(s, m);
  }

  lemma {:induction false} StaysAvailableOn(s: Kept, run: seq<Step>, m: Mutex)
    requires Possible(s, run) && m in s.count && s.count[m] > 0 && Take(m) !in run
    ensures m in After(s, run).count && After(s, run).count[m] > 0
    decreases run
  {
    if run != [] {
      assert run[0] in run;
      StaysAvailable(s, run[0], m);
      StaysAvailableOn(Advance(s, run[0]), run[1..], m);
    }
  }

  lemma LastTest(z: State, m: Mutex)
    requires Cons(z) && Running(z) && z.phase[z.current] == LastTry(m)
    ensures AssertionFails(z, m) <==> z.current in z.raised && m in z.holder && z.holder[m].By?
  {
  }

  lemma FoundAvailable(s: Kept, m: Mutex)
    requires Enabled(s, FindAvailable(m))
    ensures var (q, t) := (Advance(s, FindAvailable(m)), s.current);
            && t in q.phase && q.phase[t] == LastTry(m) && q.raised == s.raised
            && m in q.count && q.count[m] > 0
  {
  }

  /** A task that timed out and found the mutex available tests it again when it next runs. The assertion made if
      that test fails, that the task made nobody inherit, fails exactly when it did and the mutex is taken again by
      then; so never unless another task takes it in between. */
  lemma LastTestFailsExactly(s: Kept, m: Mutex, run: seq<Step>, z: Kept)
    requires Enabled(s, FindAvailable(m))
    requires var q := Advance(s, FindAvailable(m)); Possible(q, run) && Rests(q, run, s.current) && z == After(q, run)
    requires z.current == s.current && Running(z)
    ensures AssertionFails(z, m) <==> s.current in s.raised && m in z.holder && z.holder[m].By?
    ensures AssertionFails(z, m) ==> Take(m) in run
  {
    var q := Advance(s, FindAvailable(m));
    FoundAvailable(s, m);
    RestingRun(q, run, s.current, m);
    LastTest(z, m);
    if Take(m) !in run {
      StaysAvailableOn(q, run, m);
    }
  }
}
