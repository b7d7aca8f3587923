/** The recursive mutex of queue.c, whose call count is changed outside any critical section. */
module RecursiveMutexes {
  import opened Config
  import opened Mutexes

  /** How far a task is inside one of the two calls. */
  datatype Progress =
    | Outside
    | Counting   // found itself to be the holder, or took the mutex, and is about to count the call
    | Giving     // found itself to be the holder, and is about to discount the call
    | Discounted // about to test whether the count has unwound to 0

  datatype Recursive = Recursive(
    holder: Holder,              // xMutexHolder
    messages: nat,               // uxMessagesWaiting
    calls: nat,                  // uxRecursiveCallCount
    progress: map<Task, Progress>,
    depth: map<Task, nat>)       // history: the takes each task has counted less the gives it has discounted

  datatype Action =
    | TakeHeld(task: Task)
    | TakeFree(task: Task)       // the critical section of xQueueSemaphoreTake that succeeds
    | Count(task: Task)
    | GiveHeld(task: Task)
    | Discount(task: Task)
    | Finish(task: Task)

  predicate May(s: Recursive, a: Action) {
    && a.task in s.progress && a.task in s.depth
    && match a
       case TakeHeld(t) => s.progress[t].Outside? && s.holder == By(t)
       case TakeFree(t) => s.progress[t].Outside? && s.holder != By(t) && s.messages > 0
       case Count(t) => s.progress[t].Counting?
       case GiveHeld(t) => s.progress[t].Outside? && s.holder == By(t)
       case Discount(t) => s.progress[t].Giving?
       case Finish(t) => s.progress[t].Discounted?
  }

  function Less(n: nat): nat {
    if n == 0 then 0xFFFF_FFFF else n - 1
  }

  function Do(s: Recursive, a: Action): Recursive
    requires May(s, a)
  {
    match a
    case TakeHeld(t) => s.(progress := s.progress[t := Counting])
    case TakeFree(t) => s.(messages := s.messages - 1, holder := By(t), progress := s.progress[t := Counting])
    case Count(t) =>
      s.(calls := s.calls + 1, depth := s.depth[t := s.depth[t] + 1], progress := s.progress[t := Outside])
    case GiveHeld(t) => s.(progress := s.progress[t := Giving])
    case Discount(t) =>
      s.(calls := Less(s.calls), depth := s.depth[t := Less(s.depth[t])], progress := s.progress[t := Discounted])
    case Finish(t) =>
      var q := s.(progress := s.progress[t := Outside]);
      if s.calls == 0 then q.(messages := s.messages + 1, holder := Free) else q
  }

  /** The count is the holder's own depth, and a holder that is between calls has counted one. */
  ghost predicate Exclusive(s: Recursive) {
    && s.progress.Keys == s.depth.Keys && s.messages + (if s.holder.By? then 1 else 0) == 1
    && (forall t <- s.progress :: s.holder != By(t) ==> s.progress[t].Outside? && s.depth[t] == 0)
    && (match s.holder
        case Free => s.calls == 0
        case By(t) =>
          t in s.depth && s.depth[t] == s.calls && (s.progress[t].Outside? || s.progress[t].Giving? ==> s.calls > 0))
  }

  lemma DoKeeps(s: Recursive, a: Action)
    requires Exclusive(s) && May(s, a)
    ensures Exclusive(Do(s, a))
  {
  }

  predicate Runs(s: Recursive, run: seq<Action>)
    decreases run
  {
    run == [] || (May(s, run[0]) && Runs(Do(s, run[0]), run[1..]))
  }

  function Final(s: Recursive, run: seq<Action>): Recursive
    requires Runs(s, run)
    decreases run
  {
    if run == [] then s else Final(Do(s, run[0]), run[1..])
  }

  lemma {:induction false} RunKeeps(s: Recursive, run: seq<Action>)
    requires Exclusive(s) && Runs(s, run)
    ensures Exclusive(Final(s, run))
    decreases run
  {
    if run != [] {
      DoKeeps(s, run[0]);
      RunKeeps(Do(s, run[0]), run[1..]);
    }
  }

  function Fresh(tasks: set<Task>): Recursive {
    Recursive(Free, 1, 0, map t <- tasks :: Outside, map t <- tasks :: 0)
  }

  /** However the calls of any tasks interleave, and although the count is not protected: only the holder has takes it
      has not given back, the count is how many, it is never discounted below 0, and the mutex is available
      exactly when nobody holds it. */
  lemma NestingIsExclusive(tasks: set<Task>, run: seq<Action>, t: Task, u: Task)
    requires Runs(Fresh(tasks), run) && t in tasks && u in tasks
    ensures var s := Final(Fresh(tasks), run);
            && t in s.depth && u in s.depth && t in s.progress
            && (s.depth[t] > 0 ==> s.holder == By(t) && s.calls == s.depth[t])
            && (s.depth[t] > 0 && s.depth[u] > 0 ==> t == u)
            && (s.progress[t].Giving? ==> s.calls > 0)
            && (s.messages > 0 <==> s.holder.Free?)
  {
    RunKeeps(Fresh(tasks), run);
    TasksStay(Fresh(tasks), run);
  }

  lemma {:induction false} TasksStay(s: Recursive, run: seq<Action>)
    requires Runs(s, run)
    ensures Final(s, run).depth.Keys == s.depth.Keys && Final(s, run).progress.Keys == s.progress.Keys
    decreases run
  {
    if run != [] {
      TasksStay(Do(s, run[0]), run[1..]);
    }
  }

  // ---- one call without interruption ----

  function Given(s: Recursive, t: Task): Recursive
    requires May(s, GiveHeld(t))
  {
    Do(Do(Do(s, GiveHeld(t)), Discount(t)), Finish(t))
  }

  lemma GiveKeeps(s: Recursive, t: Task)
    requires Exclusive(s) && May(s, GiveHeld(t))
    ensures var q := Given(s, t);
            && Exclusive(q) && q.depth == s.depth[t := Less(s.depth[t])] && (q.holder.Free? <==> s.depth[t] == 1)
    ensures s.calls > 0 && s.depth[t] == s.calls
  {
    DoKeeps(s, GiveHeld(t));
    DoKeeps(Do(s, GiveHeld(t)), Discount(t));
    DoKeeps(Do(Do(s, GiveHeld(t)), Discount(t)), Finish(t));
  }

  class RecursiveMutex {
    var mutexHolder: Holder
    var messagesWaiting: nat
    var recursiveCallCount: nat
    ghost var progress: map<Task, Progress>
    ghost var depth: map<Task, nat>

    ghost function View(): Recursive
      reads this
    {
      Recursive(mutexHolder, messagesWaiting, recursiveCallCount, progress, depth)
    }

    /** xQueueTakeMutexRecursive without a block time: a nested or a first take is counted, and another task's
        mutex is refused. */
    method TakeMutexRecursive(t: Task) returns (taken: bool)
      requires Exclusive(View()) && t in progress && progress[t].Outside?
      modifies this
      ensures Exclusive(View()) && taken == (old(mutexHolder) == By(t) || old(mutexHolder).Free?)
      ensures taken ==> mutexHolder == By(t) && depth == old(depth[t := depth[t] + 1])
      ensures !taken ==> View() == old(View())
    {
      taken := true;
      if mutexHolder == By(t) {
        DoKeeps(View(), TakeHeld(t));
        progress := progress[t := Counting];
      } else if messagesWaiting > 0 {
        DoKeeps(View(), TakeFree(t));
        messagesWaiting, mutexHolder := messagesWaiting - 1, By(t);
        progress := progress[t := Counting];
      } else {
        taken := false;
      }
      if taken {
        DoKeeps(View(), Count(t));
        recursiveCallCount := recursiveCallCount + 1;
        depth, progress := depth[t := depth[t] + 1], progress[t := Outside];
      }
    }

    /** xQueueGiveMutexRecursive: the holder gives back one take, and with the last the mutex; nobody else may. */
    method GiveMutexRecursive(t: Task) returns (given: bool)
      requires Exclusive(View()) && t in progress && progress[t].Outside?
      modifies this
      ensures Exclusive(View()) && given == (old(mutexHolder) == By(t))
      ensures given ==> depth == old(depth[t := Less(depth[t])]) && (mutexHolder.Free? <==> old(depth[t]) == 1)
      ensures !given ==> View() == old(View())
    {
      given := mutexHolder == By(t);
      if given {
        GiveKeeps(View(), t);
        progress := progress[t := Giving];
        recursiveCallCount := recursiveCallCount - 1;
        depth, progress := depth[t := Less(depth[t])], progress[t := Discounted];
        progress := progress[t := Outside];
        if recursiveCallCount == 0 {
          messagesWaiting, mutexHolder := messagesWaiting + 1, Free;
        }
      }
    }
  }
}
