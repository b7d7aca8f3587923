/** Four tasks and two mutexes: what states of the mutex model look like, and how a script of steps becomes a run. */
module MutexScenes {
  import opened Config
  import opened Mutexes
  import opened MutexPriority

  /** What belongs to the tasks 0 to 3. */
  ghost predicate Four<T(!new)>(m: map<Task, T>, a: T, b: T, c: T, d: T) {
    (forall t: Task :: t in m <==> t <= 3) && m[0] == a && m[1] == b && m[2] == c && m[3] == d
  }

  /** What belongs to the mutexes 1 and 2. */
  ghost predicate Two<T(!new)>(m: map<Mutex, T>, one: T, two: T) {
    (forall k: Mutex :: k in m <==> 1 <= k <= 2) && m[1] == one && m[2] == two
  }

  function Count(h: Holder): nat {
    if h.Free? then 1 else 0
  }

  /** Tasks 0 to 3 of the priorities 1, 3, 3 and 1, of whom only 0 and 2 ever hold a mutex and only 0 inherits. */
  ghost predicate Shows(s: State, prio: nat, held: nat, more: nat, a: Phase, b: Phase, c: Phase, d: Phase, one: Holder,
                        two: Holder, first: seq<Task>, second: seq<Task>, raised: set<Task>, current: Task,
                        yielding: bool)
  {
    && Four(s.prio, prio, 3, 3, 1) && Four(s.base, 1, 3, 3, 1) && Four(s.held, held, 0, more, 0)
    && Four(s.phase, a, b, c, d) && Two(s.holder, one, two) && Two(s.count, Count(one), Count(two))
    && Two(s.waiters, first, second) && s.raised == raised && s.current == current && s.yielding == yielding
  }

  /** What a step asks of a state whose ledger is not looked at. */
  ghost predicate Fit(s: State, a: Step) {
    && WellKeyed(s) && Enabled(s, a) && Disciplined(s, a)
    && match a
       case Block(m) => forall i | 0 <= i < |s.waiters[m]| :: s.waiters[m][i] in s.prio
       case Give(m) => s.held[s.current] > 0
       case TimeOut(t) => s.phase[t].mutex in s.holder
       case GiveUp(_) => false
       case _ => true
  }

  function Outcome(s: State, a: Step): State
    requires Fit(s, a)
  {
    match a
    case Take(m) => TakeMutex(s, m)
    case Block(m) => BlockOn(s, m)
    case Give(m) => GiveMutex(s, m)
    case TimeOut(t) => TimeOutTask(s, t)
    case GiveUp(_) => s
    case Return(m) => Leave(s)
    case _ => Move(s, a)
  }

  lemma OutcomeIsNext(s: State, a: Step)
    requires Cons(s) && Fit(s, a)
    ensures Next(s, a) == Outcome(s, a) && Cons(Next(s, a))
  {
    NextCons(s, a);
  }

  lemma Alone(prio: map<Task, nat>, t: Task)
    requires t in prio
    ensures Enqueue([], prio, t) == [t]
  {
  }

  lemma Behind(u: Task, prio: map<Task, nat>, t: Task)
    requires u in prio && t in prio && prio[t] <= prio[u]
    ensures Enqueue([u], prio, t) == [u, t]
  {
    Alone(prio, t);
  }

  /** No step of the run blocks on a mutex while the task holds one. */
  ghost predicate DisciplinedRun(s: Kept, run: seq<Step>)
    requires Possible(s, run)
    decreases run
  {
    run == [] || (Disciplined(s, run[0]) && DisciplinedRun(Advance(s, run[0]), run[1..]))
  }

  /** The step of the script can be made and leads to the next frame. */
  ghost predicate Leads(frame: (State, nat) -> bool, script: seq<Step>, s: State, i: nat)
    requires i < |script|
  {
    Fit(s, script[i]) && frame(Outcome(s, script[i]), i + 1)
  }

  /** So does each, from every state that its frame shows. */
  ghost predicate Plays(frame: (State, nat) -> bool, script: seq<Step>) {
    forall s: State, i: nat {:trigger Leads(frame, script, s, i)} |
      i < |script| && WellKeyed(s) && frame(s, i) :: Leads(frame, script, s, i)
  }

  /** The run can be made, and ends in the frame. */
  ghost predicate Ends(frame: (State, nat) -> bool, s: Kept, run: seq<Step>, last: nat) {
    Possible(s, run) && DisciplinedRun(s, run) && frame(After(s, run), last)
  }

  lemma RunMore(s: Kept, a: Step, run: seq<Step>)
    requires Enabled(s, a) && Disciplined(s, a) && Possible(Advance(s, a), run) && DisciplinedRun(Advance(s, a), run)
    ensures Possible(s, [a] + run) && DisciplinedRun(s, [a] + run)
    ensures After(s, [a] + run) == After(Advance(s, a), run)
  {
    assert ([a] + run)[1..] == run;
  }

  lemma OneMore(frame: (State, nat) -> bool, s: Kept, a: Step, q: Kept, run: seq<Step>, last: nat)
    requires true == Fit(s, a) && q == Outcome(s, a) && true == Ends(frame, q, run, last)
    ensures true == Ends(frame, s, [a] + run, last)
  {
    OutcomeIsNext(s, a);
    RunMore(s, a, run);
  }

  lemma Onward(frame: (State, nat) -> bool, script: seq<Step>, s: Kept, i: nat) returns (q: Kept)
    requires Plays(frame, script) && i < |script| && frame(s, i)
    ensures true == Fit(s, script[i]) && q == Outcome(s, script[i]) && frame(q, i + 1)
  {
    assert Leads(frame, script, s, i);
    OutcomeIsNext(s, script[i]);
    q := Outcome(s, script[i]);
  }

  /** From frame i on the rest of the script is a run to the last frame. */
  ghost predicate Reaches(frame: (State, nat) -> bool, script: seq<Step>, i: nat)
    requires i <= |script|
  {
    forall s: Kept :: frame(s, i) ==> Ends(frame, s, script[i..], |script|)
  }

  lemma Split(script: seq<Step>, i: nat)
    requires i < |script|
    ensures script[i..] == [script[i]] + script[i + 1..]
  {
  }

  lemma ReachesFrom(frame: (State, nat) -> bool, script: seq<Step>, s: Kept, i: nat)
    requires Plays(frame, script) && i < |script| && frame(s, i) && Reaches(frame, script, i + 1)
    ensures true == Ends(frame, s, script[i..], |script|)
  {
    var q := Onward(frame, script, s, i);
    OneMore(frame, s, script[i], q, script[i + 1..], |script|);
    Split(script, i);
  }

  lemma ReachesBack(frame: (State, nat) -> bool, script: seq<Step>, i: nat)
    requires Plays(frame, script) && i < |script| && Reaches(frame, script, i + 1)
    ensures Reaches(frame, script, i)
  {
    forall s: Kept | frame(s, i) ensures true == Ends(frame, s, script[i..], |script|) {
      ReachesFrom(frame, script, s, i);
    }
  }

  lemma ReachesLast(frame: (State, nat) -> bool, script: seq<Step>)
    ensures Reaches(frame, script, |script|)
  {
    assert script[|script|..] == [];
  }

  /** Such a script is a run. */
  lemma {:induction false} PlaysOut(frame: (State, nat) -> bool, script: seq<Step>, i: nat)
    requires Plays(frame, script) && i <= |script|
    ensures true == Reaches(frame, script, i)
    decreases |script| - i
  {
    if i < |script| {
      PlaysOut(frame, script, i + 1);
      ReachesBack(frame, script, i);
    } else {
      ReachesLast(frame, script);
    }
  }

  lemma PlaysFromStart(frame: (State, nat) -> bool, script: seq<Step>, s: Kept)
    requires Plays(frame, script) && frame(s, 0)
    ensures Possible(s, script) && DisciplinedRun(s, script) && frame(After(s, script), |script|)
  {
    PlaysOut(frame, script, 0);
    assert script[0..] == script;
    assert Ends(frame, s, script, |script|);
  }

  // ---- where they start ----

  function Priorities(): map<Task, nat> {
    map[0 := 1, 1 := 3, 2 := 3, 3 := 1]
  }

  /** No mutex has been used, and task 1 runs. */
  function Start(): State {
    Unused(Priorities(), {1, 2}, 1)
  }

  lemma FourKeys(t: Task, m: Mutex)
    ensures t in Priorities() <==> t <= 3
    ensures m in {1, 2} <==> 1 <= m <= 2
  {
    assert t <= 3 ==> t == 0 || t == 1 || t == 2 || t == 3;
  }

  lemma StartShows()
    ensures Inv(Start()) && Shows(Start(), 1, 0, 0, Idle, Idle, Idle, Idle, Free, Free, [], [], {}, 1, false)
  {
    var prio := Priorities();
    forall t: Task ensures t in prio <==> t <= 3 {
      FourKeys(t, 0);
    }
    assert prio[0] == 1 && prio[1] == 3 && prio[2] == 3 && prio[3] == 1;
    UnusedInv(prio, {1, 2}, 1);
    UnusedShows(prio, Start());
  }

  lemma UnusedShows(prio: map<Task, nat>, s: State)
    requires Four(prio, 1, 3, 3, 1) && s == Unused(prio, {1, 2}, 1)
    ensures Shows(s, 1, 0, 0, Idle, Idle, Idle, Idle, Free, Free, [], [], {}, 1, false)
  {
    assert forall t: Task :: t in s.held <==> t in prio;
    assert forall t: Task :: t in s.phase <==> t in prio;
    forall m: Mutex
      ensures m in s.holder <==> 1 <= m <= 2
      ensures m in s.count <==> 1 <= m <= 2
      ensures m in s.waiters <==> 1 <= m <= 2
    {
      FourKeys(0, m);
    }
    assert Two(s.holder, Free, Free) && Two(s.count, 1, 1) && Two(s.waiters, [], []);
  }
}
