/** A run of the mutex model in which the assertion of xQueueSemaphoreTake on its last test fails. */
module AssertionRun {
  import opened Config
  import R = Rings
  import opened Mutexes
  import opened MutexPriority
  import opened MutexScenes

  /** The states of the run. */
  ghost predicate Frame(s: State, i: nat) {
    match i
    case 0 => Shows(s, 1, 0, 0, Idle, Idle, Idle, Idle, Free, Free, [], [], {}, 1, false)
    case 1 => Shows(s, 1, 0, 0, Idle, Elsewhere, Idle, Idle, Free, Free, [], [], {}, 1, true)
    case 2 => Shows(s, 1, 0, 0, Idle, Elsewhere, Idle, Idle, Free, Free, [], [], {}, 2, false)
    case 3 => Shows(s, 1, 0, 0, Idle, Elsewhere, Elsewhere, Idle, Free, Free, [], [], {}, 2, true)
    case 4 => Shows(s, 1, 0, 0, Idle, Elsewhere, Elsewhere, Idle, Free, Free, [], [], {}, 0, false)
    case 5 => Shows(s, 1, 1, 0, Idle, Elsewhere, Elsewhere, Idle, By(0), Free, [], [], {}, 0, false)
    case 6 => Shows(s, 1, 1, 0, Idle, Idle, Elsewhere, Idle, By(0), Free, [], [], {}, 0, true)
    case 7 => Shows(s, 1, 1, 0, Idle, Idle, Elsewhere, Idle, By(0), Free, [], [], {}, 1, false)
    case 8 => Shows(s, 3, 1, 0, Idle, Waiting(1), Elsewhere, Idle, By(0), Free, [1], [], {1}, 1, true)
    case 9 => Shows(s, 3, 1, 0, Idle, Waiting(1), Elsewhere, Idle, By(0), Free, [1], [], {1}, 0, false)
    case 10 => Shows(s, 3, 1, 0, Idle, Retry(1), Elsewhere, Idle, By(0), Free, [], [], {1}, 0, true)
    case 11 => Shows(s, 3, 1, 0, Idle, Retry(1), Elsewhere, Idle, By(0), Free, [], [], {1}, 1, false)
    case 12 => Shows(s, 3, 1, 0, Idle, Retry(1), Elsewhere, Idle, By(0), Free, [], [], {1}, 0, false)
    case 13 => Shows(s, 1, 0, 0, Idle, Retry(1), Elsewhere, Idle, Free, Free, [], [], {1}, 0, true)
    case 14 => Shows(s, 1, 0, 0, Idle, Retry(1), Elsewhere, Idle, Free, Free, [], [], {1}, 1, false)
    case 15 => Shows(s, 1, 0, 0, Idle, LastTry(1), Elsewhere, Idle, Free, Free, [], [], {1}, 1, false)
    case 16 => Shows(s, 1, 0, 0, Idle, LastTry(1), Idle, Idle, Free, Free, [], [], {1}, 1, false)
    case 17 => Shows(s, 1, 0, 0, Idle, LastTry(1), Idle, Idle, Free, Free, [], [], {1}, 2, false)
    case 18 => Shows(s, 1, 0, 1, Idle, LastTry(1), Idle, Idle, By(2), Free, [], [], {1}, 2, false)
    case _ => Shows(s, 1, 0, 1, Idle, LastTry(1), Idle, Idle, By(2), Free, [], [], {1}, 1, false)
  }

  /** The steps between them: task 0 takes the mutex and inherits from task 1, which waits and times out; before task 1
      looks, task 0 gives the mutex, and after it has looked, task 2 takes it. */
  function Script(): seq<Step> {
    [BlockElsewhere, Switch(2), BlockElsewhere, Switch(0), Take(1), WakeElsewhere(1), Switch(1), Block(1),
     Switch(0), TimeOut(1), Switch(1), Switch(0), Give(1), Switch(1), FindAvailable(1), WakeElsewhere(2),
     Switch(2), Take(1), Switch(1)]
  }

  /** The step leads to frame i. */
  ghost predicate Cut(s: State, a: Step, i: nat) {
    Fit(s, a) && Frame(Outcome(s, a), i)
  }

  lemma Cut0(s: State)
    requires WellKeyed(s) && true == Frame(s, 0)
    ensures Cut(s, BlockElsewhere, 1)
  {
  }

  lemma Cut1(s: State)
    requires WellKeyed(s) && true == Frame(s, 1)
    ensures Cut(s, Switch(2), 2)
  {
  }

  lemma Cut2(s: State)
    requires WellKeyed(s) && true == Frame(s, 2)
    ensures Cut(s, BlockElsewhere, 3)
  {
  }

  lemma Cut3(s: State)
    requires WellKeyed(s) && true == Frame(s, 3)
    ensures Cut(s, Switch(0), 4)
  {
  }

  lemma Cut4(s: State)
    requires WellKeyed(s) && true == Frame(s, 4)
    ensures Cut(s, Take(1), 5)
  {
  }

  lemma Cut5(s: State)
    requires WellKeyed(s) && true == Frame(s, 5)
    ensures Cut(s, WakeElsewhere(1), 6)
  {
  }

  lemma Cut6(s: State)
    requires WellKeyed(s) && true == Frame(s, 6)
    ensures Cut(s, Switch(1), 7)
  {
  }

  lemma Cut7(s: State)
    requires WellKeyed(s) && true == Frame(s, 7)
    ensures Cut(s, Block(1), 8)
  {
    Alone(Inherit(s.prio, 0, 1), 1);
  }

  lemma Cut8(s: State)
    requires WellKeyed(s) && true == Frame(s, 8)
    ensures Cut(s, Switch(0), 9)
  {
  }

  lemma Cut9(s: State)
    requires WellKeyed(s) && true == Frame(s, 9)
    ensures Cut(s, TimeOut(1), 10)
  {
    assert R.Without([1], 1) == [];
  }

  lemma Cut10(s: State)
    requires WellKeyed(s) && true == Frame(s, 10)
    ensures Cut(s, Switch(1), 11)
  {
  }

  lemma Cut11(s: State)
    requires WellKeyed(s) && true == Frame(s, 11)
    ensures Cut(s, Switch(0), 12)
  {
  }

  lemma Cut12(s: State)
    requires WellKeyed(s) && true == Frame(s, 12)
    ensures Cut(s, Give(1), 13)
  {
  }

  lemma Cut13(s: State)
    requires WellKeyed(s) && true == Frame(s, 13)
    ensures Cut(s, Switch(1), 14)
  {
  }

  lemma Cut14(s: State)
    requires WellKeyed(s) && true == Frame(s, 14)
    ensures Cut(s, FindAvailable(1), 15)
  {
  }

  lemma Cut15(s: State)
    requires WellKeyed(s) && true == Frame(s, 15)
    ensures Cut(s, WakeElsewhere(2), 16)
  {
  }

  lemma Cut16(s: State)
    requires WellKeyed(s) && true == Frame(s, 16)
    ensures Cut(s, Switch(2), 17)
  {
  }

  lemma Cut17(s: State)
    requires WellKeyed(s) && true == Frame(s, 17)
    ensures Cut(s, Take(1), 18)
  {
  }

  lemma Cut18(s: State)
    requires WellKeyed(s) && true == Frame(s, 18)
    ensures Cut(s, Switch(1), 19)
  {
  }

  /** The cut after frame i. Here a predicate is kept folded by stating it as an equation. */
  lemma Cuts(s: State, i: nat)
    requires WellKeyed(s) && i < 19 && true == Frame(s, i)
    ensures true == Cut(s, Script()[i], i + 1)
  {
    match i
    case 0 => Cut0(s);
    case 1 => Cut1(s);
    case 2 => Cut2(s);
    case 3 => Cut3(s);
    case 4 => Cut4(s);
    case 5 => Cut5(s);
    case 6 => Cut6(s);
    case 7 => Cut7(s);
    case 8 => Cut8(s);
    case 9 => Cut9(s);
    case 10 => Cut10(s);
    case 11 => Cut11(s);
    case 12 => Cut12(s);
    case 13 => Cut13(s);
    case 14 => Cut14(s);
    case 15 => Cut15(s);
    case 16 => Cut16(s);
    case 17 => Cut17(s);
    case _ => Cut18(s);
  }

  lemma ScriptPlays()
    ensures Plays(Frame, Script())
  {
    forall s: State, i: nat | WellKeyed(s) && i < |Script()| && Frame(s, i)
      ensures Leads(Frame, Script(), s, i)
    {
      Cuts(s, i);
    }
  }

  lemma Over(s: State)
    requires WellKeyed(s) && Frame(s, 19)
    ensures AssertionFails(s, 1)
  {
  }

  /** From tasks that have used no mutex, task 1 comes to make its last test on a mutex that task 2 has taken since,
      having made task 0 inherit. */
  lemma InheritanceOutlivesTimeout()
    ensures Inv(Start()) && Possible(Start(), Script()) && AssertionFails(After(Start(), Script()), 1)
  {
    StartShows();
    ScriptPlays();
    PlaysFromStart(Frame, Script(), Start());
    Over(After(Start(), Script()));
  }
}
