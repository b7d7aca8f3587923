/** The timer daemon catches up: left to itself at any time it comes, in a bounded number of turns, to have nothing left
    to do, and has then made exactly the callbacks that are due. */
module TimerProgress {
  import opened Config
  import opened Rings
  import opened DelayedLists
  import opened Timers
  import opened TimerCommands

  // ---- one poll ----

  /** The head of the current list has come due. */
  predicate HeadDue(d: Daemon) {
    d.current != [] && d.current[0].value <= d.clock.tick
  }

  /** Unless the tick count has wrapped, a poll expires the head of the list exactly when it has come due, and otherwise
      only notes the time. */
  lemma PollExactly(d: Daemon, now: Clock)
    requires Base(d) && Within(d.clock, now) && d.clock.tick <= now.tick
    ensures var (s, q) := (d.(clock := now), ProcessTimerOrBlock(d, now));
            if HeadDue(s) then Expires(s, Time(now), q) else q == s
  {
    if HeadDue(d.(clock := now)) {
      ExpiredExactly(d.(clock := now));
    }
  }

  // ---- what is left to do ----

  /** Nothing is due, and no command is queued. */
  predicate Done(d: Daemon) {
    d.queue == [] && !HeadDue(d)
  }

  ghost predicate AllTimely(d: Daemon) {
    forall c <- d.queue :: Timely(c, d.clock)
  }

  function Lag(x: nat, now: nat): nat {
    if x <= now then now - x else 0
  }

  function EntryWork(x: nat, now: nat): nat {
    if x <= now then 2 + now - x else 0
  }

  function CommandWork(c: Command, now: nat): nat {
    if c.Start? then 1 + Lag(Time(c.issued), now) else 1
  }

  /** The work that the entries of a list are, whose turn of the tick count began at start. */
  function ListWork(s: Delayed, start: nat, now: nat): nat {
    if s == [] then 0 else EntryWork(start + s[0].value, now) + ListWork(s[1..], start, now)
  }

  function QueueWork(q: seq<Command>, now: nat): nat {
    if q == [] then 0 else CommandWork(q[0], now) + QueueWork(q[1..], now)
  }

  /** A bound on the turns the daemon needs, if no time passes and nobody sends it commands. */
  function Work(d: Daemon): nat {
    ListWork(d.current, Epoch(d.clock.epoch), Time(d.clock)) + QueueWork(d.queue, Time(d.clock))
  }

  lemma {:induction false} ListWorkInsert(s: Delayed, e: Entry<Timer>, start: nat, now: nat)
    ensures ListWork(InsertByValue(s, e), start, now) == ListWork(s, start, now) + EntryWork(start + e.value, now)
  {
    if s == [] || e.value < s[0].value {
      assert InsertByValue(s, e)[1..] == s;
    } else {
      assert InsertByValue(s, e)[1..] == InsertByValue(s[1..], e);
      ListWorkInsert(s[1..], e, start, now);
    }
  }

  lemma {:induction false} ListWorkDrop(s: Delayed, t: Timer, start: nat, now: nat)
    ensures ListWork(DropOwner(s, t), start, now) <= ListWork(s, start, now)
  {
    if s != [] {
      ListWorkDrop(s[1..], t, start, now);
      if s[0].owner != t {
        assert DropOwner(s, t)[1..] == DropOwner(s[1..], t);
      }
    }
  }

  lemma {:induction false} QueueWorkPost(q: seq<Command>, c: Command, now: nat)
    ensures QueueWork(q + [c], now) == QueueWork(q, now) + CommandWork(c, now)
  {
    if q == [] {
      assert q + [c] == [c];
    } else {
      assert (q + [c])[1..] == q[1..] + [c];
      QueueWorkPost(q[1..], c, now);
    }
  }

  lemma LaterIsNoWork(d: Daemon, e: Entry<Timer>)
    requires Time(d.clock) < Epoch(d.clock.epoch) + e.value
    ensures Work(d.(current := InsertByValue(d.current, e))) == Work(d)
  {
    ListWorkInsert(d.current, e, Epoch(d.clock.epoch), Time(d.clock));
  }

  /** A timer inserted for a time still to come is no work yet, and one that is late leaves the lists alone. */
  lemma InsertIsNoWork(d: Daemon, t: Timer, issued: Clock)
    requires Base(d) && t in d.period && Within(issued, d.clock)
    ensures var (q, late) := Insert(d, t, issued);
            && Work(q) == Work(d) && q == d.(current := q.current, overflow := q.overflow)
            && (late <==> Time(issued) + d.period[t] <= Time(d.clock))
  {
    var expiry := Later(issued, d.period[t]);
    InsertIsExact(d.period[t], issued, d.clock);
    if Decide(d.period[t], expiry.tick, d.clock.tick, issued.tick).IntoCurrent? {
      LaterIsNoWork(d, Entry(t, expiry.tick));
    }
  }

  lemma PostAddsWork(d: Daemon, c: Command)
    ensures Work(Post(d, c)) == Work(d) + CommandWork(c, Time(d.clock))
  {
    QueueWorkPost(d.queue, c, Time(d.clock));
  }

  lemma RenewIsLess(d: Daemon, t: Timer, issued: Clock)
    requires Base(d) && t in d.period && Within(issued, d.clock) && AllTimely(d)
    ensures var q := Renew(d, t, issued);
            Work(q) <= Work(d) + 1 + Time(d.clock) - Time(issued) && AllTimely(q) && q.clock == d.clock
  {
    InsertIsNoWork(d, t, issued);
    PostAddsWork(Insert(d, t, issued).0, Start(t, issued));
  }

  lemma ExpireIsLess(d: Daemon)
    requires Base(d) && HeadDue(d) && AllTimely(d)
    ensures var q := ProcessExpired(d); Work(q) < Work(d) && AllTimely(q) && q.clock == d.clock
  {
    var e := d.current[0];
    assert e in d.current;
    TailKeeps(d);
    RenewIsLess(d.(current := d.current[1..]), e.owner, Clock(d.clock.epoch, e.value));
  }

  lemma StartIsLess(d: Daemon, t: Timer, issued: Clock)
    requires Base(d) && t in d.period && Within(issued, d.clock) && AllTimely(d)
    ensures var q := Obey(d, Start(t, issued));
            Work(q) < Work(d) + CommandWork(Start(t, issued), Time(d.clock)) && AllTimely(q) && q.clock == d.clock
  {
    InsertIsNoWork(d, t, issued);
    var q := CallBack(Insert(d, t, issued).0, t, Time(d.clock));
    PostAddsWork(q, Start(t, Later(issued, d.period[t])));
  }

  lemma ChangeIsLess(d: Daemon, t: Timer, p: nat)
    requires Base(d) && t in d.period && 0 < p < TICKS && AllTimely(d)
    ensures var q := Obey(d, ChangePeriod(t, p)); Work(q) == Work(d) && AllTimely(q) && q.clock == d.clock
  {
    InsertIsNoWork(d.(period := d.period[t := p]), t, d.clock);
  }

  lemma UnlistedIsLess(d: Daemon)
    requires d.queue != [] && AllTimely(d)
    ensures Work(Unlisted(d)) + CommandWork(d.queue[0], Time(d.clock)) <= Work(d) && AllTimely(Unlisted(d))
  {
    ListWorkDrop(d.current, d.queue[0].timer, Epoch(d.clock.epoch), Time(d.clock));
  }

  lemma ReceiveIsLess(d: Daemon)
    requires Base(d) && d.queue != [] && AllTimely(d)
    ensures var q := ProcessCommand(d, d.clock); Work(q) < Work(d) && AllTimely(q) && q.clock == d.clock
  {
    var c, d1 := d.queue[0], Unlisted(d);
    assert c in d.queue;
    UnlistedBase(d);
    UnlistedIsLess(d);
    match c
    case Start(t, issued) => StartIsLess(d1, t, issued);
    case Stop(_) =>
    case ChangePeriod(t, p) => ChangeIsLess(d1, t, p);
  }

  // ---- catching up ----

  /** The daemon's next turn: the first command if there is one, and otherwise a poll. */
  function Turn(d: Daemon): Step {
    if d.queue != [] then Receive(d.clock) else Poll(d.clock)
  }

  lemma TurnIsLess(d: Running)
    requires AllTimely(d) && !Done(d)
    ensures Enabled(d, Turn(d))
    ensures var q := Next(d, Turn(d)); Work(q) < Work(d) && AllTimely(q) && q.clock == d.clock
  {
    if d.queue != [] {
      assert d.queue[0] in d.queue;
      ReceiveIsLess(d);
    } else {
      ExpireIsLess(d);
    }
  }

  /** The daemon's turns until nothing is left to do. */
  ghost function CatchUp(d: Running): seq<Step>
    requires AllTimely(d)
    decreases Work(d)
  {
    if Done(d) then []
    else
      TurnIsLess(d);
      [Turn(d)] + CatchUp(Next(d, Turn(d)))
  }

  /** Left to itself with no time passing the daemon has nothing left to do after a bounded number of turns. */
  lemma {:induction false} CatchesUp(d: Running, t: Timer)
    requires AllTimely(d)
    ensures var run := CatchUp(d);
            |run| <= Work(d) && LeavesAlone(d, run, t) && var q := After(d, run, t); Done(q) && q.clock == d.clock
    decreases Work(d)
  {
    if !Done(d) {
      TurnIsLess(d);
      CatchesUp(Next(d, Turn(d)), t);
      assert ([Turn(d)] + CatchUp(Next(d, Turn(d))))[1..] == CatchUp(Next(d, Turn(d)));
    }
  }

  /** And then it has called an auto-reload timer of period p started at s exactly as often as it has expired by now. */
  lemma CalledExactlyWhenDue(d: Running, t: Timer, s: nat, p: nat)
    requires AllTimely(d) && OnSchedule(d, t, s, p)
    ensures LeavesAlone(d, CatchUp(d), t)
    ensures var n := |CallTimes(After(d, CatchUp(d), t).log, t)|;
            (n > 0 ==> s + n * p <= Time(d.clock)) && Time(d.clock) < s + (n + 1) * p
  {
    CatchesUp(d, t);
    SettledCalls(d, CatchUp(d), t, s, p);
  }

  lemma SettledCalls(d: Running, run: seq<Step>, t: Timer, s: nat, p: nat)
    requires LeavesAlone(d, run, t) && OnSchedule(d, t, s, p) && Done(After(d, run, t))
    ensures var q := After(d, run, t);
            var n := |CallTimes(q.log, t)|;
            (n > 0 ==> s + n * p <= Time(q.clock)) && Time(q.clock) < s + (n + 1) * p
  {
    NoExpiryLostOrDuplicated(d, run, t, s, p);
    assert Settled(After(d, run, t), t);
  }

  /** And a one-shot timer exactly if its time has come. */
  lemma OneShotCalledWhenDue(d: Running, t: Timer, due: nat)
    requires AllTimely(d) && t in d.period && t !in d.auto && StartsOnly(d, t) && Once(Pending(d, t), due)
    ensures LeavesAlone(d, CatchUp(d), t)
    ensures CallTimes(After(d, CatchUp(d), t).log, t) != CallTimes(d.log, t) <==> due <= Time(d.clock)
  {
    CatchesUp(d, t);
    OneShotCalledOnce(d, CatchUp(d), t, due);
    var q := After(d, CatchUp(d), t);
    assert Settled(q, t);
    if Fired(CallTimes(d.log, t), CallTimes(q.log, t), due) {
      CallsPast(q.log, t, Time(q.clock));
      assert CallTimes(q.log, t)[|CallTimes(d.log, t)|] in CallTimes(q.log, t);
    }
  }
}
