/** What each timer command and each expiry does to its own timer, in unbounded time; and two consequences over whole
    runs: a stopped timer is never called again, and a one-shot timer is called exactly once. */
module TimerCommands {
  import opened Config
  import opened Rings
  import opened DelayedLists
  import opened Timers

  /** The times at which t is listed. */
  ghost function Listed(d: Daemon, t: Timer): seq<nat> {
    Times(d.current, d.clock.epoch, t) + Times(d.overflow, d.clock.epoch + 1, t)
  }

  function CommandsFor(q: seq<Command>, t: Timer): seq<Command> {
    if q == [] then [] else (if q[0].timer == t then [q[0]] else []) + CommandsFor(q[1..], t)
  }

  lemma {:induction false} CommandsForPost(q: seq<Command>, c: Command, t: Timer)
    ensures CommandsFor(q + [c], t) == CommandsFor(q, t) + if c.timer == t then [c] else []
  {
    if q == [] {
      assert q + [c] == [c];
    } else {
      var (first, last) := (if q[0].timer == t then [q[0]] else [], if c.timer == t then [c] else []);
      CommandsForPost(q[1..], c, t);
      FirstCommand(q, c);
      Reassociate(first, CommandsFor(q[1..], t), last);
    }
  }

  lemma FirstCommand(q: seq<Command>, c: Command)
    requires q != []
    ensures (q + [c])[0] == q[0] && (q + [c])[1..] == q[1..] + [c]
  {
  }

  lemma Reassociate(a: seq<Command>, b: seq<Command>, c: seq<Command>)
    ensures (a + b) + c == a + (b + c)
  {
  }

  predicate OffList(s: Delayed, t: Timer) {
    forall e <- s :: e.owner != t
  }

  predicate Off(d: Daemon, t: Timer) {
    OffList(d.current, t) && OffList(d.overflow, t)
  }

  lemma {:induction false} OffTimes(s: Delayed, epoch: nat, t: Timer)
    requires OffList(s, t)
    ensures Times(s, epoch, t) == []
  {
    if s != [] {
      assert s[0] in s;
      OffTimes(s[1..], epoch, t);
    }
  }

  lemma OffListed(d: Daemon, t: Timer)
    requires Off(d, t)
    ensures Listed(d, t) == []
  {
    OffTimes(d.current, d.clock.epoch, t);
    OffTimes(d.overflow, d.clock.epoch + 1, t);
  }

  /** No call and no command more. */
  ghost predicate LeftAlone(d: Daemon, q: Daemon, t: Timer) {
    CallTimes(q.log, t) == CallTimes(d.log, t) && CommandsFor(q.queue, t) == CommandsFor(d.queue, t)
  }

  /** Nothing has happened to t, which is on no list. */
  ghost predicate LeftOff(d: Daemon, q: Daemon, t: Timer) {
    Off(q, t) && LeftAlone(d, q, t) && q.period == d.period && q.auto == d.auto
  }

  // ---- the sample, while t is on no list ----

  lemma OffInsert(s: Delayed, e: Entry<Timer>, t: Timer)
    requires OffList(s, t) && e.owner != t
    ensures OffList(InsertByValue(s, e), t)
  {
    InsertMembers(s, e);
  }

  lemma ReloadOff(d: Daemon, e: Entry<Timer>, t: Timer)
    requires e.owner in d.period && d.period[e.owner] < TICKS && e.value < TICKS && e.owner != t && Off(d, t)
    ensures LeftOff(d, ReloadAtSwitch(d, e), t)
  {
    OffInsert(d.current, Entry(e.owner, AddTicks(e.value, d.period[e.owner])), t);
    ReloadAlone(d, e, t);
  }

  lemma ReloadAlone(d: Daemon, e: Entry<Timer>, t: Timer)
    requires e.owner in d.period && d.period[e.owner] < TICKS && e.value < TICKS && e.owner != t
    ensures LeftAlone(d, ReloadAtSwitch(d, e), t)
  {
    CommandsForPost(d.queue, Start(e.owner, Clock(d.clock.epoch, e.value)), t);
  }

  lemma TailOff(d: Daemon, at: nat, t: Timer)
    requires d.current != [] && Off(d, t)
    ensures d.current[0].owner != t
    ensures LeftOff(d, CallBack(d.(current := d.current[1..]), d.current[0].owner, at), t)
  {
    assert d.current[0] in d.current;
    CallTimesAppend(d.log, Call(d.current[0].owner, at), t);
  }

  lemma ExpireAtSwitchOff(d: Daemon, at: nat, t: Timer)
    requires Base(d) && d.current != [] && Off(d, t)
    ensures LeftOff(d, ExpireAtSwitch(d, at), t)
  {
    var e := d.current[0];
    assert e in d.current;
    TailOff(d, at, t);
    ReloadOff(CallBack(d.(current := d.current[1..]), e.owner, at), e, t);
  }

  lemma {:induction false} DrainOff(d: Daemon, at: nat, t: Timer)
    requires Base(d) && Off(d, t)
    ensures LeftOff(d, Drain(d, at), t)
    decreases Slack(d.current)
  {
    if d.current != [] {
      ExpireAtSwitchBase(d, at);
      ExpireAtSwitchOff(d, at, t);
      DrainOff(ExpireAtSwitch(d, at), at, t);
    }
  }

  lemma SampleOff(d: Daemon, now: Clock, t: Timer)
    requires Base(d) && Within(d.clock, now) && Off(d, t)
    ensures LeftOff(d, Sample(d, now), t)
  {
    if now.tick < d.clock.tick {
      DrainOff(d, Time(now), t);
    }
  }

  // ---- one command, for its own timer ----

  /** A timer that is off the lists is listed for its due time, or called if that has come: then an auto-reload timer
      has the next start queued, from the due time on. */
  ghost predicate Started(d: Daemon, t: Timer, due: nat, q: Daemon) {
    var (calls, commands) := (CallTimes(d.log, t), CommandsFor(d.queue, t));
    if Time(q.clock) < due then
      Listed(q, t) == [due] && CallTimes(q.log, t) == calls && CommandsFor(q.queue, t) == commands
    else
      && Listed(q, t) == [] && CallTimes(q.log, t) == calls + [Time(q.clock)]
      && if t in d.auto then exists x :: Time(x) == due && CommandsFor(q.queue, t) == commands + [Start(t, x)]
         else CommandsFor(q.queue, t) == commands
  }

  lemma ListedNow(d: Daemon, q: Daemon, e: Entry<Timer>)
    requires Off(d, e.owner) && q == d.(current := InsertByValue(d.current, e))
    ensures Listed(q, e.owner) == [Epoch(d.clock.epoch) + e.value]
    ensures q == d.(current := q.current, overflow := q.overflow)
  {
    OffTimes(d.current, d.clock.epoch, e.owner);
    OffTimes(d.overflow, d.clock.epoch + 1, e.owner);
    TimesInsertOwn(d.current, e, d.clock.epoch);
  }

  lemma ListedNext(d: Daemon, q: Daemon, e: Entry<Timer>)
    requires Off(d, e.owner) && q == d.(overflow := InsertByValue(d.overflow, e))
    ensures Listed(q, e.owner) == [Epoch(d.clock.epoch + 1) + e.value]
    ensures q == d.(current := q.current, overflow := q.overflow)
  {
    OffTimes(d.current, d.clock.epoch, e.owner);
    OffTimes(d.overflow, d.clock.epoch + 1, e.owner);
    TimesInsertOwn(d.overflow, e, d.clock.epoch + 1);
  }

  /** Where the timer goes, and when that is. */
  lemma InsertPlace(d: Daemon, t: Timer, issued: Clock, expiry: Clock)
    requires Base(d) && t in d.period && Within(issued, d.clock) && expiry == Later(issued, d.period[t])
    ensures var (q, late, e) := (Insert(d, t, issued).0, Insert(d, t, issued).1, Entry(t, expiry.tick));
            && (late <==> Time(expiry) <= Time(d.clock))
            && (late ==> q == d)
            && (!late && expiry.epoch == d.clock.epoch ==> q == d.(current := InsertByValue(d.current, e)))
            && (!late && expiry.epoch != d.clock.epoch ==>
                  expiry.epoch == d.clock.epoch + 1 && q == d.(overflow := InsertByValue(d.overflow, e)))
  {
    InsertIsExact(d.period[t], issued, d.clock);
  }

  /** A timer on no list is listed once, at its expiry, unless that has come. */
  ghost predicate ListedOnce(d: Daemon, t: Timer, expiry: nat, q: Daemon, late: bool) {
    && (late <==> expiry <= Time(d.clock)) && (if late then q == d else Listed(q, t) == [expiry])
    && q == d.(current := q.current, overflow := q.overflow)
  }

  lemma PlacedOnce(d: Daemon, t: Timer, expiry: Clock, q: Daemon, late: bool)
    requires Off(d, t) && (late <==> Time(expiry) <= Time(d.clock)) && (late ==> q == d)
    requires var e := Entry(t, expiry.tick);
             !late ==> if expiry.epoch == d.clock.epoch then q == d.(current := InsertByValue(d.current, e))
                       else expiry.epoch == d.clock.epoch + 1 && q == d.(overflow := InsertByValue(d.overflow, e))
    ensures ListedOnce(d, t, Time(expiry), q, late)
  {
    if !late {
      if expiry.epoch == d.clock.epoch {
        ListedNow(d, q, Entry(t, expiry.tick));
      } else {
        ListedNext(d, q, Entry(t, expiry.tick));
      }
    }
  }

  lemma InsertListed(d: Daemon, t: Timer, issued: Clock)
    requires Base(d) && t in d.period && Within(issued, d.clock) && Off(d, t)
    ensures var (q, late) := Insert(d, t, issued); ListedOnce(d, t, Time(issued) + d.period[t], q, late)
  {
    var expiry := Later(issued, d.period[t]);
    InsertPlace(d, t, issued, expiry);
    PlacedOnce(d, t, expiry, Insert(d, t, issued).0, Insert(d, t, issued).1);
  }

  lemma ObeyStart(d: Daemon, t: Timer, issued: Clock)
    requires Base(d) && t in d.period && Within(issued, d.clock) && Off(d, t)
    ensures Started(d, t, Time(issued) + d.period[t], Obey(d, Start(t, issued)))
    ensures Obey(d, Start(t, issued)).period == d.period
  {
    InsertListed(d, t, issued);
    if Time(issued) + d.period[t] <= Time(d.clock) {
      OffListed(d, t);
      CallTimesAppend(d.log, Call(t, Time(d.clock)), t);
      CommandsForPost(d.queue, Start(t, Later(issued, d.period[t])), t);
    }
  }

  lemma ObeyChange(d: Daemon, t: Timer, p: nat)
    requires Base(d) && t in d.period && 0 < p < TICKS && Off(d, t)
    ensures var q := Obey(d, ChangePeriod(t, p));
            && q.period == d.period[t := p] && q.clock == d.clock && Listed(q, t) == [Time(d.clock) + p]
            && CallTimes(q.log, t) == CallTimes(d.log, t) && CommandsFor(q.queue, t) == CommandsFor(d.queue, t)
  {
    var d1 := d.(period := d.period[t := p]);
    InsertAhead(d1, t);
    ChangedTo(d, d1, t, Insert(d1, t, d.clock).0, p);
  }

  /** Counted from now the expiry is still to come. */
  lemma InsertAhead(d: Daemon, t: Timer)
    requires Base(d) && t in d.period && Off(d, t)
    ensures ListedOnce(d, t, Time(d.clock) + d.period[t], Insert(d, t, d.clock).0, false)
  {
    InsertListed(d, t, d.clock);
  }

  lemma ChangedTo(d: Daemon, d1: Daemon, t: Timer, q: Daemon, p: nat)
    requires d1 == d.(period := d.period[t := p]) && ListedOnce(d1, t, Time(d1.clock) + d1.period[t], q, false)
    ensures q.period == d1.period && q.clock == d.clock && Listed(q, t) == [Time(d.clock) + p]
    ensures CallTimes(q.log, t) == CallTimes(d.log, t) && CommandsFor(q.queue, t) == CommandsFor(d.queue, t)
  {
  }

  /** What a command does for its timer, taken from the queue of d. */
  ghost predicate Commanded(d: Daemon, c: Command, q: Daemon) {
    match c
    case Start(t, issued) => t in d.period && q.period == d.period && Started(d, t, Time(issued) + d.period[t], q)
    case Stop(t) => q.period == d.period && LeftAlone(d, q, t) && Listed(q, t) == []
    case ChangePeriod(t, p) =>
      q.period == d.period[t := p] && LeftAlone(d, q, t) && Listed(q, t) == [Time(q.clock) + p]
  }

  lemma StartExactly(d: Daemon, t: Timer, issued: Clock)
    requires Base(d) && t in d.period && Within(issued, d.clock) && Off(d, t)
    ensures Commanded(d, Start(t, issued), Obey(d, Start(t, issued)))
  {
    ObeyStart(d, t, issued);
  }

  lemma ChangeExactly(d: Daemon, t: Timer, p: nat)
    requires Base(d) && t in d.period && 0 < p < TICKS && Off(d, t)
    ensures Commanded(d, ChangePeriod(t, p), Obey(d, ChangePeriod(t, p)))
  {
    ObeyChange(d, t, p);
  }

  lemma StopExactly(d: Daemon, t: Timer)
    requires Base(d) && t in d.period && Off(d, t)
    ensures Commanded(d, Stop(t), Obey(d, Stop(t)))
  {
    OffListed(d, t);
  }

  lemma ObeyExactly(d: Daemon, c: Command)
    requires Base(d) && CommandOk(d.period, c) && Timely(c, d.clock) && Off(d, c.timer)
    ensures Commanded(d, c, Obey(d, c))
  {
    if c.Start? {
      StartExactly(d, c.timer, c.issued);
    } else if c.Stop? {
      StopExactly(d, c.timer);
    } else {
      ChangeExactly(d, c.timer, c.period);
    }
  }

  lemma CommandedBefore(d: Daemon, d1: Daemon, c: Command, q: Daemon)
    requires LeftOff(d, d1, c.timer) && Commanded(d1, c, q)
    ensures Commanded(d, c, q)
  {
  }

  lemma UnlistedOff(d: Daemon)
    requires d.queue != []
    ensures LeftOff(d.(queue := d.queue[1..]), Unlisted(d), d.queue[0].timer)
  {
  }

  /** One command: a start lists its timer for its due time and nothing else, or calls it if that has come; a stop
      leaves it on no list; a change of period lists it one new period from now. */
  lemma CommandExactly(d: Daemon, now: Clock)
    requires Base(d) && Within(d.clock, now) && d.queue != [] && Timely(d.queue[0], now)
    ensures var q := ProcessCommand(d, now);
            q.clock == now && Commanded(d.(queue := d.queue[1..]), d.queue[0], q)
  {
    var c, d1 := d.queue[0], Unlisted(d);
    assert c in d.queue;
    UnlistedBase(d);
    UnlistedOff(d);
    SamplePeriods(d1, now);
    SampleOff(d1, now, c.timer);
    ObeyBase(Sample(d1, now), c);
    ObeyExactly(Sample(d1, now), c);
    CommandedBefore(d.(queue := d.queue[1..]), Sample(d1, now), c, ProcessCommand(d, now));
  }

  // ---- expiries ----

  /** The timer at the head of the list is called, and leaves it; an auto-reload timer is pending one period later. */
  ghost predicate Expires(d: Daemon, at: nat, q: Daemon)
    requires d.current != []
  {
    var t := d.current[0].owner;
    && CallTimes(q.log, t) == CallTimes(d.log, t) + [at] && q.period == d.period && t in d.period && PendsNext(d, q, t)
  }

  /** If t was pending once, at the head of the list, it is pending one period later, or nowhere if it does not
      reload. */
  ghost predicate PendsNext(d: Daemon, q: Daemon, t: Timer)
    requires d.current != [] && t in d.period && q.period == d.period
  {
    var due := Epoch(d.clock.epoch) + d.current[0].value;
    Once(Pending(d, t), due) ==> if t in d.auto then Once(Pending(q, t), due + d.period[t]) else Nowhere(Pending(q, t))
  }

  lemma ExpiredLog(d: Daemon)
    requires Base(d) && d.current != []
    ensures ProcessExpired(d).log == d.log + [Call(d.current[0].owner, Time(d.clock))]
    ensures ProcessExpired(d).period == d.period && d.current[0].owner in d.period
  {
    assert d.current[0] in d.current;
  }

  /** The pending times do not depend on the calls made. */
  lemma CallPends(d: Daemon, u: Timer, at: nat, t: Timer)
    requires t in d.period
    ensures Pending(CallBack(d, u, at), t) == Pending(d, t)
  {
  }

  lemma ExpiredPends(d: Daemon, t: Timer)
    requires Base(d) && d.current != [] && d.current[0].value <= d.clock.tick
    requires t == d.current[0].owner && t in d.period
    requires ProcessExpired(d).period == d.period
    ensures PendsNext(d, ProcessExpired(d), t)
  {
    var due := Epoch(d.clock.epoch) + d.current[0].value;
    if Once(Pending(d, t), due) {
      if t in d.auto {
        ExpiredOwn(d, t, due);
      } else {
        TailPending(d, t, due);
        CallPends(d.(current := d.current[1..]), t, Time(d.clock), t);
      }
    }
  }

  lemma ExpiredExactly(d: Daemon)
    requires Base(d) && d.current != [] && d.current[0].value <= d.clock.tick
    ensures Expires(d, Time(d.clock), ProcessExpired(d))
  {
    var t := d.current[0].owner;
    ExpiredLog(d);
    CallTimesAppend(d.log, Call(t, Time(d.clock)), t);
    ExpiredPends(d, t);
  }

  lemma SwitchedLog(d: Daemon, at: nat)
    requires Base(d) && d.current != []
    ensures ExpireAtSwitch(d, at).log == d.log + [Call(d.current[0].owner, at)]
    ensures ExpireAtSwitch(d, at).period == d.period && d.current[0].owner in d.period
  {
    assert d.current[0] in d.current;
    ReloadLogs(CallBack(d.(current := d.current[1..]), d.current[0].owner, at), d.current[0]);
  }

  lemma SwitchedPends(d: Daemon, at: nat, t: Timer)
    requires Base(d) && d.current != [] && Epoch(d.clock.epoch + 1) <= at && t == d.current[0].owner && t in d.period
    requires ExpireAtSwitch(d, at).period == d.period
    ensures PendsNext(d, ExpireAtSwitch(d, at), t)
  {
    var due := Epoch(d.clock.epoch) + d.current[0].value;
    if Once(Pending(d, t), due) {
      if t in d.auto {
        SwitchOwn(d, at, t, due);
      } else {
        TailPending(d, t, due);
        CallPends(d.(current := d.current[1..]), t, at, t);
      }
    }
  }

  lemma SwitchedExactly(d: Daemon, at: nat)
    requires Base(d) && d.current != [] && Epoch(d.clock.epoch + 1) <= at
    ensures Expires(d, at, ExpireAtSwitch(d, at))
  {
    var t := d.current[0].owner;
    SwitchedLog(d, at);
    CallTimesAppend(d.log, Call(t, at), t);
    SwitchedPends(d, at, t);
  }

  // ---- steps for other timers ----

  /** A step that leaves t as it is: where it is pending, its calls, and that its queued commands are starts. */
  ghost predicate Passes(d: Daemon, q: Daemon, t: Timer)
    requires t in d.period
  {
    && t in q.period && q.auto == d.auto && Pending(q, t) == Pending(d, t)
    && CallTimes(q.log, t) == CallTimes(d.log, t) && (StartsOnly(d, t) ==> StartsOnly(q, t))
  }

  lemma RenewPasses(d: Daemon, u: Timer, issued: Clock, t: Timer)
    requires u in d.period && t in d.period && d.clock.tick < TICKS && issued.tick < TICKS && 0 < d.period[u] < TICKS
    requires u != t
    ensures Passes(d, Renew(d, u, issued), t)
  {
    InsertedPasses(d, u, issued, t);
    PostPasses(Insert(d, u, issued).0, Start(u, issued), t);
  }

  lemma InsertedPasses(d: Daemon, u: Timer, issued: Clock, t: Timer)
    requires u in d.period && t in d.period && d.clock.tick < TICKS && issued.tick < TICKS && 0 < d.period[u] < TICKS
    requires u != t
    ensures Passes(d, Insert(d, u, issued).0, t)
  {
    InsertOther(d, u, issued, t);
  }

  lemma CallBackPasses(d: Daemon, u: Timer, at: nat, t: Timer)
    requires t in d.period && u != t
    ensures Passes(d, CallBack(d, u, at), t)
  {
    CallBackPends(d, u, at, t);
  }

  lemma TailPasses(d: Daemon, t: Timer)
    requires d.current != [] && t in d.period && d.current[0].owner != t
    ensures Passes(d, d.(current := d.current[1..]), t)
  {
  }

  lemma ExpiredPasses(d: Daemon, t: Timer)
    requires Base(d) && d.current != [] && d.current[0].owner != t && t in d.period
    ensures Passes(d, ProcessExpired(d), t)
  {
    var e, d1 := d.current[0], d.(current := d.current[1..]);
    assert e in d.current;
    TailPasses(d, t);
    RenewPasses(d1, e.owner, Clock(d.clock.epoch, e.value), t);
    var d2 := if e.owner in d.auto then Renew(d1, e.owner, Clock(d.clock.epoch, e.value)) else d1;
    assert Passes(d, d2, t);
    CallBackPasses(d2, e.owner, Time(d.clock), t);
  }

  lemma TailOther(d: Daemon, t: Timer)
    requires d.current != [] && t in d.period && d.current[0].owner != t
    ensures Pending(d.(current := d.current[1..]), t) == Pending(d, t)
  {
  }

  lemma SwitchPasses(d: Daemon, at: nat, t: Timer)
    requires Base(d) && d.current != [] && d.current[0].owner != t && t in d.period
    ensures Passes(d, ExpireAtSwitch(d, at), t)
  {
    assert d.current[0] in d.current;
    TailOther(d, t);
    HeadCalled(d, at, t);
    ExpireAtSwitchPosts(d, at, t);
  }

  lemma UnlistedPasses(d: Daemon, t: Timer)
    requires d.queue != [] && d.queue[0].timer != t && t in d.period
    ensures Passes(d, Unlisted(d), t)
  {
    TimesDrop(d.current, d.queue[0].timer, d.clock.epoch, t);
    TimesDrop(d.overflow, d.queue[0].timer, d.clock.epoch + 1, t);
  }

  lemma StartPasses(d: Daemon, u: Timer, issued: Clock, t: Timer)
    requires Base(d) && u in d.period && issued.tick < TICKS && u != t && t in d.period
    ensures Passes(d, Obey(d, Start(u, issued)), t)
  {
    var q := Insert(d, u, issued).0;
    InsertedPasses(d, u, issued, t);
    CallBackPasses(q, u, Time(d.clock), t);
    PostPasses(CallBack(q, u, Time(d.clock)), Start(u, Later(issued, d.period[u])), t);
  }

  lemma PostPasses(d: Daemon, c: Command, t: Timer)
    requires t in d.period && c.timer != t
    ensures Passes(d, Post(d, c), t)
  {
    PostOther(d, c, t);
  }

  lemma ChangePasses(d: Daemon, u: Timer, p: nat, t: Timer)
    requires Base(d) && u in d.period && 0 < p < TICKS && u != t && t in d.period
    ensures Passes(d, Obey(d, ChangePeriod(u, p)), t)
  {
    InsertedPasses(d.(period := d.period[u := p]), u, d.clock, t);
  }

  lemma ObeyPasses(d: Daemon, c: Command, t: Timer)
    requires Base(d) && CommandOk(d.period, c) && c.timer != t && t in d.period
    ensures Passes(d, Obey(d, c), t)
  {
    if c.Start? {
      StartPasses(d, c.timer, c.issued, t);
    } else if c.ChangePeriod? {
      ChangePasses(d, c.timer, c.period, t);
    }
  }

  // ---- a timer that is on no list and has no command ----

  ghost predicate Idle(d: Daemon, t: Timer) {
    t in d.period && Nowhere(Pending(d, t)) && StartsOnly(d, t)
  }

  /** t stays idle, and is not called. */
  ghost predicate StaysIdle(d: Daemon, q: Daemon, t: Timer) {
    Idle(q, t) && CallTimes(q.log, t) == CallTimes(d.log, t) && q.auto == d.auto
  }

  lemma IdleSample(d: Daemon, now: Clock, t: Timer)
    requires Base(d) && Within(d.clock, now) && Idle(d, t)
    ensures StaysIdle(d, Sample(d, now), t)
  {
    SamplePeriods(d, now);
    if now.tick < d.clock.tick {
      DrainAbsent(d, Time(now), t);
      SwapKeeps(Drain(d, Time(now)), now, t);
    } else {
      assert Pending(Sample(d, now), t) == Pending(d, t);
    }
  }

  lemma {:induction false} IdleHasNoCommand(q: seq<Command>, t: Timer, period: nat, c: Command)
    requires Queued(q, t, period) == [] && (forall x <- q :: x.timer == t ==> x.Start?) && c in q
    ensures c.timer != t
  {
    assert q[0] in q;
    if c != q[0] {
      IdleHasNoCommand(q[1..], t, period, c);
    }
  }

  lemma IdleEffect(d: Daemon, a: Step, t: Timer)
    requires Base(d) && Enabled(d, a) && Idle(d, t) && !(a.Send? && a.command.timer == t)
    ensures StaysIdle(d, Effect(d, a), t)
  {
    match a
    case Poll(now) => IdlePoll(d, now, t);
    case Receive(now) => IdleReceive(d, now, t);
    case Send(c) => PostOther(d, c, t);
  }

  lemma IdlePoll(d: Daemon, now: Clock, t: Timer)
    requires Base(d) && Within(d.clock, now) && Idle(d, t)
    ensures StaysIdle(d, ProcessTimerOrBlock(d, now), t)
  {
    IdleSample(d, now, t);
    var q := Sample(d, now);
    if d.clock.tick <= now.tick && d.current != [] && d.current[0].value <= now.tick {
      TailAbsent(q, t);
      ExpiredPasses(q, t);
    }
  }

  lemma IdleReceive(d: Daemon, now: Clock, t: Timer)
    requires Base(d) && Within(d.clock, now) && d.queue != [] && Idle(d, t)
    ensures StaysIdle(d, ProcessCommand(d, now), t)
  {
    var c, d1 := d.queue[0], Unlisted(d);
    assert c in d.queue;
    IdleHasNoCommand(d.queue, t, d.period[t], c);
    UnlistedBase(d);
    UnlistedPasses(d, t);
    SamplePeriods(d1, now);
    IdleSample(d1, now, t);
    ObeyPasses(Sample(d1, now), c, t);
  }

  lemma {:induction false} IdleRun(d: Running, run: seq<Step>, t: Timer)
    requires LeavesAlone(d, run, t) && Idle(d, t)
    ensures StaysIdle(d, After(d, run, t), t)
    decreases run
  {
    if run != [] {
      IdleEffect(d, run[0], t);
      IdleRun(Next(d, run[0]), run[1..], t);
    }
  }

  // ---- a stop is final ----

  lemma {:induction false} NoneQueued(q: seq<Command>, t: Timer, period: nat)
    requires forall c <- q :: c.timer != t
    ensures Queued(q, t, period) == [] && CommandsFor(q, t) == []
  {
    if q != [] {
      assert q[0] in q;
      NoneQueued(q[1..], t, period);
    }
  }

  lemma {:induction false} NoneFor(q: seq<Command>, t: Timer)
    requires CommandsFor(q, t) == []
    ensures forall c <- q :: c.timer != t
  {
    if q != [] {
      NoneFor(q[1..], t);
    }
  }

  lemma StoppedIsIdle(d: Daemon, now: Clock, t: Timer)
    requires Base(d) && Within(d.clock, now) && d.queue != [] && d.queue[0] == Stop(t)
    requires forall c <- d.queue[1..] :: c.timer != t
    ensures var q := ProcessCommand(d, now); Idle(q, t) && CallTimes(q.log, t) == CallTimes(d.log, t)
  {
    var q := ProcessCommand(d, now);
    assert d.queue[0] in d.queue;
    CommandExactly(d, now);
    NoneQueued(d.queue[1..], t, d.period[t]);
    NoneFor(q.queue, t);
    NoneQueued(q.queue, t, q.period[t]);
  }

  lemma IdleIsUnlisted(d: Daemon, t: Timer)
    requires Idle(d, t)
    ensures Listed(d, t) == []
  {
  }

  lemma StaysStopped(d: Running, run: seq<Step>, t: Timer)
    requires Idle(d, t) && LeavesAlone(d, run, t)
    ensures CallTimes(After(d, run, t).log, t) == CallTimes(d.log, t) && Listed(After(d, run, t), t) == []
  {
    IdleRun(d, run, t);
    IdleIsUnlisted(After(d, run, t), t);
  }

  /** Once a stop has been carried out, with no command for the timer behind it, the timer is on no list and is never
      called again, until somebody sends it a command. */
  lemma StopIsFinal(d: Running, now: Clock, run: seq<Step>, t: Timer)
    requires Enabled(d, Receive(now)) && d.queue[0] == Stop(t) && forall c <- d.queue[1..] :: c.timer != t
    requires LeavesAlone(Next(d, Receive(now)), run, t)
    ensures var q := After(Next(d, Receive(now)), run, t);
            CallTimes(q.log, t) == CallTimes(d.log, t) && Listed(q, t) == []
  {
    StoppedIsIdle(d, now, t);
    StaysStopped(Next(d, Receive(now)), run, t);
  }

  // ---- a one-shot timer is called once ----

  /** t has been called once since, no earlier than due. */
  predicate Fired(calls: seq<nat>, more: seq<nat>, due: nat) {
    |more| == |calls| + 1 && more[..|calls|] == calls && due <= more[|calls|]
  }

  /** Either t is still to be called, and pending once, at due; or it has been called, and is pending nowhere. */
  ghost predicate OneShot(d: Daemon, t: Timer, due: nat, calls: seq<nat>) {
    && t in d.period && t !in d.auto && StartsOnly(d, t)
    && if CallTimes(d.log, t) == calls then Once(Pending(d, t), due)
       else Fired(calls, CallTimes(d.log, t), due) && Nowhere(Pending(d, t))
  }

  lemma OneShotPasses(d: Daemon, q: Daemon, t: Timer, due: nat, calls: seq<nat>)
    requires OneShot(d, t, due, calls) && Passes(d, q, t)
    ensures OneShot(q, t, due, calls)
  {
  }

  lemma OneShotFires(d: Daemon, q: Daemon, t: Timer, due: nat, calls: seq<nat>, at: nat)
    requires OneShot(d, t, due, calls) && CallTimes(d.log, t) == calls && due <= at
    requires CallTimes(q.log, t) == calls + [at] && t in q.period && q.auto == d.auto && StartsOnly(q, t)
    requires Nowhere(Pending(q, t))
    ensures OneShot(q, t, due, calls)
  {
  }

  /** If t is at the head of the list it is still to be called. */
  lemma HeadPending(d: Daemon, t: Timer, due: nat, calls: seq<nat>)
    requires OneShot(d, t, due, calls) && d.current != [] && d.current[0].owner == t
    ensures CallTimes(d.log, t) == calls && due == Epoch(d.clock.epoch) + d.current[0].value
    ensures Nowhere(Pending(d.(current := d.current[1..]), t))
  {
    if CallTimes(d.log, t) != calls {
      TailAbsent(d, t);
    }
    TailPending(d, t, due);
  }

  /** A one-shot timer at the head of the list leaves it and is called. */
  lemma OneShotCalled(d: Daemon, t: Timer, at: nat, due: nat, calls: seq<nat>)
    requires d.current != [] && d.current[0].owner == t && OneShot(d, t, due, calls) && due <= at
    ensures OneShot(CallBack(d.(current := d.current[1..]), t, at), t, due, calls)
  {
    HeadPending(d, t, due, calls);
    CallTimesAppend(d.log, Call(t, at), t);
    OneShotFires(d, CallBack(d.(current := d.current[1..]), t, at), t, due, calls, at);
  }

  lemma OneShotExpires(d: Daemon, t: Timer, due: nat, calls: seq<nat>)
    requires Base(d) && d.current != [] && d.current[0].value <= d.clock.tick && OneShot(d, t, due, calls)
    ensures OneShot(ProcessExpired(d), t, due, calls)
  {
    if d.current[0].owner == t {
      HeadPending(d, t, due, calls);
      OneShotCalled(d, t, Time(d.clock), due, calls);
    } else {
      ExpiredPasses(d, t);
      OneShotPasses(d, ProcessExpired(d), t, due, calls);
    }
  }

  lemma OneShotSwitches(d: Daemon, at: nat, t: Timer, due: nat, calls: seq<nat>)
    requires Base(d) && d.current != [] && Epoch(d.clock.epoch + 1) <= at && OneShot(d, t, due, calls)
    ensures OneShot(ExpireAtSwitch(d, at), t, due, calls)
  {
    assert d.current[0] in d.current;
    if d.current[0].owner == t {
      HeadPending(d, t, due, calls);
      OneShotCalled(d, t, at, due, calls);
    } else {
      SwitchPasses(d, at, t);
      OneShotPasses(d, ExpireAtSwitch(d, at), t, due, calls);
    }
  }

  lemma {:induction false} OneShotDrains(d: Daemon, at: nat, t: Timer, due: nat, calls: seq<nat>)
    requires Base(d) && Epoch(d.clock.epoch + 1) <= at && OneShot(d, t, due, calls)
    ensures OneShot(Drain(d, at), t, due, calls)
    decreases Slack(d.current)
  {
    if d.current != [] {
      ExpireAtSwitchBase(d, at);
      OneShotSwitches(d, at, t, due, calls);
      OneShotDrains(ExpireAtSwitch(d, at), at, t, due, calls);
    }
  }

  lemma OneShotSample(d: Daemon, now: Clock, t: Timer, due: nat, calls: seq<nat>)
    requires Base(d) && Within(d.clock, now) && OneShot(d, t, due, calls)
    ensures OneShot(Sample(d, now), t, due, calls)
  {
    if now.tick < d.clock.tick {
      OneShotDrains(d, Time(now), t, due, calls);
      SwapKeeps(Drain(d, Time(now)), now, t);
    } else {
      assert Pending(Sample(d, now), t) == Pending(d, t);
    }
  }

  lemma OneShotPoll(d: Daemon, now: Clock, t: Timer, due: nat, calls: seq<nat>)
    requires Base(d) && Within(d.clock, now) && OneShot(d, t, due, calls)
    ensures OneShot(ProcessTimerOrBlock(d, now), t, due, calls)
  {
    OneShotSample(d, now, t, due, calls);
    if d.clock.tick <= now.tick && d.current != [] && d.current[0].value <= now.tick {
      OneShotExpires(Sample(d, now), t, due, calls);
    }
  }

  /** The start that was its only pending expiry is carried out. */
  lemma OneShotStarts(d: Daemon, t: Timer, issued: Clock)
    requires Base(d) && Idle(d, t) && t !in d.auto && Within(issued, d.clock)
    ensures OneShot(Obey(d, Start(t, issued)), t, Time(issued) + d.period[t], CallTimes(d.log, t))
  {
    InsertOwn(d, t, issued);
    InsertKeepsBase(d, t, issued);
    CallTimesAppend(d.log, Call(t, Time(d.clock)), t);
  }

  lemma OneShotReceive(d: Daemon, now: Clock, t: Timer, due: nat, calls: seq<nat>)
    requires Base(d) && Within(d.clock, now) && d.queue != [] && Timely(d.queue[0], now) && OneShot(d, t, due, calls)
    ensures OneShot(ProcessCommand(d, now), t, due, calls)
  {
    if d.queue[0].timer == t {
      OneShotOwn(d, now, t, due, calls);
    } else {
      OneShotOther(d, now, t, due, calls);
    }
  }

  lemma OneShotOwn(d: Daemon, now: Clock, t: Timer, due: nat, calls: seq<nat>)
    requires Base(d) && Within(d.clock, now) && d.queue != [] && Timely(d.queue[0], now) && OneShot(d, t, due, calls)
    requires d.queue[0].timer == t
    ensures OneShot(ProcessCommand(d, now), t, due, calls)
  {
    var d1 := Unlisted(d);
    assert d.queue[0] in d.queue;
    UnlistedBase(d);
    SamplePeriods(d1, now);
    OwnStart(d, t, due, calls);
    SampledStarts(d1, now, t, d.queue[0].issued);
  }

  lemma SampledStarts(d: Daemon, now: Clock, t: Timer, issued: Clock)
    requires Base(d) && Within(d.clock, now) && Idle(d, t) && t !in d.auto && Within(issued, now)
    ensures CommandOk(Sample(d, now).period, Start(t, issued))
    ensures OneShot(Obey(Sample(d, now), Start(t, issued)), t, Time(issued) + d.period[t], CallTimes(d.log, t))
  {
    SamplePeriods(d, now);
    IdleSample(d, now, t);
    OneShotStarts(Sample(d, now), t, issued);
  }

  lemma OneShotOther(d: Daemon, now: Clock, t: Timer, due: nat, calls: seq<nat>)
    requires Base(d) && Within(d.clock, now) && d.queue != [] && OneShot(d, t, due, calls) && d.queue[0].timer != t
    ensures OneShot(ProcessCommand(d, now), t, due, calls)
  {
    var d1 := Unlisted(d);
    assert d.queue[0] in d.queue;
    UnlistedBase(d);
    SamplePeriods(d1, now);
    UnlistedPasses(d, t);
    OneShotPasses(d, d1, t, due, calls);
    OneShotSample(d1, now, t, due, calls);
    OneShotObeys(Sample(d1, now), d.queue[0], t, due, calls);
  }

  lemma OneShotObeys(d: Daemon, c: Command, t: Timer, due: nat, calls: seq<nat>)
    requires Base(d) && CommandOk(d.period, c) && c.timer != t && OneShot(d, t, due, calls)
    ensures OneShot(Obey(d, c), t, due, calls)
  {
    ObeyPasses(d, c, t);
    OneShotPasses(d, Obey(d, c), t, due, calls);
  }

  lemma OwnStart(d: Daemon, t: Timer, due: nat, calls: seq<nat>)
    requires d.queue != [] && d.queue[0].timer == t && OneShot(d, t, due, calls)
    ensures d.queue[0].Start? && CallTimes(d.log, t) == calls && due == Time(d.queue[0].issued) + d.period[t]
    ensures Idle(Unlisted(d), t)
  {
    assert d.queue[0] in d.queue;
    TimesDrop(d.current, t, d.clock.epoch, t);
    TimesDrop(d.overflow, t, d.clock.epoch + 1, t);
    assert Pending(d, t).queued[0] == Time(d.queue[0].issued) + d.period[t];
  }

  lemma OneShotEffect(d: Daemon, a: Step, t: Timer, due: nat, calls: seq<nat>)
    requires Base(d) && Enabled(d, a) && OneShot(d, t, due, calls) && !(a.Send? && a.command.timer == t)
    ensures OneShot(Effect(d, a), t, due, calls)
  {
    match a
    case Poll(now) => OneShotPoll(d, now, t, due, calls);
    case Receive(now) => OneShotReceive(d, now, t, due, calls);
    case Send(c) =>
      PostOther(d, c, t);
      OneShotPasses(d, Post(d, c), t, due, calls);
  }

  lemma {:induction false} OneShotRun(d: Running, run: seq<Step>, t: Timer, due: nat, calls: seq<nat>)
    requires LeavesAlone(d, run, t) && OneShot(d, t, due, calls)
    ensures OneShot(After(d, run, t), t, due, calls)
    decreases run
  {
    if run != [] {
      OneShotEffect(d, run[0], t, due, calls);
      OneShotRun(Next(d, run[0]), run[1..], t, due, calls);
    }
  }

  /** A one-shot timer that is pending once is called once at most, at its due time or after, and is pending nowhere
      from then on; and a settled daemon has called it if its time has come. */
  lemma OneShotCalledOnce(d: Running, run: seq<Step>, t: Timer, due: nat)
    requires t in d.period && t !in d.auto && StartsOnly(d, t) && Once(Pending(d, t), due) && LeavesAlone(d, run, t)
    ensures var q := After(d, run, t);
            var (calls, more) := (CallTimes(d.log, t), CallTimes(q.log, t));
            && t in q.period
            && (more == calls || (Fired(calls, more, due) && Nowhere(Pending(q, t))))
            && (Settled(q, t) && due <= Time(q.clock) ==> more != calls)
  {
    OneShotRun(d, run, t, due, CallTimes(d.log, t));
    var q := After(d, run, t);
    if Settled(q, t) && CallTimes(q.log, t) == CallTimes(d.log, t) {
      NothingDue(q, t, due);
    }
  }
}
