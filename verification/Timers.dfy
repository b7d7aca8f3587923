/** The timer daemon of timers.c: two lists for two turns of the tick count, commands that arrive late, and
    auto-reload timers that catch up. */
module Timers {
  import opened Config
  import opened Rings
  import opened DelayedLists

  type Timer = Task

  /** An unbounded time as the turn of the tick count and the tick within it. */
  datatype Clock = Clock(epoch: nat, tick: nat)

  function Time(c: Clock): nat {
    Epoch(c.epoch) + c.tick
  }

  /** Messages of the timer queue. All the start, reset and reload messages are handled alike. */
  datatype Command =
    | Start(timer: Timer, issued: Clock)       // the message carries issued.tick
    | Stop(timer: Timer)                       // or delete: the timer is on no list afterwards
    | ChangePeriod(timer: Timer, period: nat)

  datatype Call = Call(timer: Timer, at: nat)

  datatype Daemon = Daemon(
    clock: Clock,            // the last sample: its tick is xLastTime
    current: Delayed,
    overflow: Delayed,
    queue: seq<Command>,
    period: map<Timer, nat>,
    auto: set<Timer>,
    log: seq<Call>)          // the callbacks made

  datatype Place = ProcessNow | IntoCurrent | IntoOverflow

  function SubTicks(a: nat, b: nat): (r: int)
    requires a < TICKS && b < TICKS
    ensures r == (a - b) % TICKS
  {
    if a >= b then a - b else a - b + TICKS
  }

  /** prvInsertTimerInActiveList, on ticks alone. */
  function Decide(period: nat, expiry: nat, now: nat, command: nat): Place
    requires expiry < TICKS && now < TICKS && command < TICKS
  {
    if expiry <= now then
      if SubTicks(now, command) >= period then ProcessNow else IntoOverflow
    else
      if now < command && expiry >= command then ProcessNow else IntoCurrent
  }

  /** b is no earlier than a, by less than one turn. */
  predicate Within(a: Clock, b: Clock) {
    a.tick < TICKS && b.tick < TICKS
    && ((b.epoch == a.epoch && a.tick <= b.tick) || (b.epoch == a.epoch + 1 && b.tick < a.tick))
  }

  lemma WithinIsLessThanATurn(a: Clock, b: Clock)
    requires a.tick < TICKS && b.tick < TICKS && a.epoch <= b.epoch <= a.epoch + 1
    ensures Within(a, b) <==> Time(a) <= Time(b) < Time(a) + TICKS
  {
  }

  function Later(c: Clock, ticks: nat): (r: Clock)
    requires c.tick < TICKS && ticks < TICKS
    ensures r.tick == AddTicks(c.tick, ticks) && Time(r) == Time(c) + ticks
  {
    if c.tick + ticks < TICKS then Clock(c.epoch, c.tick + ticks) else Clock(c.epoch + 1, c.tick + ticks - TICKS)
  }

  /** A command issued at C with period P and processed less than a turn later is processed now exactly when its
      expiry has come; otherwise the expiry goes to the list of its own turn of the tick count. */
  lemma InsertIsExact(period: nat, issued: Clock, now: Clock)
    requires 0 < period < TICKS && Within(issued, now)
    ensures var expiry := Later(issued, period);
            match Decide(period, expiry.tick, now.tick, issued.tick)
            case ProcessNow => Time(issued) + period <= Time(now)
            case IntoCurrent => Time(now) < Time(issued) + period && expiry.epoch == now.epoch
            case IntoOverflow => Time(now) < Time(issued) + period && expiry.epoch == now.epoch + 1
  {
  }

  // ---- the daemon's steps ----

  function CallBack(d: Daemon, t: Timer, at: nat): Daemon {
    d.(log := d.log + [Call(t, at)])
  }

  function Post(d: Daemon, c: Command): Daemon {
    d.(queue := d.queue + [c])
  }

  ghost predicate Base(d: Daemon) {
    && d.clock.tick < TICKS
    && SortedByValue(d.current) && SortedByValue(d.overflow)
    && (forall e <- d.current :: e.value < TICKS && e.owner in d.period)
    && (forall e <- d.overflow :: e.value < TICKS && e.owner in d.period)
    && (forall c <- d.queue :: CommandOk(d.period, c))
    && (forall t <- d.period :: 0 < d.period[t] < TICKS)
  }

  predicate CommandOk(period: map<Timer, nat>, c: Command) {
    match c
    case Start(t, issued) => t in period && issued.tick < TICKS
    case Stop(t) => t in period
    case ChangePeriod(t, p) => t in period && 0 < p < TICKS
  }

  /** Insert the timer where its next expiry belongs, or answer that the expiry has come. */
  function Insert(d: Daemon, t: Timer, issued: Clock): (r: (Daemon, bool))
    requires t in d.period && d.clock.tick < TICKS && issued.tick < TICKS && 0 < d.period[t] < TICKS
  {
    var e := Entry(t, AddTicks(issued.tick, d.period[t]));
    match Decide(d.period[t], e.value, d.clock.tick, issued.tick)
    case ProcessNow => (d, true)
    case IntoCurrent => (d.(current := InsertByValue(d.current, e)), false)
    case IntoOverflow => (d.(overflow := InsertByValue(d.overflow, e)), false)
  }

  /** An auto-reload timer is listed again, or by a command if its next time has come as well. */
  function Renew(d: Daemon, t: Timer, issued: Clock): Daemon
    requires t in d.period && d.clock.tick < TICKS && issued.tick < TICKS && 0 < d.period[t] < TICKS
  {
    var (q, late) := Insert(d, t, issued);
    if late then Post(q, Start(t, issued)) else q
  }

  /** prvProcessExpiredTimer. */
  function ProcessExpired(d: Daemon): Daemon
    requires Base(d) && d.current != []
  {
    var e := d.current[0];
    var t, x := e.owner, Clock(d.clock.epoch, e.value);
    var d1 := d.(current := d.current[1..]);
    assert e in d.current;
    CallBack(if t in d.auto then Renew(d1, t, x) else d1, t, Time(d.clock))
  }

  /** One turn of the loop of prvSwitchTimerLists: the timer expires and is reloaded in the same turn of the
      tick count, or by a command for the next. */
  function ExpireAtSwitch(d: Daemon, at: nat): Daemon
    requires Base(d) && d.current != []
  {
    var e := d.current[0];
    assert e in d.current;
    ReloadAtSwitch(CallBack(d.(current := d.current[1..]), e.owner, at), e)
  }

  function ReloadAtSwitch(d: Daemon, e: Entry<Timer>): Daemon
    requires e.owner in d.period && d.period[e.owner] < TICKS && e.value < TICKS
  {
    var reload := AddTicks(e.value, d.period[e.owner]);
    if e.owner !in d.auto then d
    else if reload > e.value then d.(current := InsertByValue(d.current, Entry(e.owner, reload)))
    else Post(d, Start(e.owner, Clock(d.clock.epoch, e.value)))
  }

  /** How far the entries are from the end of the tick count. */
  function Slack(s: Delayed): nat
    requires forall e <- s :: e.value < TICKS
  {
    if s == [] then 0 else assert s[0] in s; TICKS - s[0].value + Slack(s[1..])
  }

  lemma {:induction false} SlackInsert(s: Delayed, e: Entry<Timer>)
    requires e.value < TICKS && forall x <- s :: x.value < TICKS
    ensures forall x <- InsertByValue(s, e) :: x.value < TICKS
    ensures Slack(InsertByValue(s, e)) == Slack(s) + TICKS - e.value
  {
    InsertMembers(s, e);
    if s != [] && s[0].value <= e.value {
      SlackInsert(s[1..], e);
      assert InsertByValue(s, e)[1..] == InsertByValue(s[1..], e);
    } else {
      assert InsertByValue(s, e)[1..] == s;
    }
  }

  lemma TailKeeps(d: Daemon)
    requires Base(d) && d.current != []
    ensures Base(d.(current := d.current[1..]))
  {
  }

  lemma InsertBase(d: Daemon, e: Entry<Timer>)
    requires Base(d) && e.value < TICKS && e.owner in d.period
    ensures Base(d.(current := InsertByValue(d.current, e))) && Base(d.(overflow := InsertByValue(d.overflow, e)))
  {
    InsertMembers(d.current, e);
    InsertMembers(d.overflow, e);
    InsertKeepsSorted(d.current, e);
    InsertKeepsSorted(d.overflow, e);
  }

  lemma ExpireAtSwitchBase(d: Daemon, at: nat)
    requires Base(d) && d.current != []
    ensures Base(ExpireAtSwitch(d, at))
    ensures Slack(ExpireAtSwitch(d, at).current) < Slack(d.current)
    ensures ExpireAtSwitch(d, at).clock == d.clock
  {
    ExpireAtSwitchOrder(d, at);
    ExpireAtSwitchSlack(d, at);
  }

  lemma ExpireAtSwitchOrder(d: Daemon, at: nat)
    requires Base(d) && d.current != []
    ensures Base(ExpireAtSwitch(d, at))
  {
    var e := d.current[0];
    assert e in d.current;
    TailKeeps(d);
    var d1 := CallBack(d.(current := d.current[1..]), e.owner, at);
    InsertBase(d1, Entry(e.owner, AddTicks(e.value, d.period[e.owner])));
  }

  lemma ExpireAtSwitchSlack(d: Daemon, at: nat)
    requires Base(d) && d.current != []
    ensures (forall e <- ExpireAtSwitch(d, at).current :: e.value < TICKS)
    ensures Slack(ExpireAtSwitch(d, at).current) < Slack(d.current)
  {
    var e := d.current[0];
    assert e in d.current;
    SlackInsert(d.current[1..], Entry(e.owner, AddTicks(e.value, d.period[e.owner])));
  }

  /** The loop of prvSwitchTimerLists. */
  function Drain(d: Daemon, at: nat): (q: Daemon)
    requires Base(d)
    ensures Base(q) && q.current == [] && q.clock == d.clock
    decreases Slack(d.current)
  {
    if d.current == [] then d
    else
      ExpireAtSwitchBase(d, at);
      Drain(ExpireAtSwitch(d, at), at)
  }

  /** prvSampleTimeNow: when the tick reads lower than last time, the lists are switched. */
  function Sample(d: Daemon, now: Clock): (q: Daemon)
    requires Base(d) && Within(d.clock, now)
    ensures Base(q) && q.clock == now
  {
    if now.tick < d.clock.tick then
      var q := Drain(d, Time(now));
      q.(clock := now, current := q.overflow, overflow := q.current)
    else d.(clock := now)
  }

  /** The switch of prvProcessReceivedCommands. */
  function Obey(d: Daemon, c: Command): Daemon
    requires Base(d) && CommandOk(d.period, c)
  {
    match c
    case Start(t, issued) =>
      var (q, late) := Insert(d, t, issued);
      if !late then q
      else
        var q1 := CallBack(q, t, Time(d.clock));
        if t in d.auto then Post(q1, Start(t, Later(issued, d.period[t]))) else q1
    case Stop(_) => d
    case ChangePeriod(t, p) => Insert(d.(period := d.period[t := p]), t, d.clock).0
  }

  /** One turn of prvProcessReceivedCommands: the timer leaves its list, the time is sampled, and the command
      is carried out. */
  function ProcessCommand(d: Daemon, now: Clock): Daemon
    requires Base(d) && Within(d.clock, now) && d.queue != []
  {
    var c := d.queue[0];
    assert c in d.queue;
    var d1 := Unlisted(d);
    UnlistedBase(d);
    var d2 := Sample(d1, now);
    SamplePeriods(d1, now);
    Obey(d2, c)
  }

  /** The first command is taken from the queue, and its timer from the lists. */
  function Unlisted(d: Daemon): Daemon
    requires d.queue != []
  {
    var t := d.queue[0].timer;
    d.(queue := d.queue[1..], current := DropOwner(d.current, t), overflow := DropOwner(d.overflow, t))
  }

  lemma UnlistedBase(d: Daemon)
    requires Base(d) && d.queue != []
    ensures Base(Unlisted(d))
  {
    DropSorted(d.current, d.queue[0].timer);
    DropSorted(d.overflow, d.queue[0].timer);
  }

  lemma {:induction false} DrainPeriods(d: Daemon, at: nat)
    requires Base(d)
    ensures Drain(d, at).period == d.period && Drain(d, at).auto == d.auto
    decreases Slack(d.current)
  {
    if d.current != [] {
      ExpireAtSwitchBase(d, at);
      DrainPeriods(ExpireAtSwitch(d, at), at);
    }
  }

  lemma SamplePeriods(d: Daemon, now: Clock)
    requires Base(d) && Within(d.clock, now)
    ensures Sample(d, now).period == d.period && Sample(d, now).auto == d.auto
  {
    DrainPeriods(d, Time(now));
  }

  // ---- when one timer is due ----

  /** The unbounded expiry times a list holds for t. */
  ghost function Times(s: Delayed, epoch: nat, t: Timer): seq<nat> {
    if s == [] then []
    else if s[0].owner == t then [Epoch(epoch) + s[0].value] + Times(s[1..], epoch, t)
    else Times(s[1..], epoch, t)
  }

  /** The expiry times the queued commands stand for. */
  ghost function Queued(q: seq<Command>, t: Timer, period: nat): seq<nat> {
    if q == [] then []
    else if q[0].Start? && q[0].timer == t then [Time(q[0].issued) + period] + Queued(q[1..], t, period)
    else Queued(q[1..], t, period)
  }

  datatype Due = Due(current: seq<nat>, overflow: seq<nat>, queued: seq<nat>)

  /** All the expiry times at which t is pending: in the current list, the overflow list and the queue. */
  ghost function Pending(d: Daemon, t: Timer): Due
    requires t in d.period
  {
    Due(Times(d.current, d.clock.epoch, t), Times(d.overflow, d.clock.epoch + 1, t), Queued(d.queue, t, d.period[t]))
  }

  predicate Nowhere(p: Due) {
    |p.current| == |p.overflow| == |p.queued| == 0
  }

  /** Pending once, at one time. */
  predicate Once(p: Due, due: nat) {
    && |p.current| + |p.overflow| + |p.queued| == 1
    && AllAre(p.current, due) && AllAre(p.overflow, due) && AllAre(p.queued, due)
  }

  predicate AllAre(s: seq<nat>, x: nat) {
    forall i | 0 <= i < |s| :: s[i] == x
  }

  lemma OnceOnly(p: Due, x: nat, y: nat)
    requires Once(p, x) && Once(p, y)
    ensures x == y
  {
    assert p.current != [] ==> p.current[0] == x == y;
    assert p.overflow != [] ==> p.overflow[0] == x == y;
    assert p.queued != [] ==> p.queued[0] == x == y;
  }

  lemma {:induction false} TimesInsertOther(s: Delayed, e: Entry<Timer>, epoch: nat, t: Timer)
    requires e.owner != t
    ensures Times(InsertByValue(s, e), epoch, t) == Times(s, epoch, t)
  {
    var r := InsertByValue(s, e);
    if s == [] || e.value < s[0].value {
      assert r[0] == e && r[1..] == s;
    } else {
      assert r[0] == s[0] && r[1..] == InsertByValue(s[1..], e);
      TimesInsertOther(s[1..], e, epoch, t);
    }
  }

  lemma {:induction false} TimesInsertOwn(s: Delayed, e: Entry<Timer>, epoch: nat)
    requires Times(s, epoch, e.owner) == []
    ensures Times(InsertByValue(s, e), epoch, e.owner) == [Epoch(epoch) + e.value]
  {
    if s == [] || e.value < s[0].value {
      assert InsertByValue(s, e)[1..] == s;
    } else {
      assert InsertByValue(s, e)[1..] == InsertByValue(s[1..], e);
      TimesInsertOwn(s[1..], e, epoch);
    }
  }

  lemma {:induction false} TimesDrop(s: Delayed, u: Timer, epoch: nat, t: Timer)
    ensures Times(DropOwner(s, u), epoch, t) == if u == t then [] else Times(s, epoch, t)
  {
    if s != [] {
      TimesDrop(s[1..], u, epoch, t);
      if s[0].owner != u {
        assert DropOwner(s, u)[1..] == DropOwner(s[1..], u);
      }
    }
  }

  lemma {:induction false} QueuedPost(q: seq<Command>, c: Command, t: Timer, period: nat)
    ensures Queued(q + [c], t, period)
         == if c.Start? && c.timer == t then Queued(q, t, period) + [Time(c.issued) + period] else Queued(q, t, period)
  {
    if q == [] {
      assert q + [c] == [c];
    } else {
      assert (q + [c])[1..] == q[1..] + [c];
      QueuedPost(q[1..], c, t, period);
    }
  }

  /** The n-th expiry of a timer of period p started at s. */
  function Nth(s: nat, p: nat, n: nat): nat {
    if n == 0 then s else Nth(s, p, n - 1) + p
  }

  lemma {:induction false} NthIsMultiple(s: nat, p: nat, n: nat)
    ensures Nth(s, p, n) == s + n * p
  {
    if n > 0 {
      NthIsMultiple(s, p, n - 1);
      assert n * p == (n - 1) * p + p;
    }
  }

  /** When the calls of t were made, in order. */
  function CallTimes(log: seq<Call>, t: Timer): seq<nat> {
    if log == [] then []
    else CallTimes(log[..|log| - 1], t) + if log[|log| - 1].timer == t then [log[|log| - 1].at] else []
  }

  lemma CallTimesAppend(log: seq<Call>, c: Call, t: Timer)
    ensures CallTimes(log + [c], t) == CallTimes(log, t) + if c.timer == t then [c.at] else []
  {
  }

  /** The calls so far came each at or after its own expiry. */
  ghost predicate NeverEarly(calls: seq<nat>, s: nat, p: nat) {
    forall i | 0 <= i < |calls| :: Nth(s, p, i + 1) <= calls[i]
  }

  /** An auto-reload timer of period p whose queued commands are all starts. */
  ghost predicate Reloads(d: Daemon, t: Timer, p: nat) {
    t in d.auto && t in d.period && d.period[t] == p && forall c <- d.queue :: c.timer == t ==> c.Start?
  }

  /** t has been called once for each of its expiries up to now, never early, and its next expiry is pending
      once: in the list of its own turn of the tick count or as a command. */
  ghost predicate OnSchedule(d: Daemon, t: Timer, s: nat, p: nat) {
    && Reloads(d, t, p)
    && var calls := CallTimes(d.log, t);
       NeverEarly(calls, s, p) && Once(Pending(d, t), Nth(s, p, |calls| + 1))
  }

  /** Moving on by one expiry: called no earlier than due, and the following expiry pending instead. */
  lemma CalledOnce(d: Daemon, q: Daemon, t: Timer, s: nat, p: nat, at: nat, due: nat)
    requires OnSchedule(d, t, s, p) && Once(Pending(d, t), due) && due <= at
    requires q.log == d.log + [Call(t, at)] && Reloads(q, t, p) && Once(Pending(q, t), due + p)
    ensures OnSchedule(q, t, s, p)
  {
    CallTimesAppend(d.log, Call(t, at), t);
    var calls, more := CallTimes(d.log, t), CallTimes(q.log, t);
    OnceOnly(Pending(d, t), due, Nth(s, p, |calls| + 1));
    forall i | 0 <= i < |more| ensures Nth(s, p, i + 1) <= more[i] {
      assert i < |calls| ==> more[i] == calls[i];
    }
  }

  /** Steps about other timers. */
  lemma Untouched(d: Daemon, q: Daemon, t: Timer, s: nat, p: nat)
    requires OnSchedule(d, t, s, p) && Reloads(q, t, p)
    requires Pending(q, t) == Pending(d, t) && CallTimes(q.log, t) == CallTimes(d.log, t)
    ensures OnSchedule(q, t, s, p)
  {
  }

  /** Inserting a timer that is pending nowhere makes it pending at its next expiry, unless that has come. */
  lemma InsertOwn(d: Daemon, t: Timer, issued: Clock)
    requires Base(d) && t in d.period && Within(issued, d.clock) && Nowhere(Pending(d, t))
    ensures var (q, late) := Insert(d, t, issued);
            && (late <==> Time(issued) + d.period[t] <= Time(d.clock))
            && (late ==> q == d)
            && (!late ==> Once(Pending(q, t), Time(issued) + d.period[t]))
  {
    InsertIsExact(d.period[t], issued, d.clock);
    var e := Entry(t, AddTicks(issued.tick, d.period[t]));
    TimesInsertOwn(d.current, e, d.clock.epoch);
    TimesInsertOwn(d.overflow, e, d.clock.epoch + 1);
  }

  lemma InsertOther(d: Daemon, u: Timer, issued: Clock, t: Timer)
    requires u in d.period && t in d.period && d.clock.tick < TICKS && issued.tick < TICKS && 0 < d.period[u] < TICKS
    requires u != t
    ensures Pending(Insert(d, u, issued).0, t) == Pending(d, t)
  {
    var e := Entry(u, AddTicks(issued.tick, d.period[u]));
    EntryOfOther(d, e, t);
  }

  lemma EntryOfOther(d: Daemon, e: Entry<Timer>, t: Timer)
    requires t in d.period && e.owner != t
    ensures Pending(d.(current := InsertByValue(d.current, e)), t) == Pending(d, t)
    ensures Pending(d.(overflow := InsertByValue(d.overflow, e)), t) == Pending(d, t)
  {
    TimesInsertOther(d.current, e, d.clock.epoch, t);
    TimesInsertOther(d.overflow, e, d.clock.epoch + 1, t);
  }

  lemma InsertKeepsBase(d: Daemon, u: Timer, issued: Clock)
    requires Base(d) && u in d.period && issued.tick < TICKS
    ensures var q := Insert(d, u, issued).0;
            Base(q) && q == d.(current := q.current, overflow := q.overflow)
  {
    InsertBase(d, Entry(u, AddTicks(issued.tick, d.period[u])));
  }

  lemma PostOwn(d: Daemon, t: Timer, issued: Clock)
    requires t in d.period && Nowhere(Pending(d, t))
    ensures Once(Pending(Post(d, Start(t, issued)), t), Time(issued) + d.period[t])
  {
    QueuedPost(d.queue, Start(t, issued), t, d.period[t]);
  }

  lemma PostOther(d: Daemon, c: Command, t: Timer)
    requires t in d.period && c.timer != t
    ensures Pending(Post(d, c), t) == Pending(d, t)
  {
    QueuedPost(d.queue, c, t, d.period[t]);
  }

  /** The head of the current list taken out: if it was t, t is now pending nowhere. */
  lemma TailPending(d: Daemon, t: Timer, due: nat)
    requires t in d.period && d.current != [] && Once(Pending(d, t), due)
    ensures var u, d1 := d.current[0].owner, d.(current := d.current[1..]);
            if u == t then due == Epoch(d.clock.epoch) + d.current[0].value && Nowhere(Pending(d1, t))
            else Pending(d1, t) == Pending(d, t)
  {
    var x := Epoch(d.clock.epoch) + d.current[0].value;
    if d.current[0].owner == t {
      assert Pending(d, t).current == [x] + Times(d.current[1..], d.clock.epoch, t);
      assert Pending(d, t).current[0] == x;
    }
  }

  // ---- every step keeps every schedule ----

  lemma RenewOwn(d: Daemon, t: Timer, issued: Clock)
    requires Base(d) && t in d.period && Within(issued, d.clock) && issued.tick < TICKS && Nowhere(Pending(d, t))
    ensures Renew(d, t, issued).period == d.period
    ensures Once(Pending(Renew(d, t, issued), t), Time(issued) + d.period[t])
  {
    InsertOwn(d, t, issued);
    PostOwn(d, t, issued);
  }

  lemma RenewOther(d: Daemon, u: Timer, issued: Clock, t: Timer)
    requires u in d.period && t in d.period && d.clock.tick < TICKS && issued.tick < TICKS && 0 < d.period[u] < TICKS
    requires u != t
    ensures Renew(d, u, issued).period == d.period && Pending(Renew(d, u, issued), t) == Pending(d, t)
  {
    InsertOther(d, u, issued, t);
    PostOther(Insert(d, u, issued).0, Start(u, issued), t);
  }

  lemma ExpiredOwn(d: Daemon, t: Timer, due: nat)
    requires Base(d) && d.current != [] && d.current[0].owner == t && d.current[0].value <= d.clock.tick
    requires t in d.auto && t in d.period && Once(Pending(d, t), due)
    ensures due <= Time(d.clock) && Once(Pending(ProcessExpired(d), t), due + d.period[t])
  {
    TailKeeps(d);
    TailPending(d, t, due);
    RenewOwn(d.(current := d.current[1..]), t, Clock(d.clock.epoch, d.current[0].value));
  }

  lemma ExpiredOther(d: Daemon, t: Timer, due: nat)
    requires Base(d) && d.current != [] && d.current[0].owner != t && t in d.period && Once(Pending(d, t), due)
    ensures Pending(ProcessExpired(d), t) == Pending(d, t)
  {
    var e := d.current[0];
    assert e in d.current;
    TailPending(d, t, due);
    RenewOther(d.(current := d.current[1..]), e.owner, Clock(d.clock.epoch, e.value), t);
  }

  lemma ExpiredShape(d: Daemon, t: Timer, p: nat)
    requires Base(d) && d.current != [] && Reloads(d, t, p)
    ensures var q := ProcessExpired(d);
            Reloads(q, t, p) && q.log == d.log + [Call(d.current[0].owner, Time(d.clock))]
  {
  }

  /** prvProcessExpiredTimer. */
  lemma ProcessExpiredKeeps(d: Daemon, t: Timer, s: nat, p: nat)
    requires Base(d) && d.current != [] && d.current[0].value <= d.clock.tick && OnSchedule(d, t, s, p)
    ensures OnSchedule(ProcessExpired(d), t, s, p)
  {
    var u, due := d.current[0].owner, Nth(s, p, |CallTimes(d.log, t)| + 1);
    ExpiredShape(d, t, p);
    if u == t {
      ExpiredOwn(d, t, due);
      CalledOnce(d, ProcessExpired(d), t, s, p, Time(d.clock), due);
    } else {
      ExpiredOther(d, t, due);
      CallTimesAppend(d.log, Call(u, Time(d.clock)), t);
      Untouched(d, ProcessExpired(d), t, s, p);
    }
  }

  lemma ProcessExpiredBase(d: Daemon)
    requires Base(d) && d.current != []
    ensures Base(ProcessExpired(d)) && ProcessExpired(d).clock == d.clock
  {
    var e := d.current[0];
    assert e in d.current;
    TailKeeps(d);
    InsertKeepsBase(d.(current := d.current[1..]), e.owner, Clock(d.clock.epoch, e.value));
  }

  lemma SwitchOwn(d: Daemon, at: nat, t: Timer, due: nat)
    requires Base(d) && d.current != [] && d.current[0].owner == t && Epoch(d.clock.epoch + 1) <= at
    requires t in d.auto && t in d.period && Once(Pending(d, t), due)
    ensures due <= at && Once(Pending(ExpireAtSwitch(d, at), t), due + d.period[t])
  {
    var e := d.current[0];
    assert e in d.current;
    TailPending(d, t, due);
    var d2 := CallBack(d.(current := d.current[1..]), t, at);
    TimesInsertOwnLast(d2, Entry(t, AddTicks(e.value, d.period[t])));
    PostOwn(d2, t, Clock(d.clock.epoch, e.value));
  }

  lemma SwitchOther(d: Daemon, at: nat, t: Timer, due: nat)
    requires Base(d) && d.current != [] && d.current[0].owner != t && t in d.period && Once(Pending(d, t), due)
    ensures Pending(ExpireAtSwitch(d, at), t) == Pending(d, t)
  {
    var e := d.current[0];
    assert e in d.current;
    TailPending(d, t, due);
    var d2 := CallBack(d.(current := d.current[1..]), e.owner, at);
    assert Pending(d2, t) == Pending(d, t);
    ReloadOther(d2, e, t);
  }

  lemma ReloadOther(d: Daemon, e: Entry<Timer>, t: Timer)
    requires e.owner in d.period && d.period[e.owner] < TICKS && e.value < TICKS && e.owner != t && t in d.period
    ensures Pending(ReloadAtSwitch(d, e), t) == Pending(d, t)
  {
    EntryOfOther(d, Entry(e.owner, AddTicks(e.value, d.period[e.owner])), t);
    PostOther(d, Start(e.owner, Clock(d.clock.epoch, e.value)), t);
  }

  /** One turn of prvSwitchTimerLists. */
  lemma ExpireAtSwitchKeeps(d: Daemon, at: nat, t: Timer, s: nat, p: nat)
    requires Base(d) && d.current != [] && Epoch(d.clock.epoch + 1) <= at && OnSchedule(d, t, s, p)
    ensures OnSchedule(ExpireAtSwitch(d, at), t, s, p)
  {
    var u, due := d.current[0].owner, Nth(s, p, |CallTimes(d.log, t)| + 1);
    assert d.current[0] in d.current;
    var q := ExpireAtSwitch(d, at);
    assert Reloads(q, t, p) && q.log == d.log + [Call(u, at)];
    if u == t {
      SwitchOwn(d, at, t, due);
      CalledOnce(d, q, t, s, p, at, due);
    } else {
      SwitchOther(d, at, t, due);
      CallTimesAppend(d.log, Call(u, at), t);
      Untouched(d, q, t, s, p);
    }
  }

  lemma TimesInsertOwnLast(d: Daemon, e: Entry<Timer>)
    requires e.owner in d.period && Nowhere(Pending(d, e.owner))
    ensures Once(Pending(d.(current := InsertByValue(d.current, e)), e.owner), Epoch(d.clock.epoch) + e.value)
  {
    TimesInsertOwn(d.current, e, d.clock.epoch);
  }

  lemma {:induction false} DrainKeeps(d: Daemon, at: nat, t: Timer, s: nat, p: nat)
    requires Base(d) && Epoch(d.clock.epoch + 1) <= at && OnSchedule(d, t, s, p)
    ensures OnSchedule(Drain(d, at), t, s, p)
    decreases Slack(d.current)
  {
    if d.current != [] {
      ExpireAtSwitchBase(d, at);
      ExpireAtSwitchKeeps(d, at, t, s, p);
      DrainKeeps(ExpireAtSwitch(d, at), at, t, s, p);
    }
  }

  /** The lists change roles: what was due in the next turn is due in this one. */
  lemma SwapKeeps(d: Daemon, now: Clock, t: Timer)
    requires t in d.period && d.current == [] && now.epoch == d.clock.epoch + 1
    ensures var q := d.(clock := now, current := d.overflow, overflow := []);
            var a, b := Pending(d, t), Pending(q, t);
            a.current == [] && b.current == a.overflow && b.overflow == [] && b.queued == a.queued
  {
  }

  lemma SampleKeeps(d: Daemon, now: Clock, t: Timer, s: nat, p: nat)
    requires Base(d) && Within(d.clock, now) && OnSchedule(d, t, s, p)
    ensures OnSchedule(Sample(d, now), t, s, p)
  {
    if now.tick < d.clock.tick {
      DrainKeeps(d, Time(now), t, s, p);
      SwapKeeps(Drain(d, Time(now)), now, t);
    } else {
      assert Pending(Sample(d, now), t) == Pending(d, t);
    }
  }

  // ---- a command for t itself, while t is on no list ----

  lemma ExpireAtSwitchPosts(d: Daemon, at: nat, t: Timer)
    requires Base(d) && d.current != []
    ensures StartsOnly(d, t) ==> StartsOnly(ExpireAtSwitch(d, at), t)
  {
  }

  /** While t is on no list, another timer expires. */
  lemma ExpireAtSwitchAbsent(d: Daemon, at: nat, t: Timer)
    requires Base(d) && d.current != [] && t in d.period && Nowhere(Pending(d, t))
    ensures var q := ExpireAtSwitch(d, at);
            && t in q.period && Nowhere(Pending(q, t)) && CallTimes(q.log, t) == CallTimes(d.log, t)
            && (StartsOnly(d, t) ==> StartsOnly(q, t))
  {
    ExpireAtSwitchPosts(d, at, t);
    TailAbsent(d, t);
    assert d.current[0] in d.current;
    HeadCalled(d, at, t);
  }

  /** If t is on no list, the head is another timer. */
  lemma TailAbsent(d: Daemon, t: Timer)
    requires d.current != [] && t in d.period && Nowhere(Pending(d, t))
    ensures d.current[0].owner != t && Pending(d.(current := d.current[1..]), t) == Pending(d, t)
  {
  }

  lemma HeadCalled(d: Daemon, at: nat, t: Timer)
    requires d.current != [] && t in d.period && d.current[0].owner != t
    requires d.current[0].value < TICKS && d.current[0].owner in d.period && d.period[d.current[0].owner] < TICKS
    ensures var e := d.current[0];
            var q := ReloadAtSwitch(CallBack(d.(current := d.current[1..]), e.owner, at), e);
            && t in q.period && Pending(q, t) == Pending(d.(current := d.current[1..]), t)
            && CallTimes(q.log, t) == CallTimes(d.log, t)
  {
    var e, tail := d.current[0], d.(current := d.current[1..]);
    CallBackPends(tail, e.owner, at, t);
    ReloadOther(CallBack(tail, e.owner, at), e, t);
    ReloadLogs(CallBack(tail, e.owner, at), e);
  }

  lemma CallBackPends(d: Daemon, u: Timer, at: nat, t: Timer)
    requires t in d.period && u != t
    ensures Pending(CallBack(d, u, at), t) == Pending(d, t)
    ensures CallTimes(CallBack(d, u, at).log, t) == CallTimes(d.log, t)
  {
    CallTimesAppend(d.log, Call(u, at), t);
  }

  lemma ReloadLogs(d: Daemon, e: Entry<Timer>)
    requires e.owner in d.period && d.period[e.owner] < TICKS && e.value < TICKS
    ensures ReloadAtSwitch(d, e).log == d.log && ReloadAtSwitch(d, e).period == d.period
  {
  }

  predicate StartsOnly(d: Daemon, t: Timer) {
    forall c <- d.queue :: c.timer == t ==> c.Start?
  }

  lemma {:induction false} DrainAbsent(d: Daemon, at: nat, t: Timer)
    requires Base(d) && t in d.period && Nowhere(Pending(d, t))
    ensures var q := Drain(d, at);
            && t in q.period && Nowhere(Pending(q, t)) && CallTimes(q.log, t) == CallTimes(d.log, t)
            && (StartsOnly(d, t) ==> StartsOnly(q, t))
    decreases Slack(d.current)
  {
    if d.current != [] {
      ExpireAtSwitchBase(d, at);
      ExpireAtSwitchAbsent(d, at, t);
      DrainAbsent(ExpireAtSwitch(d, at), at, t);
    }
  }

  lemma SampleAbsent(d: Daemon, now: Clock, t: Timer, p: nat)
    requires Base(d) && Within(d.clock, now) && Reloads(d, t, p) && Nowhere(Pending(d, t))
    ensures var q := Sample(d, now);
            Reloads(q, t, p) && Nowhere(Pending(q, t)) && CallTimes(q.log, t) == CallTimes(d.log, t)
  {
    SamplePeriods(d, now);
    if now.tick < d.clock.tick {
      DrainAbsent(d, Time(now), t);
      SwapKeeps(Drain(d, Time(now)), now, t);
    } else {
      assert Pending(Sample(d, now), t) == Pending(d, t);
    }
  }

  /** The start command that was t's only pending expiry is carried out. */
  lemma ObeyOwn(d: Daemon, t: Timer, issued: Clock, s: nat, p: nat)
    requires Base(d) && Reloads(d, t, p) && Within(issued, d.clock) && Nowhere(Pending(d, t))
    requires var calls := CallTimes(d.log, t);
             NeverEarly(calls, s, p) && Time(issued) + p == Nth(s, p, |calls| + 1)
    ensures OnSchedule(Obey(d, Start(t, issued)), t, s, p)
  {
    InsertOwn(d, t, issued);
    InsertKeepsBase(d, t, issued);
    if Time(issued) + p <= Time(d.clock) {
      CalledAndPosted(d, t, Time(d.clock), Later(issued, p), s, p);
    }
  }

  /** An expiry that has come is called, and the next one posted. */
  lemma CalledAndPosted(d: Daemon, t: Timer, at: nat, next: Clock, s: nat, p: nat)
    requires Reloads(d, t, p) && Nowhere(Pending(d, t)) && NeverEarly(CallTimes(d.log, t), s, p)
    requires Time(next) == Nth(s, p, |CallTimes(d.log, t)| + 1) <= at
    ensures OnSchedule(Post(CallBack(d, t, at), Start(t, next)), t, s, p)
  {
    var q := CallBack(d, t, at);
    assert Pending(q, t) == Pending(d, t);
    PostOwn(q, t, next);
    CallTimesAppend(d.log, Call(t, at), t);
    CalledOnTime(CallTimes(d.log, t), at, s, p);
  }

  lemma CalledOnTime(calls: seq<nat>, at: nat, s: nat, p: nat)
    requires NeverEarly(calls, s, p) && Nth(s, p, |calls| + 1) <= at
    ensures NeverEarly(calls + [at], s, p)
  {
  }

  /** A command for another timer. */
  lemma ObeyOther(d: Daemon, c: Command, t: Timer, s: nat, p: nat)
    requires Base(d) && CommandOk(d.period, c) && c.timer != t && OnSchedule(d, t, s, p)
    ensures OnSchedule(Obey(d, c), t, s, p)
  {
    match c
    case Start(u, issued) =>
      InsertOther(d, u, issued, t);
      InsertKeepsBase(d, u, issued);
      CallTimesAppend(d.log, Call(u, Time(d.clock)), t);
      PostOther(CallBack(d, u, Time(d.clock)), Start(u, Later(issued, d.period[u])), t);
      Untouched(d, Obey(d, c), t, s, p);
    case Stop(_) =>
    case ChangePeriod(u, q) =>
      var d1 := d.(period := d.period[u := q]);
      assert Pending(d1, t) == Pending(d, t);
      InsertOther(d1, u, d.clock, t);
      Untouched(d, Obey(d, c), t, s, p);
  }

  lemma ObeyBase(d: Daemon, c: Command)
    requires Base(d) && CommandOk(d.period, c)
    ensures Base(Obey(d, c)) && Obey(d, c).clock == d.clock
  {
    match c
    case Start(u, issued) => InsertKeepsBase(d, u, issued);
    case Stop(_) =>
    case ChangePeriod(u, q) => InsertKeepsBase(d.(period := d.period[u := q]), u, d.clock);
  }

  /** A start command is processed less than one turn after it was issued. */
  predicate Timely(c: Command, now: Clock) {
    c.Start? ==> Within(c.issued, now)
  }

  lemma UnlistedOther(d: Daemon, t: Timer, s: nat, p: nat)
    requires d.queue != [] && d.queue[0].timer != t && OnSchedule(d, t, s, p)
    ensures OnSchedule(Unlisted(d), t, s, p)
  {
    TimesDrop(d.current, d.queue[0].timer, d.clock.epoch, t);
    TimesDrop(d.overflow, d.queue[0].timer, d.clock.epoch + 1, t);
    Untouched(d, Unlisted(d), t, s, p);
  }

  lemma UnlistedOwn(d: Daemon, t: Timer, s: nat, p: nat)
    requires d.queue != [] && d.queue[0].timer == t && OnSchedule(d, t, s, p)
    ensures d.queue[0].Start? && Nowhere(Pending(Unlisted(d), t)) && Reloads(Unlisted(d), t, p)
    ensures Time(d.queue[0].issued) + p == Nth(s, p, |CallTimes(d.log, t)| + 1)
  {
    var c := d.queue[0];
    assert c in d.queue;
    TimesDrop(d.current, t, d.clock.epoch, t);
    TimesDrop(d.overflow, t, d.clock.epoch + 1, t);
    assert Pending(d, t).queued[0] == Time(c.issued) + p;
  }

  /** prvProcessReceivedCommands, one command. */
  lemma ProcessCommandKeeps(d: Daemon, now: Clock, t: Timer, s: nat, p: nat)
    requires Base(d) && Within(d.clock, now) && d.queue != [] && Timely(d.queue[0], now) && OnSchedule(d, t, s, p)
    ensures OnSchedule(ProcessCommand(d, now), t, s, p)
  {
    var c, d1 := d.queue[0], Unlisted(d);
    assert c in d.queue;
    UnlistedBase(d);
    SamplePeriods(d1, now);
    var d2 := Sample(d1, now);
    if c.timer == t {
      UnlistedOwn(d, t, s, p);
      SampleAbsent(d1, now, t, p);
      ObeyOwn(d2, t, c.issued, s, p);
    } else {
      UnlistedOther(d, t, s, p);
      SampleKeeps(d1, now, t, s, p);
      ObeyOther(d2, c, t, s, p);
    }
  }

  // ---- runs of the daemon ----

  datatype Step =
    | Poll(now: Clock)         // prvProcessTimerOrBlockTask
    | Receive(now: Clock)      // one command of prvProcessReceivedCommands
    | Send(command: Command)   // by any task or interrupt

  predicate Enabled(d: Daemon, a: Step) {
    match a
    case Poll(now) => Within(d.clock, now)
    case Receive(now) => d.queue != [] && Within(d.clock, now) && Timely(d.queue[0], now)
    case Send(c) => CommandOk(d.period, c)
  }

  /** prvProcessTimerOrBlockTask: expire the timer at the head, unless sampling switched the lists. */
  function ProcessTimerOrBlock(d: Daemon, now: Clock): Daemon
    requires Base(d) && Within(d.clock, now)
  {
    var q := Sample(d, now);
    if d.clock.tick <= now.tick && d.current != [] && d.current[0].value <= now.tick then ProcessExpired(q) else q
  }

  function Effect(d: Daemon, a: Step): Daemon
    requires Base(d) && Enabled(d, a)
  {
    match a
    case Poll(now) => ProcessTimerOrBlock(d, now)
    case Receive(now) => ProcessCommand(d, now)
    case Send(c) => Post(d, c)
  }

  lemma EffectBase(d: Daemon, a: Step)
    requires Base(d) && Enabled(d, a)
    ensures Base(Effect(d, a))
  {
    match a
    case Poll(now) =>
      if d.clock.tick <= now.tick && d.current != [] && d.current[0].value <= now.tick {
        ProcessExpiredBase(Sample(d, now));
      }
    case Receive(now) =>
      UnlistedBase(d);
      SamplePeriods(Unlisted(d), now);
      assert d.queue[0] in d.queue;
      ObeyBase(Sample(Unlisted(d), now), d.queue[0]);
    case Send(c) =>
  }

  lemma EffectKeeps(d: Daemon, a: Step, t: Timer, s: nat, p: nat)
    requires Base(d) && Enabled(d, a) && OnSchedule(d, t, s, p) && !(a.Send? && a.command.timer == t)
    ensures OnSchedule(Effect(d, a), t, s, p)
  {
    match a
    case Poll(now) =>
      SampleKeeps(d, now, t, s, p);
      if d.clock.tick <= now.tick && d.current != [] && d.current[0].value <= now.tick {
        ProcessExpiredKeeps(Sample(d, now), t, s, p);
      }
    case Receive(now) => ProcessCommandKeeps(d, now, t, s, p);
    case Send(c) =>
      PostOther(d, c, t);
      Untouched(d, Post(d, c), t, s, p);
  }

  /** A daemon in order, before the scheduler's first tick. */
  function Fresh(): Daemon {
    Daemon(Clock(0, 0), [], [], [], map[], {}, [])
  }

  /** No callback is logged for a time that has not come. */
  predicate Past(log: seq<Call>, now: nat) {
    forall c <- log :: c.at <= now
  }

  lemma {:induction false} DrainPast(d: Daemon, at: nat)
    requires Base(d) && Past(d.log, at)
    ensures Past(Drain(d, at).log, at)
    decreases Slack(d.current)
  {
    if d.current != [] {
      ExpireAtSwitchBase(d, at);
      DrainPast(ExpireAtSwitch(d, at), at);
    }
  }

  lemma SamplePast(d: Daemon, now: Clock)
    requires Base(d) && Within(d.clock, now) && Past(d.log, Time(d.clock))
    ensures Past(Sample(d, now).log, Time(now))
  {
    assert Time(d.clock) <= Time(now);
    DrainPast(d, Time(now));
  }

  lemma ObeyPast(d: Daemon, c: Command)
    requires Base(d) && CommandOk(d.period, c) && Past(d.log, Time(d.clock))
    ensures Past(Obey(d, c).log, Time(d.clock))
  {
  }

  /** A callback is logged at the time the daemon last sampled. */
  lemma EffectPast(d: Daemon, a: Step)
    requires Base(d) && Enabled(d, a) && Past(d.log, Time(d.clock))
    ensures Past(Effect(d, a).log, Time(Effect(d, a).clock))
  {
    match a
    case Poll(now) => SamplePast(d, now);
    case Receive(now) =>
      UnlistedBase(d);
      SamplePast(Unlisted(d), now);
      SamplePeriods(Unlisted(d), now);
      assert d.queue[0] in d.queue;
      ObeyBase(Sample(Unlisted(d), now), d.queue[0]);
      ObeyPast(Sample(Unlisted(d), now), d.queue[0]);
    case Send(_) =>
  }

  type Running = d: Daemon | Base(d) && Past(d.log, Time(d.clock)) ghost witness Fresh()

  function Next(d: Running, a: Step): Running
    requires Enabled(d, a)
  {
    EffectBase(d, a);
    EffectPast(d, a);
    Effect(d, a)
  }

  /** A run in which every step is enabled and nobody sends a command to t. */
  predicate LeavesAlone(d: Running, run: seq<Step>, t: Timer)
    decreases run
  {
    || run == []
    || (&& Enabled(d, run[0]) && !(run[0].Send? && run[0].command.timer == t)
        && LeavesAlone(Next(d, run[0]), run[1..], t))
  }

  function After(d: Running, run: seq<Step>, t: Timer): Running
    requires LeavesAlone(d, run, t)
    decreases run
  {
    if run == [] then d else After(Next(d, run[0]), run[1..], t)
  }

  lemma {:induction false} RunKeeps(d: Running, run: seq<Step>, t: Timer, s: nat, p: nat)
    requires LeavesAlone(d, run, t) && OnSchedule(d, t, s, p)
    ensures OnSchedule(After(d, run, t), t, s, p)
    decreases run
  {
    if run != [] {
      EffectKeeps(d, run[0], t, s, p);
      RunKeeps(Next(d, run[0]), run[1..], t, s, p);
    }
  }

  /** A start command puts an idle auto-reload timer on schedule from the time it was issued. */
  lemma StartSchedules(d: Daemon, t: Timer, issued: Clock)
    requires t in d.auto && t in d.period && Nowhere(Pending(d, t)) && CallTimes(d.log, t) == []
    requires forall c <- d.queue :: c.timer == t ==> c.Start?
    ensures OnSchedule(Post(d, Start(t, issued)), t, Time(issued), d.period[t])
  {
    PostOwn(d, t, issued);
    assert Nth(Time(issued), d.period[t], 1) == Time(issued) + d.period[t];
  }

  /** The daemon has nothing left to do for t now. */
  predicate Settled(d: Daemon, t: Timer) {
    && (d.current == [] || d.clock.tick < d.current[0].value)
    && (forall c <- d.queue :: c.timer != t)
  }

  /** However late the daemon runs and whatever it does for other timers, the k-th callback of an auto-reload timer
      of period p started at s comes at or after s + k * p and never in the future; and whenever the daemon is settled
      their number is that of the expiries up to now: none is lost and none is made twice. */
  lemma NoExpiryLostOrDuplicated(d: Running, run: seq<Step>, t: Timer, s: nat, p: nat)
    requires LeavesAlone(d, run, t) && OnSchedule(d, t, s, p)
    ensures var q := After(d, run, t);
            var calls := CallTimes(q.log, t);
            && (forall k | 1 <= k <= |calls| :: s + k * p <= calls[k - 1] <= Time(q.clock))
            && (calls != [] ==> s + |calls| * p <= Time(q.clock))
            && (Settled(q, t) ==> Time(q.clock) < s + (|calls| + 1) * p)
  {
    RunKeeps(d, run, t, s, p);
    var q := After(d, run, t);
    CallsInTime(q.log, t, s, p, Time(q.clock));
    if Settled(q, t) {
      NotYetDue(q, t, s, p);
    }
  }

  lemma {:induction false} CallsPast(log: seq<Call>, t: Timer, now: nat)
    requires Past(log, now)
    ensures forall x <- CallTimes(log, t) :: x <= now
  {
    if log != [] {
      assert log[|log| - 1] in log;
      CallsPast(log[..|log| - 1], t, now);
    }
  }

  lemma CallsInTime(log: seq<Call>, t: Timer, s: nat, p: nat, now: nat)
    requires Past(log, now) && NeverEarly(CallTimes(log, t), s, p)
    ensures var calls := CallTimes(log, t);
            && (forall k | 1 <= k <= |calls| :: s + k * p <= calls[k - 1] <= now)
            && (calls != [] ==> s + |calls| * p <= now)
  {
    var calls := CallTimes(log, t);
    AtTheMultiples(calls, s, p);
    CallsPast(log, t, now);
    forall i | 0 <= i < |calls| ensures calls[i] <= now {
      assert calls[i] in calls;
    }
    assert calls != [] ==> s + |calls| * p <= calls[|calls| - 1];
  }

  lemma NotYetDue(d: Daemon, t: Timer, s: nat, p: nat)
    requires Base(d) && OnSchedule(d, t, s, p) && Settled(d, t)
    ensures Time(d.clock) < s + (|CallTimes(d.log, t)| + 1) * p
  {
    var n := |CallTimes(d.log, t)| + 1;
    NothingDue(d, t, Nth(s, p, n));
    NthIsMultiple(s, p, n);
  }

  lemma AtTheMultiples(calls: seq<nat>, s: nat, p: nat)
    requires NeverEarly(calls, s, p)
    ensures forall k | 1 <= k <= |calls| :: s + k * p <= calls[k - 1]
  {
    forall k | 1 <= k <= |calls| ensures s + k * p <= calls[k - 1] {
      NthIsMultiple(s, p, k);
    }
  }

  lemma NothingDue(d: Daemon, t: Timer, due: nat)
    requires Base(d) && t in d.period && Settled(d, t) && Once(Pending(d, t), due)
    ensures Time(d.clock) < due
  {
    NothingQueued(d.queue, t, d.period[t]);
    TimesBeyond(d.current, d.clock.epoch, t, d.clock.tick);
    TimesBeyond(d.overflow, d.clock.epoch + 1, t, -1);
    assert Pending(d, t).current != [] ==> Pending(d, t).current[0] == due;
    assert Pending(d, t).overflow != [] ==> Pending(d, t).overflow[0] == due;
  }

  lemma {:induction false} NothingQueued(q: seq<Command>, t: Timer, period: nat)
    requires forall c <- q :: c.timer != t
    ensures Queued(q, t, period) == []
  {
    if q != [] {
      assert q[0] in q;
      NothingQueued(q[1..], t, period);
    }
  }

  lemma {:induction false} TimesBeyond(s: Delayed, epoch: nat, t: Timer, v: int)
    requires SortedByValue(s) && (s != [] ==> v < s[0].value)
    ensures forall i | 0 <= i < |Times(s, epoch, t)| :: Epoch(epoch) + v < Times(s, epoch, t)[i]
  {
    if s != [] {
      SortedSuffix(s, 1);
      TimesBeyond(s[1..], epoch, t, v);
    }
  }
}
