/** The port state machine and the foreign master data set together: what doState of protocol.c makes of the table,
    and what a fault between an announcement and the run of bmc it asks for leaves behind. */
module PtpDaemon {
  import opened PtpPort
  import Bmc
  import M = ForeignMasters
  import T = PtpTransitions

  datatype Daemon = Daemon(port: Port, table: M.Table)

  /** What one doState meets: the environment of the port, and the record an Announce among it carries. */
  datatype Turn = Turn(env: Env, record: Bmc.Record)

  function Chosen(d: Daemon, local: Bmc.Record): M.Table
    requires M.Shape(d.table)
  {
    if T.Decides(d.port) then M.Choose(d.table, local.source) else d.table
  }

  /** The environment with what bmc recommends. */
  function Advice(d: Daemon, e: Env, local: Bmc.Record): Env
    requires M.Shape(d.table)
  {
    var t := Chosen(d, local);
    e.(best := Bmc.StateDecision(d.port.state.Listening?, t.count, local, t.records[t.best]))
  }

  /** handle comes upon an Announce and passes it on to addForeign. */
  predicate Hears(p: Port, e: Env) {
    match e.input
    case Received(Announce(short, fromSelf, fromParent)) =>
      && !short && !fromSelf
      && (match p.state
          case Initializing | Faulty | Disabled => false
          case Uncalibrated | Slave => !fromParent
          case _ => true)
    case _ => false
  }

  function Heard(p: Port, t: M.Table, a: Turn): M.Table
    requires M.Shape(t)
  {
    if Hears(p, a.env) then M.Announce(t, a.record) else t
  }

  /** What the actions of a state do to the table; initData empties it but leaves whose turn is next. */
  function Served(p: Port, t: M.Table, a: Turn): M.Table
    requires M.Shape(t)
  {
    match p.state
    case Initializing => if a.env.initOk then t.(count := 0) else t
    case Listening | Uncalibrated | Slave | Passive =>
      if Expired(p, a.env, AnnounceReceipt) then M.Expire(t) else Heard(p, t, a)
    case Master => Heard(Issue(p, a.env), t, a)
    case _ => t
  }

  function DoState(d: Daemon, a: Turn, local: Bmc.Record): Daemon
    requires M.Shape(d.table)
  {
    var e := Advice(d, a.env, local);
    var p := Follow(Decide(d.port, e), e);
    Daemon(Act(p, e), Served(p, Chosen(d, local), a.(env := e)))
  }

  // ---- what every run keeps ----

  /** Until the port has first been advised the table is as it was made. */
  predicate Untouched(d: Daemon) {
    && (d.port.state.Initializing? ==> d.port.recommended.Initializing?)
    && (d.port.recommended.Initializing? ==>
          (d.port.state.Initializing? || d.port.state.Faulty?) && d.table.count == d.table.i == 0)
  }

  ghost predicate Core(d: Daemon) {
    Inv(d.port) && M.Shape(d.table) && Untouched(d)
  }

  lemma ServedShape(p: Port, t: M.Table, a: Turn)
    requires M.Shape(t) && !p.state.Initializing?
    ensures M.Shape(Served(p, t, a))
  {
  }

  lemma AdvisedCore(d: Daemon, a: Turn, local: Bmc.Record)
    requires Core(d) && Advised(d.port)
    ensures Core(DoState(d, a, local))
  {
    var e := Advice(d, a.env, local);
    StaysAdvised(d.port, e);
    DecideKeeps(d.port, e);
    FollowLeavesFaulty(Decide(d.port, e), e);
    ServedShape(Follow(Decide(d.port, e), e), Chosen(d, local), a.(env := e));
  }

  lemma CoreKeeps(d: Daemon, a: Turn, local: Bmc.Record)
    requires Core(d)
    ensures Core(DoState(d, a, local))
  {
    if Advised(d.port) {
      AdvisedCore(d, a, local);
    } else {
      var e := Advice(d, a.env, local);
      assert Follow(Decide(d.port, e), e) == d.port;
      ActKeeps(d.port, e);
    }
  }

  function Created(slaveOnly: bool, local: Bmc.Record, mechanism: Mechanism, slots: nat): Daemon
    requires slots > 0
  {
    Daemon(Initial(slaveOnly, local.clockClass, mechanism), M.Table(seq(slots, k => local), 0, 0, 0))
  }

  type Running = d: Daemon | Core(d) ghost witness Some()

  function Some(): Daemon {
    var zero := [0, 0, 0, 0, 0, 0, 0, 0];
    Created(false, Bmc.Record(zero, 1, 0, 0, 0, 0, 0, zero, 0), E2E, 1)
  }

  function Next(d: Running, a: Turn, local: Bmc.Record): Running {
    CoreKeeps(d, a, local);
    DoState(d, a, local)
  }

  function Run(d: Running, run: seq<Turn>, local: Bmc.Record): Running
    decreases run
  {
    if run == [] then d else Run(Next(d, run[0], local), run[1..], local)
  }

  /** No doState finds the port FAULTY with a state decision still to be made. */
  predicate Prompt(d: Running, run: seq<Turn>, local: Bmc.Record)
    decreases run
  {
    run == [] || (!Overdue(d) && Prompt(Next(d, run[0], local), run[1..], local))
  }

  predicate Overdue(d: Daemon) {
    d.port.state.Faulty? && StateDecision in d.port.events
  }

  /** Nobody is listed twice, and bmc is asked for whenever its last choice is no longer listed. */
  ghost predicate Orderly(d: Daemon)
    requires M.Shape(d.table)
  {
    M.Once(d.table) && (M.Stale(d.table) ==> StateDecision in d.port.events)
  }

  lemma HearingAsks(p: Port, e: Env)
    requires Inv(p) && Hears(p, e)
    ensures StateDecision in Handle(p, e).events
  {
    match e.input
    case Received(Announce(short, fromSelf, fromParent)) => AnnounceIsQuiet(p, short, fromSelf, fromParent);
  }

  lemma HeardOnce(p: Port, t: M.Table, a: Turn)
    requires Inv(p) && M.Shape(t) && M.Once(t) && !M.Stale(t)
    ensures M.Once(Heard(p, t, a))
    ensures M.Stale(Heard(p, t, a)) ==> StateDecision in Handle(p, a.env).events
  {
    if Hears(p, a.env) {
      HearingAsks(p, a.env);
      M.ListedOnceExactly(t, a.record);
    }
  }

  lemma ServedOnce(p: Port, t: M.Table, a: Turn)
    requires Inv(p) && M.Shape(t) && M.Once(t) && !M.Stale(t) && !p.state.Initializing?
    ensures M.Once(Served(p, t, a))
    ensures M.Stale(Served(p, t, a)) ==> StateDecision in Act(p, a.env).events
  {
    if p.state.Master? {
      MasterIsQuiet(p, a.env);
      IssuingIsQuiet(p, a.env);
      HeardOnce(Issue(p, a.env), t, a);
    } else {
      HeardOnce(p, t, a);
    }
  }

  lemma OrderlyKeeps(d: Daemon, a: Turn, local: Bmc.Record)
    requires Core(d) && Orderly(d) && !Overdue(d)
    ensures Core(DoState(d, a, local)) && Orderly(DoState(d, a, local))
  {
    CoreKeeps(d, a, local);
    var e := Advice(d, a.env, local);
    if Advised(d.port) {
      DecideKeeps(d.port, e);
      FollowKeeps(Decide(d.port, e), e);
      FollowLeavesFaulty(Decide(d.port, e), e);
      ServedOnce(Follow(Decide(d.port, e), e), Chosen(d, local), a.(env := e));
    }
  }

  lemma {:induction false} RunOrderly(d: Running, run: seq<Turn>, local: Bmc.Record)
    requires Orderly(d) && Prompt(d, run, local)
    ensures Orderly(Run(d, run, local))
    decreases run
  {
    if run != [] {
      OrderlyKeeps(d, run[0], local);
      RunOrderly(Next(d, run[0], local), run[1..], local);
    }
  }

  lemma CreatedCore(slaveOnly: bool, local: Bmc.Record, mechanism: Mechanism, slots: nat)
    requires slots > 0
    ensures Core(Created(slaveOnly, local, mechanism, slots)) && Orderly(Created(slaveOnly, local, mechanism, slots))
  {
  }

  /** The daemon as the thread finds it. */
  function Made(slaveOnly: bool, local: Bmc.Record, mechanism: Mechanism, slots: nat): Running
    requires slots > 0
  {
    CreatedCore(slaveOnly, local, mechanism, slots);
    Created(slaveOnly, local, mechanism, slots)
  }

  /** While no doState finds the port FAULTY with a state decision still to be made, nobody is listed twice and bmc's
      choice is one of those listed or about to be made again. */
  lemma PromptRunsListOnce(slaveOnly: bool, local: Bmc.Record, mechanism: Mechanism, slots: nat, run: seq<Turn>)
    requires slots > 0 && Prompt(Made(slaveOnly, local, mechanism, slots), run, local)
    ensures var d := Run(Made(slaveOnly, local, mechanism, slots), run, local);
            M.Once(d.table) && (M.Stale(d.table) ==> StateDecision in d.port.events)
  {
    CreatedCore(slaveOnly, local, mechanism, slots);
    RunOrderly(Made(slaveOnly, local, mechanism, slots), run, local);
  }

  // ---- which doState lists a master twice ----

  /** The port as doState has it when it comes to the actions of its state. */
  function Arrived(d: Daemon, a: Turn, local: Bmc.Record): Port
    requires M.Shape(d.table)
  {
    var e := Advice(d, a.env, local);
    Follow(Decide(d.port, e), e)
  }

  /** The actions of the state pass an Announce on to addForeign. */
  predicate Passes(p: Port, e: Env) {
    match p.state
    case Listening | Uncalibrated | Slave | Passive => !Expired(p, e, AnnounceReceipt) && Hears(p, e)
    case Master => Hears(Issue(p, e), e)
    case _ => false
  }

  /** doState passes an Announce on to addForeign. */
  predicate Attends(d: Daemon, a: Turn, local: Bmc.Record)
    requires M.Shape(d.table)
  {
    Passes(Arrived(d, a, local), a.env)
  }

  lemma ServedTable(p: Port, t: M.Table, a: Turn)
    requires M.Shape(t) && (p.state.Initializing? ==> t.i == 0)
    ensures var q := Served(p, t, a);
            && M.Shape(q)
            && if Passes(p, a.env) then q == M.Announce(t, a.record)
               else q.records == t.records && q.best == t.best && (q.count == t.count || q.count == 0)
  {
  }

  /** On arrival the table is in shape for what the state does with it. */
  lemma ArrivedKeeps(d: Daemon, a: Turn, local: Bmc.Record)
    requires Core(d)
    ensures var p := Arrived(d, a, local);
            && Inv(p) && Configuration(p) == Configuration(d.port)
            && (p.state.Initializing? ==> Chosen(d, local).i == 0)
  {
    var e := Advice(d, a.env, local);
    DecideKeeps(d.port, e);
    FollowKeeps(Decide(d.port, e), e);
  }

  /** An Announce lists a master twice where the choice is stale, the master stands in the slot that choice wraps to,
      and the choice is not itself a record of it. */
  predicate ListsTwice(t: M.Table, r: Bmc.Record)
    requires M.Shape(t)
  {
    M.Stale(t) && Bmc.SamePort(r, t.records[t.best % t.count]) && !Bmc.SamePort(r, t.records[t.best])
  }

  lemma ServedListsTwice(p: Port, t: M.Table, a: Turn)
    requires M.Shape(t) && M.Once(t) && (p.state.Initializing? ==> t.i == 0)
    ensures M.Shape(Served(p, t, a))
    ensures !M.Once(Served(p, t, a)) <==> Passes(p, a.env) && ListsTwice(t, a.record)
  {
    ServedTable(p, t, a);
    M.ListedOnceExactly(t, a.record);
  }

  lemma ChosenOnce(d: Daemon, local: Bmc.Record)
    requires M.Shape(d.table) && M.Once(d.table)
    ensures var t := Chosen(d, local);
            M.Shape(t) && M.Once(t) && if T.Decides(d.port) then !M.Stale(t) else t == d.table
  {
  }

  /** A doState lists a master twice exactly when it does not make the choice again first and passes on such an
      Announce. */
  lemma DoStateListsTwiceExactly(d: Daemon, a: Turn, local: Bmc.Record)
    requires Core(d) && M.Once(d.table)
    ensures M.Shape(DoState(d, a, local).table)
    ensures !M.Once(DoState(d, a, local).table)
            <==> !T.Decides(d.port) && Attends(d, a, local) && ListsTwice(d.table, a.record)
  {
    ArrivedKeeps(d, a, local);
    ChosenOnce(d, local);
    ServedListsTwice(Arrived(d, a, local), Chosen(d, local), a.(env := Advice(d, a.env, local)));
  }

  // ---- the configurations in which none does ----

  /** Nothing a master does after it has heard an Announce can fail, or the port is never a master, or there is one
      slot only. */
  predicate Harmless(slaveOnly: bool, clockClass: nat, mechanism: Mechanism, slots: nat) {
    !mechanism.P2P? || slaveOnly || clockClass == 255 || slots == 1
  }

  predicate HarmlessNow(d: Daemon) {
    Harmless(d.port.slaveOnly, d.port.clockClass, d.port.mechanism, |d.table.records|)
  }

  /** Whenever bmc's last choice is no longer listed, the next doState makes it again. */
  ghost predicate Renewed(d: Daemon)
    requires M.Shape(d.table)
  {
    M.Once(d.table) && (M.Stale(d.table) ==> StateDecision in d.port.events && !d.port.state.Faulty?)
  }

  /** A port that has passed on an Announce is not FAULTY when doState ends, unless it is a P2P master. */
  lemma HearingEndsWell(p: Port, e: Env)
    requires Inv(p) && Hears(if p.state.Master? then Issue(p, e) else p, e)
    requires !p.mechanism.P2P? || NeverMaster(p)
    requires p.state.Master? || !Expired(p, e, AnnounceReceipt)
    ensures StateDecision in Act(p, e).events && !Act(p, e).state.Faulty?
  {
    var q := if p.state.Master? then Issue(p, e) else p;
    IssuingIsQuiet(p, e);
    match e.input
    case Received(Announce(short, fromSelf, fromParent)) => AnnounceIsQuiet(q, short, fromSelf, fromParent);
  }

  lemma ChosenIsFresh(d: Daemon, local: Bmc.Record)
    requires Core(d) && Renewed(d)
    ensures M.Once(Chosen(d, local)) && !M.Stale(Chosen(d, local))
  {
  }

  lemma ServedRenewed(p: Port, t: M.Table, a: Turn)
    requires Inv(p) && M.Shape(t) && M.Once(t) && !M.Stale(t)
    requires Harmless(p.slaveOnly, p.clockClass, p.mechanism, |t.records|) && (p.state.Initializing? ==> t.i == 0)
    ensures var q := Served(p, t, a);
            && M.Shape(q) && M.Once(q)
            && (M.Stale(q) ==> StateDecision in Act(p, a.env).events && !Act(p, a.env).state.Faulty?)
            && (Passes(p, a.env) ==> M.Listed(q, a.record))
  {
    ServedTable(p, t, a);
    if Passes(p, a.env) {
      M.ListedOnceExactly(t, a.record);
      M.ListedExactly(t, a.record);
      if |t.records| > 1 {
        HearingEndsWell(p, a.env);
      }
    }
  }

  lemma RenewedKeeps(d: Daemon, a: Turn, local: Bmc.Record)
    requires Core(d) && Renewed(d) && HarmlessNow(d)
    ensures Core(DoState(d, a, local)) && Renewed(DoState(d, a, local)) && HarmlessNow(DoState(d, a, local))
    ensures Attends(d, a, local) ==> M.Listed(DoState(d, a, local).table, a.record)
  {
    var e := Advice(d, a.env, local);
    CoreKeeps(d, a, local);
    ChosenIsFresh(d, local);
    ArrivedKeeps(d, a, local);
    ServedRenewed(Arrived(d, a, local), Chosen(d, local), a.(env := e));
    ConfigurationStays(d.port, e);
  }

  lemma {:induction false} RunRenewed(d: Running, run: seq<Turn>, local: Bmc.Record)
    requires Renewed(d) && HarmlessNow(d)
    ensures Renewed(Run(d, run, local)) && HarmlessNow(Run(d, run, local))
    decreases run
  {
    if run != [] {
      RenewedKeeps(d, run[0], local);
      RunRenewed(Next(d, run[0], local), run[1..], local);
    }
  }

  /** In such a configuration, whatever the port hears and however its timers and sends fare, no foreign master is ever
      listed twice, and each is listed once its Announce has been passed on. */
  lemma NobodyListedTwice(slaveOnly: bool, local: Bmc.Record, mechanism: Mechanism, slots: nat, run: seq<Turn>, a: Turn)
    requires slots > 0 && Harmless(slaveOnly, local.clockClass, mechanism, slots)
    ensures var d := Run(Made(slaveOnly, local, mechanism, slots), run, local);
            && M.Once(d.table)
            && (Attends(d, a, local) ==> M.Listed(Next(d, a, local).table, a.record))
  {
    RunRenewed(Made(slaveOnly, local, mechanism, slots), run, local);
    RenewedKeeps(Run(Made(slaveOnly, local, mechanism, slots), run, local), a, local);
  }

  // ---- in all others one can be listed twice ----

  /** Another clock that announces the local clock as grandmaster, as so many steps away. */
  function Rival(local: Bmc.Record, k: nat, steps: Bmc.Int16): Bmc.Record {
    local.(source := local.source[0 := (local.source[0] + k) % 256], steps := steps)
  }

  function First(local: Bmc.Record): Bmc.Record {
    Rival(local, 1, -3)
  }

  function Second(local: Bmc.Record): Bmc.Record {
    Rival(local, 2, -1)
  }

  function Third(local: Bmc.Record): Bmc.Record {
    Rival(local, 3, 0)
  }

  /** The port initialises, hears the first clock, then the second of which bmc thinks more, and no more of either, so
      that it becomes master; then it hears the third, cannot send its delay request, and hears the third again. */
  function Script(local: Bmc.Record): seq<Turn> {
    [Turn(Plain(Nothing, {}), local),
     Turn(Plain(NEWS, {}), First(local)),
     Turn(Plain(NEWS, {}).(parentChanged := true), Second(local)),
     Turn(Plain(Nothing, {}).(parentChanged := true, expired := {AnnounceReceipt}), local),
     Turn(Plain(NEWS, {}).(expired := {PdelayReqInterval}, sendFails := {DELAY_SEND}), Third(local)),
     Turn(Plain(NEWS, {}), Third(local))]
  }

  const ASKS: set<Event> := {StateDecision}

  function Listener(c: nat): Port {
    Port(Listening, Listening, {AnnounceReceipt}, {}, false, c, P2P)
  }

  function Leader(c: nat): Port {
    Port(Master, Master, {SyncInterval, AnnounceInterval, PdelayReqInterval}, {}, false, c, P2P)
  }

  /** The port once the first clock is its master, or shuts it up. */
  function Follower(c: nat): Port {
    var passive := c < Bmc.CLASS_LIMIT;
    Port(if passive then Passive else Uncalibrated, if passive then Passive else Slave,
         {AnnounceReceipt, PdelayReqInterval}, ASKS + if passive then {} else {ClockChanged}, false, c, P2P)
  }

  /** The daemon after so many of these. */
  function Stage(n: nat, local: Bmc.Record, slots: nat): Daemon
    requires slots >= 2
  {
    var c, blank := local.clockClass, seq(slots, k => local);
    var one := blank[0 := First(local)];
    var two := one[1 := Second(local)];
    match n
    case 0 => Daemon(Initial(false, c, P2P), M.Table(blank, 0, 0, 0))
    case 1 => Daemon(Listener(c), M.Table(blank, 0, 0, 0))
    case 2 => Daemon(Listener(c).(events := ASKS), M.Table(one, 1, 1, 0))
    case 3 => Daemon(Follower(c), M.Table(two, 2, 2 % slots, 0))
    case 4 => Daemon(Leader(c), M.Table(two, 0, 0, 1))
    case 5 => Daemon(ToState(Leader(c), Faulty).(events := ASKS), M.Table(two[0 := Third(local)], 1, 1, 1))
    case _ => Daemon(Leader(c).(events := ASKS), M.Table(two[0 := Third(local)][1 := Third(local)], 2, 2 % slots, 1))
  }

  /** The local clock is not better than the first two, and the second is worse than the first. */
  lemma Rivals(local: Bmc.Record)
    requires Bmc.IsLocal(local)
    ensures Bmc.Compare(local, First(local), local.source) == -1
    ensures Bmc.Compare(local, Second(local), local.source) == 0
    ensures Bmc.Compare(Second(local), First(local), local.source) == -1
    ensures !Bmc.SamePort(Third(local), Second(local))
  {
    Bmc.MemCmpZero(local.grandmaster, local.grandmaster);
    Bmc.MemCmpZero(local.source, local.source);
  }

  lemma HearsFirst(local: Bmc.Record, slots: nat, n: nat)
    requires Bmc.IsLocal(local) && slots >= 2 && n < 2
    ensures DoState(Stage(n, local, slots), Script(local)[n], local) == Stage(n + 1, local, slots)
  {
  }

  lemma HearsSecond(local: Bmc.Record, slots: nat)
    requires Bmc.IsLocal(local) && slots >= 2
    ensures DoState(Stage(2, local, slots), Script(local)[2], local) == Stage(3, local, slots)
  {
    Rivals(local);
  }

  lemma HearsNobody(local: Bmc.Record, slots: nat)
    requires Bmc.IsLocal(local) && slots >= 2 && local.clockClass != 255
    ensures DoState(Stage(3, local, slots), Script(local)[3], local) == Stage(4, local, slots)
  {
    Rivals(local);
  }

  lemma HearsThirdAndFails(local: Bmc.Record, slots: nat)
    requires Bmc.IsLocal(local) && slots >= 2
    ensures DoState(Stage(4, local, slots), Script(local)[4], local) == Stage(5, local, slots)
  {
  }

  lemma HearsThirdAgain(local: Bmc.Record, slots: nat)
    requires Bmc.IsLocal(local) && slots >= 2
    ensures DoState(Stage(5, local, slots), Script(local)[5], local) == Stage(6, local, slots)
  {
    Rivals(local);
  }

  lemma Stages(n: nat, local: Bmc.Record, slots: nat)
    requires Bmc.IsLocal(local) && slots >= 2 && local.clockClass != 255 && n < 6
    ensures DoState(Stage(n, local, slots), Script(local)[n], local) == Stage(n + 1, local, slots)
  {
    match n
    case 2 => HearsSecond(local, slots);
    case 3 => HearsNobody(local, slots);
    case 4 => HearsThirdAndFails(local, slots);
    case 5 => HearsThirdAgain(local, slots);
    case _ => HearsFirst(local, slots, n);
  }

  /** The first two slots hold one master. */
  predicate Twice(t: M.Table, r: Bmc.Record) {
    t.count == 2 <= |t.records| && t.records[0] == t.records[1] == r
  }

  lemma {:induction false} FromStage(d: Running, n: nat, local: Bmc.Record, slots: nat)
    requires Bmc.IsLocal(local) && slots >= 2 && local.clockClass != 255 && n <= 6 && d == Stage(n, local, slots)
    ensures Twice(Run(d, Script(local)[n..], local).table, Third(local))
    decreases 6 - n
  {
    if n < 6 {
      Stages(n, local, slots);
      CoreKeeps(d, Script(local)[n], local);
      FromStage(Next(d, Script(local)[n], local), n + 1, local, slots);
    }
  }

  lemma FromFirst(run: seq<Turn>)
    ensures run[0..] == run
  {
  }

  /** A P2P port that may be master, with room for two: a fault between the announcement and bmc, and one master is
      listed twice, whatever the local clock. */
  lemma OneMasterTwice(local: Bmc.Record, slots: nat)
    requires Bmc.IsLocal(local) && slots >= 2 && local.clockClass != 255
    ensures Twice(Run(Made(false, local, P2P, slots), Script(local), local).table, Third(local))
  {
    FromFirst(Script(local));
    FromStage(Made(false, local, P2P, slots), 0, local, slots);
  }

  lemma TwiceIsNotOnce(t: M.Table, r: Bmc.Record)
    requires M.Shape(t) && Twice(t, r)
    ensures !M.Once(t)
  {
    assert Bmc.SamePort(t.records[0], t.records[1]);
  }

  /** The configuration alone decides whether a run can list a master twice. */
  lemma ListedTwiceExactly(slaveOnly: bool, local: Bmc.Record, mechanism: Mechanism, slots: nat)
    requires Bmc.IsLocal(local) && slots > 0
    ensures (forall run: seq<Turn> :: M.Once(Run(Made(slaveOnly, local, mechanism, slots), run, local).table))
            <==> Harmless(slaveOnly, local.clockClass, mechanism, slots)
  {
    if Harmless(slaveOnly, local.clockClass, mechanism, slots) {
      forall run: seq<Turn> ensures M.Once(Run(Made(slaveOnly, local, mechanism, slots), run, local).table) {
        RunRenewed(Made(slaveOnly, local, mechanism, slots), run, local);
      }
    } else {
      OneMasterTwice(local, slots);
      TwiceIsNotOnce(Run(Made(false, local, P2P, slots), Script(local), local).table, Third(local));
      assert !M.Once(Run(Made(slaveOnly, local, mechanism, slots), Script(local), local).table);
    }
  }
}
