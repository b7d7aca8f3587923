/** The port state machine of protocol.c. Network input, the servo, the timer back end and the outcome of the
    best master clock algorithm are chosen by the environment. */
module PtpPort {
  import Bmc

  datatype State =
    Initializing | Faulty | Disabled | Listening | PreMaster | Master | Passive | Uncalibrated | Slave

  datatype Timer =
    AnnounceReceipt | SyncInterval | AnnounceInterval | DelayReqInterval | PdelayReqInterval | Qualification

  datatype Event = StateDecision | ClockSelected | ClockChanged | SyncFault

  datatype Mechanism = E2E | P2P | DelayDisabled

  datatype Port = Port(
    state: State, recommended: State, timers: set<Timer>, events: set<Event>,
    slaveOnly: bool, clockClass: nat, mechanism: Mechanism)

  // ---- toState ----

  function DelayTimer(m: Mechanism): set<Timer> {
    match m
    case E2E => {DelayReqInterval}
    case P2P => {PdelayReqInterval}
    case DelayDisabled => {}
  }

  function PeerTimer(m: Mechanism): set<Timer> {
    if m.P2P? then {PdelayReqInterval} else {}
  }

  /** The timers stopped on leaving the port's state for the state to. */
  function Stopped(p: Port, to: State): set<Timer> {
    match p.state
    case Master => {SyncInterval, AnnounceInterval, PdelayReqInterval}
    case Uncalibrated | Slave =>
      if to.Uncalibrated? || to.Slave? then {} else {AnnounceReceipt} + DelayTimer(p.mechanism)
    case Passive => {PdelayReqInterval, AnnounceReceipt}
    case Listening => {AnnounceReceipt}
    case PreMaster => {Qualification}
    case _ => {}
  }

  /** The timers started on entering a state. */
  function Started(p: Port, to: State): set<Timer> {
    match to
    case Listening => {AnnounceReceipt}
    case PreMaster | Master => {SyncInterval, AnnounceInterval} + PeerTimer(p.mechanism)
    case Passive => {AnnounceReceipt} + PeerTimer(p.mechanism)
    case Uncalibrated => {AnnounceReceipt} + DelayTimer(p.mechanism)
    case _ => {}
  }

  /** toState: entering PRE_MASTER falls through to MASTER. */
  function ToState(p: Port, to: State): Port {
    p.(timers := p.timers - Stopped(p, to) + Started(p, to),
       state := if to.PreMaster? then Master else to,
       recommended := if to.Initializing? || to.Listening? then to else p.recommended)
  }

  // ---- the environment of one doState ----

  datatype Message =
    | Announce(short: bool, fromSelf: bool, fromParent: bool)
    | Sync(short: bool, fromSelf: bool, fromParent: bool, twoStep: bool)
    | FollowUp(short: bool, fromSelf: bool, accepted: bool)
    | DelayReq(short: bool)
    | DelayResp(short: bool, accepted: bool)
    | PdelayReq(short: bool, fromSelf: bool)
    | PdelayResp(short: bool)
    | PdelayRespFollowUp(short: bool)
    | Other

  datatype Input = Failed | Nothing | Runt | Filtered | Received(message: Message)

  datatype Env = Env(
    initOk: bool,                  // netInit
    best: Bmc.Recommended,         // what bmc recommends, if it runs
    parentChanged: bool,           // s1 saw a new parent
    expired: set<Timer>,           // started timers that have run out
    input: Input,                  // what handle finds on the network
    servoEvents: set<Event>,       // the event flags after the servo ran, if it runs
    sendFails: set<nat>)           // which of the sends of this doState fail

  const SYNC_SEND := 0
  const ANNOUNCE_SEND := 1
  const DELAY_SEND := 2
  const RESPONSE_SEND := 3

  predicate Expired(p: Port, e: Env, t: Timer) {
    t in p.timers && t in e.expired
  }

  function SendOr(p: Port, e: Env, n: nat): Port {
    if n in e.sendFails then ToState(p, Faulty) else p
  }

  /** issueDelayReqTimerExpired. */
  function IssueDelayReq(p: Port, e: Env): Port {
    match p.mechanism
    case E2E =>
      if p.state.Slave? && Expired(p, e, DelayReqInterval)
      then SendOr(p.(timers := p.timers + {DelayReqInterval}), e, DELAY_SEND) else p
    case P2P =>
      if Expired(p, e, PdelayReqInterval) then SendOr(p.(timers := p.timers + {PdelayReqInterval}), e, DELAY_SEND)
      else p
    case DelayDisabled => p
  }

  function HandleAnnounce(p: Port, short: bool, fromSelf: bool, fromParent: bool): Port {
    if short then ToState(p, Faulty)
    else if fromSelf then p
    else
      match p.state
      case Initializing | Faulty | Disabled => p
      case Uncalibrated | Slave =>
        p.(events := p.events + {StateDecision}, timers := p.timers + if fromParent then {AnnounceReceipt} else {})
      case Passive => p.(events := p.events + {StateDecision}, timers := p.timers + {AnnounceReceipt})
      case _ => p.(events := p.events + {StateDecision})
  }

  function HandleSync(p: Port, e: Env, short: bool, fromSelf: bool, fromParent: bool, twoStep: bool): Port {
    if short then ToState(p, Faulty)
    else
      match p.state
      case Uncalibrated | Slave =>
        if fromSelf || !fromParent || twoStep then p else IssueDelayReq(p.(events := e.servoEvents), e)
      case Passive => IssueDelayReq(p, e)
      case _ => p
  }

  function HandleFollowUp(p: Port, e: Env, short: bool, fromSelf: bool, accepted: bool): Port {
    if short then ToState(p, Faulty)
    else if fromSelf then p
    else
      match p.state
      case Uncalibrated | Slave => if accepted then IssueDelayReq(p.(events := e.servoEvents), e) else p
      case Passive => IssueDelayReq(p, e)
      case _ => p
  }

  function HandleMessage(p: Port, e: Env, m: Message): Port {
    match m
    case Announce(short, fromSelf, fromParent) => HandleAnnounce(p, short, fromSelf, fromParent)
    case Sync(short, fromSelf, fromParent, twoStep) => HandleSync(p, e, short, fromSelf, fromParent, twoStep)
    case FollowUp(short, fromSelf, accepted) => HandleFollowUp(p, e, short, fromSelf, accepted)
    case DelayReq(short) =>
      if !p.mechanism.E2E? then p
      else if short then ToState(p, Faulty)
      else if p.state.Master? then SendOr(p, e, RESPONSE_SEND) else p
    case DelayResp(short, accepted) =>
      if !p.mechanism.E2E? then p
      else if short then ToState(p, Faulty)
      else if accepted && (p.state.Uncalibrated? || p.state.Slave?) then p.(events := e.servoEvents) else p
    case PdelayReq(short, fromSelf) =>
      if !p.mechanism.P2P? then p
      else if short then ToState(p, Faulty)
      else if !fromSelf && (p.state.Passive? || p.state.Slave? || p.state.Master?) then SendOr(p, e, RESPONSE_SEND)
      else p
    case PdelayResp(short) => if p.mechanism.P2P? && short then ToState(p, Faulty) else p
    case PdelayRespFollowUp(short) => if p.mechanism.P2P? && short then ToState(p, Faulty) else p
    case Other => p
  }

  /** handle. */
  function Handle(p: Port, e: Env): Port {
    match e.input
    case Failed | Runt => ToState(p, Faulty)
    case Nothing | Filtered => p
    case Received(m) => HandleMessage(p, e, m)
  }

  // ---- doState ----

  predicate NeverMaster(p: Port) {
    p.slaveOnly || p.clockClass == 255
  }

  function Recommend(r: Bmc.Recommended): State {
    match r
    case Listening => State.Listening
    case Master => State.Master
    case Passive => State.Passive
    case Slave => State.Slave
  }

  /** The state decision event. */
  function Decide(p: Port, e: Env): Port {
    if p.state.Initializing? || p.state.Faulty? || p.state.Disabled? || StateDecision !in p.events then p
    else
      var r := Recommend(e.best);
      p.(events := p.events - {StateDecision} + (if e.best.Slave? && e.parentChanged then {ClockChanged} else {}),
         recommended := if (r.Master? || r.Passive?) && NeverMaster(p) then Listening else r)
  }

  /** The move toward the recommended state. */
  function Follow(p: Port, e: Env): Port {
    match p.recommended
    case Master =>
      if p.state.PreMaster? then (if Expired(p, e, Qualification) then ToState(p, Master) else p)
      else if p.state.Master? then p
      else ToState(p, PreMaster)
    case Passive => if p.state.Passive? then p else ToState(p, Passive)
    case Slave =>
      if p.state.Uncalibrated? then
        var p1 := if ClockSelected in p.events then ToState(p.(events := p.events - {ClockSelected}), Slave) else p;
        p1.(events := p1.events - {ClockChanged})
      else if p.state.Slave? then
        var p1 := if SyncFault in p.events then ToState(p.(events := p.events - {SyncFault}), Uncalibrated) else p;
        if ClockChanged in p1.events then ToState(p1.(events := p1.events - {ClockChanged}), Uncalibrated) else p1
      else ToState(p, Uncalibrated)
    case Listening => if p.state.Listening? then p else ToState(p, Listening)
    case _ => p
  }

  /** The Sync and Announce a master sends when they are due. */
  function Issue(p: Port, e: Env): Port {
    var q := if Expired(p, e, SyncInterval) then SendOr(p, e, SYNC_SEND) else p;
    if Expired(q, e, AnnounceInterval) then SendOr(q, e, ANNOUNCE_SEND) else q
  }

  /** The actions of the state arrived at. */
  function Act(p: Port, e: Env): Port {
    match p.state
    case Initializing => if e.initOk then ToState(p.(timers := {}), Listening) else ToState(p, Faulty)
    case Faulty => ToState(p, Initializing)
    case Disabled => Handle(p, e)
    case Listening | Uncalibrated | Slave | Passive =>
      if Expired(p, e, AnnounceReceipt) then
        if !NeverMaster(p) then ToState(p.(recommended := Master), Master)
        else if !p.state.Listening? then ToState(p, Listening)
        else p
      else Handle(p, e)
    case Master => IssueDelayReq(Handle(Issue(p, e), e), e)
    case PreMaster => p
  }

  /** doState. */
  function DoState(p: Port, e: Env): Port {
    Act(Follow(Decide(p, e), e), e)
  }

  // ---- what every run keeps ----

  /** The port state alone decides which protocol timers run. */
  predicate TimersMatch(p: Port) {
    && (AnnounceReceipt in p.timers <==> p.state in {Listening, Uncalibrated, Slave, Passive})
    && (SyncInterval in p.timers <==> p.state.Master?)
    && (AnnounceInterval in p.timers <==> p.state.Master?)
    && (DelayReqInterval in p.timers <==> p.mechanism.E2E? && p.state in {Uncalibrated, Slave})
    && (PdelayReqInterval in p.timers <==> p.mechanism.P2P? && p.state in {Master, Passive, Uncalibrated, Slave})
    && Qualification !in p.timers
  }

  predicate Inv(p: Port) {
    && TimersMatch(p) && p.state !in {PreMaster, State.Disabled}
    && p.recommended in {Initializing, Listening, Master, Passive, Slave}
    && (NeverMaster(p) ==> p.state !in {Master, Passive} && p.recommended !in {Master, Passive})
  }

  /** The port after each of a sequence of doState calls. */
  function Run(p: Port, es: seq<Env>): Port
    decreases es
  {
    if es == [] then p else Run(DoState(p, es[0]), es[1..])
  }

  function Initial(slaveOnly: bool, clockClass: nat, mechanism: Mechanism): Port {
    Port(Initializing, Initializing, {}, {}, slaveOnly, clockClass, mechanism)
  }

  /** A move the code makes from a given state, keeping the invariant. */
  lemma ToStateKeeps(p: Port, to: State)
    requires Inv(p) && (NeverMaster(p) ==> !to.Master? && !to.Passive? && !to.PreMaster?)
    requires (to.Slave? ==> p.state.Uncalibrated?) && !to.Disabled?
    requires to == p.state ==> to.Faulty? || to.Uncalibrated?
    ensures Inv(ToState(p, to)) && NeverMaster(ToState(p, to)) == NeverMaster(p)
  {
  }

  /** q is p but for its events, or the FAULTY port that p becomes. */
  predicate Quiet(p: Port, q: Port) {
    q == p.(events := q.events) || q == ToState(p, Faulty).(events := q.events)
  }

  lemma QuietKeeps(p: Port, q: Port)
    requires Inv(p) && Quiet(p, q)
    ensures Inv(q)
  {
    ToStateKeeps(p, Faulty);
  }

  lemma QuietTwice(p: Port, q: Port, r: Port)
    requires Quiet(p, q) && Quiet(q, r)
    ensures Quiet(p, r)
  {
  }

  /** The timer that asks for a delay request has run out. */
  predicate RequestDue(p: Port, e: Env) {
    match p.mechanism
    case E2E => p.state.Slave? && Expired(p, e, DelayReqInterval)
    case P2P => Expired(p, e, PdelayReqInterval)
    case DelayDisabled => false
  }

  /** Delay requests leave the port as it is, unless one is due and its send fails. */
  lemma IssueIsQuiet(p: Port, e: Env)
    requires Inv(p)
    ensures var q := IssueDelayReq(p, e);
            && Quiet(p, q) && q.events == p.events
            && (q != p <==> RequestDue(p, e) && DELAY_SEND in e.sendFails)
  {
    assert DelayReqInterval in p.timers ==> p.timers + {DelayReqInterval} == p.timers;
    assert PdelayReqInterval in p.timers ==> p.timers + {PdelayReqInterval} == p.timers;
  }

  /** An Announce asks for a state decision, or is too short and makes the port FAULTY; it starts no timer anew. */
  lemma AnnounceIsQuiet(p: Port, short: bool, fromSelf: bool, fromParent: bool)
    requires Inv(p)
    ensures var q := HandleAnnounce(p, short, fromSelf, fromParent);
            && Quiet(p, q) && q.state == (if short then Faulty else p.state)
            && q.events == if short || fromSelf || p.state in {Initializing, Faulty} then p.events
                           else p.events + {StateDecision}
  {
    assert AnnounceReceipt in p.timers ==> p.timers + {AnnounceReceipt} == p.timers;
  }

  lemma ServoIsQuiet(p: Port, e: Env)
    requires Inv(p)
    ensures Quiet(p, IssueDelayReq(p, e)) && Quiet(p, IssueDelayReq(p.(events := e.servoEvents), e))
  {
    IssueIsQuiet(p, e);
    IssueIsQuiet(p.(events := e.servoEvents), e);
    QuietTwice(p, p.(events := e.servoEvents), IssueDelayReq(p.(events := e.servoEvents), e));
  }

  lemma MessageIsQuiet(p: Port, e: Env, m: Message)
    requires Inv(p)
    ensures Quiet(p, HandleMessage(p, e, m))
  {
    match m
    case Announce(short, fromSelf, fromParent) => AnnounceIsQuiet(p, short, fromSelf, fromParent);
    case Sync(_, _, _, _) => ServoIsQuiet(p, e);
    case FollowUp(_, _, _) => ServoIsQuiet(p, e);
    case _ =>
  }

  /** No message moves the port anywhere but to FAULTY, or starts or stops a timer otherwise. */
  lemma HandleIsQuiet(p: Port, e: Env)
    requires Inv(p)
    ensures Quiet(p, Handle(p, e)) && Inv(Handle(p, e))
  {
    if e.input.Received? {
      MessageIsQuiet(p, e, e.input.message);
    }
    QuietKeeps(p, Handle(p, e));
  }

  lemma DecideKeeps(p: Port, e: Env)
    requires Inv(p)
    ensures Inv(Decide(p, e))
  {
  }

  lemma FollowKeeps(p: Port, e: Env)
    requires Inv(p)
    ensures Inv(Follow(p, e))
  {
  }

  lemma IssuingIsQuiet(p: Port, e: Env)
    requires Inv(p)
    ensures Quiet(p, Issue(p, e)) && Issue(p, e).events == p.events && Inv(Issue(p, e))
  {
    var q := if Expired(p, e, SyncInterval) then SendOr(p, e, SYNC_SEND) else p;
    QuietKeeps(p, q);
    QuietTwice(p, q, Issue(p, e));
    QuietKeeps(p, Issue(p, e));
  }

  lemma MasterIsQuiet(p: Port, e: Env)
    requires Inv(p) && p.state.Master?
    ensures Quiet(p, Act(p, e)) && Act(p, e).events == Handle(Issue(p, e), e).events
  {
    IssuingIsQuiet(p, e);
    var q := Handle(Issue(p, e), e);
    HandleIsQuiet(Issue(p, e), e);
    QuietTwice(p, Issue(p, e), q);
    IssueIsQuiet(q, e);
    QuietTwice(p, q, IssueDelayReq(q, e));
  }

  lemma ActKeeps(p: Port, e: Env)
    requires Inv(p)
    ensures Inv(Act(p, e))
  {
    match p.state
    case Master => MasterIsQuiet(p, e); QuietKeeps(p, Act(p, e));
    case Initializing | Faulty => ActToStart(p, e);
    case _ => ActAwaiting(p, e);
  }

  lemma ActToStart(p: Port, e: Env)
    requires Inv(p) && (p.state.Initializing? || p.state.Faulty?)
    ensures Inv(Act(p, e))
  {
  }

  lemma ActAwaiting(p: Port, e: Env)
    requires Inv(p) && p.state in {Listening, Uncalibrated, Slave, Passive}
    ensures Inv(Act(p, e))
  {
    if !Expired(p, e, AnnounceReceipt) {
      HandleIsQuiet(p, e);
    } else if !NeverMaster(p) {
      ToStateKeeps(p.(recommended := Master), Master);
    } else if !p.state.Listening? {
      ToStateKeeps(p, Listening);
    }
  }

  lemma {:induction false} RunKeeps(p: Port, es: seq<Env>)
    requires Inv(p)
    ensures Inv(Run(p, es)) && Configuration(Run(p, es)) == Configuration(p)
    decreases es
  {
    if es != [] {
      DecideKeeps(p, es[0]);
      FollowKeeps(Decide(p, es[0]), es[0]);
      ActKeeps(Follow(Decide(p, es[0]), es[0]), es[0]);
      ConfigurationStays(p, es[0]);
      RunKeeps(DoState(p, es[0]), es[1..]);
    }
  }

  function Configuration(p: Port): (bool, nat, Mechanism) {
    (p.slaveOnly, p.clockClass, p.mechanism)
  }

  lemma ConfigurationStays(p: Port, e: Env)
    ensures Configuration(DoState(p, e)) == Configuration(p)
  {
    ActConfiguration(Follow(Decide(p, e), e), e);
  }

  lemma HandleConfiguration(p: Port, e: Env)
    ensures Configuration(Handle(p, e)) == Configuration(p)
  {
  }

  lemma ActConfiguration(p: Port, e: Env)
    ensures Configuration(Act(p, e)) == Configuration(p)
  {
    HandleConfiguration(p, e);
    HandleConfiguration(Issue(p, e), e);
  }

  /** Over every run of doState and whatever the environment does: the announce receipt timer runs exactly in
      LISTENING, UNCALIBRATED, SLAVE and PASSIVE, the sync and announce timers exactly in MASTER, the delay
      request timer of the mechanism in use exactly where requests are due; and a slave-only or class 255
      port is never MASTER or PASSIVE, and no port is ever PRE_MASTER. */
  lemma EveryRun(slaveOnly: bool, clockClass: nat, mechanism: Mechanism, es: seq<Env>)
    ensures var p := Run(Initial(slaveOnly, clockClass, mechanism), es);
            && (AnnounceReceipt in p.timers <==> p.state in {Listening, Uncalibrated, Slave, Passive})
            && (SyncInterval in p.timers <==> p.state.Master?) && (AnnounceInterval in p.timers <==> p.state.Master?)
            && (DelayReqInterval in p.timers <==> mechanism.E2E? && p.state in {Uncalibrated, Slave})
            && (PdelayReqInterval in p.timers <==> mechanism.P2P? && p.state in {Master, Passive, Uncalibrated, Slave})
            && (slaveOnly || clockClass == 255 ==> p.state !in {Master, Passive})
            && p.state !in {PreMaster, State.Disabled}
  {
    RunKeeps(Initial(slaveOnly, clockClass, mechanism), es);
  }

  /** The port has been initialised, and something has been recommended since. */
  predicate Advised(p: Port) {
    !p.state.Initializing? && !p.recommended.Initializing?
  }

  lemma FollowLeavesFaulty(p: Port, e: Env)
    requires Inv(p) && Advised(p)
    ensures Advised(Follow(p, e)) && !Follow(p, e).state.Faulty?
  {
  }

  lemma ActStaysAdvised(p: Port, e: Env)
    requires Inv(p) && Advised(p) && !p.state.Faulty?
    ensures Advised(Act(p, e))
  {
    HandleIsQuiet(p, e);
    if p.state.Master? {
      MasterIsQuiet(p, e);
    }
  }

  /** A faulty port starts over only if nothing was recommended since it last initialised; otherwise the
      recommendation takes it out of FAULTY directly. */
  lemma FaultRestartsExactly(p: Port, e: Env)
    requires Inv(p) && p.state.Faulty?
    ensures DoState(p, e).state.Initializing? <==> p.recommended.Initializing?
  {
    if !p.recommended.Initializing? {
      FollowKeeps(p, e);
      FollowLeavesFaulty(p, e);
      ActStaysAdvised(Follow(p, e), e);
    }
  }

  lemma StaysAdvised(p: Port, e: Env)
    requires Inv(p) && Advised(p)
    ensures Inv(DoState(p, e)) && Advised(DoState(p, e))
  {
    DecideKeeps(p, e);
    FollowKeeps(Decide(p, e), e);
    ActKeeps(Follow(Decide(p, e), e), e);
    FollowLeavesFaulty(Decide(p, e), e);
    ActStaysAdvised(Follow(Decide(p, e), e), e);
  }

  lemma {:induction false} AdvisedForGood(p: Port, es: seq<Env>)
    requires Inv(p) && Advised(p)
    ensures Advised(Run(p, es))
    decreases es
  {
    if es != [] {
      StaysAdvised(p, es[0]);
      AdvisedForGood(DoState(p, es[0]), es[1..]);
    }
  }

  lemma {:induction false} RunOn(p: Port, es: seq<Env>, fs: seq<Env>)
    ensures Run(p, es + fs) == Run(Run(p, es), fs)
    decreases es
  {
    if es == [] {
      assert es + fs == fs;
    } else {
      assert (es + fs)[0] == es[0] && (es + fs)[1..] == es[1..] + fs;
      RunOn(DoState(p, es[0]), es[1..], fs);
    }
  }

  /** A port that has once been initialised and advised never initialises again, whatever faults follow. Entering
      LISTENING is advice enough. */
  lemma NeverInitialisesAgain(slaveOnly: bool, clockClass: nat, mechanism: Mechanism, es: seq<Env>, fs: seq<Env>)
    requires Advised(Run(Initial(slaveOnly, clockClass, mechanism), es))
    ensures !Run(Initial(slaveOnly, clockClass, mechanism), es + fs).state.Initializing?
  {
    RunKeeps(Initial(slaveOnly, clockClass, mechanism), es);
    AdvisedForGood(Run(Initial(slaveOnly, clockClass, mechanism), es), fs);
    RunOn(Initial(slaveOnly, clockClass, mechanism), es, fs);
  }

  lemma RunOne(p: Port, e: Env, q: Port, es: seq<Env>)
    requires DoState(p, e) == q
    ensures Run(p, [e] + es) == Run(q, es)
  {
    assert ([e] + es)[1..] == es;
  }

  /** A doState in which no timer runs out, no send fails and nothing is to be initialised. */
  function Plain(input: Input, servoEvents: set<Event>): Env {
    Env(true, Bmc.Slave, false, {}, input, servoEvents, {})
  }

  const NEWS: Input := Received(Announce(false, false, false))
  const SYNC: Input := Received(Sync(false, false, true, false))
  const PORT: Port := Port(Listening, Listening, {AnnounceReceipt}, {}, false, 248, E2E)
  const CALIBRATED: Port := PORT.(state := Slave, recommended := Slave, timers := {AnnounceReceipt, DelayReqInterval})

  /** How a port becomes SLAVE: it initialises, hears a master, is recommended SLAVE, and is synchronised. */
  function BecomeSlave(): seq<Env> {
    [Plain(Nothing, {}), Plain(NEWS, {}), Plain(SYNC, {ClockSelected, ClockChanged}).(parentChanged := true),
     Plain(Nothing, {})]
  }

  lemma SlaveIsReached()
    ensures Run(Initial(false, 248, E2E), BecomeSlave()) == CALIBRATED
  {
    var p0 := Initial(false, 248, E2E);
    var p2 := PORT.(events := {StateDecision});
    var p3 := CALIBRATED.(state := Uncalibrated, events := {ClockSelected, ClockChanged});
    var e := BecomeSlave();
    assert DoState(p0, e[0]) == PORT;
    assert DoState(PORT, e[1]) == p2;
    assert DoState(p2, e[2]) == p3;
    assert DoState(p3, e[3]) == CALIBRATED;
    RunOne(p3, e[3], CALIBRATED, []);
    RunOne(p2, e[2], p3, [e[3]]);
    RunOne(PORT, e[1], p2, [e[2], e[3]]);
    RunOne(p0, e[0], PORT, [e[1], e[2], e[3]]);
    assert e == [e[0]] + [e[1], e[2], e[3]] && [e[1], e[2], e[3]] == [e[1]] + [e[2], e[3]];
    assert [e[2], e[3]] == [e[2]] + [e[3]] && [e[3]] == [e[3]] + [];
  }

  /** The port that cannot send its delay request. */
  lemma RequestFails()
    ensures var e := Plain(SYNC, {}).(expired := {DelayReqInterval}, sendFails := {DELAY_SEND});
            DoState(CALIBRATED, e) == ToState(CALIBRATED, Faulty)
  {
    assert CALIBRATED.timers + {DelayReqInterval} == CALIBRATED.timers;
  }

  lemma FaultyGoesOn()
    ensures DoState(ToState(CALIBRATED, Faulty), Plain(Nothing, {})).state.Uncalibrated?
  {
  }

  /** A slave whose delay request cannot be sent is uncalibrated again without having been initialised. */
  lemma SendFailureSkipsRestart()
    ensures var e := Plain(SYNC, {}).(expired := {DelayReqInterval}, sendFails := {DELAY_SEND});
            var p := Run(Initial(false, 248, E2E), BecomeSlave() + [e]);
            p.state.Faulty? && DoState(p, Plain(Nothing, {})).state.Uncalibrated?
  {
    var e := Plain(SYNC, {}).(expired := {DelayReqInterval}, sendFails := {DELAY_SEND});
    SlaveIsReached();
    RunOn(Initial(false, 248, E2E), BecomeSlave(), [e]);
    RequestFails();
    RunOne(CALIBRATED, e, ToState(CALIBRATED, Faulty), []);
    assert [e] + [] == [e];
    FaultyGoesOn();
  }

  /** doState comes to act on messages with a state decision still pending exactly if it found the port initialising
      or faulty: only then has bmc not run since the announcement that asked for it. */
  lemma DecisionStaysPendingExactly(p: Port, e: Env)
    requires Inv(p)
    ensures StateDecision in Follow(Decide(p, e), e).events
       <==> StateDecision in p.events && (p.state.Initializing? || p.state.Faulty?)
  {
  }

  const LEADER: Port := Port(Master, Master, {SyncInterval, AnnounceInterval, PdelayReqInterval}, {}, false, 248, P2P)

  /** How a port becomes MASTER: it initialises, and nobody announces himself. */
  function BecomeMaster(): seq<Env> {
    [Plain(Nothing, {}), Plain(Nothing, {}).(expired := {AnnounceReceipt})]
  }

  lemma MasterIsReached()
    ensures Run(Initial(false, 248, P2P), BecomeMaster()) == LEADER
  {
    var p0, p1, e := Initial(false, 248, P2P), PORT.(mechanism := P2P), BecomeMaster();
    assert DoState(p0, e[0]) == p1;
    assert DoState(p1, e[1]) == LEADER;
    RunOne(p1, e[1], LEADER, []);
    RunOne(p0, e[0], p1, [e[1]]);
    assert e == [e[0]] + [e[1]] && [e[1]] == [e[1]] + [];
  }

  /** A P2P master that hears a foreign master and then fails to send a delay request hears the next one before bmc has
      run for the first. */
  lemma FaultSkipsDecision()
    ensures var e := Plain(NEWS, {}).(expired := {PdelayReqInterval}, sendFails := {DELAY_SEND});
            var p := Run(Initial(false, 248, P2P), BecomeMaster() + [e]);
            var r := Follow(Decide(p, Plain(NEWS, {})), Plain(NEWS, {}));
            && p.state.Faulty? && r.state.Master? && StateDecision in r.events
            && DoState(p, Plain(NEWS, {})) == HandleAnnounce(r, false, false, false)
  {
    var e := Plain(NEWS, {}).(expired := {PdelayReqInterval}, sendFails := {DELAY_SEND});
    MasterIsReached();
    RunOn(Initial(false, 248, P2P), BecomeMaster(), [e]);
    var q := ToState(LEADER.(events := {StateDecision}), Faulty);
    assert LEADER.timers + {PdelayReqInterval} == LEADER.timers;
    assert DoState(LEADER, e) == q;
    RunOne(LEADER, e, q, []);
    assert [e] + [] == [e];
  }
}
