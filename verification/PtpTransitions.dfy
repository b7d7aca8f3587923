/** Which state each doState leads to, and which messages have what effect: the port state machine as a table. */
module PtpTransitions {
  import Bmc
  import opened PtpPort

  // ---- from recommendation and events to a state ----

  /** What bmc's result is to a port: one that may not be master listens instead. */
  function Advice(p: Port, r: Bmc.Recommended): State {
    match r
    case Slave => State.Slave
    case Listening => State.Listening
    case Master => if NeverMaster(p) then State.Listening else State.Master
    case Passive => if NeverMaster(p) then State.Listening else State.Passive
  }

  /** A decision is made if one is pending and the port runs. */
  predicate Decides(p: Port) {
    StateDecision in p.events && !p.state.Initializing? && !p.state.Faulty? && !p.state.Disabled?
  }

  function Recommendation(p: Port, e: Env): State {
    if Decides(p) then Advice(p, e.best) else p.recommended
  }

  /** The servo has settled on a clock. */
  predicate Selected(p: Port) {
    ClockSelected in p.events
  }

  /** The slave has lost its clock: the servo failed, or the parent changed, perhaps by this very decision. */
  predicate Disturbed(p: Port, e: Env) {
    SyncFault in p.events || ClockChanged in p.events || (Decides(p) && e.best.Slave? && e.parentChanged)
  }

  /** Where a recommendation leads from a state. A slave is always uncalibrated first. */
  function Toward(from: State, r: State, selected: bool, disturbed: bool): State {
    if !r.Slave? then (if r.Initializing? then from else r)
    else if from.Uncalibrated? then (if selected then State.Slave else Uncalibrated)
    else if from.Slave? then (if disturbed then Uncalibrated else State.Slave)
    else Uncalibrated
  }

  /** The state in which doState comes to act. */
  function Arrival(p: Port, e: Env): State {
    Toward(p.state, Recommendation(p, e), Selected(p), Disturbed(p, e))
  }

  /** The events still to be seen to on arrival: those that made the port decide or move are spent. */
  function Remaining(p: Port, e: Env): set<Event> {
    var decided := if !Decides(p) then p.events
      else p.events - {StateDecision} + if e.best.Slave? && e.parentChanged then {ClockChanged} else {};
    if !Recommendation(p, e).Slave? then decided
    else if p.state.Uncalibrated? then decided - {ClockSelected, ClockChanged}
    else if p.state.Slave? then decided - {SyncFault, ClockChanged}
    else decided
  }

  lemma DecidesAdvice(p: Port, e: Env)
    ensures Decide(p, e).recommended == Recommendation(p, e) && Decide(p, e).state == p.state
    ensures Configuration(Decide(p, e)) == Configuration(p) && Decide(p, e).timers == p.timers
    ensures ClockSelected in Decide(p, e).events <==> Selected(p)
    ensures SyncFault in Decide(p, e).events || ClockChanged in Decide(p, e).events <==> Disturbed(p, e)
  {
  }

  lemma FollowsToward(p: Port, e: Env)
    requires Inv(p)
    ensures Follow(p, e).state
         == Toward(p.state, p.recommended, ClockSelected in p.events, SyncFault in p.events || ClockChanged in p.events)
    ensures Follow(p, e).recommended == p.recommended && Configuration(Follow(p, e)) == Configuration(p)
  {
  }

  lemma SpentExactly(p: Port, e: Env)
    requires Inv(p)
    ensures Follow(Decide(p, e), e).events == Remaining(p, e)
  {
  }

  /** After the decision and the move the port is where the table says, with the recommendation it was given. */
  lemma ArrivesExactly(p: Port, e: Env)
    requires Inv(p)
    ensures var q := Follow(Decide(p, e), e);
            && Inv(q) && q.state == Arrival(p, e) && q.recommended == Recommendation(p, e)
            && Configuration(q) == Configuration(p) && q.events == Remaining(p, e)
  {
    DecidesAdvice(p, e);
    SpentExactly(p, e);
    DecideKeeps(p, e);
    FollowsToward(Decide(p, e), e);
    FollowKeeps(Decide(p, e), e);
  }

  // ---- faults ----

  /** A Sync or Follow_Up that the port takes, after which a delay request may be due. */
  predicate Synchronises(p: Port, m: Message) {
    match m
    case Sync(short, fromSelf, fromParent, twoStep) =>
      !short && p.state in {Uncalibrated, State.Slave} && !fromSelf && fromParent && !twoStep
    case FollowUp(short, fromSelf, accepted) =>
      !short && p.state in {Uncalibrated, State.Slave} && !fromSelf && accepted
    case _ => false
  }

  /** A passive port only measures. */
  predicate Measures(p: Port, m: Message) {
    p.state.Passive? && match m
      case Sync(short, _, _, _) => !short
      case FollowUp(short, fromSelf, _) => !short && !fromSelf
      case _ => false
  }

  /** The message is one of the mechanism in use. */
  predicate Ours(p: Port, m: Message) {
    match m
    case DelayReq(_) | DelayResp(_, _) => p.mechanism.E2E?
    case PdelayReq(_, _) | PdelayResp(_) | PdelayRespFollowUp(_) => p.mechanism.P2P?
    case Other => false
    case _ => true
  }

  predicate Short(m: Message) {
    match m
    case Announce(short, _, _) => short
    case Sync(short, _, _, _) => short
    case FollowUp(short, _, _) => short
    case DelayReq(short) => short
    case DelayResp(short, _) => short
    case PdelayReq(short, _) => short
    case PdelayResp(short) => short
    case PdelayRespFollowUp(short) => short
    case Other => false
  }

  /** The message asks for a response, and the port gives it. */
  predicate Answers(p: Port, m: Message) {
    match m
    case DelayReq(_) => p.state.Master?
    case PdelayReq(_, fromSelf) => !fromSelf && p.state in {State.Passive, State.Slave, State.Master}
    case _ => false
  }

  /** What makes a message the end of a port: it is too short for its type, or something sent because of it fails. */
  predicate Faults(p: Port, e: Env) {
    match e.input
    case Failed | Runt => true
    case Nothing | Filtered => false
    case Received(m) =>
      Ours(p, m)
      && (|| Short(m)
          || (Answers(p, m) && RESPONSE_SEND in e.sendFails)
          || ((Synchronises(p, m) || Measures(p, m)) && RequestDue(p, e) && DELAY_SEND in e.sendFails))
  }

  /** The servo runs on what was received. */
  predicate Steers(p: Port, m: Message) {
    || Synchronises(p, m)
    || (m.DelayResp? && p.mechanism.E2E? && !m.short && m.accepted && p.state in {Uncalibrated, State.Slave})
  }

  /** Another clock announces itself. */
  predicate Announces(p: Port, m: Message) {
    m.Announce? && !m.short && !m.fromSelf && p.state !in {Initializing, Faulty, State.Disabled}
  }

  /** The events after a message. */
  function Heard(p: Port, e: Env): set<Event> {
    if !e.input.Received? then p.events
    else if Announces(p, e.input.message) then p.events + {StateDecision}
    else if Steers(p, e.input.message) then e.servoEvents
    else p.events
  }

  lemma AnnounceExactly(p: Port, e: Env, short: bool, fromSelf: bool, fromParent: bool)
    requires Inv(p) && e.input == Received(Announce(short, fromSelf, fromParent))
    ensures var q := Handle(p, e); q.state == (if Faults(p, e) then Faulty else p.state) && q.events == Heard(p, e)
  {
    AnnounceIsQuiet(p, short, fromSelf, fromParent);
  }

  /** A Sync or Follow_Up. */
  lemma SyncExactly(p: Port, e: Env, m: Message)
    requires Inv(p) && e.input == Received(m) && (m.Sync? || m.FollowUp?)
    ensures var q := Handle(p, e); q.state == (if Faults(p, e) then Faulty else p.state) && q.events == Heard(p, e)
  {
    IssueIsQuiet(p, e);
    IssueIsQuiet(p.(events := e.servoEvents), e);
  }

  lemma DelayExactly(p: Port, e: Env, m: Message)
    requires Inv(p) && e.input == Received(m) && !m.Announce? && !m.Sync? && !m.FollowUp?
    ensures var q := Handle(p, e); q.state == (if Faults(p, e) then Faulty else p.state) && q.events == Heard(p, e)
  {
  }

  /** What a message does to the port, and nothing else: FAULTY in the cases named, and otherwise the state it was in; a
      state decision is asked for by another clock's Announce, and the servo's findings replace the events. */
  lemma HandleExactly(p: Port, e: Env)
    requires Inv(p)
    ensures var q := Handle(p, e);
            && q.state == (if Faults(p, e) then Faulty else p.state) && q.events == Heard(p, e)
            && q.recommended == p.recommended && Quiet(p, q)
  {
    HandleIsQuiet(p, e);
    if e.input.Received? {
      var m := e.input.message;
      if m.Announce? {
        AnnounceExactly(p, e, m.short, m.fromSelf, m.fromParent);
      } else if m.Sync? || m.FollowUp? {
        SyncExactly(p, e, m);
      } else {
        DelayExactly(p, e, m);
      }
    }
  }

  // ---- one doState ----

  predicate Awaits(s: State) {
    s in {State.Listening, Uncalibrated, State.Slave, State.Passive}
  }

  /** A master cannot send its Sync or Announce when they are due. */
  predicate IssueFails(e: Env) {
    || (SyncInterval in e.expired && SYNC_SEND in e.sendFails)
    || (AnnounceInterval in e.expired && ANNOUNCE_SEND in e.sendFails)
  }

  /** A port that measures the delay to its peer cannot send its request when it is due. */
  predicate PeerRequestFails(p: Port, e: Env) {
    p.mechanism.P2P? && PdelayReqInterval in e.expired && DELAY_SEND in e.sendFails
  }

  /** The port as it comes to act. */
  function Arrived(p: Port, e: Env): Port {
    Follow(Decide(p, e), e)
  }

  /** The state a doState ends in. */
  function Outcome(p: Port, e: Env): State {
    var at := Arrival(p, e);
    match at
    case Initializing => if e.initOk then State.Listening else Faulty
    case Faulty => Initializing
    case Master =>
      if IssueFails(e) || Faults(Arrived(p, e), e) || PeerRequestFails(p, e) then Faulty else State.Master
    case _ =>
      if AnnounceReceipt in e.expired then (if NeverMaster(p) then State.Listening else State.Master)
      else if Faults(Arrived(p, e), e) then Faulty
      else at
  }

  /** The recommendation a doState ends with. */
  function OutcomeAdvice(p: Port, e: Env): State {
    var at := Arrival(p, e);
    match at
    case Initializing => if e.initOk then State.Listening else Recommendation(p, e)
    case Faulty => Initializing
    case Master => Recommendation(p, e)
    case _ =>
      if AnnounceReceipt !in e.expired then Recommendation(p, e)
      else if !NeverMaster(p) then State.Master
      else if at.Listening? then Recommendation(p, e)
      else State.Listening
  }

  /** The events a doState ends with. */
  function OutcomeEvents(p: Port, e: Env): set<Event> {
    var (at, q) := (Arrival(p, e), Arrived(p, e));
    match at
    case Initializing => q.events
    case Faulty => q.events
    case Master => Heard(Issue(q, e), e)
    case _ => if AnnounceReceipt in e.expired then q.events else Heard(q, e)
  }

  lemma MasterActs(p: Port, e: Env)
    requires Inv(p) && p.state.Master?
    ensures var q := Act(p, e);
            && q.state == (if IssueFails(e) || Faults(p, e) || PeerRequestFails(p, e) then Faulty else State.Master)
            && q.recommended == p.recommended && q.events == Heard(Issue(p, e), e)
  {
    IssuingIsQuiet(p, e);
    var q := Issue(p, e);
    HandleExactly(q, e);
    IssueIsQuiet(Handle(q, e), e);
  }

  lemma AwaitingActs(p: Port, e: Env)
    requires Inv(p) && Awaits(p.state)
    ensures var q := Act(p, e);
            if AnnounceReceipt in e.expired then
              && q.state == (if NeverMaster(p) then State.Listening else State.Master) && q.events == p.events
              && q.recommended == (if !NeverMaster(p) then State.Master
                                   else if p.state.Listening? then p.recommended else State.Listening)
            else q.state == (if Faults(p, e) then Faulty else p.state)
                 && q.recommended == p.recommended && q.events == Heard(p, e)
  {
    HandleExactly(p, e);
  }

  /** The state every doState ends in, with its recommendation and events, by the state it found, what was recommended,
      the events, and what the environment does. */
  lemma DoStateExactly(p: Port, e: Env)
    requires Inv(p)
    ensures var q := DoState(p, e);
            q.state == Outcome(p, e) && q.recommended == OutcomeAdvice(p, e) && q.events == OutcomeEvents(p, e)
  {
    ArrivesExactly(p, e);
    var q := Arrived(p, e);
    if q.state.Master? {
      MasterActs(q, e);
    } else if Awaits(q.state) {
      AwaitingActs(q, e);
    }
  }

  // ---- the lines of the table ----

  /** A port that hears no master any more becomes one, or listens if it may not. */
  lemma SilenceMakesMaster(p: Port, e: Env)
    requires Inv(p) && Awaits(p.state) && !Recommendation(p, e).Master? && AnnounceReceipt in e.expired
    ensures DoState(p, e).state == if NeverMaster(p) then State.Listening else State.Master
  {
    DoStateExactly(p, e);
  }

  /** With nothing received or run out, a decision leads where bmc says, by way of UNCALIBRATED to SLAVE. */
  lemma DecisionLeads(p: Port, e: Env)
    requires Inv(p) && Decides(p) && e.input.Nothing? && e.expired == {}
    ensures var q := DoState(p, e).state;
            match Advice(p, e.best)
            case Slave =>
              if p.state.Slave? then q == (if Disturbed(p, e) then Uncalibrated else State.Slave)
              else q == if p.state.Uncalibrated? && Selected(p) then State.Slave else Uncalibrated
            case r => q == r
  {
    DoStateExactly(p, e);
  }
}
