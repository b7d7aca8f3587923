/** protocol.c and the daemon loop of ptpd.c in their own form: a port record updated in place, whose state alone
    decides which timers run. */
module PtpProtocol {
  import opened P = PtpPort
  import T = PtpTransitions

  class PtpClock {
    var portState: State
    var recommendedState: State
    var timers: set<Timer>
    var events: set<Event>
    var slaveOnly: bool
    var clockClass: nat
    var delayMechanism: Mechanism

    ghost function View(): Port
      reads this
    {
      Port(portState, recommendedState, timers, events, slaveOnly, clockClass, delayMechanism)
    }

    ghost predicate Valid()
      reads this
    {
      P.Inv(View())
    }

    /** The rules for the timers and for ports that may not be master. */
    ghost predicate FollowsRules()
      reads this
    {
      && (AnnounceReceipt in timers <==> portState in {Listening, Uncalibrated, Slave, Passive})
      && (SyncInterval in timers <==> portState == Master) && (AnnounceInterval in timers <==> portState == Master)
      && (slaveOnly || clockClass == 255 ==> portState !in {Master, Passive})
    }

    constructor (onlySlave: bool, quality: nat, mechanism: Mechanism)
      ensures Valid() && FollowsRules() && View() == Initial(onlySlave, quality, mechanism)
    {
      portState, recommendedState, timers, events := Initializing, Initializing, {}, {};
      slaveOnly, clockClass, delayMechanism := onlySlave, quality, mechanism;
    }

    method TimerStart(t: Timer)
      modifies `timers
      ensures timers == old(timers) + {t}
    {
      timers := timers + {t};
    }

    method TimerStop(t: Timer)
      modifies `timers
      ensures timers == old(timers) - {t}
    {
      timers := timers - {t};
    }

    /** The leaving half of toState. */
    method Leave(state: State)
      modifies `timers
      ensures timers == old(timers) - Stopped(old(View()), state)
    {
      match portState
      case Master =>
        TimerStop(SyncInterval);
        TimerStop(AnnounceInterval);
        TimerStop(PdelayReqInterval);
      case Uncalibrated | Slave =>
        if state != Uncalibrated && state != Slave {
          TimerStop(AnnounceReceipt);
          match delayMechanism
          case E2E => TimerStop(DelayReqInterval);
          case P2P => TimerStop(PdelayReqInterval);
          case DelayDisabled =>
        }
      case Passive =>
        TimerStop(PdelayReqInterval);
        TimerStop(AnnounceReceipt);
      case Listening => TimerStop(AnnounceReceipt);
      case PreMaster => TimerStop(Qualification);
      case _ =>
    }

    /** The entering half of toState. */
    method Enter(state: State)
      modifies `timers, `portState, `recommendedState
      ensures timers == old(timers) + Started(old(View()), state)
      ensures portState == if state.PreMaster? then Master else state
      ensures recommendedState == if state.Initializing? || state.Listening? then state else old(recommendedState)
    {
      match state
      case Initializing =>
        portState := Initializing;
        recommendedState := Initializing;
      case Listening =>
        TimerStart(AnnounceReceipt);
        portState := Listening;
        recommendedState := Listening;
      case PreMaster | Master =>
        TimerStart(SyncInterval);
        TimerStart(AnnounceInterval);
        if delayMechanism.P2P? {
          TimerStart(PdelayReqInterval);
        }
        portState := Master;
      case Passive =>
        TimerStart(AnnounceReceipt);
        if delayMechanism.P2P? {
          TimerStart(PdelayReqInterval);
        }
        portState := Passive;
      case Uncalibrated =>
        TimerStart(AnnounceReceipt);
        match delayMechanism {
          case E2E => TimerStart(DelayReqInterval);
          case P2P => TimerStart(PdelayReqInterval);
          case DelayDisabled =>
        }
        portState := Uncalibrated;
      case _ => portState := state;
    }

    method ToState(state: State)
      modifies `timers, `portState, `recommendedState
      ensures View() == P.ToState(old(View()), state)
    {
      Leave(state);
      Enter(state);
    }

    /** issueDelayReqTimerExpired: the port stays as it is, unless a request is due and cannot be sent. */
    method IssueDelayReqTimerExpired(e: Env)
      modifies `timers, `portState, `recommendedState
      ensures View() == IssueDelayReq(old(View()), e)
      ensures old(Valid()) ==> Valid() && Quiet(old(View()), View())
      ensures old(Valid()) ==> (View() != old(View()) <==> RequestDue(old(View()), e) && DELAY_SEND in e.sendFails)
    {
      if Valid() {
        IssueIsQuiet(View(), e);
        QuietKeeps(View(), IssueDelayReq(View(), e));
      }
      if delayMechanism.E2E? && portState == Slave && DelayReqInterval in timers && DelayReqInterval in e.expired {
        TimerStart(DelayReqInterval);
        Send(e, DELAY_SEND);
      } else if delayMechanism.P2P? && PdelayReqInterval in timers && PdelayReqInterval in e.expired {
        TimerStart(PdelayReqInterval);
        Send(e, DELAY_SEND);
      }
    }

    /** A send that may fail. */
    method Send(e: Env, n: nat)
      modifies `timers, `portState, `recommendedState
      ensures View() == SendOr(old(View()), e, n)
    {
      if n in e.sendFails {
        ToState(Faulty);
      }
    }

    /** handleAnnounce: another clock's Announce asks for a state decision, a short one makes the port FAULTY, and
        neither starts or stops a timer otherwise. */
    method HandleAnnounce(short: bool, fromSelf: bool, fromParent: bool)
      modifies `timers, `portState, `recommendedState, `events
      ensures View() == P.HandleAnnounce(old(View()), short, fromSelf, fromParent)
      ensures old(Valid()) ==> Valid() && portState == (if short then Faulty else old(portState))
      ensures old(Valid()) && !short ==> timers == old(timers)
      ensures var ignored := short || fromSelf || old(portState) in {Initializing, Faulty};
              old(Valid()) ==> events == old(events) + if ignored then {} else {StateDecision}
    {
      if Valid() {
        AnnounceIsQuiet(View(), short, fromSelf, fromParent);
        QuietKeeps(View(), P.HandleAnnounce(View(), short, fromSelf, fromParent));
      }
      if short {
        ToState(Faulty);
        return;
      }
      if fromSelf {
        return;
      }
      match portState
      case Initializing | Faulty | Disabled =>
      case Uncalibrated | Slave =>
        events := events + {StateDecision};
        if fromParent {
          TimerStart(AnnounceReceipt);
        }
      case Passive =>
        TimerStart(AnnounceReceipt);
        events := events + {StateDecision};
      case _ => events := events + {StateDecision};
    }

    method HandleSync(e: Env, short: bool, fromSelf: bool, fromParent: bool, twoStep: bool)
      modifies `timers, `portState, `recommendedState, `events
      ensures View() == P.HandleSync(old(View()), e, short, fromSelf, fromParent, twoStep)
    {
      if short {
        ToState(Faulty);
        return;
      }
      match portState
      case Uncalibrated | Slave =>
        if !fromSelf && fromParent && !twoStep {
          events := e.servoEvents;
          IssueDelayReqTimerExpired(e);
        }
      case Passive => IssueDelayReqTimerExpired(e);
      case _ =>
    }

    method HandleFollowUp(e: Env, short: bool, fromSelf: bool, accepted: bool)
      modifies `timers, `portState, `recommendedState, `events
      ensures View() == P.HandleFollowUp(old(View()), e, short, fromSelf, accepted)
    {
      if short {
        ToState(Faulty);
        return;
      }
      if fromSelf {
        return;
      }
      match portState
      case Uncalibrated | Slave =>
        if accepted {
          events := e.servoEvents;
          IssueDelayReqTimerExpired(e);
        }
      case Passive => IssueDelayReqTimerExpired(e);
      case _ =>
    }

    method HandleMessage(e: Env, m: Message)
      modifies `timers, `portState, `recommendedState, `events
      ensures View() == P.HandleMessage(old(View()), e, m)
    {
      match m
      case Announce(short, fromSelf, fromParent) => HandleAnnounce(short, fromSelf, fromParent);
      case Sync(short, fromSelf, fromParent, twoStep) => HandleSync(e, short, fromSelf, fromParent, twoStep);
      case FollowUp(short, fromSelf, accepted) => HandleFollowUp(e, short, fromSelf, accepted);
      case DelayReq(short) =>
        if delayMechanism.E2E? {
          if short {
            ToState(Faulty);
          } else if portState == Master {
            Send(e, RESPONSE_SEND);
          }
        }
      case DelayResp(short, accepted) =>
        if delayMechanism.E2E? {
          if short {
            ToState(Faulty);
          } else if accepted && (portState == Uncalibrated || portState == Slave) {
            events := e.servoEvents;
          }
        }
      case PdelayReq(short, fromSelf) =>
        if delayMechanism.P2P? {
          if short {
            ToState(Faulty);
          } else if !fromSelf && (portState == Passive || portState == Slave || portState == Master) {
            Send(e, RESPONSE_SEND);
          }
        }
      case PdelayResp(short) =>
        if delayMechanism.P2P? && short {
          ToState(Faulty);
        }
      case PdelayRespFollowUp(short) =>
        if delayMechanism.P2P? && short {
          ToState(Faulty);
        }
      case Other =>
    }

    /** handle: whatever is received, the port stays in its state with its timers or becomes FAULTY. */
    method Handle(e: Env)
      modifies `timers, `portState, `recommendedState, `events
      ensures View() == P.Handle(old(View()), e)
      ensures old(Valid()) ==> Valid() && (portState == old(portState) || portState == Faulty)
      ensures old(Valid()) && portState == old(portState) != Faulty ==>
                timers == old(timers) && recommendedState == old(recommendedState)
      ensures old(Valid()) ==>
              && portState == (if old(T.Faults(View(), e)) then Faulty else old(portState))
              && events == old(T.Heard(View(), e))
    {
      if Valid() {
        T.HandleExactly(View(), e);
        HandleIsQuiet(View(), e);
      }
      match e.input
      case Failed | Runt => ToState(Faulty);
      case Nothing | Filtered =>
      case Received(m) => HandleMessage(e, m);
    }

    /** The state decision event of doState. */
    method DecideState(e: Env)
      modifies `recommendedState, `events
      ensures View() == Decide(old(View()), e)
    {
      if portState !in {Initializing, Faulty, State.Disabled} && StateDecision in events {
        events := events - {StateDecision};
        recommendedState := Recommend(e.best);
        if e.best.Slave? && e.parentChanged {
          events := events + {ClockChanged};
        }
        if recommendedState in {Master, Passive} && (slaveOnly || clockClass == 255) {
          recommendedState := Listening;
        }
      }
    }

    /** The move of doState toward the recommended state. */
    method FollowRecommendation(e: Env)
      modifies `timers, `portState, `recommendedState, `events
      ensures View() == Follow(old(View()), e)
    {
      match recommendedState
      case Master =>
        if portState == PreMaster {
          if Qualification in timers && Qualification in e.expired {
            ToState(Master);
          }
        } else if portState != Master {
          ToState(PreMaster);
        }
      case Passive =>
        if portState != Passive {
          ToState(Passive);
        }
      case Slave => FollowToSlave(e);
      case Listening =>
        if portState != Listening {
          ToState(Listening);
        }
      case _ =>
    }

    method FollowToSlave(e: Env)
      requires recommendedState == Slave
      modifies `timers, `portState, `recommendedState, `events
      ensures View() == Follow(old(View()), e)
    {
      if portState == Uncalibrated {
        if ClockSelected in events {
          events := events - {ClockSelected};
          ToState(Slave);
        }
        events := events - {ClockChanged};
      } else if portState == Slave {
        if SyncFault in events {
          events := events - {SyncFault};
          ToState(Uncalibrated);
        }
        if ClockChanged in events {
          events := events - {ClockChanged};
          ToState(Uncalibrated);
        }
      } else {
        ToState(Uncalibrated);
      }
    }

    /** The actions of doState while the port listens to masters. */
    method AwaitAnnounce(e: Env)
      requires portState in {Listening, Uncalibrated, Slave, Passive}
      modifies `timers, `portState, `recommendedState, `events
      ensures View() == Act(old(View()), e)
    {
      if AnnounceReceipt in timers && AnnounceReceipt in e.expired {
        if !(slaveOnly || clockClass == 255) {
          recommendedState := Master;
          ToState(Master);
        } else if portState != Listening {
          ToState(Listening);
        }
      } else {
        Handle(e);
      }
    }

    /** The actions of doState for the state arrived at. */
    method ActOnState(e: Env)
      modifies `timers, `portState, `recommendedState, `events
      ensures View() == Act(old(View()), e)
    {
      match portState
      case Initializing =>
        if e.initOk {
          timers := {};
          ToState(Listening);
        } else {
          ToState(Faulty);
        }
      case Faulty => ToState(Initializing);
      case Disabled => Handle(e);
      case Listening | Uncalibrated | Slave | Passive => AwaitAnnounce(e);
      case Master =>
        if SyncInterval in timers && SyncInterval in e.expired {
          Send(e, SYNC_SEND);
        }
        if AnnounceInterval in timers && AnnounceInterval in e.expired {
          Send(e, ANNOUNCE_SEND);
        }
        Handle(e);
        IssueDelayReqTimerExpired(e);
      case PreMaster =>
    }

    /** doState keeps the rules, and ends where the table of states says. */
    method DoState(e: Env)
      requires Valid()
      modifies this
      ensures View() == P.DoState(old(View()), e) && Valid() && FollowsRules()
      ensures portState == T.Outcome(old(View()), e) && recommendedState == T.OutcomeAdvice(old(View()), e)
      ensures events == T.OutcomeEvents(old(View()), e)
    {
      T.DoStateExactly(View(), e);
      DecideKeeps(View(), e);
      FollowKeeps(Decide(View(), e), e);
      ActKeeps(Follow(Decide(View(), e), e), e);
      DecideState(e);
      FollowRecommendation(e);
      ActOnState(e);
    }

    /** The loop of ptpd_thread, for as long as the environment is given: the rules hold throughout. */
    method Serve(es: seq<Env>)
      requires Valid()
      modifies this
      ensures View() == Run(old(View()), es) && Valid() && FollowsRules()
    {
      var i := 0;
      assert es[0..] == es;
      while i < |es|
        invariant i <= |es| && Valid()
        invariant Run(View(), es[i..]) == Run(old(View()), es)
      {
        RunFrom(View(), es, i);
        DoState(es[i]);
        i := i + 1;
      }
    }
  }

  lemma RunFrom(p: Port, es: seq<Env>, i: nat)
    requires i < |es|
    ensures Run(p, es[i..]) == Run(P.DoState(p, es[i]), es[i + 1..])
  {
    assert es[i..] == [es[i]] + es[i + 1..];
    RunOne(p, es[i], P.DoState(p, es[i]), es[i + 1..]);
  }
}
