/** timers.c in its own form: the two list pointers, the last sample and the queue updated in place, and the
    loop that switches the lists, each against its specification in Timers. */
module TimerTask {
  import opened Config
  import opened Rings
  import opened DelayedLists
  import opened Timers
  import TimerCommands
  import TimerProgress

  function PutIn(s: Delayed, e: Entry<Timer>, put: bool): Delayed {
    if put then InsertByValue(s, e) else s
  }

  lemma CommandMeans(d: Daemon, now: Clock)
    requires Base(d) && Within(d.clock, now) && d.queue != []
    ensures Timely(d.queue[0], now) ==>
            TimerCommands.Commanded(d.(queue := d.queue[1..]), d.queue[0], ProcessCommand(d, now))
  {
    if Timely(d.queue[0], now) {
      TimerCommands.CommandExactly(d, now);
    }
  }

  lemma ExpiryMeans(d: Daemon)
    requires Base(d) && d.current != []
    ensures d.current[0].value <= d.clock.tick ==> TimerCommands.Expires(d, Time(d.clock), ProcessExpired(d))
  {
    if d.current[0].value <= d.clock.tick {
      TimerCommands.ExpiredExactly(d);
    }
  }

  class TimerDaemon {
    var lastTime: nat
    var epoch: nat    // how often the tick count has wrapped; no decision depends on it
    var currentTimerList: Delayed
    var overflowTimerList: Delayed
    var timerQueue: seq<Command>
    var periodInTicks: map<Timer, nat>
    var autoReload: set<Timer>
    var callbacks: seq<Call>

    ghost function View(): Daemon
      reads this
    {
      Daemon(Clock(epoch, lastTime), currentTimerList, overflowTimerList, timerQueue, periodInTicks, autoReload,
             callbacks)
    }

    /** xTimerGenericCommand with room in the queue. */
    method GenericCommand(c: Command)
      modifies `timerQueue
      ensures View() == Post(old(View()), c)
    {
      timerQueue := timerQueue + [c];
    }

    method Callback(t: Timer, at: nat)
      modifies `callbacks
      ensures View() == CallBack(old(View()), t, at)
    {
      callbacks := callbacks + [Call(t, at)];
    }

    /** prvInsertTimerInActiveList, less than a turn after the time it counts from: the answer is whether the expiry
        has come, and if not the timer is put in order into the list of the turn it expires in. */
    method InsertTimerInActiveList(t: Timer, nextExpiryTime: nat, timeNow: nat, issued: Clock)
      returns (processNow: bool)
      requires t in periodInTicks && 0 < periodInTicks[t] < TICKS && lastTime < TICKS && issued.tick < TICKS
      requires timeNow == lastTime && nextExpiryTime == AddTicks(issued.tick, periodInTicks[t])
      modifies `currentTimerList, `overflowTimerList
      ensures (View(), processNow) == Insert(old(View()), t, issued)
      ensures var (now, expiry) := (Clock(epoch, lastTime), Later(issued, periodInTicks[t]));
              var (e, wait) := (Entry(t, expiry.tick), !processNow);
              Within(issued, now) ==>
              && (processNow <==> Time(expiry) <= Time(now))
              && currentTimerList == PutIn(old(currentTimerList), e, wait && expiry.epoch == epoch)
              && overflowTimerList == PutIn(old(overflowTimerList), e, wait && expiry.epoch > epoch)
    {
      if Within(issued, Clock(epoch, lastTime)) {
        InsertIsExact(periodInTicks[t], issued, Clock(epoch, lastTime));
      }
      processNow := false;
      if nextExpiryTime <= timeNow {
        if (timeNow - issued.tick) % TICKS >= periodInTicks[t] {
          processNow := true;
        } else {
          overflowTimerList := InsertByValue(overflowTimerList, Entry(t, nextExpiryTime));
        }
      } else if timeNow < issued.tick && nextExpiryTime >= issued.tick {
        processNow := true;
      } else {
        currentTimerList := InsertByValue(currentTimerList, Entry(t, nextExpiryTime));
      }
    }

    /** prvProcessExpiredTimer. */
    method ProcessExpiredTimer()
      requires Base(View()) && currentTimerList != []
      modifies `currentTimerList, `overflowTimerList, `timerQueue, `callbacks
      ensures View() == ProcessExpired(old(View()))
      ensures old(currentTimerList[0].value) <= lastTime ==>
              TimerCommands.Expires(old(View()), Epoch(epoch) + lastTime, View())
    {
      ExpiryMeans(View());
      ReloadAndCall();
    }

    method ReloadAndCall()
      requires Base(View()) && currentTimerList != []
      modifies `currentTimerList, `overflowTimerList, `timerQueue, `callbacks
      ensures View() == ProcessExpired(old(View()))
    {
      var e := currentTimerList[0];
      assert e in currentTimerList;
      assert e.value < TICKS && e.owner in periodInTicks && 0 < periodInTicks[e.owner] < TICKS && lastTime < TICKS;
      currentTimerList := currentTimerList[1..];
      if e.owner in autoReload {
        var due := AddTicks(e.value, periodInTicks[e.owner]);
        var late := InsertTimerInActiveList(e.owner, due, lastTime, Clock(epoch, e.value));
        if late {
          GenericCommand(Start(e.owner, Clock(epoch, e.value)));
        }
      }
      Callback(e.owner, Epoch(epoch) + lastTime);
    }

    /** One turn of the loop of prvSwitchTimerLists. */
    method ExpireHead(at: nat)
      requires Base(View()) && currentTimerList != []
      modifies `currentTimerList, `timerQueue, `callbacks
      ensures View() == ExpireAtSwitch(old(View()), at)
    {
      var e := currentTimerList[0];
      assert e in currentTimerList;
      currentTimerList := currentTimerList[1..];
      Callback(e.owner, at);
      if e.owner in autoReload {
        var reloadTime := AddTicks(e.value, periodInTicks[e.owner]);
        if reloadTime > e.value {
          currentTimerList := InsertByValue(currentTimerList, Entry(e.owner, reloadTime));
        } else {
          GenericCommand(Start(e.owner, Clock(epoch, e.value)));
        }
      }
    }

    /** prvSwitchTimerLists: the loop ends because every reload moves an entry toward the end of the tick count. */
    method SwitchTimerLists(at: nat)
      requires Base(View())
      modifies `currentTimerList, `overflowTimerList, `timerQueue, `callbacks
      ensures var q := Drain(old(View()), at); View() == q.(current := q.overflow, overflow := [])
    {
      ghost var end := Drain(View(), at);
      while currentTimerList != []
        invariant Base(View()) && Drain(View(), at) == end
        decreases Slack(currentTimerList)
      {
        ExpireAtSwitchBase(View(), at);
        ExpireHead(at);
      }
      currentTimerList, overflowTimerList := overflowTimerList, currentTimerList;
    }

    /** prvSampleTimeNow. */
    method SampleTimeNow(now: Clock) returns (listsWereSwitched: bool)
      requires Base(View()) && Within(Clock(epoch, lastTime), now)
      modifies this
      ensures View() == Sample(old(View()), now) && listsWereSwitched == (now.tick < old(lastTime))
    {
      listsWereSwitched := now.tick < lastTime;
      if listsWereSwitched {
        SwitchTimerLists(Epoch(now.epoch) + now.tick);
      }
      lastTime, epoch := now.tick, now.epoch;
    }

    /** prvProcessTimerOrBlockTask, without the blocking. */
    method ProcessTimerOrBlockTask(now: Clock)
      requires Base(View()) && Within(Clock(epoch, lastTime), now)
      modifies this
      ensures View() == ProcessTimerOrBlock(old(View()), now)
    {
      var listWasEmpty := currentTimerList == [];
      var nextExpireTime := if listWasEmpty then 0 else currentTimerList[0].value;
      var switched := SampleTimeNow(now);
      if !switched && !listWasEmpty && nextExpireTime <= now.tick {
        ProcessExpiredTimer();
      }
    }

    /** The switch of prvProcessReceivedCommands. */
    method CarryOut(c: Command)
      requires Base(View()) && CommandOk(periodInTicks, c)
      modifies this
      ensures View() == Obey(old(View()), c)
    {
      match c
      case Start(t, issued) =>
        var late := InsertTimerInActiveList(t, AddTicks(issued.tick, periodInTicks[t]), lastTime, issued);
        if late {
          Callback(t, Epoch(epoch) + lastTime);
          if t in autoReload {
            GenericCommand(Start(t, Later(issued, periodInTicks[t])));
          }
        }
      case Stop(_) =>
      case ChangePeriod(t, p) =>
        periodInTicks := periodInTicks[t := p];
        var late := InsertTimerInActiveList(t, AddTicks(lastTime, p), lastTime, Clock(epoch, lastTime));
    }

    /** One turn of the loop of prvProcessReceivedCommands. */
    method ProcessReceivedCommand(now: Clock)
      requires Base(View()) && Within(Clock(epoch, lastTime), now) && timerQueue != []
      modifies this
      ensures View() == ProcessCommand(old(View()), now)
      ensures Timely(old(timerQueue[0]), now) ==>
              TimerCommands.Commanded(old(View()).(queue := old(timerQueue[1..])), old(timerQueue[0]), View())
    {
      CommandMeans(View(), now);
      var c := timerQueue[0];
      assert c in timerQueue;
      UnlistedBase(View());
      SamplePeriods(Unlisted(View()), now);
      timerQueue := timerQueue[1..];
      currentTimerList := DropOwner(currentTimerList, c.timer);
      overflowTimerList := DropOwner(overflowTimerList, c.timer);
      var switched := SampleTimeNow(now);
      CarryOut(c);
    }

    /** The loop of prvProcessReceivedCommands, with no time passing: it ends with the queue empty, though late starts
        post further ones. */
    method ProcessReceivedCommands()
      requires Base(View()) && TimerProgress.AllTimely(View())
      modifies this
      ensures Base(View()) && TimerProgress.AllTimely(View()) && timerQueue == []
      ensures lastTime == old(lastTime) && epoch == old(epoch)
    {
      while timerQueue != []
        invariant Base(View()) && TimerProgress.AllTimely(View())
        invariant lastTime == old(lastTime) && epoch == old(epoch)
        decreases TimerProgress.Work(View())
      {
        TimerProgress.ReceiveIsLess(View());
        ReceivedBase(View());
        ProcessReceivedCommand(Clock(epoch, lastTime));
      }
    }
  }

  lemma ReceivedBase(d: Daemon)
    requires Base(d) && d.queue != [] && TimerProgress.AllTimely(d)
    ensures Base(ProcessCommand(d, d.clock))
  {
    assert d.queue[0] in d.queue;
    EffectBase(d, Receive(d.clock));
  }
}
