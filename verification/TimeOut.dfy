/** Measuring one timeout over repeated checks of a tick count that wraps. */
module TimeOuts {
  import opened Config

  /** A reading of the kernel's clock: xNumOfOverflows and xTickCount, both 32 bits wide. */
  datatype Stamp = Stamp(overflows: nat, tick: nat)

  /** The reading at an unbounded time. */
  function StampAt(now: nat): (s: Stamp)
    ensures s.tick < TICKS
  {
    Stamp(now / TICKS % TICKS, now % TICKS)
  }

  /** xConstTickCount - xTimeOnEntering in 32 bits. */
  function Elapsed(tick: nat, entered: nat): (r: nat)
    requires tick < TICKS && entered < TICKS
    ensures r == (tick - entered) % TICKS
  {
    if entered <= tick then tick - entered else tick - entered + TICKS
  }

  /** A wait in progress, as a caller of xTaskCheckForTimeOut carries it from check to check. */
  datatype Wait = Waiting(since: Stamp, left: nat) | Expired

  /** xTaskCheckForTimeOut. */
  function Check(since: Stamp, left: nat, now: Stamp): (w: Wait)
    requires since.tick < TICKS && now.tick < TICKS
    ensures w.Waiting? ==> w.since == now
  {
    if now.overflows != since.overflows && now.tick >= since.tick then Expired
    else
      var e := Elapsed(now.tick, since.tick);
      if e < left then Waiting(now, left - e) else Expired
  }

  /** Checks at successive times, until one reports that the wait is over. */
  function Checks(w: Wait, times: seq<nat>): Wait
    requires w.Waiting? ==> w.since.tick < TICKS
    decreases times
  {
    if times == [] || w.Expired? then w else Checks(Check(w.since, w.left, StampAt(times[0])), times[1..])
  }

  /** The check reads the true elapsed time as long as the clock has turned at most once. */
  lemma CheckIsExact(since: nat, left: nat, now: nat)
    requires since <= now <= since + TICKS && left < TICKS
    ensures Check(StampAt(since), left, StampAt(now))
         == if now - since < left then Waiting(StampAt(now), left - (now - since)) else Expired
  {
    TurnsApart(since, now);
  }

  lemma TurnsApart(a: nat, b: nat)
    requires a <= b <= a + TICKS
    ensures b / TICKS == a / TICKS || b / TICKS == a / TICKS + 1
    ensures b / TICKS == a / TICKS <==> StampAt(b).overflows == StampAt(a).overflows
  {
  }

  /** Times that go forward by at most one turn of the clock between checks. */
  predicate Paced(start: nat, times: seq<nat>)
    decreases times
  {
    times == [] || (start <= times[0] <= start + TICKS && Paced(times[0], times[1..]))
  }

  function LastOf(start: nat, times: seq<nat>): nat {
    if times == [] then start else times[|times| - 1]
  }

  lemma {:induction false} PacedAscends(start: nat, times: seq<nat>)
    requires Paced(start, times)
    ensures start <= LastOf(start, times)
    decreases times
  {
    if times != [] {
      PacedAscends(times[0], times[1..]);
    }
  }

  /** However often the clock wraps in between, the checks report expiry at the first one made when the whole
      original wait has passed, and until then what is left is the original wait less the time since it began. */
  lemma {:induction false} TimeOutIsExact(start: nat, wait: nat, times: seq<nat>)
    requires wait < TICKS && Paced(start, times)
    ensures Checks(Waiting(StampAt(start), wait), times)
         == if times == [] || LastOf(start, times) - start < wait
            then Waiting(StampAt(LastOf(start, times)), wait - (LastOf(start, times) - start)) else Expired
    decreases times
  {
    if times != [] {
      var t := times[0];
      CheckIsExact(start, wait, t);
      PacedAscends(t, times[1..]);
      if t - start < wait {
        TimeOutIsExact(t, wait - (t - start), times[1..]);
      }
    }
  }

  /** An expiry is missed exactly when the elapsed time, less whole turns, is below the wait again and the tick reads
      lower than at the start or the count of turns has itself come around. */
  lemma MissesExactly(since: nat, left: nat, now: nat)
    requires since <= now && left < TICKS
    ensures Check(StampAt(since), left, StampAt(now)).Waiting? && left <= now - since
       <==> && left <= now - since && (now - since) % TICKS < left
            && (now % TICKS < since % TICKS || (now / TICKS - since / TICKS) % TICKS == 0)
  {
    assert Elapsed(now % TICKS, since % TICKS) == (now - since) % TICKS;
    ReadsAlike(since / TICKS, now / TICKS);
  }

  lemma ReadsAlike(a: nat, b: nat)
    ensures a % TICKS == b % TICKS <==> (b - a) % TICKS == 0
  {
  }

  /** One tick more than a turn is already too far apart. */
  lemma OneTickTooFar()
    ensures var since := TICKS - 1;
            Check(StampAt(since), 2, StampAt(since + TICKS + 1)) == Waiting(StampAt(since + TICKS + 1), 1)
  {
    assert StampAt(TICKS - 1) == Stamp(0, TICKS - 1);
    assert StampAt(2 * TICKS) == Stamp(2, 0);
  }

  /** TimeOut_t. */
  class TimeOut {
    var overflowCount: nat
    var timeOnEntering: nat

    /** vTaskInternalSetTimeOutState. */
    constructor (overflows: nat, tick: nat)
      ensures overflowCount == overflows && timeOnEntering == tick
    {
      overflowCount, timeOnEntering := overflows, tick;
    }

    /** xTaskCheckForTimeOut, with the kernel's clock and the caller's ticks to wait. */
    method CheckForTimeOut(overflows: nat, tick: nat, ticksToWait: nat) returns (timedOut: bool, left: nat)
      requires tick < TICKS && timeOnEntering < TICKS
      modifies this
      ensures var w := Check(Stamp(old(overflowCount), old(timeOnEntering)), ticksToWait, Stamp(overflows, tick));
              && timedOut == w.Expired?
              && (!timedOut ==> w == Waiting(Stamp(overflowCount, timeOnEntering), left))
      ensures timedOut ==> unchanged(this)
      ensures timedOut ==> left == if overflows != overflowCount && tick >= timeOnEntering then ticksToWait else 0
    {
      var elapsed := (tick - timeOnEntering) % TICKS;
      if overflows != overflowCount && tick >= timeOnEntering {
        timedOut, left := true, ticksToWait;
      } else if elapsed < ticksToWait {
        left := ticksToWait - elapsed;
        overflowCount, timeOnEntering := overflows, tick;
        timedOut := false;
      } else {
        timedOut, left := true, 0;
      }
    }
  }
}
