/**
 * The banner's countdown (src/components/Banner.tsx).
 *
 * A mounted banner holds `timeLeft` and, while it counts, one interval
 * that fires once a second.  Time is not modelled: one `Tick` is one
 * firing of every live interval's callback (there is at most one).
 * The number of live intervals and the number of calls made to
 * `onTimerEnd` are part of the state, so that "at most one interval is
 * live" and "the callback fires exactly once" can be stated.
 */
module BannerComponent {

  /** Everything the countdown can observe or change. */
  datatype Clock = Clock(
    timer: int,     // the `timer` prop the effect last ran with
    timeLeft: int,  // the `timeLeft` state
    live: nat,      // intervals scheduled and not yet cleared
    fired: nat)     // calls made to `onTimerEnd` so far

  /**
   * The invariant of a mounted banner: at most one live interval, an
   * interval only for a positive timer, and a countdown that stays
   * between 0 and the timer it started from.
   */
  ghost predicate WellFormed(c: Clock) {
    && c.live <= 1
    && (c.live == 1 ==> c.timer > 0)
    && (c.timer > 0 ==> 0 <= c.timeLeft <= c.timer)
  }

  /** The cleanup an effect run returns: clear the interval it started. */
  function Cleared(c: Clock): Clock {
    c.(live := if c.live == 0 then 0 else c.live - 1)
  }

  /**
   * One run of the effect for a (new) `timer`: React first runs the
   * previous run's cleanup, then the effect sets `timeLeft` and starts
   * an interval only for a positive timer.
   */
  function Restarted(c: Clock, timer: int): (r: Clock)
    ensures r.timer == timer && r.timeLeft == timer && r.fired == c.fired
    ensures c.live <= 1 ==> r.live == if timer > 0 then 1 else 0
  {
    var d := Cleared(c);
    d.(timer := timer, timeLeft := timer, live := d.live + if timer > 0 then 1 else 0)
  }

  /** Mounting: `useState(timer)` followed by the effect's first run. */
  function Mounted(timer: int): (r: Clock)
    ensures WellFormed(r)
    ensures r.timeLeft == timer && r.fired == 0
    ensures r.live == if timer > 0 then 1 else 0
  {
    Restarted(Clock(timer, timer, 0, 0), timer)
  }

  /**
   * One firing of the interval's callback, if an interval is live: at
   * `timeLeft <= 1` it clears its interval, calls `onTimerEnd` and sets
   * `timeLeft` to 0; otherwise it decrements.
   */
  function Ticked(c: Clock): (r: Clock)
    ensures r.timer == c.timer && r.live <= c.live
    ensures r.fired == c.fired + 1 <==> c.live > 0 && c.timeLeft <= 1
    ensures r.fired == c.fired || r.fired == c.fired + 1
    ensures r.fired == c.fired ==> r.live == c.live
    ensures WellFormed(c) ==> WellFormed(r) && (r.fired > c.fired ==> r.live == 0)
  {
    if c.live == 0 then c
    else if c.timeLeft <= 1 then c.(timeLeft := 0, live := c.live - 1, fired := c.fired + 1)
    else c.(timeLeft := c.timeLeft - 1)
  }

  /** `handleClose`: `timeLeft` to 0 and one call of `onTimerEnd`; the interval is left running. */
  function Closed(c: Clock): (r: Clock)
    ensures r.fired == c.fired + 1 && r.timeLeft == 0
    ensures r.live == c.live && r.timer == c.timer
    ensures WellFormed(c) ==> WellFormed(r)
  {
    c.(timeLeft := 0, fired := c.fired + 1)
  }

  /** Unmounting runs the last effect run's cleanup. */
  function Unmounted(c: Clock): (r: Clock)
    ensures r.timer == c.timer && r.timeLeft == c.timeLeft && r.fired == c.fired
    ensures WellFormed(c) ==> WellFormed(r) && r.live == 0
  {
    Cleared(c)
  }

  /** `k` consecutive seconds. */
  function Ticks(c: Clock, k: nat): Clock
    decreases k
  {
    if k == 0 then c else Ticks(Ticked(c), k - 1)
  }

  /** What can happen to a mounted banner. */
  datatype Event = PropsChanged(timer: int) | Second | CloseClicked | Unmount

  function Step(c: Clock, e: Event): Clock {
    match e
    case PropsChanged(t) => Restarted(c, t)
    case Second => Ticked(c)
    case CloseClicked => Closed(c)
    case Unmount => Unmounted(c)
  }

  function Run(c: Clock, events: seq<Event>): Clock
    decreases events
  {
    if events == [] then c else Run(Step(c, events[0]), events[1..])
  }

  /**
   * Starting or restarting sets `timeLeft` to exactly the timer, leaves
   * exactly one interval live for a positive timer and none otherwise,
   * and calls nothing: the previous interval is cleared first.
   */
  lemma RestartResets(c: Clock, timer: int)
    requires WellFormed(c)
    ensures WellFormed(Restarted(c, timer))
    ensures Restarted(c, timer).timeLeft == timer
    ensures Restarted(c, timer).live == if timer > 0 then 1 else 0
    ensures Restarted(c, timer).fired == c.fired
  {
  }

  /** Every event keeps the invariant. */
  lemma StepKeepsWellFormed(c: Clock, e: Event)
    requires WellFormed(c)
    ensures WellFormed(Step(c, e))
  {
  }

  /**
   * Whatever happens to a mounted banner, at most one interval is live
   * and `0 <= timeLeft <= timer` holds whenever the timer is positive.
   */
  lemma {:induction false} RunKeepsWellFormed(c: Clock, events: seq<Event>)
    requires WellFormed(c)
    ensures WellFormed(Run(c, events))
    decreases events
  {
    if events != [] {
      StepKeepsWellFormed(c, events[0]);
      RunKeepsWellFormed(Step(c, events[0]), events[1..]);
    }
  }

  /** Running ticks in two batches is the same as running them in one. */
  lemma {:induction false} TicksAdd(c: Clock, a: nat, b: nat)
    ensures Ticks(c, a + b) == Ticks(Ticks(c, a), b)
    decreases a
  {
    if a > 0 {
      TicksAdd(Ticked(c), a - 1, b);
    }
  }

  /** With no live interval, seconds go by without effect. */
  lemma {:induction false} QuietTicks(c: Clock, k: nat)
    requires c.live == 0
    ensures Ticks(c, k) == c
    decreases k
  {
    if k > 0 {
      QuietTicks(Ticked(c), k - 1);
    }
  }

  /** While more than `k` seconds are left, `k` ticks only count down. */
  lemma {:induction false} TicksWhileCounting(c: Clock, k: nat)
    requires c.live > 0 && k < c.timeLeft
    ensures Ticks(c, k) == c.(timeLeft := c.timeLeft - k)
    decreases k
  {
    if k > 0 {
      TicksWhileCounting(Ticked(c), k - 1);
    }
  }

  /**
   * Starting from `timer = n >= 1`, the first `j < n` ticks fire nothing
   * and leave `n - j` seconds on the clock.
   */
  lemma NoFireBeforeExpiry(c: Clock, n: int, j: nat)
    requires WellFormed(c) && n >= 1 && j < n
    ensures Ticks(Restarted(c, n), j).fired == c.fired
    ensures Ticks(Restarted(c, n), j).timeLeft == n - j
    ensures Ticks(Restarted(c, n), j).live == 1
  {
    TicksWhileCounting(Restarted(c, n), j);
  }

  /**
   * Starting from `timer = n >= 1`, after exactly `n` ticks `onTimerEnd`
   * has been called once, no interval is live, and any number of further
   * seconds change nothing.
   */
  lemma CountdownFiresOnce(c: Clock, n: int, k: nat)
    requires WellFormed(c) && n >= 1
    ensures Ticks(Restarted(c, n), n + k).fired == c.fired + 1
    ensures Ticks(Restarted(c, n), n + k).live == 0
    ensures Ticks(Restarted(c, n), n + k).timeLeft == 0
  {
    var s := Restarted(c, n);
    TicksWhileCounting(s, n - 1);
    TicksAdd(s, n - 1, 1 + k);
    var last := Ticked(Ticks(s, n - 1));
    assert Ticks(Ticks(s, n - 1), 1 + k) == Ticks(last, k);
    QuietTicks(last, k);
  }

  /** A timer of 0 or less starts no interval, so no tick ever calls `onTimerEnd`. */
  lemma {:induction false} NonPositiveTimerNeverFires(c: Clock, timer: int, k: nat)
    requires WellFormed(c) && timer <= 0
    ensures Ticks(Restarted(c, timer), k) == Restarted(c, timer)
    ensures Ticks(Restarted(c, timer), k).fired == c.fired
  {
    QuietTicks(Restarted(c, timer), k);
  }

  /**
   * `handleClose` does not clear the interval: a close followed by one
   * more second calls `onTimerEnd` a second time (the callback sees
   * `prev = 0 <= 1`).
   */
  lemma CloseThenTickFiresTwice(c: Clock, n: int)
    requires WellFormed(c) && n >= 1
    ensures Ticked(Closed(Restarted(c, n))).fired == c.fired + 2
  {
  }

  /**
   * If the banner is unmounted after a close (the root hides it), the
   * interval is cleared and no later second calls `onTimerEnd` again.
   */
  lemma {:induction false} CloseThenUnmountFiresOnce(c: Clock, n: int, k: nat)
    requires WellFormed(c) && n >= 1
    ensures Ticks(Unmounted(Closed(Restarted(c, n))), k).fired == c.fired + 1
  {
    QuietTicks(Unmounted(Closed(Restarted(c, n))), k);
  }

  /** The `Banner` component's countdown state, updated in place. */
  class Banner {
    var timer: int
    var timeLeft: int
    var liveIntervals: nat
    var timerEndCalls: nat

    function State(): Clock
      reads this
    {
      Clock(timer, timeLeft, liveIntervals, timerEndCalls)
    }

    ghost predicate Valid()
      reads this
    {
      WellFormed(State())
    }

    /** Mount with a `timer` prop; the effect starts counting at once. */
    constructor (timer: int)
      ensures Valid() && State() == Mounted(timer)
      ensures timeLeft == timer && timerEndCalls == 0
      ensures liveIntervals == if timer > 0 then 1 else 0
    {
      this.timer := timer;
      timeLeft := timer;
      liveIntervals := 0;
      timerEndCalls := 0;
      if timer > 0 {
        liveIntervals := 1;
      }
    }

    /** The effect re-runs because `timer` (or `onTimerEnd`) changed. */
    method Restart(timer: int)
      requires Valid()
      modifies this
      ensures Valid() && State() == Restarted(old(State()), timer)
      ensures timeLeft == timer && timerEndCalls == old(timerEndCalls)
      ensures liveIntervals == if timer > 0 then 1 else 0
    {
      if liveIntervals > 0 {
        liveIntervals := liveIntervals - 1;
      }
      this.timer := timer;
      timeLeft := timer;
      if timer > 0 {
        liveIntervals := liveIntervals + 1;
      }
    }

    /**
     * One second passes.  `timerEnded` reports whether `onTimerEnd` was
     * called by this tick.
     */
    method Tick() returns (timerEnded: bool)
      requires Valid()
      modifies this
      ensures Valid() && State() == Ticked(old(State()))
      ensures timerEnded <==> old(liveIntervals) > 0 && old(timeLeft) <= 1
      ensures timerEndCalls == old(timerEndCalls) + if timerEnded then 1 else 0
      ensures timerEnded ==> timeLeft == 0 && liveIntervals == 0
      ensures old(liveIntervals) > 0 && old(timeLeft) > 1 ==>
                timeLeft == old(timeLeft) - 1 && liveIntervals == old(liveIntervals)
      ensures timer == old(timer)
    {
      timerEnded := false;
      if liveIntervals > 0 {
        if timeLeft <= 1 {
          liveIntervals := liveIntervals - 1;
          timerEndCalls := timerEndCalls + 1;
          timerEnded := true;
          timeLeft := 0;
        } else {
          timeLeft := timeLeft - 1;
        }
      }
    }

    /** The close button: `timeLeft` to 0 and `onTimerEnd` called, interval untouched. */
    method Close()
      requires Valid()
      modifies this
      ensures Valid() && State() == Closed(old(State()))
      ensures timeLeft == 0 && timerEndCalls == old(timerEndCalls) + 1
      ensures liveIntervals == old(liveIntervals) && timer == old(timer)
    {
      timeLeft := 0;
      timerEndCalls := timerEndCalls + 1;
    }

    /** The component is removed: the cleanup clears the interval. */
    method Unmount()
      requires Valid()
      modifies this
      ensures Valid() && State() == Unmounted(old(State()))
      ensures liveIntervals == 0
      ensures timeLeft == old(timeLeft) && timerEndCalls == old(timerEndCalls)
    {
      if liveIntervals > 0 {
        liveIntervals := liveIntervals - 1;
      }
    }
  }
}
