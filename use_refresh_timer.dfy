/**
 * The countdown projector (html/src/hooks/useRefreshTimer.ts): every second
 * it recomputes how many whole seconds remain until the next poll from the
 * time of the last update and the current poll interval, clamped at zero.
 * Times are integer milliseconds, as `Date.getTime()` returns them.
 */
module RefreshTimerHook {
  import opened ApiTypes
  import PublisherStatsHook

  /** Period of the countdown's own interval timer. */
  const TICK_MS := 1000

  function Max(a: int, b: int): int { if a >= b then a else b }

  /**
   * `Math.ceil(x / d)` for an integer `x` and a positive integer `d`: the
   * least `c` with `x <= d * c`.
   */
  function CeilDiv(x: int, d: int): (c: int)
    requires d > 0
    ensures d * (c - 1) < x <= d * c
  {
    var q := (x + d - 1) / d;
    assert x + d - 1 == d * q + (x + d - 1) % d;
    q
  }

  lemma MulMonotone(d: int, a: int, b: int)
    requires d > 0 && a <= b
    ensures d * a <= d * b
  {
    assert d * b - d * a == d * (b - a);
  }

  lemma CeilDivMonotone(x: int, y: int, d: int)
    requires d > 0 && x <= y
    ensures CeilDiv(x, d) <= CeilDiv(y, d)
  {
    var cx, cy := CeilDiv(x, d), CeilDiv(y, d);
    if cx > cy {
      MulMonotone(d, cy, cx - 1);
    }
  }

  /**
   * `secondsRemaining` at time `now`: zero once the interval has elapsed,
   * otherwise the number of started seconds left of it.
   */
  function SecondsRemaining(refreshInterval: int, lastUpdate: int, now: int): (r: int)
    ensures r >= 0
    ensures r == 0 <==> now - lastUpdate >= refreshInterval
    ensures r > 0 ==> TICK_MS * (r - 1) < refreshInterval - (now - lastUpdate) <= TICK_MS * r
  {
    Max(0, CeilDiv(refreshInterval - (now - lastUpdate), TICK_MS))
  }

  /** For a fixed last update and interval the countdown never goes up as time passes. */
  lemma CountdownNonIncreasing(refreshInterval: int, lastUpdate: int, now1: int, now2: int)
    requires now1 <= now2
    ensures SecondsRemaining(refreshInterval, lastUpdate, now2) <= SecondsRemaining(refreshInterval, lastUpdate, now1)
  {
    CeilDivMonotone(refreshInterval - (now2 - lastUpdate), refreshInterval - (now1 - lastUpdate), TICK_MS);
  }

  /** From the last update on, the countdown never shows more than the whole interval in seconds. */
  lemma CountdownBounded(refreshInterval: int, lastUpdate: int, now: int)
    requires now >= lastUpdate
    ensures SecondsRemaining(refreshInterval, lastUpdate, now) <= Max(0, CeilDiv(refreshInterval, TICK_MS))
  {
    CeilDivMonotone(refreshInterval - (now - lastUpdate), refreshInterval, TICK_MS);
  }

  /** With either legal poll interval the countdown stays within 0..5 or 0..10. */
  lemma CountdownWithinPollInterval(isOnline: bool, lastUpdate: int, now: int)
    requires now >= lastUpdate
    ensures 0 <= SecondsRemaining(PublisherStatsHook.RefreshInterval(isOnline), lastUpdate, now)
              <= PublisherStatsHook.RefreshInterval(isOnline) / TICK_MS
  {
    var iv := PublisherStatsHook.RefreshInterval(isOnline);
    CountdownBounded(iv, lastUpdate, now);
    assert CeilDiv(iv, TICK_MS) == iv / TICK_MS;
  }

  /** Right after an online update the countdown reads 5, 4, 3, 2, 1, 0 on successive seconds. */
  lemma OnlineCountdownScenario(lastUpdate: int, k: int)
    requires 0 <= k <= 5
    ensures SecondsRemaining(PublisherStatsHook.ACTIVE_REFRESH_INTERVAL, lastUpdate, lastUpdate + TICK_MS * k) == 5 - k
  {
    var r := SecondsRemaining(PublisherStatsHook.ACTIVE_REFRESH_INTERVAL, lastUpdate, lastUpdate + TICK_MS * k);
    if r > 0 {
      if r < 5 - k {
        MulMonotone(TICK_MS, r, 4 - k);
      } else if r > 5 - k {
        MulMonotone(TICK_MS, 5 - k, r - 1);
      }
    }
  }

  /**
   * The countdown's armed interval: the values its closure captured (the
   * `lastUpdate` stamp, the identity of that `Date` and the interval) and
   * the earliest time its callback runs next.
   */
  datatype Ticker = Ticker(lastUpdate: int, lastUpdateRef: ObjectRef, refreshInterval: int, nextAt: int)

  /** One mounted use of the hook: its inputs, its displayed value and its ticker. */
  class RefreshTimer {
    var lastUpdate: int
    var lastUpdateRef: ObjectRef
    var refreshInterval: int
    var secondsUntilUpdate: int
    var ticker: Option<Ticker>

    ghost predicate Valid()
      reads this
    {
      secondsUntilUpdate >= 0
    }

    /**
     * React re-runs the countdown effect when `lastUpdate` is another `Date`
     * object or `refreshInterval` is another number: a new `Date` for the
     * same instant counts as a change.
     */
    predicate EffectPending()
      reads this
    {
      ticker.None? || ticker.value.lastUpdateRef != lastUpdateRef || ticker.value.refreshInterval != refreshInterval
    }

    /** First render: the displayed value is 0 until the first tick. */
    constructor (lastUpdate: int, lastUpdateRef: ObjectRef, refreshInterval: int)
      ensures Valid()
      ensures this.lastUpdate == lastUpdate && this.lastUpdateRef == lastUpdateRef && this.refreshInterval == refreshInterval
      ensures secondsUntilUpdate == 0 && ticker == None
    {
      this.lastUpdate, this.lastUpdateRef, this.refreshInterval := lastUpdate, lastUpdateRef, refreshInterval;
      secondsUntilUpdate, ticker := 0, None;
    }

    /** The effect at time `now`: the old ticker is cleared and a fresh one fires a second later. */
    method RunEffect(now: int)
      requires Valid()
      modifies this
      ensures Valid() && !EffectPending()
      ensures ticker == Some(Ticker(lastUpdate, lastUpdateRef, refreshInterval, now + TICK_MS))
      ensures lastUpdate == old(lastUpdate) && lastUpdateRef == old(lastUpdateRef) && refreshInterval == old(refreshInterval)
      ensures secondsUntilUpdate == old(secondsUntilUpdate)
    {
      ticker := Some(Ticker(lastUpdate, lastUpdateRef, refreshInterval, now + TICK_MS));
    }

    /**
     * The ticker's callback runs at time `now`, never before it is due and
     * possibly late: it reads the clock then, shows the countdown of the
     * captured inputs at that time, and is due again a second later.
     */
    method Tick(now: int)
      requires Valid()
      requires ticker.Some? ==> now >= ticker.value.nextAt
      modifies this
      ensures Valid()
      ensures old(ticker).None? ==> secondsUntilUpdate == old(secondsUntilUpdate) && ticker == None
      ensures old(ticker).Some? ==>
                var t := old(ticker).value;
                && secondsUntilUpdate == SecondsRemaining(t.refreshInterval, t.lastUpdate, now)
                && ticker == Some(t.(nextAt := now + TICK_MS))
      ensures lastUpdate == old(lastUpdate) && lastUpdateRef == old(lastUpdateRef) && refreshInterval == old(refreshInterval)
    {
      if ticker.Some? {
        var t := ticker.value;
        secondsUntilUpdate := SecondsRemaining(t.refreshInterval, t.lastUpdate, now);
        ticker := Some(t.(nextAt := now + TICK_MS));
      }
    }

    /**
     * The owner renders the hook with a `lastUpdate` `Date` (its instant and
     * its identity) and an interval; the value shown is kept until the next tick.
     */
    method Rerender(lastUpdate: int, lastUpdateRef: ObjectRef, refreshInterval: int)
      requires Valid()
      modifies this
      ensures Valid()
      ensures this.lastUpdate == lastUpdate && this.lastUpdateRef == lastUpdateRef && this.refreshInterval == refreshInterval
      ensures secondsUntilUpdate == old(secondsUntilUpdate) && ticker == old(ticker)
    {
      this.lastUpdate, this.lastUpdateRef, this.refreshInterval := lastUpdate, lastUpdateRef, refreshInterval;
    }

    /** Unmount: the cleanup clears the ticker. */
    method Unmount()
      requires Valid()
      modifies this
      ensures Valid() && ticker == None
      ensures secondsUntilUpdate == old(secondsUntilUpdate)
      ensures lastUpdate == old(lastUpdate) && lastUpdateRef == old(lastUpdateRef) && refreshInterval == old(refreshInterval)
    {
      ticker := None;
    }
  }

  /**
   * Two successive ticks of one ticker never show an increase, however late
   * either runs: between poll outcomes the countdown only goes down.
   */
  method SuccessiveTicksNonIncreasing(t: RefreshTimer, now1: int, now2: int)
    requires t.Valid() && t.ticker.Some? && now1 >= t.ticker.value.nextAt && now2 >= now1 + TICK_MS
    modifies t
    ensures var t0 := old(t.ticker.value);
            && t.secondsUntilUpdate == SecondsRemaining(t0.refreshInterval, t0.lastUpdate, now2)
            && t.secondsUntilUpdate <= SecondsRemaining(t0.refreshInterval, t0.lastUpdate, now1)
  {
    var t0 := t.ticker.value;
    t.Tick(now1);
    t.Tick(now2);
    CountdownNonIncreasing(t0.refreshInterval, t0.lastUpdate, now1, now2);
  }

  /**
   * A new `Date` from the owner makes the effect due even when it stands
   * for the same instant as the one the ticker captured; the effect's run
   * then arms a ticker over the new object.
   */
  method NewDateRestartsCountdown(t: RefreshTimer, newRef: ObjectRef, now: int)
    requires t.Valid() && !t.EffectPending() && newRef != t.lastUpdateRef
    modifies t
    ensures t.ticker == Some(Ticker(old(t.lastUpdate), newRef, old(t.refreshInterval), now + TICK_MS))
  {
    t.Rerender(t.lastUpdate, newRef, t.refreshInterval);
    assert t.EffectPending();
    t.RunEffect(now);
  }
}
