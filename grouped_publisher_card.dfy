/**
 * The card of one publisher with several player IDs
 * (html/src/components/GroupedPublisherCard.tsx).  It inlines the same
 * poller and countdown as the two hooks, so it reuses their transition
 * functions; what is its own is the formatting of uptime and bitrate, the
 * choice of the statistics panel and the player-count caption.
 */
module GroupedPublisherCard {
  import opened ApiTypes
  import opened Text
  import opened PublisherStatsHook
  import opened RefreshTimerHook

  // ---------------------------------------------------------------------------
  // Uptime

  /**
   * JavaScript's `%` on integers: the remainder of division truncated
   * toward zero.  It takes the sign of the dividend, is smaller than the
   * divisor in magnitude, and differs from the dividend by a multiple of
   * the divisor.
   */
  function JsRem(a: int, d: int): (r: int)
    requires d > 0
    ensures a >= 0 ==> 0 <= r < d
    ensures a < 0 ==> -d < r <= 0
    ensures (a - r) % d == 0
  {
    if a >= 0 then
      var r := a % d;
      assert a - r == d * (a / d);
      MultipleRem(d, a / d);
      r
    else
      var r := -((-a) % d);
      assert -a == d * ((-a) / d) + (-a) % d;
      assert a - r == d * -((-a) / d);
      MultipleRem(d, -((-a) / d));
      r
  }

  lemma MultipleRem(d: int, k: int)
    requires d > 0
    ensures (d * k) % d == 0
  {
    DivModUnique(d * k, d, k, 0);
  }

  datatype Uptime = Uptime(hours: int, minutes: int, secs: int)

  /**
   * The three numbers `formatUptime` prints: `Math.floor(s / 3600)`,
   * `Math.floor((s % 3600) / 60)` and `s % 60`.  For a non-negative count
   * they are its hours, minutes and seconds.
   */
  function UptimeParts(seconds: int): (u: Uptime)
    ensures seconds >= 0 ==>
              && u.hours >= 0 && 0 <= u.minutes < 60 && 0 <= u.secs < 60
              && 3600 * u.hours + 60 * u.minutes + u.secs == seconds
  {
    // Dafny's `/` by a positive divisor rounds down, as Math.floor of the quotient does.
    if seconds >= 0 then UptimeArithmetic(seconds); Uptime(seconds / 3600, JsRem(seconds, 3600) / 60, JsRem(seconds, 60))
    else Uptime(seconds / 3600, JsRem(seconds, 3600) / 60, JsRem(seconds, 60))
  }

  lemma DivModUnique(a: int, d: int, q: int, r: int)
    requires d > 0 && a == d * q + r && 0 <= r < d
    ensures a / d == q && a % d == r
  {
    var q', r' := a / d, a % d;
    assert a == d * q' + r';
    if q' < q {
      MulMonotone(d, q' + 1, q);
    } else if q < q' {
      MulMonotone(d, q + 1, q');
    }
  }

  lemma UptimeArithmetic(s: int)
    requires s >= 0
    ensures 3600 * (s / 3600) + 60 * ((s % 3600) / 60) + s % 60 == s
    ensures 0 <= (s % 3600) / 60 < 60
  {
    var h, r := s / 3600, s % 3600;
    var m, c := r / 60, r % 60;
    assert r == 60 * m + c;
    assert s == 60 * (60 * h + m) + c;
    DivModUnique(s, 60, 60 * h + m, c);
    if m >= 60 {
      MulMonotone(60, 60, m);
    }
  }

  /**
   * `formatUptime(seconds)`: "<h>h <m>m <s>s".  A non-negative uptime shows
   * its whole hours, the whole minutes of the rest and the seconds left; a
   * negative one shows negative hours.
   */
  function FormatUptime(seconds: int): (t: string)
    ensures seconds >= 0 ==>
              t == NatToString(seconds / 3600) + "h " + NatToString(seconds % 3600 / 60) + "m " + NatToString(seconds % 60) + "s"
    ensures seconds < 0 ==> |t| > 0 && t[0] == '-'
  {
    var u := UptimeParts(seconds);
    IntToString(u.hours) + "h " + IntToString(u.minutes) + "m " + IntToString(u.secs) + "s"
  }

  lemma MarkerAt(a: string, c: char, x: string, b: string, y: string)
    ensures (a + [c] + x)[|a|] == c
    ensures forall i :: 0 <= i < |b| ==> (b + [c] + y)[i] == b[i]
  {
  }

  /** A split at the first non-digit marker is unique: digits can never contain it. */
  lemma DigitsBeforeMarker(a: string, b: string, c: char, x: string, y: string)
    requires IsDecimal(a) && IsDecimal(b) && !IsDecimalDigit(c)
    requires a + [c] + x == b + [c] + y
    ensures a == b && x == y
  {
    var l, r := a + [c] + x, b + [c] + y;
    if |a| < |b| {
      MarkerAt(a, c, x, b, y);
      assert false;
    } else if |b| < |a| {
      MarkerAt(b, c, y, a, x);
      assert false;
    }
    assert a == l[..|a|] && b == r[..|b|];
    assert x == l[|a| + 1..] && y == r[|b| + 1..];
  }

  lemma NatToStringInjective(m: nat, n: nat)
    requires NatToString(m) == NatToString(n)
    ensures m == n
  {
    ParseNatToString(m);
    ParseNatToString(n);
  }

  /** The text of a non-negative uptime, cut at its three unit letters. */
  lemma UptimeShape(s: int)
    requires s >= 0
    ensures var u := UptimeParts(s);
            FormatUptime(s) == NatToString(u.hours) + ['h'] + (" " + NatToString(u.minutes) + "m " + NatToString(u.secs) + "s")
  {
    var u := UptimeParts(s);
    var h, m, c := NatToString(u.hours), NatToString(u.minutes), NatToString(u.secs);
    assert IntToString(u.hours) == h && IntToString(u.minutes) == m && IntToString(u.secs) == c;
    assert h + "h " + m + "m " + c + "s" == h + ['h'] + (" " + m + "m " + c + "s");
  }

  lemma MinutesShape(m: string, c: string)
    ensures (" " + m + "m " + c + "s")[1..] == m + ['m'] + (" " + c + "s")
  {
  }

  lemma SecondsShape(c: string)
    ensures (" " + c + "s")[1..] == c + ['s'] + []
  {
  }

  /** Distinct non-negative uptimes are always shown as distinct texts. */
  lemma {:induction false} FormatUptimeInjective(s1: int, s2: int)
    requires s1 >= 0 && s2 >= 0
    requires FormatUptime(s1) == FormatUptime(s2)
    ensures s1 == s2
  {
    var u1, u2 := UptimeParts(s1), UptimeParts(s2);
    var h1, h2 := NatToString(u1.hours), NatToString(u2.hours);
    var m1, m2 := NatToString(u1.minutes), NatToString(u2.minutes);
    var c1, c2 := NatToString(u1.secs), NatToString(u2.secs);
    UptimeShape(s1);
    UptimeShape(s2);
    var t1, t2 := " " + m1 + "m " + c1 + "s", " " + m2 + "m " + c2 + "s";
    DigitsBeforeMarker(h1, h2, 'h', t1, t2);
    MinutesShape(m1, c1);
    MinutesShape(m2, c2);
    var e1, e2 := " " + c1 + "s", " " + c2 + "s";
    DigitsBeforeMarker(m1, m2, 'm', e1, e2);
    SecondsShape(c1);
    SecondsShape(c2);
    DigitsBeforeMarker(c1, c2, 's', [], []);
    NatToStringInjective(u1.hours, u2.hours);
    NatToStringInjective(u1.minutes, u2.minutes);
    NatToStringInjective(u1.secs, u2.secs);
  }

  // ---------------------------------------------------------------------------
  // Bitrate

  /**
   * A bitrate caption.  `Fixed` stands for `value.toFixed(digits) + unit`
   * (the rounding of `toFixed` is not modelled); `Plain` for `${value}` + unit.
   */
  datatype BitrateLabel =
    | Fixed(value: real, digits: nat, unit: string)
    | Plain(count: int, unit: string)

  /**
   * `formatBitrate` of this card: the figure is read as kbit/s, shown in
   * Mbps with two decimals from 1000 on and as the raw number below.
   */
  function FormatBitrate(bitrate: int): (l: BitrateLabel)
    ensures l.unit == " Mbps" <==> bitrate >= 1000
    ensures l.Fixed? <==> bitrate >= 1000
    ensures l.Fixed? ==> l.value * 1000.0 == bitrate as real && l.digits == 2
    ensures l.Plain? ==> l.count == bitrate && l.unit == " Kbps"
  {
    if bitrate >= 1000 then Fixed(bitrate as real / 1000.0, 2, " Mbps") else Plain(bitrate, " Kbps")
  }

  // ---------------------------------------------------------------------------
  // Statistics panel and caption

  /** What the expanded card shows above the player list. */
  datatype StatsPanel = StatsGrid | NoStatisticsAvailable | NoPanel

  /** `isOnline && stats ? grid : !isOnline ? "No statistics available" : null`. */
  function Panel(isOnline: bool, stats: Option<PublisherStats>): (p: StatsPanel)
    ensures p == StatsGrid <==> isOnline && stats.Some?
    ensures p == NoStatisticsAvailable <==> !isOnline
    ensures p == NoPanel <==> isOnline && stats.None?
  {
    if isOnline && stats.Some? then StatsGrid else if !isOnline then NoStatisticsAvailable else NoPanel
  }

  /** In every state the poller can reach the gap case never shows: the grid appears exactly when online. */
  lemma PanelOfReachableState(s: PollState)
    requires s.Consistent()
    ensures Panel(s.isOnline, s.stats) != NoPanel
    ensures Panel(s.isOnline, s.stats) == StatsGrid <==> s.isOnline
  {
  }

  /** "<n> Player ID configured" for one ID, "<n> Player IDs configured" otherwise. */
  function PlayerCountCaption(n: nat): (s: string)
    ensures EndsWith(s, "s configured") <==> n != 1
    ensures StartsWith(s, NatToString(n) + " Player ID") && EndsWith(s, " configured")
    ensures |s| == |NatToString(n)| + (if n != 1 then 22 else 21)
  {
    var c := NatToString(n) + " Player ID" + (if n != 1 then "s" else "") + " configured";
    assert c[|c| - 12..] == (if n != 1 then "s configured" else "D configured");
    assert c[..|NatToString(n) + " Player ID"|] == NatToString(n) + " Player ID";
    c
  }

  // ---------------------------------------------------------------------------
  // The card's state

  class Card {
    var publisherName: string
    var streamIds: seq<StreamId>
    var streamIdsRef: ObjectRef
    var stats: Option<PublisherStats>
    var isOnline: bool
    var loading: bool
    var lastUpdate: int
    var lastUpdateRef: ObjectRef
    var secondsUntilUpdate: int
    var pollTimer: Option<Interval>
    var pollEffect: Option<PollDeps>
    var countdown: Option<Ticker>
    var queries: seq<string>

    function State(): PollState
      reads this
    {
      PollState(stats, isOnline, loading, lastUpdate)
    }

    ghost predicate Valid()
      reads this
    {
      && State().Consistent()
      && secondsUntilUpdate >= 0
      && (pollTimer.Some? ==> pollEffect.Some? && pollTimer.value.period == RefreshInterval(pollEffect.value.isOnline))
    }

    /** 5000 ms while online, 10000 ms otherwise; the `refreshInterval` prop plays no part. */
    function CurrentRefreshInterval(): (ms: int)
      reads this
      ensures ms == ACTIVE_REFRESH_INTERVAL <==> isOnline
      ensures ms == INACTIVE_REFRESH_INTERVAL <==> !isOnline
    {
      RefreshInterval(isOnline)
    }

    /** The statistics panel of the current state. */
    function ShownPanel(): (p: StatsPanel)
      reads this
      ensures State().Consistent() ==> (p == StatsGrid <==> isOnline) && p != NoPanel
    {
      Panel(isOnline, stats)
    }

    /**
     * The poll effect is due when the `streamIds` prop is another array
     * object, or the liveness differs, from its last run.
     */
    predicate PollEffectPending()
      reads this
    {
      pollEffect.None? || pollEffect.value.streamIdsRef != streamIdsRef || pollEffect.value.isOnline != isOnline
    }

    /** The countdown effect is due when `lastUpdate` is another `Date` object or the period differs. */
    predicate CountdownEffectPending()
      reads this
    {
      countdown.None? || countdown.value.lastUpdateRef != lastUpdateRef
      || countdown.value.refreshInterval != CurrentRefreshInterval()
    }

    /** First render.  The `refreshInterval` prop is accepted and ignored. */
    constructor (publisherName: string, streamIds: seq<StreamId>, streamIdsRef: ObjectRef, refreshInterval: Option<int>, now: int)
      ensures Valid()
      ensures this.publisherName == publisherName && this.streamIds == streamIds && this.streamIdsRef == streamIdsRef
      ensures State() == InitialState(now) && lastUpdateRef == 0 && secondsUntilUpdate == 0
      ensures pollTimer == None && pollEffect == None && countdown == None && queries == []
    {
      this.publisherName, this.streamIds, this.streamIdsRef := publisherName, streamIds, streamIdsRef;
      stats, isOnline, loading, lastUpdate := None, false, true, now;
      lastUpdateRef, secondsUntilUpdate := 0, 0;
      pollTimer, pollEffect, countdown, queries := None, None, None, [];
    }

    /**
     * The card's inlined `fetchStats` over the stream IDs its closure holds.
     * Stamping `lastUpdate` stores a new `Date` object.
     */
    method Fetch(ids: seq<StreamId>, outcome: FetchOutcome, doneAt: int) returns (queried: Option<string>)
      requires Valid()
      modifies this
      ensures Valid()
      ensures var step := FetchStats(ids, old(State()), outcome, doneAt);
              State() == step.state && queried == step.queried
      ensures queries == old(queries) + (if queried.Some? then [queried.value] else [])
      ensures lastUpdateRef == if |ids| > 0 && outcome.Returned? then old(lastUpdateRef) + 1 else old(lastUpdateRef)
      ensures publisherName == old(publisherName) && streamIds == old(streamIds) && streamIdsRef == old(streamIdsRef)
      ensures pollTimer == old(pollTimer) && pollEffect == old(pollEffect)
      ensures countdown == old(countdown) && secondsUntilUpdate == old(secondsUntilUpdate)
    {
      var step := FetchStats(ids, State(), outcome, doneAt);
      stats, isOnline, loading, lastUpdate := step.state.stats, step.state.isOnline, step.state.loading, step.state.lastUpdate;
      lastUpdateRef := if |ids| > 0 && outcome.Returned? then lastUpdateRef + 1 else lastUpdateRef;
      queried := step.queried;
      queries := queries + (if queried.Some? then [queried.value] else []);
    }

    /** The poll effect: clear the interval, fetch at once, arm one interval at this render's period. */
    method RunPollEffect(now: int, outcome: FetchOutcome, doneAt: int) returns (queried: Option<string>)
      requires Valid()
      modifies this
      ensures Valid()
      ensures pollEffect == Some(PollDeps(old(streamIds), old(streamIdsRef), old(isOnline)))
      ensures pollTimer == Some(Interval(RefreshInterval(old(isOnline)), now + RefreshInterval(old(isOnline))))
      ensures var step := FetchStats(old(streamIds), old(State()), outcome, doneAt);
              State() == step.state && queried == step.queried
      ensures queries == old(queries) + (if queried.Some? then [queried.value] else [])
      ensures lastUpdateRef == if |old(streamIds)| > 0 && outcome.Returned? then old(lastUpdateRef) + 1 else old(lastUpdateRef)
      ensures publisherName == old(publisherName) && streamIds == old(streamIds) && streamIdsRef == old(streamIdsRef)
      ensures countdown == old(countdown) && secondsUntilUpdate == old(secondsUntilUpdate)
      ensures PollEffectPending() <==> isOnline != old(isOnline)
    {
      var period := CurrentRefreshInterval();
      pollEffect := Some(PollDeps(streamIds, streamIdsRef, isOnline));
      pollTimer := Some(Interval(period, now + period));
      queried := Fetch(streamIds, outcome, doneAt);
    }

    /** The poll interval fires and calls the `fetchStats` its effect captured. */
    method PollFires(outcome: FetchOutcome, doneAt: int) returns (queried: Option<string>)
      requires Valid()
      modifies this
      ensures Valid()
      ensures old(pollTimer).None? ==>
                && queried == None && State() == old(State()) && queries == old(queries) && pollTimer == None
                && lastUpdateRef == old(lastUpdateRef)
      ensures old(pollTimer).Some? ==>
                var ids := old(pollEffect).value.streamIds;
                var step := FetchStats(ids, old(State()), outcome, doneAt);
                && State() == step.state && queried == step.queried
                && queries == old(queries) + (if queried.Some? then [queried.value] else [])
                && lastUpdateRef == (if |ids| > 0 && outcome.Returned? then old(lastUpdateRef) + 1 else old(lastUpdateRef))
                && pollTimer == Some(old(pollTimer).value.(nextAt := old(pollTimer).value.nextAt + old(pollTimer).value.period))
      ensures publisherName == old(publisherName) && streamIds == old(streamIds) && streamIdsRef == old(streamIdsRef)
      ensures pollEffect == old(pollEffect) && countdown == old(countdown) && secondsUntilUpdate == old(secondsUntilUpdate)
    {
      queried := None;
      if pollTimer.Some? {
        var t := pollTimer.value;
        pollTimer := Some(t.(nextAt := t.nextAt + t.period));
        queried := Fetch(pollEffect.value.streamIds, outcome, doneAt);
      }
    }

    /** The countdown effect: a fresh one-second ticker over the current stamp and interval. */
    method RunCountdownEffect(now: int)
      requires Valid()
      modifies this
      ensures Valid() && !CountdownEffectPending()
      ensures countdown == Some(Ticker(lastUpdate, lastUpdateRef, RefreshInterval(isOnline), now + TICK_MS))
      ensures State() == old(State()) && lastUpdateRef == old(lastUpdateRef) && secondsUntilUpdate == old(secondsUntilUpdate)
      ensures publisherName == old(publisherName) && streamIds == old(streamIds) && streamIdsRef == old(streamIdsRef)
      ensures pollTimer == old(pollTimer) && pollEffect == old(pollEffect) && queries == old(queries)
    {
      countdown := Some(Ticker(lastUpdate, lastUpdateRef, CurrentRefreshInterval(), now + TICK_MS));
    }

    /**
     * A countdown tick whose callback runs at time `now`, on time or late:
     * the same formula as the countdown hook at that time, clamped at 0.
     */
    method CountdownTick(now: int)
      requires Valid()
      requires countdown.Some? ==> now >= countdown.value.nextAt
      modifies this
      ensures Valid()
      ensures old(countdown).None? ==> secondsUntilUpdate == old(secondsUntilUpdate) && countdown == None
      ensures old(countdown).Some? ==>
                var t := old(countdown).value;
                && secondsUntilUpdate == SecondsRemaining(t.refreshInterval, t.lastUpdate, now)
                && countdown == Some(t.(nextAt := now + TICK_MS))
      ensures State() == old(State()) && lastUpdateRef == old(lastUpdateRef)
      ensures publisherName == old(publisherName) && streamIds == old(streamIds) && streamIdsRef == old(streamIdsRef)
      ensures pollTimer == old(pollTimer) && pollEffect == old(pollEffect) && queries == old(queries)
    {
      if countdown.Some? {
        var t := countdown.value;
        secondsUntilUpdate := SecondsRemaining(t.refreshInterval, t.lastUpdate, now);
        countdown := Some(t.(nextAt := now + TICK_MS));
      }
    }

    /**
     * The parent renders the card again, with a stream-ID array whose
     * identity is `streamIdsRef`; the `refreshInterval` prop is ignored as
     * before.  A new array object makes the poll effect due even when it
     * holds the same stream IDs.
     */
    method Rerender(publisherName: string, streamIds: seq<StreamId>, streamIdsRef: ObjectRef, refreshInterval: Option<int>)
      requires Valid()
      modifies this
      ensures Valid()
      ensures this.publisherName == publisherName && this.streamIds == streamIds && this.streamIdsRef == streamIdsRef
      ensures State() == old(State()) && lastUpdateRef == old(lastUpdateRef) && secondsUntilUpdate == old(secondsUntilUpdate)
      ensures pollTimer == old(pollTimer) && pollEffect == old(pollEffect)
      ensures countdown == old(countdown) && queries == old(queries)
      ensures PollEffectPending() <==>
                pollEffect.None? || pollEffect.value.streamIdsRef != streamIdsRef || pollEffect.value.isOnline != isOnline
    {
      this.publisherName, this.streamIds, this.streamIdsRef := publisherName, streamIds, streamIdsRef;
    }

    /** Unmount: both cleanups run, so neither timer remains. */
    method Unmount()
      requires Valid()
      modifies this
      ensures Valid() && pollTimer == None && countdown == None
      ensures State() == old(State()) && lastUpdateRef == old(lastUpdateRef) && secondsUntilUpdate == old(secondsUntilUpdate)
      ensures publisherName == old(publisherName) && streamIds == old(streamIds) && streamIdsRef == old(streamIdsRef)
      ensures pollEffect == old(pollEffect) && queries == old(queries)
    {
      pollTimer, countdown := None, None;
    }
  }

  /**
   * Every answer from the stats service stamps a new `Date`, so after any
   * fetch of a non-empty group that returned (with or without stats) the
   * countdown effect is due, however little time has passed.
   */
  method ReturnedPollRestartsCountdown(c: Card, s: Option<PublisherStats>, doneAt: int)
    requires c.Valid() && !c.CountdownEffectPending() && c.pollTimer.Some? && |c.pollEffect.value.streamIds| > 0
    modifies c
    ensures c.CountdownEffectPending()
  {
    var q := c.PollFires(Returned(s), doneAt);
  }

  /**
   * One poll per publisher: however many player IDs the group has, an
   * interval firing makes exactly one call, for the first of them.
   */
  method OneCallPerGroup(c: Card, outcome: FetchOutcome, doneAt: int)
    requires c.Valid() && c.pollTimer.Some? && |c.pollEffect.value.streamIds| > 0
    modifies c
    ensures c.queries == old(c.queries) + [old(c.pollEffect).value.streamIds[0].player]
  {
    var q := c.PollFires(outcome, doneAt);
  }
}
