/**
 * The card of a single stream ID (html/src/components/PublisherCard.tsx).
 * It polls like the grouped card with three differences: `fetchStats` has
 * no empty-list guard and always asks for its own player ID, the poll
 * effect depends on the player ID and the liveness only, and the panel is
 * gated on `stats` alone.  Its bitrate figure is read as bit/s.
 * Uptime is formatted exactly as in GroupedPublisherCard (lines 75-80 of
 * this file repeat lines 92-97 of that one), so `FormatUptime` is shared.
 */
module PublisherCard {
  import opened ApiTypes
  import opened PublisherStatsHook
  import opened RefreshTimerHook
  import G = GroupedPublisherCard

  /**
   * `formatBitrate` of this card: Mbps with two decimals from 1 000 000 on,
   * otherwise Kbps with no decimals.
   */
  function FormatBitrate(bitrate: int): (l: G.BitrateLabel)
    ensures l.Fixed?
    ensures l.unit == " Mbps" <==> bitrate >= 1000000
    ensures l.unit == " Kbps" <==> bitrate < 1000000
    ensures bitrate >= 1000000 ==> l.value * 1000000.0 == bitrate as real && l.digits == 2
    ensures bitrate < 1000000 ==> l.value * 1000.0 == bitrate as real && l.digits == 0
  {
    if bitrate >= 1000000 then G.Fixed(bitrate as real / 1000000.0, 2, " Mbps")
    else G.Fixed(bitrate as real / 1000.0, 0, " Kbps")
  }

  /**
   * The two cards read the bitrate in different units: between 1000 and
   * 999 999 the grouped card already says Mbps while this one still says Kbps.
   */
  lemma BitrateUnitsDiffer(bitrate: int)
    requires 1000 <= bitrate < 1000000
    ensures G.FormatBitrate(bitrate).unit == " Mbps" && FormatBitrate(bitrate).unit == " Kbps"
  {
  }

  /** `stats ? grid : "No statistics available"`. */
  function Panel(stats: Option<PublisherStats>): (p: G.StatsPanel)
    ensures p != G.NoPanel
    ensures p == G.StatsGrid <==> stats.Some?
  {
    if stats.Some? then G.StatsGrid else G.NoStatisticsAvailable
  }

  /**
   * Gating on `stats` alone is gating on liveness: in every reachable state
   * this card shows the same panel as the grouped card would.
   */
  lemma PanelAgreesWithGroupedCard(s: PollState)
    requires s.Consistent()
    ensures Panel(s.stats) == G.Panel(s.isOnline, s.stats)
    ensures Panel(s.stats) == G.StatsGrid <==> s.isOnline
  {
  }

  /** What this card's poll effect depends on. */
  datatype CardDeps = CardDeps(player: string, isOnline: bool)

  class Card {
    var streamId: StreamId
    var stats: Option<PublisherStats>
    var isOnline: bool
    var loading: bool
    var lastUpdate: int
    var lastUpdateRef: ObjectRef
    var secondsUntilUpdate: int
    var pollTimer: Option<Interval>
    var pollEffect: Option<CardDeps>
    var countdown: Option<Ticker>
    var queries: seq<string>

    function State(): PollState
      reads this
    {
      PollState(stats, isOnline, loading, lastUpdate)
    }

    ghost predicate Valid()
      reads this
    {
      && State().Consistent()
      && secondsUntilUpdate >= 0
      && (pollTimer.Some? ==> pollEffect.Some? && pollTimer.value.period == RefreshInterval(pollEffect.value.isOnline))
    }

    function CurrentRefreshInterval(): (ms: int)
      reads this
      ensures ms == ACTIVE_REFRESH_INTERVAL <==> isOnline
      ensures ms == INACTIVE_REFRESH_INTERVAL <==> !isOnline
    {
      RefreshInterval(isOnline)
    }

    /** The statistics panel of the current state. */
    function ShownPanel(): (p: G.StatsPanel)
      reads this
      ensures State().Consistent() ==> (p == G.StatsGrid <==> isOnline)
    {
      Panel(stats)
    }

    /**
     * The effect is due when the player ID or the liveness differs from its
     * last run's; both are primitive values, which `Object.is` compares by value.
     */
    predicate PollEffectPending()
      reads this
    {
      pollEffect != Some(CardDeps(streamId.player, isOnline))
    }

    /** The countdown effect is due when `lastUpdate` is another `Date` object or the period differs. */
    predicate CountdownEffectPending()
      reads this
    {
      countdown.None? || countdown.value.lastUpdateRef != lastUpdateRef
      || countdown.value.refreshInterval != CurrentRefreshInterval()
    }

    constructor (streamId: StreamId, now: int)
      ensures Valid()
      ensures this.streamId == streamId
      ensures State() == InitialState(now) && lastUpdateRef == 0 && secondsUntilUpdate == 0
      ensures pollTimer == None && pollEffect == None && countdown == None && queries == []
    {
      this.streamId := streamId;
      stats, isOnline, loading, lastUpdate := None, false, true, now;
      lastUpdateRef, secondsUntilUpdate := 0, 0;
      pollTimer, pollEffect, countdown, queries := None, None, None, [];
    }

    /**
     * This card's `fetchStats`: always one call, for the player ID it closes
     * over.  Every returned answer stamps a new `Date` object.
     */
    method Fetch(player: string, outcome: FetchOutcome, doneAt: int)
      requires Valid()
      modifies this
      ensures Valid()
      ensures State() == ApplyOutcome(old(State()), outcome, doneAt)
      ensures queries == old(queries) + [player]
      ensures lastUpdateRef == if outcome.Returned? then old(lastUpdateRef) + 1 else old(lastUpdateRef)
      ensures streamId == old(streamId) && pollTimer == old(pollTimer) && pollEffect == old(pollEffect)
      ensures countdown == old(countdown) && secondsUntilUpdate == old(secondsUntilUpdate)
    {
      var s := ApplyOutcome(State(), outcome, doneAt);
      stats, isOnline, loading, lastUpdate := s.stats, s.isOnline, s.loading, s.lastUpdate;
      if outcome.Returned? {
        lastUpdateRef := lastUpdateRef + 1;
      }
      queries := queries + [player];
    }

    /** The poll effect: clear the interval, fetch at once, arm one interval at this render's period. */
    method RunPollEffect(now: int, outcome: FetchOutcome, doneAt: int)
      requires Valid()
      modifies this
      ensures Valid()
      ensures pollEffect == Some(CardDeps(streamId.player, old(isOnline)))
      ensures pollTimer == Some(Interval(RefreshInterval(old(isOnline)), now + RefreshInterval(old(isOnline))))
      ensures State() == ApplyOutcome(old(State()), outcome, doneAt)
      ensures queries == old(queries) + [streamId.player]
      ensures lastUpdateRef == if outcome.Returned? then old(lastUpdateRef) + 1 else old(lastUpdateRef)
      ensures streamId == old(streamId) && countdown == old(countdown) && secondsUntilUpdate == old(secondsUntilUpdate)
      ensures PollEffectPending() <==> isOnline != old(isOnline)
    {
      var period := CurrentRefreshInterval();
      pollEffect := Some(CardDeps(streamId.player, isOnline));
      pollTimer := Some(Interval(period, now + period));
      Fetch(streamId.player, outcome, doneAt);
    }

    /** The poll interval fires and fetches for the player ID its effect captured. */
    method PollFires(outcome: FetchOutcome, doneAt: int)
      requires Valid()
      modifies this
      ensures Valid()
      ensures old(pollTimer).None? ==>
                State() == old(State()) && queries == old(queries) && pollTimer == None && lastUpdateRef == old(lastUpdateRef)
      ensures old(pollTimer).Some? ==>
                && State() == ApplyOutcome(old(State()), outcome, doneAt)
                && queries == old(queries) + [old(pollEffect).value.player]
                && lastUpdateRef == (if outcome.Returned? then old(lastUpdateRef) + 1 else old(lastUpdateRef))
                && pollTimer == Some(old(pollTimer).value.(nextAt := old(pollTimer).value.nextAt + old(pollTimer).value.period))
      ensures streamId == old(streamId) && pollEffect == old(pollEffect)
      ensures countdown == old(countdown) && secondsUntilUpdate == old(secondsUntilUpdate)
    {
      if pollTimer.Some? {
        var t := pollTimer.value;
        pollTimer := Some(t.(nextAt := t.nextAt + t.period));
        Fetch(pollEffect.value.player, outcome, doneAt);
      }
    }

    method RunCountdownEffect(now: int)
      requires Valid()
      modifies this
      ensures Valid() && !CountdownEffectPending()
      ensures countdown == Some(Ticker(lastUpdate, lastUpdateRef, RefreshInterval(isOnline), now + TICK_MS))
      ensures State() == old(State()) && lastUpdateRef == old(lastUpdateRef)
      ensures secondsUntilUpdate == old(secondsUntilUpdate) && streamId == old(streamId)
      ensures pollTimer == old(pollTimer) && pollEffect == old(pollEffect) && queries == old(queries)
    {
      countdown := Some(Ticker(lastUpdate, lastUpdateRef, CurrentRefreshInterval(), now + TICK_MS));
    }

    /** A countdown tick whose callback runs at time `now`, on time or late. */
    method CountdownTick(now: int)
      requires Valid()
      requires countdown.Some? ==> now >= countdown.value.nextAt
      modifies this
      ensures Valid()
      ensures old(countdown).None? ==> secondsUntilUpdate == old(secondsUntilUpdate) && countdown == None
      ensures old(countdown).Some? ==>
                var t := old(countdown).value;
                && secondsUntilUpdate == SecondsRemaining(t.refreshInterval, t.lastUpdate, now)
                && countdown == Some(t.(nextAt := now + TICK_MS))
      ensures State() == old(State()) && lastUpdateRef == old(lastUpdateRef) && streamId == old(streamId)
      ensures pollTimer == old(pollTimer) && pollEffect == old(pollEffect) && queries == old(queries)
    {
      if countdown.Some? {
        var t := countdown.value;
        secondsUntilUpdate := SecondsRemaining(t.refreshInterval, t.lastUpdate, now);
        countdown := Some(t.(nextAt := now + TICK_MS));
      }
    }

    /**
     * The parent renders the card with a (possibly) new stream ID.  A new
     * record with the same player ID does not make the poll effect due.
     */
    method Rerender(streamId: StreamId)
      requires Valid()
      modifies this
      ensures Valid()
      ensures this.streamId == streamId
      ensures State() == old(State()) && lastUpdateRef == old(lastUpdateRef) && secondsUntilUpdate == old(secondsUntilUpdate)
      ensures pollTimer == old(pollTimer) && pollEffect == old(pollEffect)
      ensures countdown == old(countdown) && queries == old(queries)
      ensures streamId.player == old(this.streamId).player ==> (PollEffectPending() <==> old(PollEffectPending()))
    {
      this.streamId := streamId;
    }

    method Unmount()
      requires Valid()
      modifies this
      ensures Valid() && pollTimer == None && countdown == None
      ensures State() == old(State()) && lastUpdateRef == old(lastUpdateRef)
      ensures secondsUntilUpdate == old(secondsUntilUpdate) && streamId == old(streamId)
      ensures pollEffect == old(pollEffect) && queries == old(queries)
    {
      pollTimer, countdown := None, None;
    }
  }

  /**
   * Every returned answer stamps a new `Date`, so after a poll that
   * returned (with or without stats) the countdown effect is due, however
   * little time has passed.
   */
  method ReturnedPollRestartsCountdown(c: Card, s: Option<PublisherStats>, doneAt: int)
    requires c.Valid() && !c.CountdownEffectPending() && c.pollTimer.Some?
    modifies c
    ensures c.CountdownEffectPending()
  {
    c.PollFires(Returned(s), doneAt);
  }
}
