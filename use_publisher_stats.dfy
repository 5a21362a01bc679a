/**
 * The statistics poller of one publisher (html/src/hooks/usePublisherStats.ts):
 * the liveness classifier that turns one fetch outcome into the state cells
 * `stats`, `isOnline`, `loading` and `lastUpdate`, the two-valued interval
 * policy, and the poll effect that cancels the previous interval timer,
 * fetches at once and arms one new timer.
 *
 * Time is integer milliseconds.  The stats client is not modelled: the
 * result of each fetch is an input (`FetchOutcome`), and a fetch is taken
 * as one step from the call to its completion, at the completion time.
 */
module PublisherStatsHook {
  import opened ApiTypes

  /** Poll period while the publisher reports statistics. */
  const ACTIVE_REFRESH_INTERVAL := 5000
  /** Poll period while it does not. */
  const INACTIVE_REFRESH_INTERVAL := 10000

  /** The interval policy: the only two periods, chosen by liveness alone. */
  function RefreshInterval(isOnline: bool): (ms: int)
    ensures ms == ACTIVE_REFRESH_INTERVAL || ms == INACTIVE_REFRESH_INTERVAL
    ensures ms == ACTIVE_REFRESH_INTERVAL <==> isOnline
    ensures ms == INACTIVE_REFRESH_INTERVAL <==> !isOnline
  {
    if isOnline then ACTIVE_REFRESH_INTERVAL else INACTIVE_REFRESH_INTERVAL
  }

  /** The four state cells the poller keeps. */
  datatype PollState = PollState(
    stats: Option<PublisherStats>,
    isOnline: bool,
    loading: bool,
    lastUpdate: int)
  {
    /** Stats are held exactly while the publisher is online. */
    predicate Consistent() { stats.Some? <==> isOnline }
  }

  /** What one call of the stats client came back with. */
  datatype FetchOutcome =
    | Returned(result: Option<PublisherStats>)  // the call resolved (with stats, or with none)
    | Failed                                    // the call threw

  /** The state before the first fetch: no stats, offline, loading, stamped at mount time. */
  function InitialState(now: int): (s: PollState)
    ensures s.Consistent() && s.loading && !s.isOnline && s.lastUpdate == now
  {
    PollState(None, false, true, now)
  }

  /**
   * The liveness classifier.  A resolved call stores whatever it returned,
   * derives liveness from its presence and stamps the completion time; a
   * thrown call clears the stats and goes offline, keeping the old stamp.
   * Either way loading ends.
   */
  function ApplyOutcome(s: PollState, outcome: FetchOutcome, now: int): (t: PollState)
    ensures t.Consistent() && !t.loading
    ensures t.isOnline <==> outcome.Returned? && outcome.result.Some?
    ensures outcome.Returned? ==> t.stats == outcome.result && t.lastUpdate == now
    ensures outcome.Failed? ==> t.stats == None && t.lastUpdate == s.lastUpdate
  {
    match outcome
    case Returned(result) => PollState(result, result.Some?, false, now)
    case Failed => PollState(None, false, false, s.lastUpdate)
  }

  /** The empty-group guard: offline, not loading, stamp untouched, and no call made. */
  function EmptyGuard(s: PollState): (t: PollState)
    ensures t.Consistent() && !t.loading && t.stats == None
    ensures t.lastUpdate == s.lastUpdate
  {
    s.(stats := None, isOnline := false, loading := false)
  }

  /** One run of `fetchStats`: the new state and the player ID passed to the stats client, if any. */
  datatype FetchStep = FetchStep(state: PollState, queried: Option<string>)

  /**
   * `fetchStats` over a list of stream IDs: an empty list takes the guard
   * and makes no call; otherwise the stats of the first player ID are asked
   * for (all players of one publisher share its stats).
   */
  function FetchStats(streamIds: seq<StreamId>, s: PollState, outcome: FetchOutcome, now: int): (r: FetchStep)
    ensures r.state.Consistent() && !r.state.loading
    ensures r.queried.None? <==> |streamIds| == 0
    ensures |streamIds| > 0 ==> r.queried == Some(streamIds[0].player) && r.state == ApplyOutcome(s, outcome, now)
    ensures |streamIds| == 0 ==> r.state == EmptyGuard(s)
  {
    if |streamIds| == 0 then FetchStep(EmptyGuard(s), None)
    else FetchStep(ApplyOutcome(s, outcome, now), Some(streamIds[0].player))
  }

  /** A failed call leaves the same verdict as a resolved call with no stats; only the stamp differs. */
  lemma FailureLooksLikeAbsence(s: PollState, now: int)
    ensures ApplyOutcome(s, Failed, now) == ApplyOutcome(s, Returned(None), now).(lastUpdate := s.lastUpdate)
  {
  }

  /** The verdict of a poll depends on its own outcome only, never on the state it started from. */
  lemma VerdictIsMemoryless(s1: PollState, s2: PollState, outcome: FetchOutcome, now: int)
    requires outcome.Returned?
    ensures ApplyOutcome(s1, outcome, now) == ApplyOutcome(s2, outcome, now)
  {
  }

  /** Invariant: every state the poller reaches has stats exactly while online. */
  lemma ConsistentAlways(streamIds: seq<StreamId>, s: PollState, outcome: FetchOutcome, now: int)
    ensures InitialState(now).Consistent()
    ensures FetchStats(streamIds, s, outcome, now).state.Consistent()
  {
  }

  /** The interval chosen after a poll is the short one exactly when stats came back. */
  lemma NextIntervalFollowsOutcome(streamIds: seq<StreamId>, s: PollState, outcome: FetchOutcome, now: int)
    ensures RefreshInterval(FetchStats(streamIds, s, outcome, now).state.isOnline) == ACTIVE_REFRESH_INTERVAL
            <==> |streamIds| > 0 && outcome.Returned? && outcome.result.Some?
  {
  }

  /** An armed `setInterval`: its period and the time it fires next. */
  datatype Interval = Interval(period: int, nextAt: int)

  /**
   * What the poll effect captured when it last ran: the stream IDs its
   * `fetchStats` closes over, the identity of that array, and the liveness.
   * Its dependency list `[streamIds, isOnline, currentRefreshInterval,
   * fetchStats]` changes exactly when the array's identity or the liveness
   * does, since `fetchStats` is re-created only for a new `streamIds` array
   * and the period follows the liveness.
   */
  datatype PollDeps = PollDeps(streamIds: seq<StreamId>, streamIdsRef: ObjectRef, isOnline: bool)

  /**
   * One mounted use of the hook.  `queries` records, in order, the player IDs
   * handed to the stats client, so that "no call" and "which player" can be
   * stated.  `streamIdsRef` is the identity of the array the owner passed,
   * `lastUpdateRef` that of the `Date` held in the `lastUpdate` cell.
   */
  class StatsPoller {
    var streamIds: seq<StreamId>
    var streamIdsRef: ObjectRef
    var stats: Option<PublisherStats>
    var isOnline: bool
    var loading: bool
    var lastUpdate: int
    var lastUpdateRef: ObjectRef
    var timer: Option<Interval>
    var effect: Option<PollDeps>
    var queries: seq<string>

    function State(): PollState
      reads this
    {
      PollState(stats, isOnline, loading, lastUpdate)
    }

    /**
     * Stats are held exactly while online, and an armed timer runs at the
     * interval of the liveness its effect captured.
     */
    ghost predicate Valid()
      reads this
    {
      && State().Consistent()
      && (timer.Some? ==> effect.Some? && timer.value.period == RefreshInterval(effect.value.isOnline))
    }

    /** The returned `currentRefreshInterval`, always the one of the returned `isOnline`. */
    function CurrentRefreshInterval(): (ms: int)
      reads this
      ensures ms == ACTIVE_REFRESH_INTERVAL <==> isOnline
      ensures ms == INACTIVE_REFRESH_INTERVAL <==> !isOnline
    {
      RefreshInterval(isOnline)
    }

    /**
     * React re-runs the poll effect after a render in which the `streamIds`
     * array is another object or the liveness differs from the last run's.
     */
    predicate EffectPending()
      reads this
    {
      effect.None? || effect.value.streamIdsRef != streamIdsRef || effect.value.isOnline != isOnline
    }

    /** First render: the initial state cells, the first `Date` stamp; no effect has run yet. */
    constructor (streamIds: seq<StreamId>, streamIdsRef: ObjectRef, now: int)
      ensures Valid()
      ensures this.streamIds == streamIds && this.streamIdsRef == streamIdsRef && State() == InitialState(now)
      ensures lastUpdateRef == 0
      ensures timer == None && effect == None && queries == []
      ensures EffectPending()
    {
      this.streamIds, this.streamIdsRef := streamIds, streamIdsRef;
      stats, isOnline, loading, lastUpdate := None, false, true, now;
      lastUpdateRef := 0;
      timer, effect, queries := None, None, [];
    }

    /**
     * Runs `fetchStats` with the stream IDs it closes over.  Stamping
     * `lastUpdate` stores a new `Date`, which is a new object.
     */
    method Fetch(ids: seq<StreamId>, outcome: FetchOutcome, doneAt: int) returns (queried: Option<string>)
      requires Valid()
      modifies this
      ensures Valid()
      ensures var step := FetchStats(ids, old(State()), outcome, doneAt);
              State() == step.state && queried == step.queried
      ensures queries == old(queries) + (if queried.Some? then [queried.value] else [])
      ensures lastUpdateRef == if |ids| > 0 && outcome.Returned? then old(lastUpdateRef) + 1 else old(lastUpdateRef)
      ensures streamIds == old(streamIds) && streamIdsRef == old(streamIdsRef)
      ensures timer == old(timer) && effect == old(effect)
    {
      var step := FetchStats(ids, State(), outcome, doneAt);
      stats, isOnline, loading, lastUpdate := step.state.stats, step.state.isOnline, step.state.loading, step.state.lastUpdate;
      if |ids| > 0 && outcome.Returned? {
        lastUpdateRef := lastUpdateRef + 1;
      }
      queried := step.queried;
      if queried.Some? {
        queries := queries + [queried.value];
      }
    }

    /**
     * The poll effect at time `now`: the previous interval is cleared, a
     * fetch is issued at once, and exactly one new interval is armed at the
     * period of the liveness this render saw.  Afterwards the effect is due
     * again exactly when that fetch changed the liveness.
     */
    method RunEffect(now: int, outcome: FetchOutcome, doneAt: int) returns (queried: Option<string>)
      requires Valid()
      modifies this
      ensures Valid()
      ensures effect == Some(PollDeps(old(streamIds), old(streamIdsRef), old(isOnline)))
      ensures timer == Some(Interval(RefreshInterval(old(isOnline)), now + RefreshInterval(old(isOnline))))
      ensures var step := FetchStats(old(streamIds), old(State()), outcome, doneAt);
              State() == step.state && queried == step.queried
      ensures queries == old(queries) + (if queried.Some? then [queried.value] else [])
      ensures lastUpdateRef == if |old(streamIds)| > 0 && outcome.Returned? then old(lastUpdateRef) + 1 else old(lastUpdateRef)
      ensures streamIds == old(streamIds) && streamIdsRef == old(streamIdsRef)
      ensures EffectPending() <==> isOnline != old(isOnline)
    {
      var period := CurrentRefreshInterval();
      effect := Some(PollDeps(streamIds, streamIdsRef, isOnline));
      timer := Some(Interval(period, now + period));
      queried := Fetch(streamIds, outcome, doneAt);
    }

    /**
     * The armed interval fires: it is re-armed one period later and calls the
     * `fetchStats` its effect captured.  With no armed interval nothing happens.
     */
    method IntervalFires(outcome: FetchOutcome, doneAt: int) returns (queried: Option<string>)
      requires Valid()
      modifies this
      ensures Valid()
      ensures old(timer).None? ==>
                && queried == None && State() == old(State()) && queries == old(queries) && timer == None
                && lastUpdateRef == old(lastUpdateRef)
      ensures old(timer).Some? ==>
                var ids := old(effect).value.streamIds;
                var step := FetchStats(ids, old(State()), outcome, doneAt);
                && State() == step.state && queried == step.queried
                && queries == old(queries) + (if queried.Some? then [queried.value] else [])
                && lastUpdateRef == (if |ids| > 0 && outcome.Returned? then old(lastUpdateRef) + 1 else old(lastUpdateRef))
                && timer == Some(old(timer).value.(nextAt := old(timer).value.nextAt + old(timer).value.period))
      ensures streamIds == old(streamIds) && streamIdsRef == old(streamIdsRef) && effect == old(effect)
    {
      queried := None;
      if timer.Some? {
        var t := timer.value;
        timer := Some(t.(nextAt := t.nextAt + t.period));
        queried := Fetch(effect.value.streamIds, outcome, doneAt);
      }
    }

    /**
     * The owner renders the hook with a stream-ID array `newIds` whose
     * identity is `newRef`.  The effect becomes due when that array is
     * another object than the one the effect last ran with, whatever its
     * elements.
     */
    method Rerender(newIds: seq<StreamId>, newRef: ObjectRef)
      requires Valid()
      modifies this
      ensures Valid()
      ensures streamIds == newIds && streamIdsRef == newRef
      ensures State() == old(State()) && lastUpdateRef == old(lastUpdateRef)
      ensures timer == old(timer) && effect == old(effect) && queries == old(queries)
      ensures EffectPending() <==> effect.None? || effect.value.streamIdsRef != newRef || effect.value.isOnline != isOnline
    {
      streamIds, streamIdsRef := newIds, newRef;
    }

    /** Unmount: the effect's cleanup clears the interval. */
    method Unmount()
      requires Valid()
      modifies this
      ensures Valid()
      ensures timer == None
      ensures State() == old(State()) && lastUpdateRef == old(lastUpdateRef)
      ensures streamIds == old(streamIds) && streamIdsRef == old(streamIdsRef)
      ensures effect == old(effect) && queries == old(queries)
    {
      timer := None;
    }
  }

  /**
   * After unmounting, a late timer event makes no call and changes no
   * state: nothing can be attributed to the torn-down poller.
   */
  method StoppedPollerIsSilent(p: StatsPoller, outcome: FetchOutcome, doneAt: int)
    requires p.Valid()
    modifies p
    ensures p.State() == old(p.State()) && p.queries == old(p.queries) && p.timer == None
  {
    p.Unmount();
    var q := p.IntervalFires(outcome, doneAt);
    assert q == None;
  }

  /**
   * A publisher that comes online on a poll does not wait out the long
   * interval: the liveness change makes the effect due, and its next run
   * fetches again at once and arms the short interval.
   */
  method GoingOnlineRestartsAtShortInterval(p: StatsPoller, s: PublisherStats, t0: int, t1: int, t2: int, next: FetchOutcome, t3: int)
    requires p.Valid() && !p.isOnline && |p.streamIds| > 0
    modifies p
    ensures p.effect == Some(PollDeps(old(p.streamIds), old(p.streamIdsRef), true))
    ensures p.timer == Some(Interval(ACTIVE_REFRESH_INTERVAL, t2 + ACTIVE_REFRESH_INTERVAL))
    ensures p.queries == old(p.queries) + [old(p.streamIds)[0].player, old(p.streamIds)[0].player]
  {
    var q := p.RunEffect(t0, Returned(Some(s)), t1);
    assert p.isOnline && p.EffectPending();
    q := p.RunEffect(t2, next, t3);
  }

  /**
   * An owner that builds a new array on every render restarts the poll on
   * every render, even when the array holds the same stream IDs: the
   * interval is cleared, a fetch is made at once and a new interval armed.
   */
  method NewArrayRestartsPoll(p: StatsPoller, now: int, outcome: FetchOutcome, doneAt: int, newRef: ObjectRef)
    requires p.Valid() && !p.EffectPending() && newRef != p.streamIdsRef && |p.streamIds| > 0
    modifies p
    ensures p.effect == Some(PollDeps(old(p.streamIds), newRef, old(p.isOnline)))
    ensures p.timer == Some(Interval(RefreshInterval(old(p.isOnline)), now + RefreshInterval(old(p.isOnline))))
    ensures p.queries == old(p.queries) + [old(p.streamIds)[0].player]
  {
    p.Rerender(p.streamIds, newRef);
    assert p.EffectPending();
    var q := p.RunEffect(now, outcome, doneAt);
  }
}
