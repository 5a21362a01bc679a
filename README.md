# SLS Management UI: a Dafny model of the statistics poller, the add-stream dialog and the runtime configurator

This project models the logic at the core of the SRT Live Server
management UI. It does not model the rendering.

- **The statistics poller.** Each publisher card asks the stats service
  for a player ID's statistics. It classifies the answer into the state
  cells `stats`, `isOnline`, `loading` and `lastUpdate`, and polls again
  every 5 s while the publisher is online and every 10 s otherwise. The
  poller exists three times:
  - as the `usePublisherStats` hook (module `PublisherStatsHook`);
  - inlined in the grouped card (module `GroupedPublisherCard`);
  - inlined in the single-stream card (module `PublisherCard`), with its
    small differences.
- **The countdown.** Every second the countdown recomputes the whole
  seconds left until the next poll (module `RefreshTimerHook`, plus its
  inlined copies in the two cards).
- **The card helpers.** These are the uptime and bitrate formatters, the
  statistics-panel gating and the player-count caption.
- **The add-stream dialog** (module `AddStreamDialog`). It covers:
  - the UUID v4 template filled from random nibbles;
  - the generated `live_`/`play_` IDs;
  - the per-open reset;
  - submit validation, the payload and the mapping from server errors to
    messages;
  - the regenerate buttons;
  - the live identical-IDs warning and the submit button's enabled state.
- **The runtime configurator `html/run.js`** (module `RunScript`). It
  covers:
  - the recursive search for `.html` and `.js` files under `build`;
  - the chain of five global placeholder substitutions with their
    environment defaults;
  - the write-if-changed pass over the files.

Module `ApiTypes` transcribes the data types `StreamId` and
`PublisherStats`. Module `Text` holds the string functions JavaScript
supplies: integer rendering in template literals, `toString(16)` of a
nibble, and `String.prototype.trim`.

## How the model is built

- **State goes in classes.**
  - Each state-holding part is a `class`: `PublisherStatsHook.StatsPoller`,
    `RefreshTimerHook.RefreshTimer`, `GroupedPublisherCard.Card`,
    `PublisherCard.Card` and `AddStreamDialog.Form`.
  - The fields are the component's state cells.
  - Each event is a method with a `modifies` clause.
- **The logic goes in pure functions.** Each method's `ensures` ties the
  new state to a pure function of the old state, for example
  `ApplyOutcome`, `FetchStats`, `SecondsRemaining` or `ValidationError`.
  The properties the source promises are proved as lemmas about those
  functions.
- **Timers are values.**
  - An armed `setInterval` is a field holding its period, when it fires
    next, and the values its closure captured.
  - Clearing a timer sets that field to `None`.
  - A firing is an explicit method (`IntervalFires`, `PollFires`, `Tick`,
    `CountdownTick`).
  - An effect runs when its dependency list differs from the one it last
    ran with, compared element by element with `Object.is`. The
    `…EffectPending` predicates state that condition.
- **Objects have identities.** `Object.is` compares an array or a `Date`
  by identity, not by contents. Each such dependency is carried with an
  `ObjectRef`, a number naming the object:
  - the `streamIds` array comes from the parent, together with its identity;
  - every `setLastUpdate(new Date())` stores a new `Date`, so the cards
    and the hook count up `lastUpdateRef` whenever they stamp `lastUpdate`.
  Strings, booleans and numbers are compared by value.
- **A fetch is one step.** It runs from the call to the completion, at the
  completion time `doneAt`.
  - The stats service's answer is an input: `Returned(Some(stats))`,
    `Returned(None)` or `Failed`.
  - The server's answer to an add request is an input too: `Added`, or
    `Rejected(status, message)`.
- **Random nibbles are an input.** `Math.random() * 16 | 0` becomes a
  sequence of integers in 0..15. The current time and the environment
  variables are parameters.
- **File I/O becomes values.**
  - The build directory is a tree of `Entry` values.
  - File contents are a map from path to text.
  - The environment is a map from name to value.
  - `fs.existsSync(buildDir)` is modelled by `build` being `None`.

## Model

| member | source | states |
|---|---|---|
| PublisherStatsHook.RefreshInterval | html/src/hooks/usePublisherStats.ts:7-8 | the poll period is 5000 ms exactly when online and 10000 ms exactly when offline; no other value occurs |
| PublisherStatsHook.InitialState | html/src/hooks/usePublisherStats.ts:21-24 | the mount state has no stats, is offline and loading, is stamped with the mount time, and keeps the stats/liveness invariant |
| PublisherStatsHook.ApplyOutcome | html/src/hooks/usePublisherStats.ts:40-50 | after any answer loading is off and `stats` is present iff online. Online iff the answer carried stats. A returned answer (even null) sets `stats` to it and stamps `lastUpdate` with the completion time. A failure clears `stats` and keeps the old `lastUpdate` |
| PublisherStatsHook.EmptyGuard | html/src/hooks/usePublisherStats.ts:31-36 | with no stream IDs the state becomes no stats, offline, not loading, and `lastUpdate` is left unchanged |
| PublisherStatsHook.FetchStats | html/src/hooks/usePublisherStats.ts:30-51 | a query is made iff the list is non-empty, and it is for the first stream ID's player. The state is then the classified outcome; with an empty list it is the guard's state and no query is made |
| PublisherStatsHook.FailureLooksLikeAbsence | html/src/hooks/usePublisherStats.ts:41-50 | a failed fetch leaves the same state as an answer of null, except that it keeps the previous `lastUpdate` |
| PublisherStatsHook.VerdictIsMemoryless | html/src/hooks/usePublisherStats.ts:41-44 | a returned answer determines the whole new state, whatever the state before |
| PublisherStatsHook.ConsistentAlways | html/src/hooks/usePublisherStats.ts:21-50 | `stats` present iff online holds in the initial state and after every fetch, guarded or not |
| PublisherStatsHook.NextIntervalFollowsOutcome | html/src/hooks/usePublisherStats.ts:27-51 | after a fetch the period becomes the short one iff the list was non-empty and stats came back |
| PublisherStatsHook.StatsPoller.CurrentRefreshInterval | html/src/hooks/usePublisherStats.ts:27 | the returned period always agrees with the returned liveness |
| PublisherStatsHook.StatsPoller.constructor | html/src/hooks/usePublisherStats.ts:20-24 | mounting gives the initial state, the parent's stream-ID array and its identity, no timer and no queries, with the effect pending |
| PublisherStatsHook.StatsPoller.Fetch | html/src/hooks/usePublisherStats.ts:30-51 | the new state and the query log follow `FetchStats`. A returned answer for a non-empty list stores a new `Date`; timers, effect and stream IDs are unchanged |
| PublisherStatsHook.StatsPoller.RunEffect | html/src/hooks/usePublisherStats.ts:54-65 | the effect replaces whatever timer was armed by exactly one new timer at this render's period, first due one period later. It fetches at once and records its dependencies (the array's identity and the liveness); afterwards it is pending again iff the liveness changed |
| PublisherStatsHook.StatsPoller.IntervalFires | html/src/hooks/usePublisherStats.ts:59-61 | with no timer nothing happens. Otherwise it fetches with the stream IDs the effect captured and the timer is next due one period later |
| PublisherStatsHook.StatsPoller.Rerender | html/src/hooks/usePublisherStats.ts:54-65 | a new stream-ID array changes no state or timer. The effect is then due iff it never ran, or the array is another object than the one it ran with, or the liveness changed; equal contents do not matter |
| PublisherStatsHook.StatsPoller.Unmount | html/src/hooks/usePublisherStats.ts:64 | the cleanup clears the timer and leaves the state unchanged |
| PublisherStatsHook.StoppedPollerIsSilent | html/src/hooks/usePublisherStats.ts:59-64 | after the cleanup a firing changes neither the state nor the query log |
| PublisherStatsHook.GoingOnlineRestartsAtShortInterval | html/src/hooks/usePublisherStats.ts:54-65 | an offline poller whose poll returns stats re-runs its effect: two queries for the first player, and one timer at 5000 ms counted from the restart |
| PublisherStatsHook.NewArrayRestartsPoll | html/src/hooks/usePublisherStats.ts:51-65 | a settled poller handed a new array object, even with the same IDs, re-runs its effect: one more query for the first player and a timer re-armed from that moment |
| PublisherStatsHook.StatsPoller.EffectPending | html/src/hooks/usePublisherStats.ts:65 | defines when React re-runs the effect: it never ran, the array is another object, or the liveness differs |
| RefreshTimerHook.CeilDiv | html/src/hooks/useRefreshTimer.ts:12 | the ceiling of `x / d` for positive `d`: the least `c` with `x <= d * c` |
| RefreshTimerHook.SecondsRemaining | html/src/hooks/useRefreshTimer.ts:9-12 | never negative. Zero iff the interval has elapsed; otherwise the number of started seconds of what remains |
| RefreshTimerHook.CountdownNonIncreasing | html/src/hooks/useRefreshTimer.ts:10-12 | for a fixed `lastUpdate` and interval the countdown never goes up as time passes |
| RefreshTimerHook.CountdownBounded | html/src/hooks/useRefreshTimer.ts:10-12 | from `lastUpdate` on the countdown is at most the interval rounded up to whole seconds |
| RefreshTimerHook.CountdownWithinPollInterval | html/src/hooks/useRefreshTimer.ts:10-12 | with the poller's periods, from `lastUpdate` on, the countdown stays within 0..5 online and 0..10 offline |
| RefreshTimerHook.OnlineCountdownScenario | html/src/hooks/useRefreshTimer.ts:9-12 | online, the ticks k seconds after an update (k = 0..5) read 5 - k |
| RefreshTimerHook.RefreshTimer.constructor | html/src/hooks/useRefreshTimer.ts:5 | before the first tick the value is 0 and no ticker is armed |
| RefreshTimerHook.RefreshTimer.RunEffect | html/src/hooks/useRefreshTimer.ts:7-17 | the effect arms one 1 s ticker closing over the current `lastUpdate` (its instant and its identity) and interval, and leaves the shown value alone |
| RefreshTimerHook.RefreshTimer.Tick | html/src/hooks/useRefreshTimer.ts:8-14 | a tick that runs at any time on or after it is due sets the value to `SecondsRemaining` at that time, from the closed-over inputs. It is next due one second after it ran |
| RefreshTimerHook.RefreshTimer.Rerender | html/src/hooks/useRefreshTimer.ts:4-17 | new inputs (the `Date`'s instant and identity, the interval) change neither the shown value nor the ticker until the effect re-runs |
| RefreshTimerHook.RefreshTimer.Unmount | html/src/hooks/useRefreshTimer.ts:16 | the cleanup clears the ticker |
| RefreshTimerHook.SuccessiveTicksNonIncreasing | html/src/hooks/useRefreshTimer.ts:8-14 | two ticks of the same ticker, each on time or late, show non-increasing values, the second being the countdown at the second tick's time |
| RefreshTimerHook.NewDateRestartsCountdown | html/src/hooks/useRefreshTimer.ts:7-17 | a new `Date` object for the same instant still makes the effect due, and its run arms a ticker over the new object |
| RefreshTimerHook.RefreshTimer.EffectPending | html/src/hooks/useRefreshTimer.ts:17 | defines when React re-runs the countdown effect: no ticker, another `Date` object, or another interval |
| GroupedPublisherCard.JsRem | html/src/components/GroupedPublisherCard.tsx:94-95 | JavaScript's `%` by a positive divisor: the remainder has the dividend's sign, is smaller than the divisor in magnitude, and differs from the dividend by a multiple of the divisor |
| GroupedPublisherCard.UptimeParts | html/src/components/GroupedPublisherCard.tsx:92-95 | for non-negative seconds: hours ≥ 0, minutes and seconds in 0..59, and 3600 h + 60 m + s equals the input |
| GroupedPublisherCard.FormatUptime | html/src/components/GroupedPublisherCard.tsx:92-97 | a non-negative uptime reads its whole hours, "h ", the whole minutes of the remainder, "m ", the leftover seconds and "s"; a negative one starts with a minus sign |
| GroupedPublisherCard.UptimeShape | html/src/components/GroupedPublisherCard.tsx:96 | the text is the decimal hours, "h ", the minutes, "m ", the seconds, "s" |
| GroupedPublisherCard.FormatUptimeInjective | html/src/components/GroupedPublisherCard.tsx:92-97 | two non-negative uptimes with the same text are equal, so the text can be read back |
| GroupedPublisherCard.NatToStringInjective | html/src/components/GroupedPublisherCard.tsx:96 | the decimal rendering used in the uptime text is one to one |
| GroupedPublisherCard.FormatBitrate | html/src/components/GroupedPublisherCard.tsx:100-105 | the Mbps form, with two decimals of a thousandth, is chosen iff the bitrate is at least 1000. Otherwise the raw value is shown with " Kbps" |
| GroupedPublisherCard.Panel | html/src/components/GroupedPublisherCard.tsx:191-242 | the grid iff online with stats; the "No statistics available" note iff offline; nothing otherwise |
| GroupedPublisherCard.PanelOfReachableState | html/src/components/GroupedPublisherCard.tsx:191-242 | in every reachable state something is shown, and it is the grid iff online |
| GroupedPublisherCard.PlayerCountCaption | html/src/components/GroupedPublisherCard.tsx:133 | the caption starts with the count and " Player ID" and ends with " configured", with exactly one character more ("s") iff the count is not 1 |
| GroupedPublisherCard.Card.CurrentRefreshInterval | html/src/components/GroupedPublisherCard.tsx:17-38 | the period is 5000 ms online and 10000 ms offline. It is derived from the liveness alone, never from the `refreshInterval` prop |
| GroupedPublisherCard.Card.ShownPanel | html/src/components/GroupedPublisherCard.tsx:191-242 | in a consistent state the grid is shown iff online and the empty panel never occurs |
| GroupedPublisherCard.Card.constructor | html/src/components/GroupedPublisherCard.tsx:21-35 | the card mounts in the poller's initial state with a countdown of 0, no timers and no queries. The `refreshInterval` prop is taken and not stored |
| GroupedPublisherCard.Card.Fetch | html/src/components/GroupedPublisherCard.tsx:41-62 | the inlined `fetchStats` follows the hook's `FetchStats`, empty-group guard included. A returned answer for a non-empty group stores a new `Date` |
| GroupedPublisherCard.Card.RunPollEffect | html/src/components/GroupedPublisherCard.tsx:65-76 | the poll effect replaces the timer by one at this render's period, fetches at once, records its dependencies, and is pending again iff the liveness changed |
| GroupedPublisherCard.Card.PollFires | html/src/components/GroupedPublisherCard.tsx:70-72 | a firing fetches with the captured stream IDs and re-arms; with no timer nothing happens |
| GroupedPublisherCard.Card.RunCountdownEffect | html/src/components/GroupedPublisherCard.tsx:79-89 | the countdown effect arms one 1 s ticker over the current `lastUpdate` (instant and identity) and period |
| GroupedPublisherCard.Card.CountdownTick | html/src/components/GroupedPublisherCard.tsx:80-86 | a tick run on or after it is due shows the hook's `SecondsRemaining` at the time it runs, and is next due a second later |
| GroupedPublisherCard.Card.Rerender | html/src/components/GroupedPublisherCard.tsx:21-27 | new props replace the name and stream IDs and change no state or timer; the `refreshInterval` prop is ignored. The poll effect is then due iff it never ran, the array is another object, or the liveness changed |
| GroupedPublisherCard.Card.Unmount | html/src/components/GroupedPublisherCard.tsx:75-88 | both cleanups clear their timers and leave the state unchanged |
| GroupedPublisherCard.OneCallPerGroup | html/src/components/GroupedPublisherCard.tsx:49-51 | a poll of a non-empty group makes exactly one query, for the first player ID |
| GroupedPublisherCard.ReturnedPollRestartsCountdown | html/src/components/GroupedPublisherCard.tsx:55-89 | a poll of a non-empty group that returns, with or without stats, stores a new `Date`, so the countdown effect is due again |
| GroupedPublisherCard.Card.PollEffectPending | html/src/components/GroupedPublisherCard.tsx:76 | defines when the poll effect re-runs: it never ran, the array is another object, or the liveness differs |
| GroupedPublisherCard.Card.CountdownEffectPending | html/src/components/GroupedPublisherCard.tsx:89 | defines when the countdown effect re-runs: no ticker, another `Date` object, or another period |
| PublisherCard.FormatBitrate | html/src/components/PublisherCard.tsx:83-88 | the Mbps form, with two decimals of a millionth, iff the bitrate is at least 1 000 000. Otherwise Kbps with no decimals of a thousandth |
| PublisherCard.BitrateUnitsDiffer | html/src/components/PublisherCard.tsx:83-88 | between 1000 and 999 999 this card says Kbps where the grouped card says Mbps |
| PublisherCard.Panel | html/src/components/PublisherCard.tsx:153-208 | the grid iff stats are present, otherwise "No statistics available"; never the empty panel |
| PublisherCard.PanelAgreesWithGroupedCard | html/src/components/PublisherCard.tsx:153 | gating on stats alone shows, in every reachable state, the grouped card's panel, i.e. the grid iff online |
| PublisherCard.Card.CurrentRefreshInterval | html/src/components/PublisherCard.tsx:29 | 5000 ms online, 10000 ms offline |
| PublisherCard.Card.ShownPanel | html/src/components/PublisherCard.tsx:153 | in a consistent state the grid is shown iff online |
| PublisherCard.Card.constructor | html/src/components/PublisherCard.tsx:17-26 | mounts in the poller's initial state with a countdown of 0, no timers and no queries |
| PublisherCard.Card.Fetch | html/src/components/PublisherCard.tsx:32-45 | there is no empty guard: always one query, for the given player, and the state follows `ApplyOutcome`. Every returned answer stores a new `Date` |
| PublisherCard.Card.RunPollEffect | html/src/components/PublisherCard.tsx:48-59 | the effect records the player ID and liveness, arms one timer at this render's period, fetches for the card's player, and is pending again iff the liveness changed |
| PublisherCard.Card.PollFires | html/src/components/PublisherCard.tsx:53-55 | a firing queries the player that the arming effect captured |
| PublisherCard.Card.RunCountdownEffect | html/src/components/PublisherCard.tsx:62-72 | arms one 1 s ticker over the current `lastUpdate` (instant and identity) and period |
| PublisherCard.Card.CountdownTick | html/src/components/PublisherCard.tsx:63-69 | a tick run on or after it is due shows `SecondsRemaining` of the closed-over inputs at the time it runs, and is next due a second later |
| PublisherCard.Card.Rerender | html/src/components/PublisherCard.tsx:59 | a new stream ID record with the same player ID does not make the poll effect due |
| PublisherCard.Card.Unmount | html/src/components/PublisherCard.tsx:58-71 | clears both timers and keeps the state |
| PublisherCard.ReturnedPollRestartsCountdown | html/src/components/PublisherCard.tsx:38-72 | a poll that returns, with or without stats, stores a new `Date`, so the countdown effect is due again |
| PublisherCard.Card.PollEffectPending | html/src/components/PublisherCard.tsx:59 | defines when the poll effect re-runs: it never ran, or the player ID string or the liveness differs; both are compared by value |
| PublisherCard.Card.CountdownEffectPending | html/src/components/PublisherCard.tsx:72 | defines when the countdown effect re-runs: no ticker, another `Date` object, or another period |
| AddStreamDialog.VariantNibble | html/src/components/AddStreamDialog.tsx:19 | the variant digit (the nibble masked to its two low bits, with bit 3 set) lies in 8..11 and keeps the two low bits of the random nibble |
| AddStreamDialog.FillTemplate | html/src/components/AddStreamDialog.tsx:17-21 | filling the template's `x`/`y` slots, one nibble each, keeps the template's length |
| AddStreamDialog.FillTemplateAt | html/src/components/AddStreamDialog.tsx:17-21 | the random slot at a position takes the random number numbered by the slots before it: an `x` its hex digit, a `y` that of its variant nibble (one of 8, 9, a, b). Every other character is copied |
| AddStreamDialog.TemplateIsLiteral | html/src/components/AddStreamDialog.tsx:17 | the model's template is the literal `xxxxxxxx-xxxx-4xxx-yxxx-xxxxxxxxxxxx` |
| AddStreamDialog.TemplateShape | html/src/components/AddStreamDialog.tsx:17 | the template is 36 characters with dashes exactly at 8, 13, 18 and 23, '4' at 14, 'y' at 19, and 'x' elsewhere |
| AddStreamDialog.TemplateSlotCount | html/src/components/AddStreamDialog.tsx:17 | the template has 31 random slots |
| AddStreamDialog.GenerateUuid | html/src/components/AddStreamDialog.tsx:16-22 | 36 characters with dashes exactly at 8, 13, 18 and 23, '4' at 14, one of 8, 9, a, b at 19, and every non-dash a lower-case hex digit. Group by group, the digits are the random numbers in order, the sixteenth through its variant nibble |
| AddStreamDialog.UuidDigits | html/src/components/AddStreamDialog.tsx:17-21 | filling the template gives the hex digits of random numbers 1-8, a dash, 9-12, "-4", 13-15, a dash, the variant digit of 16, 17-19, a dash, and 20-31 |
| AddStreamDialog.StripDashes | html/src/components/AddStreamDialog.tsx:40 | `replace(/-/g, '')` leaves no dash and does not lengthen |
| AddStreamDialog.StripDashesAtGroups | html/src/components/AddStreamDialog.tsx:40 | stripping a UUID's dashes concatenates its five digit groups |
| AddStreamDialog.CompactUuid | html/src/components/AddStreamDialog.tsx:40-41 | the dash-free UUID is 32 lower-case hex digits with '4' at 12 and one of 8, 9, a, b at 16 |
| AddStreamDialog.HyphenateCompactUuid | html/src/components/AddStreamDialog.tsx:40-41 | re-inserting dashes at 8, 12, 16 and 20 gives back the generated UUID, so no digit is lost |
| AddStreamDialog.GeneratedId | html/src/components/AddStreamDialog.tsx:43-44 | an ID is its prefix followed by the 32-digit dash-free UUID |
| AddStreamDialog.GenerateDefaultIds | html/src/components/AddStreamDialog.tsx:39-46 | a `live_` ID and a `play_` ID, each followed by 32 hex digits; the two always differ |
| AddStreamDialog.PrefixesKeepIdsApart | html/src/components/AddStreamDialog.tsx:43-44 | a generated publisher ID and a generated player ID can never be equal, whatever the noise |
| AddStreamDialog.ValidationError | html/src/components/AddStreamDialog.tsx:72-81 | an error is one of the two fixed messages, and there is none iff neither ID is blank and their trims differ |
| AddStreamDialog.ValidationCases | html/src/components/AddStreamDialog.tsx:72-81 | "required" iff either ID is blank, checked first. "must be different" iff both are non-blank and their trims agree. Accepted iff both are non-blank and their trims differ |
| AddStreamDialog.Payload | html/src/components/AddStreamDialog.tsx:87-97 | trimmed IDs. The description is dropped iff it is blank, and otherwise is its non-empty trim |
| AddStreamDialog.FailureMessage | html/src/components/AddStreamDialog.tsx:102-108 | 409 gives the "already exists" text around the player ID as typed. Otherwise the server's non-empty message, else the generic text |
| AddStreamDialog.ConflictMessageNamesPlayer | html/src/components/AddStreamDialog.tsx:103 | the conflict text starts and ends with its fixed parts, and what lies between is exactly the untrimmed player ID |
| AddStreamDialog.AreIdsIdentical | html/src/components/AddStreamDialog.tsx:129 | the warning condition holds iff neither ID is blank and their trims agree |
| AddStreamDialog.IdenticalWarningMatchesSubmit | html/src/components/AddStreamDialog.tsx:129 | the live warning shows iff a submit would fail with "must be different" |
| AddStreamDialog.SubmitDisabled | html/src/components/AddStreamDialog.tsx:256 | the button is always disabled while loading; otherwise iff an ID is blank or the trims agree |
| AddStreamDialog.SubmitDisabledIffInvalid | html/src/components/AddStreamDialog.tsx:256 | the button is disabled iff loading or a submit would fail validation |
| AddStreamDialog.FreshDefaultsAreValid | html/src/components/AddStreamDialog.tsx:62-64 | a freshly opened dialog without a prefill passes validation as it is |
| AddStreamDialog.GeneratedIdIsTrimmed | html/src/components/AddStreamDialog.tsx:43-44 | a generated ID neither starts nor ends with whitespace, so trimming keeps it |
| AddStreamDialog.IsPrefilled | html/src/components/AddStreamDialog.tsx:55 | defines the truthiness test of the prefill: present and not the empty string |
| AddStreamDialog.Form.constructor | html/src/components/AddStreamDialog.tsx:32-36 | the fields start empty, with no error and not loading |
| AddStreamDialog.Form.Reset | html/src/components/AddStreamDialog.tsx:49-66 | closing clears the three fields and the error. Opening with a prefill takes it as the publisher and draws a `play_` ID. Otherwise both IDs are drawn. Loading is untouched |
| AddStreamDialog.Form.Submit | html/src/components/AddStreamDialog.tsx:69-112 | a validation error is shown and nothing is sent. Otherwise the trimmed payload is sent and loading ends off, with success clearing the error and asking to close, and failure showing the mapped message. The record sent reaches the parent exactly when closing is requested |
| AddStreamDialog.Form.RegeneratePublisher | html/src/components/AddStreamDialog.tsx:115-120 | a no-op with a prefill; otherwise a fresh `live_` ID |
| AddStreamDialog.Form.RegeneratePlayer | html/src/components/AddStreamDialog.tsx:123-126 | always a fresh `play_` ID |
| AddStreamDialog.Form.EditPublisher | html/src/components/AddStreamDialog.tsx:172-175 | typing changes the publisher only in advanced mode without a prefill |
| AddStreamDialog.Form.EditPlayer | html/src/components/AddStreamDialog.tsx:210-213 | typing changes the player only in advanced mode |
| AddStreamDialog.Form.EditDescription | html/src/components/AddStreamDialog.tsx:239 | typing always changes the description |
| AddStreamDialog.Form.DismissError | html/src/components/AddStreamDialog.tsx:142 | closing the alert clears the error |
| Text.Trim | html/src/components/AddStreamDialog.tsx:72 | `trim()` returns the infix of the input that neither starts nor ends with whitespace, with only whitespace cut off on either side |
| Text.TrimEmptyIffBlank | html/src/components/AddStreamDialog.tsx:72 | `!s.trim()` holds iff `s` is all whitespace |
| Text.TrimIdempotent | html/src/components/AddStreamDialog.tsx:78 | trimming twice is trimming once |
| Text.IntToString | html/src/components/GroupedPublisherCard.tsx:96 | `${i}` reads a minus sign iff `i` is negative, followed by the shortest decimal form of its magnitude |
| Text.ParseNatToString | html/src/components/GroupedPublisherCard.tsx:133 | the decimal form of a count reads back as that count |
| Text.HexDigit | html/src/components/AddStreamDialog.tsx:20 | `v.toString(16)` of a nibble: a lower-case hex digit, `0`..`9` for 0..9 and `a`..`f` for 10..15 |
| RunScript.MatchesPattern | html/run.js:26-34 | a file name matches iff it ends in ".js" or in ".html" |
| RunScript.Listing | html/run.js:16-32 | defines what `findFiles` returns for a directory: the contributions of its entries in order, a matching file itself and a subdirectory its own listing |
| RunScript.FindFiles | html/run.js:16-32 | the loop over directory entries returns the listing, in directory order, recursing into subdirectories |
| RunScript.ListingIsMatchingFiles | html/run.js:16-34 | a path is listed iff it is reached by a chain of directories ending in a file whose name ends in ".html" or ".js" |
| RunScript.ListingBelow | html/run.js:21 | every listed path lies under the directory searched |
| RunScript.ListingComponent | html/run.js:20-21 | a listed path's first component below the search root is one of the root's entries |
| RunScript.ListingDistinct | html/run.js:16-32 | in a tree whose directories hold distinct names, no path is listed twice |
| RunScript.Split | html/run.js:54 | splitting at a non-empty pattern always yields at least one piece |
| RunScript.SplitJoin | html/run.js:54 | the pieces of a split, joined with the pattern, give back the text |
| RunScript.SplitPiecesFree | html/run.js:54 | no piece of a split contains the pattern |
| RunScript.Expand | html/run.js:54-65 | defines the replacement text of one match: `$$`, `$&`, `` $` `` and `$'` expand, any other character is kept |
| RunScript.ReplaceAll | html/run.js:54-65 | defines a global replace of a literal pattern: scanning left to right, each non-overlapping occurrence is replaced by the expanded replacement |
| RunScript.ReplaceAllIsJoin | html/run.js:54-65 | a global replace with a replacement free of `$` puts the replacement between the pieces of the split at every occurrence |
| RunScript.ReplaceAllNoOccurrence | html/run.js:54-65 | a global replace of a pattern that does not occur changes nothing |
| RunScript.Placeholder | html/run.js:54 | the marker is "{{", then the name, then "}}" |
| RunScript.EnvOr | html/run.js:54-65 | the `or` default of `process.env.NAME`: the variable's value when set and non-empty, otherwise the default |
| RunScript.ApplyRules | html/run.js:54-65 | defines the chain of substitutions: each rule replaces its placeholder in the previous result |
| RunScript.Substitute | html/run.js:54-65 | defines a file's new text as the chain of the five rules; `SubstitutionChain` spells it out |
| RunScript.ApplyRulesSequential | html/run.js:54-65 | each substitution acts on the result of the previous ones |
| RunScript.SubstitutionChain | html/run.js:54-65 | the rewrite is the five global replaces in the fixed order APP_BASE_URL, SRT_PLAYER_PORT, SRT_SENDER_PORT, SLS_STATS_PORT, SRTLA_PORT, with the defaults "http://localhost:8080", "4000", "4001", "8080" and "" |
| RunScript.NoPlaceholderUnchanged | html/run.js:54-67 | text that contains none of the placeholders is left unchanged |
| RunScript.Rewritten | html/run.js:50-71 | the pass keeps the set of paths: it rewrites files, and never adds or removes one |
| RunScript.RewriteFiles | html/run.js:50-71 | the loop over the files yields the rewritten contents and the list of files written |
| RunScript.RewrittenClosedForm | html/run.js:50-71 | each listed file ends up with its substituted text and every other file is untouched. A file is written iff substitution changed it |
| RunScript.Run | html/run.js:7-34 | a missing build directory ends the script, and nothing is listed or written. Otherwise the files found under `build` are rewritten |

`PublisherCard.tsx:75-80` repeats the grouped card's `formatUptime`
character for character. `PublisherCard` therefore uses
`GroupedPublisherCard.FormatUptime`, and the uptime rows above hold for
both cards.

## Code and description differ

- **Going online.** When an offline card's poll returns statistics, the
  liveness in the poll effect's dependency list changes. The effect then
  re-runs at once: it clears the pending 10 s interval, fetches
  immediately, and arms a 5 s interval. The model follows the code
  (`StatsPoller.RunEffect`, `GoingOnlineRestartsAtShortInterval`), not a
  description in which the wait already under way runs to its end.
- **`$` in environment values.** `String.prototype.replace` with a string
  replacement expands `$$`, `$&`, `` $` `` and `$'` in the environment
  value. `ReplaceAll` models that expansion. The closed form
  `ReplaceAllIsJoin` (replacement between the split pieces) is proved
  only for replacements without `$`.

## Left out

- Rendering (JSX, Bootstrap components, classes, icons, the loading bar,
  the expand toggle, the dialog title and helper texts) is presentation.
  Only the gating conditions are modelled.
- `toFixed` rounding of the bitrate, RTT and receive rate is
  floating-point formatting. `GroupedPublisherCard.FormatBitrate` and
  `PublisherCard.FormatBitrate` return the unit, the number of decimals
  and the exact value to be rounded, not the printed digits.
- `apiService.getPublisherStats` and `apiService.addStreamId` are network
  calls into code that is not part of this model. Their answers are
  inputs.
- Asynchrony: a fetch is one step from call to completion. Interleavings
  in which a timer fires or an effect re-runs while a fetch is awaited
  are not modelled. Neither is a fetch completing after unmount.
- React's scheduling: when an effect runs is left to the caller. The
  `…EffectPending` predicates state the condition under which React runs it.
- An object passed again under the same identity is taken to be
  unchanged. A parent that mutates its `streamIds` array in place, or a
  `Date` changed with a setter, is not modelled.
- Uptime and bitrate are integers here. In the source they are JavaScript
  numbers, so a fractional uptime, or a fractional bitrate below 1000,
  would print with decimals that the model does not show.
- `Date` is integer milliseconds passed in as a parameter.
- `Math.random` becomes the noise parameters.
- `SettingsContext`: `advancedMode` is a parameter of the edit methods.
- The URLs dialog, the delete and add-player callbacks, and
  `onStreamAdded`/`onClose` are UI plumbing. `Form.Submit` returns
  `sent`, the record sent to the server, and `closeRequested`. The record
  reaches the parent exactly when `closeRequested` holds.
- `console` output (`html/run.js:36-47,51,69`, and the `console.error` in
  the fetch handlers) is I/O.
- `process.exit(1)` becomes the `BuildMissing` outcome.
- `execSync` of `http-server` (`html/run.js:73-74`) starts an external
  program.
- The build directory is the relative path `["build"]`, not the absolute
  path joined onto `__dirname`.
- The file system is a tree of values. Symbolic links, cycles, `statSync`
  failures and files changing during the pass are not modelled.
- `RunScript.RewriteFiles` and `RunScript.Run` require every listed file
  to be readable. The script itself would crash on an unreadable file.
- The grouping of stream IDs by publisher is done by a parent component
  that is not part of this model. Only the rule "poll with the first
  player ID" is modelled.
