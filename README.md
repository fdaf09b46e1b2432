# ServerMonitor event and diff engine, in Dafny

ServerMonitor is a terminal dashboard. It polls a list of game servers for their status ("advertisement": message of the day, players online, players maximum, version). It shows each server's latest state and a feed of short-lived events: players joining or leaving, failed pings. This project models the engine behind that dashboard, all of it in `index.ts`, and proves properties of it:

- `events.dfy`, module `Events`: an event's text, lifetime and creation time; the `player_diff` and `ping_failure` factories; the expiry test of `tick`; and how `add` resolves the inherit sentinel `-2`.
- `event_renderer.dfy`, module `EventFeed`: `EventRenderer`, an insertion-ordered map from a counter id to an event. The JavaScript `Map` is a sequence of `(id, event)` entries in insertion order. `Feed` is the renderer's value. `Expire` is what `tick` keeps.
- `advertisements.dfy`, module `Advertisements`: `ServerAdvertisementRenderer`, one per server, holds the current and previous snapshot, a status and its own event feed. `ServerAdvertisementManager` is the get-or-create registry of these records. `Record` and `Registry` are their values, and the classes' methods are proved against functions on those values.
- `servers.dfy`, module `Servers`: `ServerManager`, which registers addresses under ids 1, 2, … and runs the poll cycle `pingAll`, plus the script's start-up sequence (lines 290-299).

Time is never read. Every operation that needs the clock takes a `now` parameter. The network query `protocol.ping` is an oracle: `PingAll` receives one `Reply` per registered server, in id order. A `Reply` is either `Answered(snapshot)` or `Failed(at)`, where `at` is the clock reading when the failure was caught.

Three behaviours of the code are easy to misread; the model follows the code:

- The start-up warning for a poll interval under 3 s is built with the default lifetime `-2` (index.ts:294). So it inherits `global_event_lifetime` and expires like any other global event. It is not a permanent notice (`WarningLifetime`).
- `Event.player_diff(0)` would produce "Player left x0". The code never calls it with 0, because `checkUpdates` guards with `Math.abs(diff) > 0`. `PlayerDiff` is total and keeps that behaviour.
- After an error streak, the next successful poll is diffed against the snapshot from before the errors. A failure does not clear `ad` (`DiffAfterError`).

## Model

| member | source | states |
|---|---|---|
| `Events.PlayerDiff` | index.ts:50-53 | the event reads "joined" exactly for a positive change and "left" otherwise; the count it reports, signed, is the change itself; it carries the inherit sentinel |
| `Events.NewEvent` | index.ts:60-64 | `new Event(text)` defaults the lifetime to the inherit sentinel `-2` and stamps the creation time; until an `add` resolves it such an event never expires, and any feed's `add` gives it that feed's base lifetime |
| `Events.PingFailure` | index.ts:55-58 | the failure event names the host and port, reports no player change and inherits its lifetime; `PolledFeed`, `PolledNotices` and `FailureScenario` state where the poll cycle puts it |
| `Events.Duration` | index.ts:78-80 | the age of an event is the clock minus its creation time; `ExpireMembers`, `ExpireLater` and `EventRenderer.Render` state how `tick` and `render` use it |
| `Events.Expired` | index.ts:109 | the removal test of `tick`: a positive lifetime that the age exceeds; `ExpireMembers`, `NeverExpires` and `ExpiredLater` state its properties |
| `Events.ExpiredLater` | index.ts:109 | once an event is past its lifetime it stays past it as the clock advances |
| `Events.Resolve` | index.ts:97-100 | `add` sets an event's lifetime to the base lifetime exactly when it was `-2`; any other lifetime, 0 and other negatives included, stays, and so do text and creation time |
| `EventFeed.EventRenderer.constructor` | index.ts:90-95 | a new renderer is empty, its counter is 0 and its base lifetime is the one given |
| `EventFeed.EventRenderer.Add` | index.ts:97-103 | the resolved event is appended under the current counter, which then grows by one; the existing entries are unchanged and ids stay strictly increasing |
| `EventFeed.AddFresh` | index.ts:102 | the id `add` hands out differs from every stored id; the old entries are a prefix of the new ones |
| `EventFeed.RunWellKeyed` | index.ts:97-113 | over any sequence of adds and ticks the counter grows by one per add and ids stay strictly increasing and below the counter, so an id deleted by `tick` is never reused |
| `EventFeed.IdsFromZero` | index.ts:92 | on a new renderer the k-th added event is stored under id k |
| `EventFeed.EventRenderer.Tick` | index.ts:105-113 | `tick` leaves exactly `Expire` of the old entries, keeps ids strictly increasing and leaves the counter unchanged |
| `EventFeed.EventRenderer.Sweep` | index.ts:106-112 | the loop that deletes from the map while iterating over it visits every entry once, in insertion order, and leaves exactly the unexpired ones |
| `EventFeed.ExpireMembers` | index.ts:109-111 | an entry survives `tick(now)` exactly when it was stored and not (lifetime > 0 and age > lifetime) |
| `EventFeed.ExpireDrops` | index.ts:105-113 | `tick` never adds anything: the map does not grow and every survivor was stored before |
| `EventFeed.ExpireWellKeyed` | index.ts:106-112 | survivors keep their relative (insertion) order, since the ids stay strictly increasing |
| `EventFeed.NeverExpires` | index.ts:109 | an event with non-positive lifetime survives any elapsed time |
| `EventFeed.ExpireNothing` | index.ts:105-113 | when nothing has expired, `tick` is a no-op; in particular on an empty map |
| `EventFeed.ExpireLater` | index.ts:78-80 | ticking at t1 and then at a later t2 leaves the same as one tick at t2, so ticking is idempotent |
| `EventFeed.EventRenderer.Render` | index.ts:115-122 | `render` shows every stored event exactly once, newest first (the reverse of insertion order), each with its age |
| `Advertisements.ServerAdvertisementRenderer.constructor` | index.ts:135-140 | a new record has no snapshots, status 'none' and an empty feed with the server event lifetime |
| `Advertisements.ServerAdvertisementRenderer.Tick` | index.ts:146-148 | a record's tick ticks its feed and changes nothing else |
| `Advertisements.CheckRecordSpec` | index.ts:209-225 | `checkUpdates` ticks a record's feed and then adds one event exactly when both snapshots exist, the status is not 'error' and `playersOnline` changed: "joined" for a gain, "left" for a loss, reporting the change, with the feed's lifetime and next id; snapshots and status are untouched |
| `Advertisements.DiffAfterError` | index.ts:213-218 | a record in 'error' gets no diff, and once an answer is recorded it is diffed against the snapshot from before the error |
| `Advertisements.TouchSpec` | index.ts:174-182 | `get(id)` leaves `id` registered; a fresh record (no snapshots, 'none', empty feed) is created and appended to the iteration order only when `id` was absent; every other entry is unchanged |
| `Advertisements.WithStatusSpec` | index.ts:184-190 | `markRefreshing` and `markError` change only that record's status, creating it first if needed |
| `Advertisements.SetAdSpec` | index.ts:192-204 | `set(id, s)` makes the status 'none', the old current snapshot the previous one and `s` the current one; the feed and other records stay |
| `Advertisements.Record.Completed` | index.ts:142-144 | `isCompleted`: both the current and the previous snapshot are present; `SetTwice` states that two `set` calls make it hold, and `CheckRecordSpec` that no diff is made without it |
| `Advertisements.SetTwice` | index.ts:142-144 | after `set(id, a); set(id, b)` the previous snapshot is `a`, the current `b`, and `isCompleted` holds |
| `Advertisements.CheckAllSpec` | index.ts:206-228 | `checkUpdates` processes every record, keeps keys, order, snapshots and statuses, and changes each feed as `CheckRecordSpec` says |
| `Advertisements.ServerAdvertisementManager.constructor` | index.ts:170-172 | a new registry is empty |
| `Advertisements.ServerAdvertisementManager.Get` | index.ts:174-182 | returns the record under `id`; the registry's new value is get-or-create applied to the old one; an existing id changes nothing |
| `Advertisements.ServerAdvertisementManager.MarkRefreshing` | index.ts:184-186 | the registry's new value is the old one with that record's status 'refresh' |
| `Advertisements.ServerAdvertisementManager.MarkError` | index.ts:188-190 | the registry's new value is the old one with that record's status 'error' |
| `Advertisements.ServerAdvertisementManager.Set` | index.ts:192-204 | through its two `get` calls, the registry's new value is the old one with the snapshots of `id` shifted and the status reset |
| `Advertisements.ServerAdvertisementManager.CheckOne` | index.ts:209-225 | one iteration of the `checkUpdates` loop changes the record under `id` as `CheckRecordSpec` says and nothing else |
| `Advertisements.ServerAdvertisementManager.CheckUpdates` | index.ts:206-228 | the loop over the records leaves exactly the `checkUpdates` value of the old registry |
| `Servers.PollOneSpec` | index.ts:270-276 | one server's turn ends in 'none' with the snapshots shifted when it answered, and in 'error' with them kept when it failed; other records and the record's feed stay |
| `Servers.PolledOthers` | index.ts:266-277 | a cycle's turns register exactly the polled ids and leave all other records alone |
| `Servers.PolledOutcome` | index.ts:266-277 | after the turns, each polled server's status and snapshots reflect its own reply, whatever the other servers replied |
| `Servers.PolledFeed` | index.ts:273-276 | the global feed gains exactly one ping-failure event per failed reply, with the global lifetime; successes add nothing; old global events stay in front, and ids stay strictly increasing |
| `Servers.PolledNotices` | index.ts:266-277 | each failed reply adds its own notice, naming that server's host and port and stamped with its failure time, at the position behind the old events and the earlier failures' notices, under the counter's id at that point: a failure does not stop the cycle |
| `Servers.CycleStatus` | index.ts:265-282 | at the end of a cycle, `checkUpdates` included, every registered server is 'none' iff it answered and 'error' iff it failed |
| `Servers.JoinedScenario` | index.ts:265-282 | one server answering 5 and then 8 players online has, after the second cycle, exactly one event in its feed, "joined x3" |
| `Servers.FailureScenario` | index.ts:265-282 | a failed first ping gives 'error' and one global failure notice; the next answer gives 'none' with no previous snapshot and so no diff |
| `Servers.WarningLifetime` | index.ts:293-295 | the start-up warning exists exactly when the poll interval is under 3000 ms; it takes the global event lifetime and a tick removes it exactly when that lifetime is positive and has passed |
| `Servers.ServerManager.constructor` | index.ts:249-255 | a new manager has no servers, counter 0, the given interval and global feed, and an empty registry |
| `Servers.ServerManager.Register` | index.ts:284-287 | the address is stored under the pre-incremented counter, so ids are 1, 2, 3, … in call order |
| `Servers.ServerManager.PollServer` | index.ts:270-276 | one turn updates the registry and the global feed exactly as `PollOne` |
| `Servers.ServerManager.PingAll` | index.ts:265-282 | the servers take their turns in id order, a failure does not stop the cycle, and `checkUpdates` runs once on the result; zero servers leave only `checkUpdates` |
| `Servers.ServerManager.PollEach` | index.ts:266-277 | the loop of `pingAll` gives every registered server its turn, in id order, leaving the registry and the global feed as `Polled` says |
| `Servers.Startup` | index.ts:290-299 | start-up registers the configured addresses under ids 1..n in order, leaves the registry empty and the global feed with just the interval warning when the poll interval is under 3000 ms |
| `Servers.Launch` | index.ts:290-301 | the script up to its first poll: start-up followed by one `pingAll` cycle, which leaves the registry and the global feed exactly as that cycle's turns and `checkUpdates` make them from the empty registry and the start-up feed |
| `Servers.DefaultStartup` | index.ts:17-23 | the default poll interval of 20 s is not under 3 s, so start-up with the default configuration leaves the global feed empty |

## Left out

- Reading and creating the configuration file with `fs` and `JSON.parse` (index.ts:26-43): file I/O. `Config` and `DefaultConfig` model the record and its defaults, and `Startup` and `Launch` take the configuration as a parameter.
- `protocol.ping` (index.ts:1, index.ts:271): a network call into an external library. It is the `replies` parameter of `PingAll`, one outcome per server, and the reason for a failure is ignored, as in the source.
- Terminal output: `colors` styling, `console.log` and `console.clear`, the `toFixed(1)` seconds formatting, `ServerAdvertisementRenderer.render` and `ServerAdvertisementManager.render` (index.ts:122, index.ts:150-164, index.ts:230-239). `EventRenderer.Render` returns the lines it would print as text and age in milliseconds.
- The `setInterval` timers and the overlap of an `await`ed `pingAll` with the render timer or the next poll (index.ts:256-258, index.ts:304-310): scheduling and concurrency. Each method runs to completion.
- `new Date().getTime()` (index.ts:63, index.ts:79): wall-clock reads are `now` parameters. `EventRenderer.Tick`: one `now` serves every event of one call, where the source reads the clock again for each event.
- `EventRenderer.#rendering_id` (index.ts:87, index.ts:93): a field the source sets and never reads.
- The `throw Error("unexpected")` branch of `set` (index.ts:197-199) cannot be reached, because `get` always returns a record.
- `EventRenderer.Add`: the source's `add` also writes the resolved lifetime into the caller's `Event` object. The model stores a resolved copy. No caller keeps the object after adding it.
- JavaScript numbers are doubles. Ids, counters, player counts and times are unbounded integers here, so nothing models precision loss beyond 2^53.
- `getText`, `getLifeTime`, `getCreatedAt` and `getInterval` are plain reads of the datatype fields and the `interval` constant.
