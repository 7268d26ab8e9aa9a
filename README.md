# yt-dlp-bot deferred downloads, in Dafny

A model of the bookkeeping core of yt-dlp-bot, a Discord bot that downloads videos
and live streams with yt-dlp, now or at the instant a stream or premiere is due.
The bot keeps three tables: deferred downloads, completion destinations and
waiting-room subscriptions. It keeps a map of running download tasks and a polling
tick that starts the due downloads. It also has a small text layer: durations such as
`2d1h5m0s`, Discord timestamp tags `<t:EPOCH:F>`, the free-space unit and the listing
replies. Finally, an event-stream client takes waiting-room notifications from a
companion service and resumes its stream from the last event id.

The files:

- `prelude.dfy`: `Option`, `Result`, Python truthiness of an optional id, and the
  range of instants Python's `datetime` holds.
- `text.dfy`: the Python string operations the bot uses, on ASCII digits:
  `int()`/`str()` on decimal digits, `startswith`, `strip`, `lower` and `join`. It
  also has `Split`, which the bot never calls: it only serves to state that the
  listing replies read back line by line.
- `store.dfy`: `yt_dlp_bot/database.py`. Each SQL statement is a function on one
  table, and the class `Database` has one field per table. `unixepoch()` is a `now`
  parameter.
- `downloader.dfy`: `yt_dlp_bot/downloader/downloader.py`. It holds the availability
  verdict and the class `Downloader` with its `currentDownloads` map. Each task there
  carries its cancellation flag.
- `commands.dfy`: `yt_dlp_bot/cogs/ytdl.py`, covering the parsers, the `df` unit
  choice, the listing replies, and the class `YtDl` with its command handlers and
  polling loop.
- `event_stream.dfy`: `yt_dlp_bot/pikl_api/waiting_room_client.py`, covering the
  class `SseClient` with its line loop and its reconnect loop.
- `legacy.dfy`: the older `bot/` package. Its parsers, dispatch, `df` and
  classifier are the same as the newer package's and are modelled by the same
  members. Those copies are `bot/downloader/downloader.py:32-47`
  (`Downloading.GetAvailability`), `bot/cogs/ytdl.py:13-24`
  (`Commands.ParseTextDurationTimedelta`, `Commands.DurationRoundTrip`),
  `bot/cogs/ytdl.py:34-43` (`Commands.ParseTextAsDatetime`),
  `bot/cogs/ytdl.py:53-84` (`Commands.YtDl.Download`,
  `Commands.YtDl.ScheduledDownload`) and `bot/cogs/ytdl.py:98-106`
  (`Commands.FreeSpaceUnit`). Only its polling loop differs.

External effects are inputs:

- The result of yt-dlp's metadata probe is a `Result<VideoInfo>`.
- The set of urls whose tasks had finished when the tick's bounded wait returned is a
  `finished` set.
- Wall-clock time is a `now` parameter.
- A server-sent-events connection is its list of lines plus how it ended.
- JSON validity and the event handler are functions of the payload text.

Behaviour worth noting:

- Completion rows are never deleted after a notification.
- Subscriptions are keyed by (lower-cased channel id, room kind), with no guild.
- `scheduled-download` with text that reads as no time at all raises, calling
  `.timestamp()` on `None` before anything is stored.
- Instants and durations outside what Python's `datetime` (years 1 to 9999) and
  `timedelta` (at most 999999999 days) hold make the parsers raise. In
  `get_availability` that raise happens inside its `try`, so the verdict is an error.

## Model

| member | source | states |
|---|---|---|
| Store.UpsertRearms | yt_dlp_bot/database.py:52-57 | after `add_future_download` the url has one valid row at the new instant, even if it was disabled; it is due iff that instant is strictly before now + offset; other rows are unchanged |
| Store.DueIsStrictAndValid | yt_dlp_bot/database.py:66-69 | a url is due iff its row is valid and its instant strictly before now + offset: a row at exactly now + offset is not, nor a disabled row; every due url is listed as scheduled, at an instant before now + offset |
| Store.SweepRemovesExactlyStale | yt_dlp_bot/database.py:60-63 | the sweep keeps exactly the rows at or after now - 86400, valid or not, unchanged; a row exactly a day old survives |
| Store.DisableHidesEntry | yt_dlp_bot/database.py:76-83 | disabling keeps every url and the entry's instant but removes it from the scheduled listing and the due query; other rows are unchanged |
| Store.WaitingRoomInsertsOnlyWhenSubscribed | yt_dlp_bot/database.py:85-92 | a waiting room adds a valid row for its watch url iff the url has no row and (lower-cased channel, kind) is subscribed; an existing row, even a disabled one, is kept |
| Store.SubscribeThenRoomSchedules | yt_dlp_bot/database.py:85-97 | after subscribing to a channel, a waiting room of that channel and kind, in any letter case, schedules its url at the room's instant |
| Store.SubscribeIdempotentAndUndone | yt_dlp_bot/database.py:94-107 | subscribing twice equals subscribing once; when the (channel, kind) pair was not subscribed before, unsubscribing from the same kind restores the previous table |
| Store.ChannelIdCaseIgnored | yt_dlp_bot/database.py:94-107 | subscribing and unsubscribing, with or without a kind, give the same table for a channel id as for its lower-cased form |
| Store.UnsubscribeRemovesExactly | yt_dlp_bot/database.py:99-107 | the intended unsubscribe: with a kind only that (channel, kind) row goes; without one every row of the channel goes; other channels' rows stay |
| Store.UnsubscribeAllKindsRejected | yt_dlp_bot/database.py:99-107 | as written, unsubscribing without a kind from an id not one character long fails and keeps a subscription that the intended statement removes |
| Store.CompletionAddDelete | yt_dlp_bot/database.py:38-50 | adding a completion destination is idempotent; deleting by url removes every row of that url and no row of another url |
| Store.Database.constructor | yt_dlp_bot/database.py:27-36 | `setup_tables` on a new database file gives three empty tables |
| Store.Database.AddCompletionForUrl | yt_dlp_bot/database.py:38-41 | inserts the (guild, channel, url) row, ignoring a duplicate; other tables are unchanged |
| Store.Database.GetCompletionChannelForUrl | yt_dlp_bot/database.py:43-45 | returns a registered destination of the url, or None exactly when it has none |
| Store.Database.DeleteCompletionForUrl | yt_dlp_bot/database.py:47-50 | removes the url's completion rows; other tables are unchanged |
| Store.Database.AddFutureDownload | yt_dlp_bot/database.py:52-57 | upserts the url's deferred row; other tables are unchanged |
| Store.Database.CleanupFutureDownloads | yt_dlp_bot/database.py:60-63 | applies the staleness sweep at `now`; other tables are unchanged |
| Store.Database.DeleteFutureDownload | yt_dlp_bot/database.py:71-74 | removes the url's deferred row and nothing else |
| Store.Database.DisableFutureDownload | yt_dlp_bot/database.py:76-79 | marks the url's deferred row invalid and nothing else |
| Store.Database.AddSubscribedWaitingRoom | yt_dlp_bot/database.py:85-92 | applies the conditional insert of the waiting room against the current subscriptions |
| Store.Database.SubscribeToChannel | yt_dlp_bot/database.py:94-97 | adds (lower-cased channel, kind) to the subscriptions, ignoring a duplicate |
| Store.Database.UnsubscribeFromChannel | yt_dlp_bot/database.py:99-107 | succeeds and deletes as intended, except without a kind on an id not one character long, where it fails and changes nothing |
| Downloading.GetAvailability | yt_dlp_bot/downloader/downloader.py:50-66 | a failed probe gives its message as an error; a missing status gives the no-live-status error; an upcoming item gives its release instant when that lies in years 1 to 9999, the out-of-range error otherwise, the no-timestamp error without one, or the message `int()` raised on an unreadable one; any other status gives available now, and only then |
| Downloading.DownloadTask.constructor | yt_dlp_bot/downloader/downloader.py:93-96 | a new task starts with its cancellation flag unset and the given yt-dlp wait option |
| Downloading.Downloader.constructor | yt_dlp_bot/downloader/downloader.py:39-42 | a new downloader has no running downloads |
| Downloading.Downloader.DownloadAsync | yt_dlp_bot/downloader/downloader.py:98-104 | registers the destination iff both ids are truthy; records a fresh task with an unset flag under the url, replacing any old one; other entries and the deferred table are unchanged |
| Downloading.Downloader.DeferDownloadUntilTime | yt_dlp_bot/downloader/downloader.py:106-111 | upserts the deferred entry and registers the destination iff both ids are truthy |
| Downloading.Downloader.ScheduleDeferredDownloads | yt_dlp_bot/downloader/downloader.py:114-144 | the due urls (120 s grace) leave the store and get fresh tasks with `wait_for_video` (15, 60); it waits iff some task is recorded; exactly the finished urls are dropped; an unfinished older task stays with its flag untouched |
| Downloading.Downloader.DeleteEntries | yt_dlp_bot/downloader/downloader.py:115-116 | every selected url's deferred row is deleted before any task is created, and nothing else changes |
| Downloading.Downloader.StartDeferredTasks | yt_dlp_bot/downloader/downloader.py:119-122 | one fresh task with an unset flag and `wait_for_video` (15, 60) for each selected url, and no other |
| Downloading.Downloader.FinishedEntries | yt_dlp_bot/downloader/downloader.py:139-142 | the urls to pop are exactly the recorded urls whose task had finished |
| Downloading.Downloader.CancelDownload | yt_dlp_bot/downloader/downloader.py:152-163 | a running url gets its flag set and the store is unchanged; otherwise a valid scheduled url is disabled; the result is true iff one of the two applied |
| Commands.MatchUnit | yt_dlp_bot/cogs/ytdl.py:14 | one optional group `(\d+?X)?` at the start matches iff a non-empty digit run is followed by the letter, and captures exactly that whole run |
| Commands.MatchGroups | yt_dlp_bot/cogs/ytdl.py:14-17 | the groups tried in order, each where the previous one stopped, give one digit-string-or-nothing per unit letter |
| Commands.DurationGroups | yt_dlp_bot/cogs/ytdl.py:14-20 | the groupdict has the four groups days, hours, minutes, seconds, each a digit string or unmatched |
| Commands.CollectedParamsAreGroups | yt_dlp_bot/cogs/ytdl.py:20-25 | the keyword arguments the loop collects make a timedelta of days·86400 + hours·3600 + minutes·60 + seconds over the matched groups |
| Commands.Timedelta | yt_dlp_bot/cogs/ytdl.py:25 | `timedelta` holds a duration iff it is at most 999999999 whole days, and then holds it exactly; otherwise it raises |
| Commands.ParseTextDurationTimedelta | yt_dlp_bot/cogs/ytdl.py:16-25 | never None: the result is the seconds of the groups matched at the start of the text, and it raises iff they exceed 999999999 days |
| Commands.DurationRoundTrip | yt_dlp_bot/cogs/ytdl.py:14-25 | any of `<d>d<h>h<m>m<s>s`, fields optional, followed by text that does not start with a digit, or by any text when the seconds field is written, is read as d·86400 + h·3600 + m·60 + s; the parse returns that duration when it is at most 999999999 days and raises otherwise |
| Commands.UnrecognisedTextIsZero | yt_dlp_bot/cogs/ytdl.py:14-19 | text not starting with a digit is a zero duration, not a failure |
| Commands.MatchTimestampTag | yt_dlp_bot/cogs/ytdl.py:38-40 | a tag match captures a non-empty digit run that directly follows `<t:`, is followed by a non-digit, and has a `>` later on the same line |
| Commands.TagReadsDigits | yt_dlp_bot/cogs/ytdl.py:38-40 | conversely, `<t:` followed by digits, then text that starts with no digit and has a `>` on that line, matches and captures exactly those digits |
| Commands.UnclosedTagIsNoInstant | yt_dlp_bot/cogs/ytdl.py:35-44 | text opening with `<t:` but with no `>` on that line is no tag, and reads as no instant at all |
| Commands.TimeFromText | yt_dlp_bot/cogs/ytdl.py:35-44 | a tag gives its epoch if that lies before year 10000 and raises otherwise; other text gives None iff its duration is zero, raises iff the duration exceeds 999999999 days or now plus it passes year 9999, and otherwise gives exactly now plus the duration |
| Commands.ParseTextAsDatetime | yt_dlp_bot/cogs/ytdl.py:35-44 | the method returns, or raises, exactly as `TimeFromText` states |
| Commands.TimestampTagRoundTrip | yt_dlp_bot/cogs/ytdl.py:133 | a `<t:EPOCH:F>` tag the listing writes for a non-negative epoch up to the end of year 9999 parses back to that epoch at any now; a later epoch raises |
| Commands.DurationTextIsNoTag | yt_dlp_bot/cogs/ytdl.py:38-41 | a written duration is never taken for a timestamp tag, so it falls through to the duration parser |
| Commands.FreeSpaceUnit | yt_dlp_bot/cogs/ytdl.py:99-107 | TiB iff free > 2^40, else GiB iff free > 2^30, else MiB: the unit is strictly exceeded unless it is MiB, and the next unit is not |
| Commands.ScheduledLineReadsBack | yt_dlp_bot/cogs/ytdl.py:131-133 | a listing line starts with `<url> `, and the rest reads back through the `scheduled-download` parser as the row's instant |
| Commands.ScheduledDownloadsMessage | yt_dlp_bot/cogs/ytdl.py:129-135 | the reply is the header followed by the row lines joined by newlines |
| Commands.ScheduledReplyOneLinePerRow | yt_dlp_bot/cogs/ytdl.py:130-135 | splitting the reply body on newlines gives back exactly one `<url> <t:EPOCH:F>` line per row, in order, for at least one row and when no url holds a newline |
| Commands.ScheduledLineIsOneLine | yt_dlp_bot/cogs/ytdl.py:133 | a listing line holds a newline only if its url does |
| Commands.RunningReplyOneLinePerUrl | yt_dlp_bot/cogs/ytdl.py:117-120 | the running-downloads reply reads back as one `<url>` line per running url, for at least one url and when no url holds a newline |
| Commands.YtDl.constructor | yt_dlp_bot/cogs/ytdl.py:30-33 | the cog starts with a downloader over the store with nothing running |
| Commands.YtDl.Download | yt_dlp_bot/cogs/ytdl.py:54-69 | an error verdict only replies its message and changes nothing; now starts a download with a fresh, uncancelled task that has no `wait_for_video` option; a future instant upserts a deferred entry; the destination is registered iff there is no error and both ids are non-zero |
| Commands.YtDl.ScheduledDownload | yt_dlp_bot/cogs/ytdl.py:79-85 | a readable text defers the url to its instant, like a probed future verdict; an out-of-range instant or duration raises its error, and an unreadable text raises on `None.timestamp()`, both before anything is stored |
| Commands.YtDl.Cancel | yt_dlp_bot/cogs/ytdl.py:144-148 | the reply reports success iff the url was running or validly scheduled; a running task's flag is set and the store left as it was; otherwise a scheduled row is disabled; the other tables never change |
| Commands.YtDl.CheckTasks | yt_dlp_bot/cogs/ytdl.py:175-178 | the tick, then the sweep: afterwards nothing due at now and nothing more than a day older than the sweep instant remains; each due url that has not finished runs a fresh, uncancelled task with `wait_for_video` (15, 60); every other running task is the same object with its flag untouched |
| EventStream.RequestHeaders | yt_dlp_bot/pikl_api/waiting_room_client.py:18-23 | `Accept: text/event-stream` always; `Last-Event-ID` iff the cursor is a non-empty string, carrying it; no other header |
| EventStream.StreamRunAppend | yt_dlp_bot/pikl_api/waiting_room_client.py:28-37 | the line loop over two chunks is the loop over the first, then over the second from the cursor the first left |
| EventStream.StreamRunMeaning | yt_dlp_bot/pikl_api/waiting_room_client.py:28-37 | while the handler lets the stream go on, the loop hands over exactly the valid-JSON `data:` payloads, stripped, in line order, and the cursor is that of the last `id:` line |
| EventStream.OnlyIdLinesMoveCursor | yt_dlp_bot/pikl_api/waiting_room_client.py:29-37 | with no `id:` line, the cursor is unchanged: `data:` lines and other lines never move it |
| EventStream.LastIdWins | yt_dlp_bot/pikl_api/waiting_room_client.py:36-37 | the cursor after the lines is the stripped id of the last `id:` line |
| EventStream.IgnoredLine | yt_dlp_bot/pikl_api/waiting_room_client.py:28-37 | a line with neither prefix can be removed without changing the cursor, the payloads or the outcome |
| EventStream.ReconnectResumes | yt_dlp_bot/pikl_api/waiting_room_client.py:39-52 | after end of stream or an httpx error, the client sleeps `retry_delay` and reconnects with the cursor the previous connection's last `id:` line left |
| EventStream.CancellationStopsListening | yt_dlp_bot/pikl_api/waiting_room_client.py:42-50 | cancellation ends `listen` at once, with no sleep and no further connection |
| EventStream.SleepBeforeReconnect | yt_dlp_bot/pikl_api/waiting_room_client.py:42-52 | every connection but the first is directly preceded by a sleep of `retry_delay` |
| EventStream.SseClient.constructor | yt_dlp_bot/pikl_api/waiting_room_client.py:11-15 | the stream url is the base url followed by `/live?new_only=true`, and there is no cursor yet |
| EventStream.SseClient.BuildHeaders | yt_dlp_bot/pikl_api/waiting_room_client.py:18-23 | the headers built are those for the current cursor: `Accept` always, `Last-Event-ID` iff the cursor is non-empty |
| EventStream.SseClient.HandleLine | yt_dlp_bot/pikl_api/waiting_room_client.py:29-37 | one line: a valid-JSON `data:` payload is handed over and a handler exception other than a decode error escapes; otherwise an `id:` line sets the stripped cursor; anything else changes nothing |
| EventStream.SseClient.ReadLines | yt_dlp_bot/pikl_api/waiting_room_client.py:28-37 | the loop over the response lines hands over, keeps the cursor and stops exactly as the line-by-line run does |
| EventStream.SseClient.ConnectAndStream | yt_dlp_bot/pikl_api/waiting_room_client.py:17-37 | sends the headers for the current cursor; the new cursor, the payloads handed over and the outcome are those of the line loop |
| EventStream.SseClient.Listen | yt_dlp_bot/pikl_api/waiting_room_client.py:39-52 | its connects, deliveries and sleeps, how it ends, and the cursor it keeps are those of the reconnect state machine |
| EventStream.RunApiClient | yt_dlp_bot/pikl_api/waiting_room_client.py:60-62 | a fresh client listens with the 30-second default delay, and its first connection sends no `Last-Event-ID` |
| LegacyBot.LegacyYtDl.constructor | bot/cogs/ytdl.py:29-32 | the older cog starts with a downloader over the store with nothing running |
| LegacyBot.LegacyYtDl.CheckTasks | bot/cogs/ytdl.py:109-111 | only the tick: the due entries leave the store and nothing else does, so every disabled entry is kept; each due url that has not finished runs a fresh, uncancelled task with `wait_for_video` (15, 60); every other running task is the same object with its flag untouched |
| LegacyBot.DisabledEntryOutlivesTicks | bot/cogs/ytdl.py:109-111 | under the older loop a disabled entry stays in the store unchanged through any number of ticks |
| LegacyBot.SweepIsWhatDiffers | yt_dlp_bot/cogs/ytdl.py:175-178 | a disabled entry more than a day old is removed by the newer tick-and-sweep but kept by the older tick |

## Left out

- Discord: contexts, `defer`/`send`, command decorators, `format_dt`, the owner check and the `subscribe`/`unsubscribe` command replies. A reply is a returned value; the store effects of those two commands are the `Database` members.
- yt-dlp: `get_info`, the download itself and the progress hook. A probe is a `Result<VideoInfo>`, and a task is reduced to its cancellation flag and its `wait_for_video` option.
- asyncio: task creation, `to_thread`, and the timing of `asyncio.wait`. The urls whose task had finished are the input `finished`. The one-second wait in `download_async` prunes nothing and is not modelled.
- `_post_completion` is notification I/O. It reads one destination and deletes nothing.
- `get_running_downloads`, `get_scheduled_downloads`, `get_downloads_now` and `get_all_scheduled_downloads` are reads. They are functions of the state with no contract of their own, and their properties are stated by the lemmas above.
- Row order: the tables are sets and maps, so the order sqlite returns rows in is not modelled. The listing replies take the rows as a sequence in whatever order they come.
- Each command, polling tick and stream connection is one uninterleaved step. The source yields at `await asyncio.wait` in the tick (yt_dlp_bot/downloader/downloader.py:104 and :137), and a `download` or `scheduled-download` command running there can replace a running task or store an entry that is already due. The post-states of `YtDl.CheckTasks`, `LegacyYtDl.CheckTasks` and `Downloader.ScheduleDeferredDownloads` hold only when no command runs during the tick.
- Store.Database.constructor: only a new database file is modelled. `CREATE TABLE IF NOT EXISTS` keeps the rows of an existing file on restart, and the model always starts from empty tables.
- Floating point and time zones: instants are integer epoch seconds. `datetime.fromtimestamp` in `parse_text_as_datetime` uses the host's local time zone; the model takes the host clock to be UTC, so the year-9999 bound there may differ from the real one by the local offset. The text of the range errors is a fixed message rather than Python's, which names the offending value. The `:.1f` figure in `df` is not modelled, only the unit choice. `time.timestamp()` storing a float is not modelled either.
- Unicode: digits are ASCII digits and `lower` folds ASCII letters only, while Python's `\d`, `int()` and `str.lower` accept more.
- `handle_event`: it builds a `YoutubeVideo` and calls `receive_stream_notification`, and neither is defined in the repository's files. The handler is therefore an abstract function from payload to outcome.
- `AsyncHttpClient` is a thin HTTP wrapper with no logic of its own.
- EventStream.SseClient.Listen: the infinite `while True` loop runs over a finite list of connections, and running out of them is one more way to end. A cancellation during the sleep itself is not modelled.
- The older `bot/` package's `download` is an empty stub. Its cog creates `downloader.Downloader`, which `bot/downloader/downloader.py` does not define, so the model gives that cog the newer package's `Downloader`.
- Wiring and configuration (`main.py`, `bot.py`, `helpers.py`, the older `database.py`) are not part of this model.

## Findings

| source | as written | input that shows it | evidently intended | confidence | as-written member | corrected member |
|---|---|---|---|---|---|---|
| yt_dlp_bot/database.py:105-107 | without a kind, the lower-cased id string itself is passed as the parameter sequence, so sqlite binds one parameter per character and the one-placeholder statement fails unless the id is one character long | `unsubscribe_from_channel("UCabc", None)` with ("ucabc", "streams") subscribed: the statement raises and the row stays | delete every subscription row of the channel | not executed | Store.UnsubscribeAllKindsRejected | Store.UnsubscribeRemovesExactly |
