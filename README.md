# Radio timeshift: a Dafny model

This project models the deterministic core of a small radio-timeshift system with three parts:

- **Timeshift playlist worker** (`radio-timeshift-shift.js`). A Cloudflare worker that turns the audio segments stored for one broadcaster into an HLS media playlist.
  - It reads `ago` durations such as `30m`.
  - In archive mode it selects every segment uploaded since `now − ago`.
  - In live mode it selects a window of about forty seconds.
  - It renders the `#EXTM3U` text with the tags of RFC 8216: EXT-X-TARGETDURATION (section 4.3.3.1), EXT-X-MEDIA-SEQUENCE (section 4.3.3.2), EXTINF (section 4.3.2.1), EXT-X-DISCONTINUITY (section 4.3.2.3) and EXT-X-ENDLIST (section 4.3.3.4).
  - It also serves single segments, with a 304 answer to a matching `if-none-match`.
- **Segment collector** (`timeshift-dvr.js`). A durable object, `MyDurableObject`, that wakes on an alarm and does one poll:
  - it asks the broadcaster's API for the playlist and follows a master playlist to its first variant;
  - it extracts the `.aac`/`.ts` segment lines and skips the ones whose dedup key is already in its `seen` window;
  - it downloads each new segment with up to three attempts;
  - it remembers the keys in a window of at most 500 names, evicting the oldest first;
  - it backs the window up every ten minutes and sets the next alarm.

  A root worker starts instances with `/init` (which calls `/setup`) and stops them with `/stop` (which calls `/shutdown`).
- **Weekly schedule crawler** (`crawler/fetch_schedule.py`).
  - It computes this week's Monday and writes it as `YYYYMMDD`.
  - It asks SBS and KBS for that week's table and keeps the rows that have both a time and a title.
  - It assembles the document `{"sbs": …, "kbs": …}`.

Modules follow that structure:

- `Wrappers`: `Option`, `Result`.
- `Strings`: the JavaScript and Python string built-ins the sources rely on. These are `slice`, `split`, `trim`, `parseInt`, decimal rendering and ASCII lower-casing.
- `Timeshift`: `radio-timeshift-shift.js`.
- `Dvr`: `timeshift-dvr.js`. The durable object is the class `Dvr.MyDurableObject`. Its fields are the in-memory `seen` window, kept in insertion order, and its durable `storage`.
- `Calendar`: `datetime.date`, `weekday`, `timedelta` and `strftime("%Y%m%d")`, on the proleptic Gregorian calendar.
- `Schedule`: `crawler/fetch_schedule.py`.

Everything outside the program is a parameter:

- the clock (`now`, and a `Clock` record of the readings one alarm takes);
- the object store (`Bucket`, and the `Put`s a poll writes);
- HTTP fetches, JSON field lookup, `new URL(rel, base)`, `Number(...)`;
- the HTML page with its selected table rows (`Web`).

A throwing call is a `None`.

The crawler's failures are modelled as the code has them; none of them degrades to an empty result:

- `fetch_sbs` does not catch the `AttributeError` raised when a row lacks a `th.time` cell or a title cell (`.get_text` on `None`); the script ends without writing `schedule.json` (`Schedule.FetchSbs` returns `Err(MissingCell)`).
- A request that raises also stops the whole script (`Err(RequestFailed)`); it does not yield an empty list. A non-2xx status does not raise, because `raise_for_status` is never called: that page's rows are simply what `Web` returns.
- The code does no whitespace collapsing of titles and no `HH:MM` validation of times. The only filter is `if time and name`.

## Model

| member | source | states |
|---|---|---|
| Timeshift.UnitMillis | radio-timeshift-shift.js:19-24 | the unit letter s, m, h, d maps to 1000, 60000, 3600000, 86400000 ms, each if and only if; every other letter maps to 0 |
| Timeshift.ParseAgo | radio-timeshift-shift.js:14-26 | `parseAgo` is 0 for a missing or empty string, for a number part `parseInt` reads as NaN, and for a unit other than s/m/h/d after lower-casing |
| Timeshift.ParseAgoOfCount | radio-timeshift-shift.js:16-23 | a decimal count followed by a unit letter, upper or lower case, gives the count times that unit's milliseconds, and 0 for any other letter |
| Strings.ParseIntOfDecimal | radio-timeshift-shift.js:17 | `parseInt(s, 10)` reads back any decimal numeral followed by non-digit text |
| Timeshift.RouteOf | radio-timeshift-shift.js:31-33 | a path is served as a segment iff it starts with `/get/`, as a playlist iff it does not and ends with `.m3u8`; everything else gets the banner |
| Timeshift.PlaylistPrefix | radio-timeshift-shift.js:38 | for a path `/<prefix>.m3u8` the prefix is the path without its leading `/` and trailing `.m3u8` |
| Timeshift.SegmentKey | radio-timeshift-shift.js:109 | for a path starting `/get/` the key is the rest of the path after those five characters |
| Timeshift.SegmentSeconds | radio-timeshift-shift.js:64 | the segment duration is 5 iff the prefix starts with `kbs`, otherwise 9 |
| Timeshift.TargetDuration | radio-timeshift-shift.js:66 | the target duration is the larger of 60 and three segment durations |
| Timeshift.LiveCount | radio-timeshift-shift.js:71-72 | `ceil(40 / dur)`: the least positive count of segments whose total duration reaches 40 seconds |
| Timeshift.TimingOfPrefix | radio-timeshift-shift.js:64-72 | the target duration is 60 for every prefix; the live window is 8 segments for `kbs…` and 5 for any other prefix |
| Timeshift.FindIndex | radio-timeshift-shift.js:73 | `findIndex`: -1 iff no segment has `time ≥ startTime`, otherwise the first index that has it |
| Timeshift.SegmentsFrom | radio-timeshift-shift.js:82 | `filter`: only segments with `time ≥ startTime`, all of them, none from outside the input |
| Timeshift.SegmentsFromAppend | radio-timeshift-shift.js:82 | `filter` keeps order: filtering two runs of segments gives the filtered first run followed by the filtered second |
| Timeshift.SegmentsFromOne | radio-timeshift-shift.js:82 | a single segment is kept iff its upload time is at or after `startTime` |
| Timeshift.Select | radio-timeshift-shift.js:68-83 | archive mode: every segment from `startTime` on, sequence 0. Live mode with an index: `arr[idx..idx+count]` cut at the end, sequence `idx`. Live mode with none: the last `count`, sequence `length − count`. Live mode takes at most `count` |
| Timeshift.LiveShortStoreHasNegativeSequence | radio-timeshift-shift.js:74-76 | with fewer than `count` segments stored and none recent, the live playlist lists them all under a negative media sequence number |
| Timeshift.ArchiveIsSuffix | radio-timeshift-shift.js:73-82 | on segments sorted by upload time, the archive selection is the suffix from the `findIndex` position, or empty |
| Timeshift.LiveIsPrefixOfArchive | radio-timeshift-shift.js:73-82 | on sorted segments with a recent one, the live window is the first `count` segments of the archive selection |
| Timeshift.InsertByTime | radio-timeshift-shift.js:48 | inserting into a time-ordered list keeps it ordered and adds exactly the one segment |
| Timeshift.SortByTime | radio-timeshift-shift.js:48 | the sort yields a permutation of the listed objects in ascending upload time |
| Timeshift.SortIsStable | radio-timeshift-shift.js:48 | objects uploaded at the same time keep their listing order, as the stable `Array.prototype.sort` does |
| Timeshift.Entries | radio-timeshift-shift.js:90-94 | each selected segment, in order, gives one `#EXTINF:<dur>.000,` line followed by one `<origin>/get/<key>` line |
| Timeshift.PlaylistLines | radio-timeshift-shift.js:85-97 | the lines are the four header lines (`#EXTM3U`, version 3, target duration, media sequence), two per segment in order, and `#EXT-X-DISCONTINUITY` when live or `#EXT-X-ENDLIST` otherwise |
| Timeshift.PlanOf | radio-timeshift-shift.js:57-83 | the plan is live iff `mode` is `live`; its duration is the prefix's segment duration (5 or 9) with target 60; its selection is `Select` from `now − parseAgo(ago)` with the `ceil(40/dur)` live count |
| Timeshift.PlaylistLinesRoundTrip | radio-timeshift-shift.js:85-97 | split at line feeds, the rendered text gives back its lines followed by the empty piece after the last line feed, when origin and keys hold no line feed |
| Timeshift.PlaylistText | radio-timeshift-shift.js:56-97 | the body `generatePlaylist` writes, split at line feeds, is the layered line list of its plan followed by the empty piece after the last line feed, when origin and keys hold no line feed |
| Timeshift.WritePlaylist | radio-timeshift-shift.js:85-97 | the template and the `+=` loop build exactly the line-joined playlist |
| Timeshift.GeneratePlaylist | radio-timeshift-shift.js:56-105 | the response is a 200 whose text is the playlist of the request's plan |
| Timeshift.HandlePlaylist | radio-timeshift-shift.js:36-54 | no or empty `ago` gives a 400 with the usage text; otherwise the playlist over the prefix's objects sorted by upload time |
| Timeshift.ServeSegment | radio-timeshift-shift.js:107-127 | 404 iff no object has the key; 304 with no body iff the client's ETag matches; otherwise 200 with the object's body; the ETag is sent whenever the object exists |
| Timeshift.Fetch | radio-timeshift-shift.js:29-54 | `/get/` paths are served as segments; `.m3u8` paths get the 400 usage text without `ago`, otherwise a 200 holding the playlist over the prefix's objects sorted by upload time; every other path gets the banner |
| Dvr.SegmentLines | timeshift-dvr.js:127 | a line is kept iff it is not empty, does not start with `#`, and has `.aac` or `.ts` in any case followed by `?` or line end |
| Dvr.SegmentList | timeshift-dvr.js:127 | a playlist body's segment list holds exactly its lines that are segment lines |
| Dvr.SegmentLinesAppend | timeshift-dvr.js:127 | the filter keeps playlist order: the segment lines of two runs of lines are those of the first and then the second |
| Dvr.TsLineIsSegment | timeshift-dvr.js:127 | a non-tag name with `.ts` and an optional query is a segment line |
| Dvr.AacLineIsSegment | timeshift-dvr.js:127 | a non-tag name with `.aac` and an optional query is a segment line |
| Dvr.FirstUriLine | timeshift-dvr.js:120 | `find`: the first non-empty line not starting with `#`, none iff there is no such line |
| Dvr.VariantUri | timeshift-dvr.js:119-120 | a master playlist names a variant iff some line is a URI line, and the variant is the first URI line, trimmed |
| Dvr.Absolute | timeshift-dvr.js:136 | a URI starting with `http` is used as is, any other is resolved against the playlist URL |
| Dvr.DedupKey | timeshift-dvr.js:133 | the dedup key is the line's text before its first `?` |
| Dvr.DedupKeyOfQuery | timeshift-dvr.js:133-134 | lines for the same file that differ only in their query share a dedup key |
| Dvr.FileName | timeshift-dvr.js:137 | the file part of a URL holds neither `/` nor `?` |
| Dvr.FileNameOf | timeshift-dvr.js:137 | the file part of `dir/name?query` is `name` |
| Dvr.StorageKey | timeshift-dvr.js:136-138 | the storage key is `PREFIX + "/" +` the URL's last path segment without its query |
| Dvr.ContentType | timeshift-dvr.js:171 | a key ending `.ts` is stored as `video/mp2t`, every other as `audio/aac` |
| Dvr.DownloadAndPut | timeshift-dvr.js:166-182 | at most three attempts; it stops at the first that succeeds and stores that body with the key's content type; nothing is stored iff every attempt fails; it never fails |
| Dvr.Remember | timeshift-dvr.js:143-145 | adding a key keeps the window at most 500 and free of duplicates. A known key changes nothing. A new key is appended, and in a full window the oldest entry is evicted |
| Dvr.RememberAll | timeshift-dvr.js:140-149 | remembering a run of keys keeps the window at most 500 and free of duplicates |
| Dvr.RememberAllIsNewest | timeshift-dvr.js:143-145 | with new names, the window after a poll is exactly the 500 most recently inserted names |
| Dvr.Jobs | timeshift-dvr.js:131-148 | every queued download has a dedup key not in the window when the poll started and the storage key of its URL |
| Dvr.FreshLines | timeshift-dvr.js:132-134 | the unseen lines are lines of the segment list whose dedup key is not in the window, at most as many as there are lines |
| Dvr.FreshLinesComplete | timeshift-dvr.js:132-134 | every line of the segment list whose dedup key is not in the window is among the unseen lines |
| Dvr.FreshLinesAppend | timeshift-dvr.js:132-134 | the selection keeps segment-list order: the unseen lines of two runs of lines are those of the first followed by those of the second |
| Dvr.JobsAreFresh | timeshift-dvr.js:131-138 | the queued downloads are, one for one and in segment-list order, the lines whose dedup key is not in the window, each with that key, its absolute URL and the storage key of that URL |
| Dvr.JobKeysAreFresh | timeshift-dvr.js:133-146 | the keys a poll remembers are, one for one and in order, the dedup keys of the unseen lines |
| Dvr.JobsFailure | timeshift-dvr.js:136 | the collection throws iff some unseen line's URL cannot be resolved |
| Dvr.JobsFailureIsFinal | timeshift-dvr.js:136 | once a line fails to resolve, the whole collection fails |
| Dvr.PutsOf | timeshift-dvr.js:140-149 | the downloads write at most one object each, every one under a queued storage key |
| Dvr.PutsOfStored | timeshift-dvr.js:140-149 | every object a queued download stores is written, and every write is the object some queued download stored |
| Dvr.PlaylistUrl | timeshift-dvr.js:97-111 | no playlist when the API request fails; the trimmed answer unless it is a JSON object; the looked-up field when it is |
| Dvr.FetchMedia | timeshift-dvr.js:97-124 | without an API answer or a playlist body the poll is only rescheduled. A media playlist is used directly. A master is followed to its first variant, and breaks the poll when it names none or the variant cannot be resolved. Segment URIs are resolved against the playlist URL |
| Dvr.NextGap | timeshift-dvr.js:159-161 | after queueing, the gap is the larger of 200 and a quarter of INTERVAL; without queueing, the larger of 0 and INTERVAL minus the time spent; a missing INTERVAL gives NaN |
| Dvr.MaxReal | timeshift-dvr.js:159-161 | `Math.max` is one of its arguments and at least both |
| Dvr.AlarmDelay | timeshift-dvr.js:184-186 | `ms \|\| 5000`: a zero or NaN delay becomes 5000 ms, any other is kept |
| Dvr.PollDelayIsPositive | timeshift-dvr.js:159-162 | with the 5000 ms default of `next`, the next alarm after a poll is always in the future, at least 200 ms away after queueing |
| Dvr.LatePollWaitsDefault | timeshift-dvr.js:159-161 | a poll with nothing new that took the whole interval waits the 5000 ms default |
| Dvr.EarlyPollWaitsRest | timeshift-dvr.js:159-161 | a poll with nothing new that finished early waits out the rest of the interval |
| Dvr.SetupInterval | timeshift-dvr.js:63 | `Number(interval) \|\| 5000`: a missing, zero or NaN interval is stored as 5000, any other as given |
| Dvr.Saved | timeshift-dvr.js:151-156 | the window and the time are backed up iff more than ten minutes passed since `_lastSave \|\| 0`; otherwise storage is unchanged |
| Dvr.PollOutcome | timeshift-dvr.js:113-149 | no API answer or playlist body idles the poll, a master without a usable variant crashes it, a media playlist without segment lines idles it; a poll downloads only from a media playlist with segment lines, and only unseen segments under their derived keys |
| Dvr.Outcome | timeshift-dvr.js:83-149 | an alarm stops iff SHUTDOWN is set; it idles when API or PREFIX is missing; it queues downloads only when configured and a media playlist was read; every queued segment is unseen and stored under its derived key |
| Dvr.AlarmPollsFresh | timeshift-dvr.js:113-146 | a configured alarm that reads a media playlist with segment lines polls iff every unseen line resolves, and otherwise crashes; when it polls it queues, one for one and in order, the download of each unseen line with its dedup key, absolute URL and storage key |
| Dvr.MyDurableObject.constructor | timeshift-dvr.js:37-52 | a new instance has an empty window over its durable storage |
| Dvr.MyDurableObject.Next | timeshift-dvr.js:184-186 | the alarm is set `ms \|\| 5000` after now, nothing else changes |
| Dvr.MyDurableObject.CollectJobs | timeshift-dvr.js:131-148 | the loop queues exactly the downloads `Jobs` describes, or throws when it does |
| Dvr.MyDurableObject.StoreAll | timeshift-dvr.js:140-149 | after the downloads the window is the queued keys remembered in order, the writes are those of the downloads, storage is unchanged, and the window invariant holds |
| Dvr.MyDurableObject.Alarm | timeshift-dvr.js:83-163 | the alarm ends as `Outcome` decides. Stopped or crashed: nothing changes and no alarm is set. Idle: the window is kept and only the alarm is set. Polled: the window remembers the queued keys, the downloads are written, the backup is made when due and the next alarm is set from the gap rule |
| Dvr.MyDurableObject.Poll | timeshift-dvr.js:113-163 | the same state changes for the part of the alarm after the media playlist was looked for |
| Dvr.MyDurableObject.FinishPoll | timeshift-dvr.js:140-162 | once downloads are queued, the window remembers their keys, the writes are those of the downloads, the backup is made when due and the next alarm is set from the gap rule |
| Dvr.MyDurableObject.Reschedule | timeshift-dvr.js:151-162 | the window is backed up iff more than ten minutes passed since the last backup, and the next alarm is set from the gap rule; the window is unchanged |
| Dvr.MyDurableObject.Setup | timeshift-dvr.js:59-69 | `/setup` stores API, PREFIX, INTERVAL (defaulted), clears SHUTDOWN, stamps `_lastSave` and sets the alarm one second later; the window is kept |
| Dvr.MyDurableObject.Shutdown | timeshift-dvr.js:72-77 | `/shutdown` sets SHUTDOWN and deletes the alarm; nothing else changes |
| Dvr.MyDurableObject.Rpc | timeshift-dvr.js:55-80 | `/setup` answers `ok`, `/shutdown` answers `stopped`, any other path `alive` without a change |
| Dvr.InitInterval | timeshift-dvr.js:201 | `Number(interval) * 1000 \|\| undefined`: never zero, and undefined when the parameter is missing |
| Dvr.RootFetch | timeshift-dvr.js:193-227 | `/init` is a 400 iff name, url or prefix is missing or empty, otherwise it calls `/setup` on the named instance with that body. `/stop` is a 400 iff name is missing or empty, otherwise it calls `/shutdown`. Any other path answers `root ok` |
| Dvr.InitThenSetupInterval | timeshift-dvr.js:201 | an instance started by `/init` polls every `interval` seconds, or every 5000 ms when the parameter is missing, zero or not a number |
| Calendar.DaysBeforeYearClosedForm | crawler/fetch_schedule.py:26-27 | the days before a year are 365 per year plus one per leap year (every 4th, not every 100th, every 400th) |
| Calendar.WeekdayOfKnownDates | crawler/fetch_schedule.py:26-27 | the day numbering is Python's `toordinal`: 1 January 2024 is day 738886 and a Monday |
| Calendar.Ordinal | crawler/fetch_schedule.py:27 | `toordinal` numbers every date of a year after all dates of earlier years and before all dates of later ones, from day 1 |
| Calendar.Weekday | crawler/fetch_schedule.py:27 | `weekday` is below 7, and stepping back that many day numbers lands on a Monday |
| Calendar.PrevDayOrdinal | crawler/fetch_schedule.py:27 | the previous day is a valid date one day number earlier |
| Calendar.StepBack | crawler/fetch_schedule.py:27 | `date - timedelta(days=k)` is a valid date `k` day numbers earlier |
| Calendar.Monday | crawler/fetch_schedule.py:27 | MONDAY is a valid date `TODAY.weekday()` days before TODAY |
| Calendar.MondayIsThisWeeksMonday | crawler/fetch_schedule.py:26-27 | MONDAY is a Monday, 0 to 6 days before or on TODAY |
| Calendar.MondayIsLatest | crawler/fetch_schedule.py:27 | no later Monday falls on or before TODAY |
| Calendar.ZeroPad | crawler/fetch_schedule.py:28 | the padded numeral is all digits, at least `width` long, and reads back as the number |
| Calendar.FormatYmd | crawler/fetch_schedule.py:28 | `%Y%m%d` is eight digits |
| Calendar.FormatYmdRoundTrip | crawler/fetch_schedule.py:28 | reading the eight digits back as year, month, day gives the date |
| Schedule.QueryDate | crawler/fetch_schedule.py:26-28 | the queried date is eight characters that read back as MONDAY |
| Schedule.SbsUrl | crawler/fetch_schedule.py:33 | the SBS URL carries the date as its `pmDate` value, right before `&type=ra` |
| Schedule.KbsUrl | crawler/fetch_schedule.py:47 | the KBS URL ends with the date as its `date` value |
| Schedule.UrlsAskForMonday | crawler/fetch_schedule.py:33-47 | both the SBS and the KBS URL carry MONDAY as `YYYYMMDD` at the fixed query position |
| Schedule.RowProgram | crawler/fetch_schedule.py:53-58 | a row yields a program iff both its time and its title are non-empty, with a missing cell read as empty; the program holds the row's own title and time |
| Schedule.Kept | crawler/fetch_schedule.py:37-42 | there are no more programs than rows, and every program has a non-empty name and time |
| Schedule.KeptAppend | crawler/fetch_schedule.py:38-42 | filtering works row by row: the programs of two runs of rows are those of the first and then the second |
| Schedule.KeptSplit | crawler/fetch_schedule.py:38-42 | each row's program comes after those of the rows before it and before those of the rows after it |
| Schedule.QualifyingRowIsKept | crawler/fetch_schedule.py:41-42 | a row with both cells non-empty is kept, at the position right after the programs of the earlier rows |
| Schedule.IncompleteRowIsSkipped | crawler/fetch_schedule.py:53-56 | a KBS row missing a cell adds nothing and removes nothing |
| Schedule.FetchSbs | crawler/fetch_schedule.py:32-43 | a failed request ends the script; a row missing a cell ends it; otherwise the qualifying rows in order under `sbs/powerfm` |
| Schedule.FetchKbs | crawler/fetch_schedule.py:46-59 | a failed request ends the script; otherwise the qualifying rows in order under `kbs/25`, missing cells skipped |
| Schedule.BuildSchedule | crawler/fetch_schedule.py:62-66 | a document has exactly the keys `sbs` and `kbs`, each holding its fetcher's rows; there is none iff a request failed or an SBS row misses a cell |

## Left out

- I/O of every kind is a parameter. This covers the clock, HTTP requests, the R2 bucket, `storage.get`/`put`/`setAlarm`, the HTML parser and `json.dump` with the file write. Logging (`console.*`, `print`) is not modelled, and neither are response headers other than the ETag (`Cache-Control`, `Content-Type`, CORS).
- `list` pagination in `handlePlaylist` (radio-timeshift-shift.js:42-47): `Bucket.list` returns all objects under the prefix at once.
- Upload times. They are whole milliseconds (`Segment.time`), so the ISO round trip of radio-timeshift-shift.js:49, :59 is the identity.
- Timeshift.SortByTime: the in-place `Array.prototype.sort` is modelled on a sequence, so the model says nothing about the sort's order of comparisons.
- Numbers. `parseAgo`'s product, INTERVAL and alarm times are unbounded integers or reals, not IEEE doubles. Rounding, `Infinity` and `-0` are not modelled. NaN is `None`.
- `Number(...)` of a string is a parameter (`toNumber`).
- `toLowerCase` is applied to ASCII letters only. No other character lower-cases to s, m, h or d.
- The constructor's asynchronous restore of SEEN (timeshift-dvr.js:51) races with the first alarm. The model starts with an empty window: `Dvr.MyDurableObject.constructor` does not read `storage.savedSeen`.
- `Promise.all` over the downloads (timeshift-dvr.js:140-149) is modelled as running them one after the other in queue order. Interleavings of their completions, and so other orders of insertion into `seen`, are not modelled.
- A URL that fails to resolve in step 5 throws on the spot. Downloads already queued before that line would still run in the background; the model drops them (`Crashed`).
- The `delay(1000)` between download attempts is not modelled.
- The runtime's delivery of alarms, its retry of an alarm whose handler throws and its removal of an alarm once it fired are not modelled. `Storage.alarm` is the time last passed to `setAlarm`; after a stopped or crashed alarm it still holds the time of the alarm that just ran.
- The body of the `kbs`/`sbs` API answer is not parsed. `Network.lookup` stands for `JSON.parse` and the optional-chain field access. A lookup that yields `undefined` is `None`, which the model treats as a failed fetch of the playlist.
- `new URL(rel, base).href` is the parameter `Network.resolve`.
- `/setup` bodies, `/init` query strings and the durable-object stub are given as values. `idFromName` naming is the instance name in the `Call`.
- `strftime("%Y")` for years below 1000 depends on the platform. The model always writes four zero-padded digits, and covers years 1 to 9999.
- `BeautifulSoup` parsing, the CSS selectors and `get_text(strip=True)` are the `Web` parameter. It yields each table row's two cell texts, or `None` when a selector finds no cell.
- Schedule.BuildSchedule takes MONDAY's formatted date (`Schedule.QueryDate`) rather than `TODAY`. `Schedule.UrlsAskForMonday` relates the two.
- A request failure in `requests.get` is any exception, modelled as `None`. Timeouts and headers are not modelled.
