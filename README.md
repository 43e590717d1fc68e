# kadium, modelled in Dafny

kadium is a desktop YouTube subscription reader. The user lists channels in
the settings. A background fetcher polls each channel's uploads playlist at
that channel's refresh rate and stores new videos in a SQLite table. The
front end then pages through that table and archives or unarchives videos.

This project models the sequential decision logic of that program:

- how channels are grouped into polling intervals (`Grouping`, and
  `new_intervals_map` in `Background` and `FetcherRuntime`);
- the pipeline of one channel check: empty playlist, already-stored ids,
  start time, live streams that have not started, record building and
  insertion (`Background`);
- the SQL text and bindings that the store builds, and the stored-row
  effects of insert and archive (`Db`);
- the YouTube API's error envelope and the two id lookups (`Api`);
- the settings helpers (`Settings`, `Utf8`);
- the command layer (`Data`): URL classification and dispatch, the tag
  list, the bounded undo history and adding a channel.

The network, the database engine, `Url::parse`, chrono's RFC 3339 parser,
the ISO 8601 duration parser, the settings file and the clock do not appear
in the model. Their results are parameters: `Api.Remote`,
`Background.Parsers`, `Data.Url` with a `parse` function, `Data.Scrape`,
`saveOutcome` and `time`.

Modules:

| file | module | models |
|---|---|---|
| wrappers.dfy | Wrappers | `Option`, `Result` |
| strings.dfy | Strings | string helpers: join, split, `?` counting, decimal text, Rust's byte-wise string order |
| utf8.dfy | Utf8 | strict UTF-8 decoding (`String::from_utf8`) |
| settings.dfy | Settings | src-tauri/src/settings.rs |
| api.dfy | Api | src-tauri/src/api.rs |
| grouping.dfy | Grouping | the grouping by refresh rate shared by both interval maps |
| background.dfy | Background | src-tauri/src/background.rs |
| fetcher_runtime.dfy | FetcherRuntime | src-tauri/src/fetcher_runtime.rs |
| db.dfy | Db | src-tauri/src/db.rs |
| data.dfy | Data | src-tauri/src/data.rs |

Code that works by changing state keeps that form here:

- The video table is the class `Db.VideoStore`, whose field `rows` maps ids
  to rows.
- The loops of `new_intervals_map`, `check_channel`, `get_ids`, `get_videos`,
  `tags` and `add_channel` are methods with invariants.
- `UndoHistory` and the application state `AppData` are classes.

Each such method is proved equal to a specification function, and the
properties are proved about those functions as lemmas.

Where the code and its description differ, the model follows the code:

- A stored video's publish time is `snippet.publishedAt`
  (background.rs:243). It is not the live stream's `actualStartTime`.
- `spawn` in background.rs passes the settings' raw `api_key` to the
  fetcher (background.rs:55), not `api_key_or_default`. With an empty key
  the background requests therefore go out without a key.
- api.rs declares `videoPublishedAt` and `contentDetails` optional
  (api.rs:119, api.rs:189-190). background.rs reads them as always present.
  The model reads a missing value as "skip this item". The comment at
  api.rs:189 supports that reading. A video without `contentDetails` is
  skipped with the live-stream test (`Background.Kept`), before its publish
  time is parsed; a skip where the duration is read (background.rs:244,
  after the parse at background.rs:243) would instead make such a video
  with an unreadable publish time an error.
- background.rs reads a channel's `refresh_rate`, which settings.rs names
  `refresh_rate_ms`. The model treats them as one field, `refreshRateMs`.
- fetcher_runtime.rs declares `from_time` as `u64`, while the settings hold
  an `i64`. The model copies the value unchanged as an `int`.

## Model

| member | source | states |
|---|---|---|
| Settings.DefaultKey | src-tauri/src/settings.rs:8-14 | the built-in key is the 39 fixed bytes read as characters, so it is never empty |
| Utf8.AsciiDecodes | src-tauri/src/settings.rs:8-14 | strict UTF-8 decoding of all-ASCII bytes succeeds with one character per byte, so the `unwrap` in `default_key` cannot fail |
| Utf8.StrayContinuationRejected | src-tauri/src/settings.rs:13 | the decoder is strict: a leading continuation byte is rejected |
| Settings.DefaultSettings | src-tauri/src/settings.rs:21-30 | default settings: empty key, `max_concurrent_requests` 5, no channels, background checks on |
| Settings.Wrap | src-tauri/src/settings.rs:96-98 | unwrapping a wrapped value gives the same settings back |
| Settings.ApiKeyOrDefault | src-tauri/src/settings.rs:99-105 | the built-in key exactly when the key is empty, the stored key otherwise; never empty |
| Settings.SetApiKey | src-tauri/src/settings.rs:106-108 | only the key changes |
| Settings.SetKeyThenUse | src-tauri/src/settings.rs:99-108 | after setting a non-empty key, that key is used; after setting an empty one, the built-in key is used |
| Settings.DefaultUsesBuiltInKey | src-tauri/src/settings.rs:21-30 | the default settings use the built-in key |
| Api.YtRequest | src-tauri/src/api.rs:4-32 | a transport error, a non-JSON body, an `error` object (whatever type is expected) and a shape mismatch each give their own error; otherwise the decoded value |
| Api.EnvelopeMessage | src-tauri/src/api.rs:16-23 | with neither an integer code nor a string message the text is a single space; with only the code it is the code's decimal text and a space; with only the message it is a space and the message |
| Api.EnvelopeMessageReadsBack | src-tauri/src/api.rs:18-22 | the rendering loses nothing: the text before the first space reads back as the code (none when empty), and the text after that space is the message, spaces included |
| Api.EnvelopeCodeOnly | src-tauri/src/api.rs:18-22 | an envelope with code 403 and no message renders as "403 " |
| Api.EnvelopeMessageOpening | src-tauri/src/api.rs:16-31 | an envelope message starts with a digit, a minus sign or a space, so it cannot look like the "API …" or "Unexpected API response" errors |
| Api.EnvelopeIgnoresExpectedType | src-tauri/src/api.rs:16-25 | when the body has an `error` key, every expected response type gets the same error |
| Api.ChannelIdFromVideoId | src-tauri/src/api.rs:34-44 | the first video's `channelId`; "No video returned" with no items; a request failure is prefixed "Failed to get video: " |
| Api.ChannelIdFromUsername | src-tauri/src/api.rs:46-61 | succeeds exactly when one channel is returned, giving its id; two or more and zero items are distinct errors |
| Grouping.RateFilter | src-tauri/src/background.rs:90-105 | a channel is in the group of a rate exactly when it has that refresh rate |
| Grouping.RateFilterPicks | src-tauri/src/background.rs:92-103 | a group is its rate's channels taken in increasing input position: order kept, none skipped |
| Grouping.GroupsPartition | src-tauri/src/background.rs:90-105 | the groups of all rates together hold each channel exactly as often as the input (equal multisets) |
| Grouping.ExactlyOneGroup | src-tauri/src/background.rs:97 | a channel lands in the group of its own rate and in no other |
| Background.NewIntervalsMap | src-tauri/src/background.rs:90-105 | the keys are exactly the distinct refresh rates; each entry's `ms` is its key and holds that rate's channels in settings order |
| Background.ToIntervalInfoVector | src-tauri/src/background.rs:87-89 | one value per key, keys without repeats, each the map's entry for its key, in the map's iteration order |
| Background.Spawn | src-tauri/src/background.rs:50-84 | nothing is started exactly when there are no channels; otherwise the raw key and one interval per distinct rate |
| Background.SpawnCoversChannels | src-tauri/src/background.rs:55-59 | every channel is polled by exactly one interval, the one of its rate |
| Background.ParseDatetime | src-tauri/src/background.rs:267-272 | the parser's value, or its error prefixed "Unexpected video publish date: " |
| Background.ClampI64 | src-tauri/src/background.rs:285 | the result lies in the i64 range, is saturated at either end, and is unchanged inside the range |
| Background.ParseAbsoluteDuration | src-tauri/src/background.rs:276-294 | the parse error, or "Cannot parse duration with year or month" when either is non-zero; otherwise 1000·(s + 60·m + 3600·h + 86400·d) clamped to i64 |
| Background.DurationExample | src-tauri/src/background.rs:280-287 | PT1H2M3S gives 3723000 ms |
| Background.DurationWithinRange | src-tauri/src/background.rs:280-287 | a duration of fewer than 106751991167 days, with hours, minutes and seconds in their usual ranges, is not clamped |
| Background.NewIds | src-tauri/src/background.rs:201-216 | the new-id loop never gives more ids than the playlist has items |
| Background.NewIdsFilters | src-tauri/src/background.rs:201-216 | the loop fails exactly when an unstored dated item's publish time cannot be parsed; otherwise it gives the reference list of fresh ids in playlist order |
| Background.FreshIdsAreNew | src-tauri/src/background.rs:203-216 | no surviving id is already stored; an id survives exactly when its item is unstored, dated and not older than the start time (equal is kept) |
| Background.NoFreshWhenStored | src-tauri/src/background.rs:203-207 | a playlist whose ids are all stored gives no new ids |
| Background.RecordOf | src-tauri/src/background.rs:245-257 | a record has the video's id, title, description and channel, the given publish time and duration, `unread` true, `archived` false, and thumbnail flags equal to the presence of `standard` and `maxres` |
| Background.VideosToAdd | src-tauri/src/background.rs:235-258 | the record loop never gives more records than videos |
| Background.VideosToAddFilters | src-tauri/src/background.rs:235-258 | the loop fails exactly when a kept video's publish time or duration cannot be parsed; otherwise it gives the records of the kept videos |
| Background.RecordsFromKept | src-tauri/src/background.rs:236-257 | every record comes from a kept video (not a live stream that has not started), with its id, title, description, parsed publish time, parsed duration and thumbnail flags, unread and not archived |
| Background.InsertAll | src-tauri/src/background.rs:261-263 | existing rows are left alone; on success the stored ids are the old ones plus the records' |
| Background.InsertAllOk | src-tauri/src/background.rs:261-263 | all inserts succeed exactly when the records' ids are pairwise distinct and none is stored yet |
| Background.InsertAllStores | src-tauri/src/background.rs:261-263 | after a successful insert loop each record is stored, with the table's defaults for its flags |
| Background.CheckChannelSpec | src-tauri/src/background.rs:180-265 | whatever the outcome, no row that was stored changes; `Ok(false)` leaves the table as it was |
| Background.CheckTrueIffInserted | src-tauri/src/background.rs:260-264 | `Ok(false)` leaves the table as it was; `Ok(true)` means new rows were stored |
| Background.EmptyPlaylistStops | src-tauri/src/background.rs:195-197 | an empty playlist gives `Ok(false)` and no change, whatever the videos request would answer |
| Background.CheckIdempotent | src-tauri/src/background.rs:199-220 | checking a playlist whose videos are all stored again gives `Ok(false)` and no change |
| Background.NewIdsExhausted | src-tauri/src/background.rs:201-216 | once every id the loop returned is stored (and nothing stored was removed), the same playlist gives no new ids |
| Background.CheckRerunChangesNothing | src-tauri/src/background.rs:180-265 | after a check that ended `Ok` and stored every id it asked for, a second check with the same API answers gives `Ok(false)` and changes nothing, whatever older, undated or left-out items the playlist still lists |
| Background.CheckChannel | src-tauri/src/background.rs:180-265 | the check's result and new table equal the specification of the pipeline |
| Background.CollectNewIds | src-tauri/src/background.rs:199-216 | the loop over the playlist computes the new-id specification, given the stored ids among the playlist's |
| Background.CollectVideos | src-tauri/src/background.rs:235-258 | the loop over the returned videos computes the record specification |
| Background.InsertVideos | src-tauri/src/background.rs:260-263 | the insert loop stops at the first failed insert and leaves the table as the specification says |
| FetcherRuntime.IntervalsMap | src-tauri/src/fetcher_runtime.rs:58-72 | the keys are exactly the distinct rates; each entry's `interval` is its key and holds that rate's channels in settings order |
| FetcherRuntime.EntryCopiesChannels | src-tauri/src/fetcher_runtime.rs:61-69 | each entry copies its channels' playlist id and start time unchanged, in order |
| FetcherRuntime.Spawn | src-tauri/src/fetcher_runtime.rs:19-56 | no thread exactly when there are no channels |
| Db.InsertRow | src-tauri/src/db.rs:107-129 | an insert succeeds exactly when the id is new; then only that row is added, with the table's defaults; a duplicate is an "Error saving video: " error and changes nothing |
| Db.VideoStore.InsertVideo | src-tauri/src/db.rs:107-129 | the store changes as the insert specification says |
| Db.SetArchivedRows | src-tauri/src/db.rs:211-223 | succeeds exactly when the id is stored; then only that row's `archived` flag changes; otherwise "0 rows affected" and no change |
| Db.VideoStore.SetArchived | src-tauri/src/db.rs:211-223 | the store changes as the update specification says |
| Db.VideoStore.Archive | src-tauri/src/db.rs:227-233 | sets the flag; fails with "Error archiving video: 0 rows affected" exactly when the id is not stored |
| Db.VideoStore.Unarchive | src-tauri/src/db.rs:237-243 | clears the flag; fails with "Error unarchiving video: 0 rows affected" exactly when the id is not stored |
| Db.ArchiveUnarchive | src-tauri/src/db.rs:211-243 | archiving then unarchiving an unarchived video restores the table |
| Db.VideoIds | src-tauri/src/db.rs:53-55 | the bound ids are the playlist's video ids in playlist order |
| Db.PlaceholdersCount | src-tauri/src/db.rs:45-49 | the n placeholders hold n question marks |
| Db.PlaceholderListCount | src-tauri/src/db.rs:45-51 | the joined placeholder list holds exactly n `?` |
| Db.IdsQuery | src-tauri/src/db.rs:44-55 | for n ≥ 1 ids the query is `SELECT id FROM videos WHERE id IN (?,…,?);` with exactly n `?`, binding the ids in order |
| Db.VideoStore.GetIds | src-tauri/src/db.rs:40-68 | the ids returned are exactly the queried ids that are stored, without repeats |
| Db.TagChannelIds | src-tauri/src/db.rs:179-186 | an id is bound exactly when its channel has the tag |
| Db.TaggedChannels | src-tauri/src/db.rs:179-187 | the tag loop binds the tagged channels' ids and pushes one `?` for each |
| Db.Clauses | src-tauri/src/db.rs:155-189 | the select, where and binding lists built step by step equal their specifications |
| Db.AssembleQuery | src-tauri/src/db.rs:191-198 | the assembled text equals the query specification |
| Db.GetVideosQuery | src-tauri/src/db.rs:149-203 | the query text and bindings of `get_videos`, with as many `?` in the text as there are bindings |
| Db.PlaceholdersMatchBindings | src-tauri/src/db.rs:155-202 | for all options, cursors and channels: the `?` count of the query equals the number of bindings |
| Db.SelectsCount | src-tauri/src/db.rs:158-159 | the select list holds one `?` exactly when a channel filter is given |
| Db.AfterWheresCount | src-tauri/src/db.rs:171-176 | a cursor adds two `?` |
| Db.TagWheresCount | src-tauri/src/db.rs:179-188 | a tag adds one `?` per tagged channel |
| Db.WhereIffRestricted | src-tauri/src/db.rs:193-196 | the query has a WHERE part exactly when some filter is active |
| Db.ArchivedCondition | src-tauri/src/db.rs:163-169 | with `show_all` no archived condition; otherwise exactly one of `archived = 1` and `archived = 0`, as `show_archived` says |
| Db.BindingOrder | src-tauri/src/db.rs:171-176 | the cursor binds its publish time before its id |
| Db.QueryEnding | src-tauri/src/db.rs:197-198 | the query ends with `ORDER BY publishTimeMs DESC, id DESC LIMIT <limit>` |
| Strings.Less | src-tauri/src/data.rs:123 | the order `sort` uses on strings: lexicographic over code points (the same order as over UTF-8 bytes), a proper prefix first |
| Strings.InsertSorted | src-tauri/src/data.rs:122-123 | inserting a new element into a strictly sorted list keeps it strictly sorted, adds exactly that element and grows the list by one |
| Strings.IntToStringRoundTrip | src-tauri/src/db.rs:173 | the decimal text of an integer reads back as that integer |
| Data.PathSegments | src-tauri/src/data.rs:168 | a path with segments has at least one |
| Data.FirstValue | src-tauri/src/data.rs:150-154 | the value of the first query pair with the key, and a value exactly when some pair has the key |
| Data.UrlParseVideoId | src-tauri/src/data.rs:146-160 | a watch page on a youtube.com host gives its first `v` value; otherwise a youtu.be host gives its first path segment, and nothing when the path has no segments; anything else gives nothing |
| Data.UrlParseChannelId | src-tauri/src/data.rs:162-173 | a channel id exactly when the host ends in youtube.com, the first segment is `channel` and a second one exists; the id is that second segment |
| Data.UrlParseUsername | src-tauri/src/data.rs:175-186 | a username exactly when the host ends in youtube.com, the first segment is `user` and a second one exists; the name is that second segment |
| Data.SecondSegmentAfter | src-tauri/src/data.rs:162-186 | a channel or user id exactly when the host ends in youtube.com, the first segment is the keyword and a second one exists; the result is that second segment |
| Data.AtMostOneKind | src-tauri/src/data.rs:146-186 | a URL is at most one of a video URL, a channel URL and a username URL |
| Data.GetIdFromUrl | src-tauri/src/data.rs:215-230 | video URL first, then channel URL, then username URL, then the page, with the page's error prefixed by the advice text |
| Data.ChannelUrlIsOffline | src-tauri/src/data.rs:218-219 | a channel URL resolves to its own id, whatever the network and the page say |
| Data.ScrapeOnlyAsLastResort | src-tauri/src/data.rs:215-229 | when the text is one of the three URL kinds, the page is not consulted |
| Data.AllTags | src-tauri/src/data.rs:116-121 | the set holds exactly the tags of all channels |
| Data.AddTags | src-tauri/src/data.rs:118-120 | the inner loop adds exactly the channel's tags |
| Data.SortedList | src-tauri/src/data.rs:122-123 | collecting and sorting gives a strictly sorted list of exactly the set's elements |
| Data.Tags | src-tauri/src/data.rs:114-125 | strictly sorted, and a tag is in the list exactly when some channel has it |
| Data.SortedHasNoDuplicates | src-tauri/src/data.rs:122-124 | the list has no duplicates |
| Data.Pushed | src-tauri/src/data.rs:316-327 | a push puts its entry last and keeps at most 100 entries; below 100 it only appends, and at 100 it drops exactly the oldest entry |
| Data.Latest | src-tauri/src/data.rs:324-326 | the most recent n entries are at most n |
| Data.PushAllKeepsLatest | src-tauri/src/data.rs:323-326 | after any number of pushes the log is the 100 most recent entries, oldest first |
| Data.UndoHistory.constructor | src-tauri/src/data.rs:313-315 | a new history is empty |
| Data.UndoHistory.Push | src-tauri/src/data.rs:316-327 | the log after a push is as specified, and stays within 100 entries |
| Data.NewChannel | src-tauri/src/data.rs:269-277 | the new settings entry takes its id, name (the snippet title), icon (the medium thumbnail's URL) and uploads playlist from the API's answer, and its start time, rate and tags from the options |
| Data.AddFetched | src-tauri/src/data.rs:261-280 | a failed request gives "Failed to get channel: " and its error, an empty answer "No channel found", both with no change; otherwise the first returned channel is appended even when the save then fails with the save's error; success needs a successful save and records `AddChannel` of the channel's id |
| Data.AddResolved | src-tauri/src/data.rs:251-280 | success grows the channel list by exactly one |
| Data.AddChannelSpec | src-tauri/src/data.rs:245-281 | a history entry is recorded exactly on success, and success grows the list by one |
| Data.AddExistingRefused | src-tauri/src/data.rs:251-255 | a resolved id that is already listed gives "Channel already exists" and changes nothing |
| Data.AddAppendsLast | src-tauri/src/data.rs:269-279 | on success the old list is a prefix of the new one, the new channel is last and is `NewChannel` of the first item of the channels answer, with the options' start time, rate and tags, no other setting changes, and the history records it |
| Data.AddKeepsIdsUnique | src-tauri/src/data.rs:251-277 | channel ids stay unique, provided the API returns the channel that was asked for |
| Data.FetchedKeepsIdsUnique | src-tauri/src/data.rs:261-277 | appending a channel whose id is not listed keeps the ids unique |
| Data.AppData.AddChannel | src-tauri/src/data.rs:245-281 | the outcome, the new settings and the history equal the specification of `add_channel` |
| Data.AppData.AddResolvedChannel | src-tauri/src/data.rs:251-268 | the duplicate loop and the channels request after the URL resolved; outcome, settings and history equal the specification of that stage |
| Data.AppData.AddFetchedChannel | src-tauri/src/data.rs:261-280 | the steps after the channels request: append, save, then record the history entry |

## Left out

- Concurrency is not modelled: `FetcherHandle`, `start_intervals`, `run_interval`, the broadcast stop signal, tick timing, the runtime threads, the handle swapping in `Data::restart_background`/`check_now`, and the `Arc<Mutex<Data>>` state. `Background.Spawn` returns the key and the intervals the thread would start with.
- The HTTP exchange and serde's typed decoding are the parameter `Api.Remote`. The page scraping of `get_channel_id_from_url` is the parameter `Data.Scrape`.
- `Url::parse`, chrono's RFC 3339 parser and the ISO 8601 duration parser are parameters. Their results are a `Data.Url`, milliseconds and an `IsoDuration`.
- Background.ParseAbsoluteDuration: computes exactly on integer components, whereas the source sums `f64` values and rounds. For durations beyond 2^53 ms the two can differ.
- SQL is not executed: `get_videos` is modelled as the text and bindings it sends. The rows it returns, including the keyset pagination order, are not modelled.
- Db.VideoStore.GetIds: never fails. The two database-error paths of `get_ids` are not modelled, nor is the order in which SQLite returns rows.
- `get_ids` underflows for an empty playlist. `Db.IdsQuery` and `Db.VideoStore.GetIds` require at least one item, and `check_channel` only calls it with one.
- Db.InsertRow: an insert fails only for a duplicate id. Other database errors (disk, locking) are not modelled.
- Db.InsertRow: the duplicate-id error text is the constant `Db.UniqueViolation`, which stands in for whatever text sqlx gives the constraint error.
- Db.SetArchivedRows: fails only when the id is not stored. The branch where executing the UPDATE fails (db.rs:215-218) is not modelled.
- Db.VideoStore.Archive: fails only when the id is not stored, as `Db.SetArchivedRows` does; a failing UPDATE is not modelled.
- Db.VideoStore.Unarchive: fails only when the id is not stored, as `Db.SetArchivedRows` does; a failing UPDATE is not modelled.
- Pool setup, migrations and row decoding in db.rs are not modelled.
- Loading and saving the settings file are not modelled. `add_channel`'s `save_settings` result, fetcher restart included, is the parameter `saveOutcome`. As in the source, a failed save keeps the appended channel in memory and records no history entry.
- The clock in `UndoHistory::push` is the parameter `time`. The panic when the seconds no longer fit in `u32` is not modelled.
- The commands `check_now`, `set_channels`, `set_general_settings`, `get_settings` and `get_history` are not modelled. Their only logic is a settings assignment and a history push, which `Data.UndoHistory.Push` covers.
- Data.AddKeepsIdsUnique: holds only when the API's answer has the requested id. The source checks for duplicates against the resolved id but stores the id from the answer.
- The `todo!()` error path of `run_interval` and the `println!` logging are not modelled.
- user_data.rs, migration.rs, main.rs, menu.rs, lib.rs and the front-end files are not part of this model.
