/** The background fetcher (src-tauri/src/background.rs) without its
    threads and timers: the interval map built from the settings, the
    decision to start at all, and one check of one channel, which reads its
    uploads playlist, picks the new videos and stores them. */
module Background {
  import opened Wrappers
  import opened Strings
  import Api
  import Db
  import Settings
  import Grouping

  /** The part of a channel a check needs. */
  datatype ChannelInfo = ChannelInfo(name: string, uploadsPlaylistId: string, fromTime: int)

  /** The channels checked on one timer. */
  datatype IntervalInfo = IntervalInfo(ms: nat, channels: seq<ChannelInfo>)

  function Info(c: Settings.Channel): ChannelInfo {
    ChannelInfo(c.name, c.uploadsPlaylistId, c.fromTime)
  }

  /** What the interval of `rate` holds: its channels, in settings order. */
  function GroupInfo(channels: seq<Settings.Channel>, rate: nat): IntervalInfo {
    IntervalInfo(rate, Grouping.Project(Grouping.RateFilter(channels, rate), Info))
  }

  /** `new_intervals_map`: one entry per distinct refresh rate, holding the
      channels of that rate in settings order. */
  method NewIntervalsMap(channels: seq<Settings.Channel>) returns (m: map<nat, IntervalInfo>)
    ensures m.Keys == Grouping.Rates(channels)
    ensures forall k :: k in m ==> m[k] == GroupInfo(channels, k)
  {
    m := map[];
    for i := 0 to |channels|
      invariant m.Keys == Grouping.Rates(channels[..i])
      invariant forall k :: k in m ==> m[k] == GroupInfo(channels[..i], k)
    {
      var c := channels[i];
      assert channels[..i + 1] == channels[..i] + [c];
      Grouping.RatesAppend(channels[..i], c);
      forall k ensures GroupInfo(channels[..i + 1], k) == AddTo(GroupInfo(channels[..i], k), c) {
        GroupInfoAppend(channels[..i], c, k);
      }
      if c.refreshRateMs !in m {
        GroupInfoAbsent(channels[..i], c.refreshRateMs);
      }
      var entry := if c.refreshRateMs in m then m[c.refreshRateMs] else IntervalInfo(c.refreshRateMs, []);
      m := m[c.refreshRateMs := entry.(channels := entry.channels + [Info(c)])];
    }
    assert channels[..|channels|] == channels;
  }

  /** The entry of `info`'s rate after channel `c` was visited. */
  function AddTo(info: IntervalInfo, c: Settings.Channel): IntervalInfo {
    if c.refreshRateMs == info.ms then info.(channels := info.channels + [Info(c)]) else info
  }

  lemma GroupInfoAppend(cs: seq<Settings.Channel>, c: Settings.Channel, rate: nat)
    ensures GroupInfo(cs + [c], rate) == AddTo(GroupInfo(cs, rate), c)
  {
    Grouping.RateFilterAppend(cs, c, rate);
    Grouping.ProjectAppend(Grouping.RateFilter(cs, rate), c, Info);
  }

  lemma GroupInfoAbsent(cs: seq<Settings.Channel>, rate: nat)
    requires rate !in Grouping.Rates(cs)
    ensures GroupInfo(cs, rate) == IntervalInfo(rate, [])
  {
    Grouping.RateFilterNone(cs, rate);
  }

  /** `to_interval_info_vector`: the entries of the map in the map's own
      iteration order, which the model leaves open (`keys` records it). */
  method ToIntervalInfoVector(m: map<nat, IntervalInfo>) returns (infos: seq<IntervalInfo>, ghost keys: seq<nat>)
    ensures |infos| == |keys| == |m.Keys|
    ensures Grouping.Distinct(keys)
    ensures forall k :: k in keys <==> k in m
    ensures forall i :: 0 <= i < |keys| ==> infos[i] == m[keys[i]]
  {
    infos := [];
    keys := [];
    var rest := m.Keys;
    while rest != {}
      invariant rest <= m.Keys
      invariant forall k :: k in keys <==> k in m && k !in rest
      invariant Grouping.Distinct(keys)
      invariant |infos| == |keys| && |keys| + |rest| == |m.Keys|
      invariant forall i :: 0 <= i < |keys| ==> infos[i] == m[keys[i]]
      decreases |rest|
    {
      var k :| k in rest;
      infos := infos + [m[k]];
      keys := keys + [k];
      rest := rest - {k};
    }
  }

  /** What `spawn` starts: the intervals and the key their requests use. */
  datatype Started = Started(apiKey: string, intervals: seq<IntervalInfo>)

  /** `spawn`: nothing starts without channels; otherwise one interval per
      distinct refresh rate. The key is the stored `api_key` as it is, not
      `api_key_or_default`. */
  method Spawn(settings: Settings.Settings) returns (r: Option<Started>, ghost keys: seq<nat>)
    ensures r.None? <==> settings.channels == []
    ensures r.Some? ==> r.value.apiKey == settings.apiKey
    ensures r.Some? ==> |r.value.intervals| == |keys| && Grouping.Distinct(keys)
    ensures r.Some? ==> forall k :: k in keys <==> k in Grouping.Rates(settings.channels)
    ensures r.Some? ==> forall i :: 0 <= i < |keys| ==> r.value.intervals[i] == GroupInfo(settings.channels, keys[i])
  {
    keys := [];
    if |settings.channels| == 0 {
      return None, keys;
    }
    var intervalMap := NewIntervalsMap(settings.channels);
    var intervalInfos;
    intervalInfos, keys := ToIntervalInfoVector(intervalMap);
    r := Some(Started(settings.apiKey, intervalInfos));
  }

  /** Every channel of the settings is checked by exactly one started
      interval: the one of its rate. */
  lemma SpawnCoversChannels(settings: Settings.Settings, keys: seq<nat>, c: Settings.Channel)
    requires forall k :: k in keys <==> k in Grouping.Rates(settings.channels)
    requires Grouping.Distinct(keys)
    requires c in settings.channels
    ensures exists i :: 0 <= i < |keys| && keys[i] == c.refreshRateMs
    ensures forall i, j :: (0 <= i < |keys| && 0 <= j < |keys| && keys[i] == c.refreshRateMs
              && keys[j] == c.refreshRateMs) ==> i == j
    ensures Info(c) in GroupInfo(settings.channels, c.refreshRateMs).channels
  {
    assert c.refreshRateMs in Grouping.Rates(settings.channels);
    var g := Grouping.RateFilter(settings.channels, c.refreshRateMs);
    var i :| 0 <= i < |g| && g[i] == c;
    assert Grouping.Project(g, Info)[i] == Info(c);
  }

  // ---------------------------------------------------------------------
  // Parsing the API's timestamps and durations.

  /** The fields of an ISO 8601 duration `PnYnMnDTnHnMnS` (section 4.4.3.2
      of ISO 8601:2004), as whole numbers. */
  datatype IsoDuration = IsoDuration(year: int, month: int, day: int, hour: int, minute: int, second: int)

  /** chrono's RFC 3339 parser (section 5.6 of RFC 3339), giving
      `timestamp_millis`, and the `iso8601_duration` parser; each error is
      the library's message. */
  datatype Parsers = Parsers(rfc3339: string -> Result<int>, iso8601: string -> Result<IsoDuration>)

  /** `parse_datetime`: the timestamp in milliseconds. */
  function ParseDatetime(p: Parsers, value: string): (r: Result<int>)
    ensures r.Ok? <==> p.rfc3339(value).Ok?
    ensures r.Ok? ==> r.value == p.rfc3339(value).value
    ensures r.Err? ==> r.error == "Unexpected video publish date: " + p.rfc3339(value).error
  {
    match p.rfc3339(value)
    case Ok(t) => Ok(t)
    case Err(e) => Err("Unexpected video publish date: " + e)
  }

  /** The cast into `i64` saturates at both ends. */
  function ClampI64(x: int): (r: int)
    ensures Api.I64Min <= r <= Api.I64Max
    ensures Api.I64Min <= x <= Api.I64Max ==> r == x
    ensures x < Api.I64Min ==> r == Api.I64Min
    ensures x > Api.I64Max ==> r == Api.I64Max
  {
    if x < Api.I64Min then Api.I64Min else if x > Api.I64Max then Api.I64Max else x
  }

  function DurationMs(d: IsoDuration): int {
    1000 * (d.second + d.minute * 60 + d.hour * 60 * 60 + d.day * 60 * 60 * 24)
  }

  /** `parse_absolute_duration`: milliseconds of a duration without years
      or months, saturated to the `i64` range. */
  function ParseAbsoluteDuration(p: Parsers, value: string): (r: Result<int>)
    ensures p.iso8601(value).Err? ==> r == Err("Unexpected video duration: " + p.iso8601(value).error)
    ensures (p.iso8601(value).Ok? && (p.iso8601(value).value.year != 0 || p.iso8601(value).value.month != 0))
              ==> r == Err("Cannot parse duration with year or month: " + value)
    ensures r.Ok? <==> p.iso8601(value).Ok? && p.iso8601(value).value.year == 0 && p.iso8601(value).value.month == 0
    ensures r.Ok? ==> Api.I64Min <= r.value <= Api.I64Max
    ensures r.Ok? ==> r.value == ClampI64(DurationMs(p.iso8601(value).value))
  {
    match p.iso8601(value)
    case Ok(d) =>
      if d.month == 0 && d.year == 0 then Ok(ClampI64(DurationMs(d)))
      else Err("Cannot parse duration with year or month: " + value)
    case Err(e) => Err("Unexpected video duration: " + e)
  }

  /** One hour, two minutes and three seconds are 3 723 000 ms. */
  lemma DurationExample(p: Parsers)
    requires p.iso8601("PT1H2M3S") == Ok(IsoDuration(0, 0, 0, 1, 2, 3))
    ensures ParseAbsoluteDuration(p, "PT1H2M3S") == Ok(3723000)
  {
  }

  /** A duration counted in days stays exact up to the `i64` bound: with
      hours, minutes and seconds below a day, fewer than 106 751 991 167
      days keep the milliseconds below 2^63 - 1. */
  lemma DurationWithinRange(p: Parsers, value: string)
    requires p.iso8601(value).Ok?
    requires var d := p.iso8601(value).value;
      d.year == 0 && d.month == 0 && 0 <= d.second < 60 && 0 <= d.minute < 60 && 0 <= d.hour < 24
      && 0 <= d.day < 106751991167
    ensures ParseAbsoluteDuration(p, value) == Ok(DurationMs(p.iso8601(value).value))
  {
  }

  // ---------------------------------------------------------------------
  // One check of one channel.

  function PlaylistItemsUrl(playlistId: string): string {
    "https://www.googleapis.com/youtube/v3/playlistItems" + "?part=contentDetails" + "&maxResults=50"
    + "&playlistId=" + playlistId
  }

  function VideosUrl(ids: seq<string>): string {
    "https://www.googleapis.com/youtube/v3/videos" + "?part=contentDetails,liveStreamingDetails,snippet"
    + "&id=" + Join(ids, ",")
  }

  function ChannelError(name: string, e: string): string {
    "Error checking channel \"" + name + "\": " + e
  }

  /** The new-id loop over the playlist, from its first item up to `items`'
      end: skip stored ids and items without a publish time, fail on an
      unreadable publish time, skip those older than `fromTime`. */
  function NewIds(items: seq<Api.Playlist>, stored: set<string>, fromTime: int, p: Parsers): (r: Result<seq<string>>)
    ensures r.Ok? ==> |r.value| <= |items|
  {
    if items == [] then Ok([])
    else
      var n := |items| - 1;
      match NewIds(items[..n], stored, fromTime, p)
      case Err(e) => Err(e)
      case Ok(ids) =>
        var d := items[n].contentDetails;
        if d.videoId in stored then Ok(ids)
        else if d.videoPublishedAt.None? then Ok(ids)
        else
          match ParseDatetime(p, d.videoPublishedAt.value)
          case Err(e) => Err(e)
          case Ok(t) => if t < fromTime then Ok(ids) else Ok(ids + [d.videoId])
  }

  /** An item reaches the date parse: its video is not stored and it has a publish time. */
  predicate Dated(item: Api.Playlist, stored: set<string>) {
    item.contentDetails.videoId !in stored && item.contentDetails.videoPublishedAt.Some?
  }

  /** An item the check keeps. */
  predicate Fresh(item: Api.Playlist, stored: set<string>, fromTime: int, p: Parsers) {
    Dated(item, stored)
    && p.rfc3339(item.contentDetails.videoPublishedAt.value).Ok?
    && p.rfc3339(item.contentDetails.videoPublishedAt.value).value >= fromTime
  }

  /** Reference definition: the ids of the fresh items, in playlist order. */
  function FreshIds(items: seq<Api.Playlist>, stored: set<string>, fromTime: int, p: Parsers): seq<string> {
    if items == [] then []
    else
      var n := |items| - 1;
      FreshIds(items[..n], stored, fromTime, p)
      + (if Fresh(items[n], stored, fromTime, p) then [items[n].contentDetails.videoId] else [])
  }

  /** The loop fails exactly when some dated item's publish time cannot be
      read, and then with the first such item's message; otherwise it gives
      the fresh ids in playlist order. */
  lemma {:induction false} NewIdsFilters(items: seq<Api.Playlist>, stored: set<string>, fromTime: int, p: Parsers)
    ensures NewIds(items, stored, fromTime, p).Err? <==>
              exists i :: 0 <= i < |items| && Dated(items[i], stored)
                && p.rfc3339(items[i].contentDetails.videoPublishedAt.value).Err?
    ensures NewIds(items, stored, fromTime, p).Ok? ==> NewIds(items, stored, fromTime, p).value == FreshIds(items, stored, fromTime, p)
  {
    if items != [] {
      var n := |items| - 1;
      NewIdsFilters(items[..n], stored, fromTime, p);
      assert forall i :: 0 <= i < n ==> items[..n][i] == items[i];
    }
  }

  /** No stored id and nothing older than `fromTime` is ever requested;
      a publish time equal to `fromTime` is kept. */
  lemma {:induction false} FreshIdsAreNew(items: seq<Api.Playlist>, stored: set<string>, fromTime: int, p: Parsers)
    ensures forall id :: id in FreshIds(items, stored, fromTime, p) ==> id !in stored
    ensures forall id :: id in FreshIds(items, stored, fromTime, p) <==>
              exists i :: 0 <= i < |items| && Fresh(items[i], stored, fromTime, p) && items[i].contentDetails.videoId == id
  {
    if items != [] {
      var n := |items| - 1;
      FreshIdsAreNew(items[..n], stored, fromTime, p);
      assert forall i :: 0 <= i < n ==> items[..n][i] == items[i];
      assert items == items[..n] + [items[n]];
    }
  }

  /** A video the check stores: a started or no live stream, and content
      details to take the duration from. */
  predicate Kept(v: Api.Video) {
    (v.liveStreamingDetails.None? || v.liveStreamingDetails.value.actualStartTime.Some?)
    && v.contentDetails.Some?
  }

  /** The row built for a video; the database's defaults apply to the two
      flags at insertion as well. */
  function RecordOf(v: Api.Video, publishTimeMs: int, durationMs: int): (rec: Db.Video)
    ensures rec.id == v.id && rec.channelId == v.snippet.channelId && rec.channelName == v.snippet.channelTitle
    ensures rec.unread && !rec.archived
    ensures rec.thumbnailStandard == v.snippet.thumbnails.standard.Some?
    ensures rec.thumbnailMaxres == v.snippet.thumbnails.maxres.Some?
    ensures rec.title == v.snippet.title && rec.description == v.snippet.description
    ensures rec.publishTimeMs == publishTimeMs && rec.durationMs == durationMs
  {
    Db.Video(v.id, v.snippet.title, v.snippet.description, publishTimeMs, durationMs,
             v.snippet.thumbnails.standard.Some?, v.snippet.thumbnails.maxres.Some?,
             v.snippet.channelId, v.snippet.channelTitle, true, false)
  }

  /** The record loop over the videos response, up to `videos`' end. */
  function VideosToAdd(videos: seq<Api.Video>, p: Parsers): (r: Result<seq<Db.Video>>)
    ensures r.Ok? ==> |r.value| <= |videos|
  {
    if videos == [] then Ok([])
    else
      var n := |videos| - 1;
      var v := videos[n];
      match VideosToAdd(videos[..n], p)
      case Err(e) => Err(e)
      case Ok(recs) =>
        if !Kept(v) then Ok(recs)
        else
          match ParseDatetime(p, v.snippet.publishedAt)
          case Err(e) => Err(e)
          case Ok(t) =>
            match ParseAbsoluteDuration(p, v.contentDetails.value.duration)
            case Err(e) => Err(e)
            case Ok(ms) => Ok(recs + [RecordOf(v, t, ms)])
  }

  /** Whether a kept video's two fields parse. */
  predicate Readable(v: Api.Video, p: Parsers)
    requires Kept(v)
  {
    ParseDatetime(p, v.snippet.publishedAt).Ok? && ParseAbsoluteDuration(p, v.contentDetails.value.duration).Ok?
  }

  /** Reference definition: one record per kept video, in response order. */
  function KeptRecords(videos: seq<Api.Video>, p: Parsers): seq<Db.Video> {
    if videos == [] then []
    else
      var n := |videos| - 1;
      var v := videos[n];
      KeptRecords(videos[..n], p)
      + (if Kept(v) && Readable(v, p) then [RecordOf(v, ParseDatetime(p, v.snippet.publishedAt).value,
                                   ParseAbsoluteDuration(p, v.contentDetails.value.duration).value)] else [])
  }

  /** The record loop fails exactly when a kept video has an unreadable
      time or duration; otherwise it gives the kept videos' records. */
  lemma {:induction false} VideosToAddFilters(videos: seq<Api.Video>, p: Parsers)
    ensures VideosToAdd(videos, p).Err? <==> exists i :: 0 <= i < |videos| && Kept(videos[i]) && !Readable(videos[i], p)
    ensures VideosToAdd(videos, p).Ok? ==> VideosToAdd(videos, p).value == KeptRecords(videos, p)
  {
    if videos != [] {
      var n := |videos| - 1;
      VideosToAddFilters(videos[..n], p);
      assert forall i :: 0 <= i < n ==> videos[..n][i] == videos[i];
    }
  }

  /** Every record comes from a kept video (so never from a live stream
      that has not started) and carries the flags the database gives a new
      row. */
  lemma {:induction false} RecordsFromKept(videos: seq<Api.Video>, p: Parsers)
    requires VideosToAdd(videos, p).Ok?
    ensures forall rec :: rec in VideosToAdd(videos, p).value ==>
              rec.unread && !rec.archived
              && (exists i :: 0 <= i < |videos| && Kept(videos[i]) && Readable(videos[i], p)
                    && videos[i].id == rec.id
                    && rec.title == videos[i].snippet.title
                    && rec.description == videos[i].snippet.description
                    && rec.publishTimeMs == ParseDatetime(p, videos[i].snippet.publishedAt).value
                    && rec.durationMs == ParseAbsoluteDuration(p, videos[i].contentDetails.value.duration).value
                    && rec.thumbnailStandard == videos[i].snippet.thumbnails.standard.Some?
                    && rec.thumbnailMaxres == videos[i].snippet.thumbnails.maxres.Some?)
  {
    if videos != [] {
      var n := |videos| - 1;
      RecordsFromKept(videos[..n], p);
      assert forall i :: 0 <= i < n ==> videos[..n][i] == videos[i];
    }
  }

  /** The insert loop: it stops at the first failing insert, and what it
      stored before stays stored. */
  function InsertAll(rows: Db.Rows, recs: seq<Db.Video>): (r: (Result<()>, Db.Rows))
    ensures r.0.Ok? ==> r.1.Keys == rows.Keys + IdSet(recs)
    ensures forall id :: id in rows ==> id in r.1 && r.1[id] == rows[id]
    ensures r.1.Keys >= rows.Keys
  {
    if recs == [] then (Ok(()), rows)
    else
      var n := |recs| - 1;
      var prev := InsertAll(rows, recs[..n]);
      if prev.0.Err? then prev
      else
        IdSetAppend(recs);
        Db.InsertRow(prev.1, recs[n])
  }

  function IdSet(recs: seq<Db.Video>): set<string> {
    set i | 0 <= i < |recs| :: recs[i].id
  }

  lemma IdSetAppend(recs: seq<Db.Video>)
    requires recs != []
    ensures IdSet(recs) == IdSet(recs[..|recs| - 1]) + {recs[|recs| - 1].id}
  {
    var n := |recs| - 1;
    assert forall i :: 0 <= i < n ==> recs[..n][i] == recs[i];
    assert forall id :: id in IdSet(recs) ==> id in IdSet(recs[..n]) || id == recs[n].id;
  }

  ghost predicate DistinctIds(recs: seq<Db.Video>) {
    forall i, j :: 0 <= i < j < |recs| ==> recs[i].id != recs[j].id
  }

  /** All inserts succeed exactly when the records' ids are new and pairwise
      distinct; then each record is stored with the database's defaults. */
  lemma {:induction false} InsertAllOk(rows: Db.Rows, recs: seq<Db.Video>)
    ensures InsertAll(rows, recs).0.Ok? <==> DistinctIds(recs) && AllNew(rows, recs)
  {
    if recs != [] {
      var n := |recs| - 1;
      var front := recs[..n];
      InsertAllOk(rows, front);
      DistinctIdsAppend(recs);
      AllNewAppend(rows, recs);
    }
  }

  ghost predicate AllNew(rows: Db.Rows, recs: seq<Db.Video>) {
    forall i :: 0 <= i < |recs| ==> recs[i].id !in rows
  }

  lemma AllNewAppend(rows: Db.Rows, recs: seq<Db.Video>)
    requires recs != []
    ensures AllNew(rows, recs) <==> AllNew(rows, recs[..|recs| - 1]) && recs[|recs| - 1].id !in rows
  {
    var n := |recs| - 1;
    assert forall i :: 0 <= i < n ==> recs[..n][i] == recs[i];
  }

  /** After all inserts succeed, each record is stored with the database's
      defaults. */
  lemma {:induction false} InsertAllStores(rows: Db.Rows, recs: seq<Db.Video>)
    requires InsertAll(rows, recs).0.Ok?
    ensures forall i :: 0 <= i < |recs| ==>
              recs[i].id in InsertAll(rows, recs).1 && InsertAll(rows, recs).1[recs[i].id] == Db.StoredRow(recs[i])
  {
    if recs != [] {
      var n := |recs| - 1;
      var front := recs[..n];
      var prev := InsertAll(rows, front);
      assert prev.0.Ok?;
      InsertAllStores(rows, front);
      var after := InsertAll(rows, recs).1;
      assert after == Db.InsertRow(prev.1, recs[n]).1;
      forall i | 0 <= i < |recs| ensures recs[i].id in after && after[recs[i].id] == Db.StoredRow(recs[i]) {
        if i < n {
          assert front[i] == recs[i];
        }
      }
    }
  }

  lemma DistinctIdsAppend(recs: seq<Db.Video>)
    requires recs != []
    ensures var n := |recs| - 1;
      DistinctIds(recs) <==> DistinctIds(recs[..n]) && recs[n].id !in IdSet(recs[..n])
  {
    var n := |recs| - 1;
    assert forall i :: 0 <= i < n ==> recs[..n][i] == recs[i];
  }

  /** `check_channel` on a given table: the outcome and the table after it.
      Whatever the outcome, no row that was stored changes, and `Ok(false)`
      leaves the table as it was. */
  function CheckChannelSpec(rows: Db.Rows, key: string, ch: ChannelInfo, remote: Api.Remote, p: Parsers)
    : (r: (Result<bool>, Db.Rows))
    ensures forall id :: id in rows ==> id in r.1 && r.1[id] == rows[id]
    ensures r.0 == Ok(false) ==> r.1 == rows
  {
    var uploads := Api.YtRequest(PlaylistItemsUrl(ch.uploadsPlaylistId), key, remote.fetch, remote.decodePlaylistItems);
    if uploads.Err? then (Err(ChannelError(ch.name, uploads.error)), rows)
    else if |uploads.value.items| == 0 then (Ok(false), rows)
    else
      match NewIds(uploads.value.items, rows.Keys, ch.fromTime, p)
      case Err(e) => (Err(e), rows)
      case Ok(ids) =>
        if |ids| == 0 then (Ok(false), rows)
        else
          var resp := Api.YtRequest(VideosUrl(ids), key, remote.fetch, remote.decodeVideos);
          if resp.Err? then (Err(ChannelError(ch.name, resp.error)), rows)
          else
            match VideosToAdd(resp.value.items, p)
            case Err(e) => (Err(e), rows)
            case Ok(recs) =>
              var ins := InsertAll(rows, recs);
              if ins.0.Err? then (Err(ins.0.error), ins.1) else (Ok(|recs| >= 1), ins.1)
  }

  /** `Ok(true)` exactly when the check stored something; `Ok(false)` leaves
      the table as it was. */
  lemma CheckTrueIffInserted(rows: Db.Rows, key: string, ch: ChannelInfo, remote: Api.Remote, p: Parsers)
    ensures var r := CheckChannelSpec(rows, key, ch, remote, p);
      r.0 == Ok(false) ==> r.1 == rows
    ensures var r := CheckChannelSpec(rows, key, ch, remote, p);
      r.0 == Ok(true) ==> r.1.Keys > rows.Keys
  {
    var r := CheckChannelSpec(rows, key, ch, remote, p);
    if r.0 == Ok(true) {
      var uploads := Api.YtRequest(PlaylistItemsUrl(ch.uploadsPlaylistId), key, remote.fetch, remote.decodePlaylistItems);
      var ids := NewIds(uploads.value.items, rows.Keys, ch.fromTime, p).value;
      var resp := Api.YtRequest(VideosUrl(ids), key, remote.fetch, remote.decodeVideos);
      var recs := VideosToAdd(resp.value.items, p).value;
      InsertAllOk(rows, recs);
      InsertAllStores(rows, recs);
      assert recs[0].id in r.1.Keys && recs[0].id !in rows;
    }
  }

  /** An empty uploads playlist ends the check with `Ok(false)` before the
      table or the videos endpoint is consulted. */
  lemma EmptyPlaylistStops(rows: Db.Rows, key: string, ch: ChannelInfo, remote: Api.Remote, p: Parsers)
    requires var u := Api.YtRequest(PlaylistItemsUrl(ch.uploadsPlaylistId), key, remote.fetch, remote.decodePlaylistItems);
      u.Ok? && u.value.items == []
    ensures CheckChannelSpec(rows, key, ch, remote, p) == (Ok(false), rows)
    ensures forall other: Api.Remote :: other.fetch == remote.fetch && other.decodePlaylistItems == remote.decodePlaylistItems
              ==> CheckChannelSpec(rows, key, ch, other, p) == (Ok(false), rows)
  {
  }

  /** Once every listed video is stored, checking again changes nothing and
      reports nothing new: the check is idempotent. */
  lemma CheckIdempotent(rows: Db.Rows, key: string, ch: ChannelInfo, remote: Api.Remote, p: Parsers)
    requires var u := Api.YtRequest(PlaylistItemsUrl(ch.uploadsPlaylistId), key, remote.fetch, remote.decodePlaylistItems);
      u.Ok? && forall i :: 0 <= i < |u.value.items| ==> u.value.items[i].contentDetails.videoId in rows
    ensures CheckChannelSpec(rows, key, ch, remote, p) == (Ok(false), rows)
  {
    var u := Api.YtRequest(PlaylistItemsUrl(ch.uploadsPlaylistId), key, remote.fetch, remote.decodePlaylistItems);
    NewIdsFilters(u.value.items, rows.Keys, ch.fromTime, p);
    NoFreshWhenStored(u.value.items, rows.Keys, ch.fromTime, p);
  }
  /** Storing the ids a run asked for leaves nothing for the next run: with
      at least those ids stored, the same playlist gives no new ids. */
  lemma {:induction false} NewIdsExhausted(items: seq<Api.Playlist>, stored: set<string>, stored2: set<string>,
                                           fromTime: int, p: Parsers)
    requires stored <= stored2
    requires NewIds(items, stored, fromTime, p).Ok?
    requires forall id :: id in NewIds(items, stored, fromTime, p).value ==> id in stored2
    ensures NewIds(items, stored2, fromTime, p) == Ok([])
  {
    if items != [] {
      var n := |items| - 1;
      var ids := NewIds(items[..n], stored, fromTime, p).value;
      assert forall id :: id in ids ==> id in NewIds(items, stored, fromTime, p).value;
      NewIdsExhausted(items[..n], stored, stored2, fromTime, p);
    }
  }

  /** A second check with the same answers from the API changes nothing,
      once the first one ended `Ok` and stored every id it asked for. The
      playlist may still list items older than the start time, undated
      items and videos the videos request left out. */
  lemma CheckRerunChangesNothing(rows: Db.Rows, key: string, ch: ChannelInfo, remote: Api.Remote, p: Parsers)
    requires CheckChannelSpec(rows, key, ch, remote, p).0.Ok?
    requires var u := Api.YtRequest(PlaylistItemsUrl(ch.uploadsPlaylistId), key, remote.fetch, remote.decodePlaylistItems);
      u.Ok? && NewIds(u.value.items, rows.Keys, ch.fromTime, p).Ok?
      && forall id :: id in NewIds(u.value.items, rows.Keys, ch.fromTime, p).value ==>
           id in CheckChannelSpec(rows, key, ch, remote, p).1
    ensures var rows1 := CheckChannelSpec(rows, key, ch, remote, p).1;
      CheckChannelSpec(rows1, key, ch, remote, p) == (Ok(false), rows1)
  {
    var rows1 := CheckChannelSpec(rows, key, ch, remote, p).1;
    var u := Api.YtRequest(PlaylistItemsUrl(ch.uploadsPlaylistId), key, remote.fetch, remote.decodePlaylistItems);
    NewIdsExhausted(u.value.items, rows.Keys, rows1.Keys, ch.fromTime, p);
  }


  lemma {:induction false} NoFreshWhenStored(items: seq<Api.Playlist>, stored: set<string>, fromTime: int, p: Parsers)
    requires forall i :: 0 <= i < |items| ==> items[i].contentDetails.videoId in stored
    ensures FreshIds(items, stored, fromTime, p) == []
  {
    if items != [] {
      NoFreshWhenStored(items[..|items| - 1], stored, fromTime, p);
    }
  }

  /** `check_channel`, against the store. */
  method CheckChannel(store: Db.VideoStore, key: string, ch: ChannelInfo, remote: Api.Remote, p: Parsers)
    returns (r: Result<bool>)
    requires store.Valid()
    modifies store
    ensures store.Valid()
    ensures (r, store.rows) == CheckChannelSpec(old(store.rows), key, ch, remote, p)
  {
    ghost var rows0 := store.rows;
    var url := PlaylistItemsUrl(ch.uploadsPlaylistId);
    var uploads := Api.YtRequest(url, key, remote.fetch, remote.decodePlaylistItems);
    if uploads.Err? {
      return Err(ChannelError(ch.name, uploads.error));
    }
    var items := uploads.value.items;
    if |items| == 0 {
      return Ok(false);
    }
    var existingIds := store.GetIds(items);
    var newIds := CollectNewIds(items, existingIds, rows0.Keys, ch.fromTime, p);
    if newIds.Err? {
      return Err(newIds.error);
    }
    if |newIds.value| == 0 {
      return Ok(false);
    }
    var videosUrl := VideosUrl(newIds.value);
    var resp := Api.YtRequest(videosUrl, key, remote.fetch, remote.decodeVideos);
    if resp.Err? {
      return Err(ChannelError(ch.name, resp.error));
    }
    var toAdd := CollectVideos(resp.value.items, p);
    if toAdd.Err? {
      return Err(toAdd.error);
    }
    var willSaveVideos := |toAdd.value| >= 1;
    var inserted := InsertVideos(store, toAdd.value);
    if inserted.Err? {
      return Err(inserted.error);
    }
    r := Ok(willSaveVideos);
  }

  /** The loop over the playlist: the ids not stored yet, published no
      earlier than the channel's start time. `existingIds` are the stored
      ones among the playlist's. */
  method CollectNewIds(items: seq<Api.Playlist>, existingIds: seq<string>, ghost stored: set<string>, fromTime: int,
                       p: Parsers)
    returns (r: Result<seq<string>>)
    requires forall id :: id in existingIds <==> id in stored && id in Db.VideoIds(items)
    ensures r == NewIds(items, stored, fromTime, p)
  {
    var newIds: seq<string> := [];
    for i := 0 to |items|
      invariant NewIds(items[..i], stored, fromTime, p) == Ok(newIds)
    {
      assert items[..i + 1][..i] == items[..i];
      var fetched := items[i].contentDetails;
      assert fetched.videoId in Db.VideoIds(items);
      if fetched.videoId in existingIds {
        continue;
      }
      if fetched.videoPublishedAt.None? {
        continue;
      }
      var published := ParseDatetime(p, fetched.videoPublishedAt.value);
      if published.Err? {
        assert NewIds(items[..i + 1], stored, fromTime, p).Err?;
        NewIdsErrorSticks(items, i + 1, stored, fromTime, p);
        return Err(published.error);
      }
      if published.value < fromTime {
        continue;
      }
      newIds := newIds + [fetched.videoId];
    }
    assert items[..|items|] == items;
    r := Ok(newIds);
  }

  /** The loop over the returned videos: the records to insert. */
  method CollectVideos(videos: seq<Api.Video>, p: Parsers) returns (r: Result<seq<Db.Video>>)
    ensures r == VideosToAdd(videos, p)
  {
    var toAdd: seq<Db.Video> := [];
    for i := 0 to |videos|
      invariant VideosToAdd(videos[..i], p) == Ok(toAdd)
    {
      assert videos[..i + 1][..i] == videos[..i];
      var v := videos[i];
      if v.liveStreamingDetails.Some? && v.liveStreamingDetails.value.actualStartTime.None? {
        continue;
      }
      if v.contentDetails.None? {
        continue;
      }
      var publishTime := ParseDatetime(p, v.snippet.publishedAt);
      if publishTime.Err? {
        VideosErrorSticks(videos, i + 1, p);
        return Err(publishTime.error);
      }
      var durationMs := ParseAbsoluteDuration(p, v.contentDetails.value.duration);
      if durationMs.Err? {
        VideosErrorSticks(videos, i + 1, p);
        return Err(durationMs.error);
      }
      toAdd := toAdd + [RecordOf(v, publishTime.value, durationMs.value)];
    }
    assert videos[..|videos|] == videos;
    r := Ok(toAdd);
  }

  /** The insert loop, stopping at the first failed insert. */
  method InsertVideos(store: Db.VideoStore, toAdd: seq<Db.Video>) returns (r: Result<()>)
    requires store.Valid()
    modifies store
    ensures store.Valid()
    ensures (r, store.rows) == InsertAll(old(store.rows), toAdd)
  {
    ghost var rows0 := store.rows;
    for i := 0 to |toAdd|
      invariant store.Valid()
      invariant InsertAll(rows0, toAdd[..i]) == (Ok(()), store.rows)
    {
      assert toAdd[..i + 1][..i] == toAdd[..i];
      var inserted := store.InsertVideo(toAdd[i]);
      if inserted.Err? {
        InsertErrorSticks(rows0, toAdd, i + 1);
        return Err(inserted.error);
      }
    }
    assert toAdd[..|toAdd|] == toAdd;
    r := Ok(());
  }

  /** Once the new-id loop has failed on a prefix, it fails, with the same
      message, on the whole playlist. */
  lemma {:induction false} NewIdsErrorSticks(items: seq<Api.Playlist>, k: nat, stored: set<string>, fromTime: int, p: Parsers)
    requires k <= |items| && NewIds(items[..k], stored, fromTime, p).Err?
    ensures NewIds(items, stored, fromTime, p) == NewIds(items[..k], stored, fromTime, p)
    decreases |items| - k
  {
    if k < |items| {
      assert items[..k + 1][..k] == items[..k];
      NewIdsErrorSticks(items, k + 1, stored, fromTime, p);
    } else {
      assert items[..k] == items;
    }
  }

  lemma {:induction false} VideosErrorSticks(videos: seq<Api.Video>, k: nat, p: Parsers)
    requires k <= |videos| && VideosToAdd(videos[..k], p).Err?
    ensures VideosToAdd(videos, p) == VideosToAdd(videos[..k], p)
    decreases |videos| - k
  {
    if k < |videos| {
      assert videos[..k + 1][..k] == videos[..k];
      VideosErrorSticks(videos, k + 1, p);
    } else {
      assert videos[..k] == videos;
    }
  }

  lemma {:induction false} InsertErrorSticks(rows: Db.Rows, recs: seq<Db.Video>, k: nat)
    requires k <= |recs| && InsertAll(rows, recs[..k]).0.Err?
    ensures InsertAll(rows, recs) == InsertAll(rows, recs[..k])
    decreases |recs| - k
  {
    if k < |recs| {
      assert recs[..k + 1][..k] == recs[..k];
      InsertErrorSticks(rows, recs, k + 1);
    } else {
      assert recs[..k] == recs;
    }
  }
}
