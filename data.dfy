/** The command layer (src-tauri/src/data.rs): classifying a channel URL,
    the tag list, the bounded undo history and adding a channel. URL
    parsing, page scraping, the settings file and the clock are parameters. */
module Data {
  import opened Wrappers
  import opened Strings
  import Api
  import Settings

  // ---------------------------------------------------------------------
  // URLs.

  /** What `Url::parse` yields that the classifiers read: the host, the
      path and the decoded query pairs in order. */
  datatype Url = Url(host: Option<string>, path: string, queryPairs: seq<(string, string)>)

  /** `path_segments`: the path after its leading '/', split at '/'; a path
      without the leading '/' has no segments. */
  function PathSegments(u: Url): (r: Option<seq<string>>)
    ensures r.Some? ==> |r.value| >= 1
  {
    if StartsWith(u.path, "/") then Some(Split(u.path[1..], '/')) else None
  }

  /** The value of the first query pair named `key`. */
  function FirstValue(pairs: seq<(string, string)>, key: string): (r: Option<string>)
    ensures r.Some? <==> exists i :: 0 <= i < |pairs| && pairs[i].0 == key
    ensures r.Some? ==> exists i :: 0 <= i < |pairs| && pairs[i] == (key, r.value)
                          && forall j :: 0 <= j < i ==> pairs[j].0 != key
  {
    if pairs == [] then None
    else if pairs[0].0 == key then Some(pairs[0].1)
    else
      var r := FirstValue(pairs[1..], key);
      assert forall i :: 0 < i < |pairs| ==> pairs[i] == pairs[1..][i - 1];
      r
  }

  predicate OnYoutube(u: Url) { u.host.Some? && EndsWith(u.host.value, "youtube.com") }
  predicate OnShortHost(u: Url) { u.host.Some? && EndsWith(u.host.value, "youtu.be") }
  predicate WatchPage(u: Url) { OnYoutube(u) && StartsWith(u.path, "/watch") }

  /** `url_parse_video_id`, given what the URL parser made of the text. */
  function UrlParseVideoId(parsed: Option<Url>): (r: Option<string>)
    ensures r.Some? ==> parsed.Some? && (WatchPage(parsed.value) || OnShortHost(parsed.value))
    ensures parsed.Some? && WatchPage(parsed.value) ==> r == FirstValue(parsed.value.queryPairs, "v")
    ensures (parsed.Some? && !WatchPage(parsed.value) && OnShortHost(parsed.value) && PathSegments(parsed.value).Some?)
              ==> r == Some(PathSegments(parsed.value).value[0])
    ensures (parsed.Some? && !WatchPage(parsed.value) && OnShortHost(parsed.value) && PathSegments(parsed.value).None?)
              ==> r.None?
  {
    match parsed
    case None => None
    case Some(u) =>
      if u.host.None? then None
      else if EndsWith(u.host.value, "youtube.com") && StartsWith(u.path, "/watch") then FirstValue(u.queryPairs, "v")
      else if EndsWith(u.host.value, "youtu.be") then
        match PathSegments(u)
        case None => None
        case Some(segs) => Some(segs[0])
      else None
  }

  /** The second path segment of a youtube.com URL whose first segment is
      `first`. */
  function SecondSegmentAfter(parsed: Option<Url>, first: string): (r: Option<string>)
    ensures r.Some? <==> parsed.Some? && OnYoutube(parsed.value) && PathSegments(parsed.value).Some?
                         && |PathSegments(parsed.value).value| >= 2 && PathSegments(parsed.value).value[0] == first
    ensures r.Some? ==> r.value == PathSegments(parsed.value).value[1]
  {
    match parsed
    case None => None
    case Some(u) =>
      if u.host.None? then None
      else if !EndsWith(u.host.value, "youtube.com") then None
      else
        match PathSegments(u)
        case None => None
        case Some(segs) =>
          if segs[0] != first then None
          else if |segs| < 2 then None
          else Some(segs[1])
  }

  /** `url_parse_channel_id`: youtube.com/channel/ID. */
  function UrlParseChannelId(parsed: Option<Url>): (r: Option<string>)
    ensures r.Some? <==> parsed.Some? && OnYoutube(parsed.value) && PathSegments(parsed.value).Some?
                         && |PathSegments(parsed.value).value| >= 2 && PathSegments(parsed.value).value[0] == "channel"
    ensures r.Some? ==> r.value == PathSegments(parsed.value).value[1]
  {
    SecondSegmentAfter(parsed, "channel")
  }

  /** `url_parse_username`: youtube.com/user/NAME. */
  function UrlParseUsername(parsed: Option<Url>): (r: Option<string>)
    ensures r.Some? <==> parsed.Some? && OnYoutube(parsed.value) && PathSegments(parsed.value).Some?
                         && |PathSegments(parsed.value).value| >= 2 && PathSegments(parsed.value).value[0] == "user"
    ensures r.Some? ==> r.value == PathSegments(parsed.value).value[1]
  {
    SecondSegmentAfter(parsed, "user")
  }

  /** The first piece of a split keeps a delimiter-free prefix of the text. */
  lemma {:induction false} SplitKeepsPrefix(s: string, prefix: string, d: char)
    requires StartsWith(s, prefix) && d !in prefix
    ensures StartsWith(Split(s, d)[0], prefix)
  {
    if prefix != [] {
      assert s[0] == prefix[0];
      assert StartsWith(s[1..], prefix[1..]) by {
        assert s[1..][..|prefix| - 1] == s[..|prefix|][1..];
      }
      SplitKeepsPrefix(s[1..], prefix[1..], d);
      var rest := Split(s[1..], d);
      assert Split(s, d)[0] == [s[0]] + rest[0];
      assert ([s[0]] + rest[0])[..|prefix|] == [s[0]] + rest[0][..|prefix| - 1];
    }
  }

  lemma ShortHostIsNotYoutube(h: string)
    requires EndsWith(h, "youtu.be")
    ensures !EndsWith(h, "youtube.com")
  {
    assert h[|h| - 1] == h[|h| - 8..][7] == 'e';
    assert "youtube.com"[10] == 'm';
  }

  /** A URL is of at most one kind: a watch page's first segment is not
      "channel" or "user", a youtu.be host is not a youtube.com host, and
      the two youtube.com kinds differ in their first segment. */
  lemma AtMostOneKind(parsed: Option<Url>)
    ensures UrlParseChannelId(parsed).Some? ==> UrlParseUsername(parsed).None?
    ensures UrlParseVideoId(parsed).Some? ==> UrlParseChannelId(parsed).None? && UrlParseUsername(parsed).None?
  {
    if UrlParseVideoId(parsed).Some? {
      var u := parsed.value;
      if WatchPage(u) {
        assert StartsWith(u.path[1..], "watch") by {
          assert u.path[1..][..5] == u.path[..6][1..];
          assert "/watch"[1..] == "watch";
        }
        SplitKeepsPrefix(u.path[1..], "watch", '/');
        var first := Split(u.path[1..], '/')[0];
        assert first[..5] == "watch";
        assert first != "channel" by { assert first[0] == 'w'; }
        assert first != "user" by { assert first[0] == 'w'; }
      } else {
        ShortHostIsNotYoutube(u.host.value);
      }
    }
  }

  /** The page at the URL, searched for its canonical channel URL: the
      HTTP fetch and the HTML query of `get_channel_id_from_url`. */
  type Scrape = string -> Result<string>

  /** `get_id_from_url`: a video URL, a channel URL, a username URL, and the
      page itself, tried in that order. */
  function GetIdFromUrl(url: string, key: string, remote: Api.Remote, parse: string -> Option<Url>, scrape: Scrape)
    : (r: Result<string>)
    ensures UrlParseVideoId(parse(url)).Some? ==>
              r == Api.ChannelIdFromVideoId(UrlParseVideoId(parse(url)).value, key, remote)
    ensures UrlParseVideoId(parse(url)).None? && UrlParseChannelId(parse(url)).Some? ==>
              r == Ok(UrlParseChannelId(parse(url)).value)
    ensures UrlParseVideoId(parse(url)).None? && UrlParseChannelId(parse(url)).None? && UrlParseUsername(parse(url)).Some? ==>
              r == Api.ChannelIdFromUsername(UrlParseUsername(parse(url)).value, key, remote)
    ensures UrlParseVideoId(parse(url)).None? && UrlParseChannelId(parse(url)).None? && UrlParseUsername(parse(url)).None? ==>
              r == match scrape(url)
                   case Ok(id) => Ok(id)
                   case Err(e) => Err("Invalid URL. You could try a video URL from the channel.\n\n" + e)
  {
    var parsed := parse(url);
    match UrlParseVideoId(parsed)
    case Some(videoId) => Api.ChannelIdFromVideoId(videoId, key, remote)
    case None =>
      match UrlParseChannelId(parsed)
      case Some(id) => Ok(id)
      case None =>
        match UrlParseUsername(parsed)
        case Some(username) => Api.ChannelIdFromUsername(username, key, remote)
        case None =>
          match scrape(url)
          case Ok(id) => Ok(id)
          case Err(e) => Err("Invalid URL. You could try a video URL from the channel.\n\n" + e)
  }

  /** A channel URL resolves to its own id without the network and without
      the page. */
  lemma ChannelUrlIsOffline(url: string, key: string, remote: Api.Remote, other: Api.Remote,
                            parse: string -> Option<Url>, scrape: Scrape, otherScrape: Scrape)
    requires UrlParseChannelId(parse(url)).Some?
    ensures GetIdFromUrl(url, key, remote, parse, scrape) == Ok(UrlParseChannelId(parse(url)).value)
    ensures GetIdFromUrl(url, key, remote, parse, scrape) == GetIdFromUrl(url, key, other, parse, otherScrape)
  {
    AtMostOneKind(parse(url));
  }

  /** The page is read only when the text is none of the three URL kinds. */
  lemma ScrapeOnlyAsLastResort(url: string, key: string, remote: Api.Remote, parse: string -> Option<Url>,
                               scrape: Scrape, otherScrape: Scrape)
    requires UrlParseVideoId(parse(url)).Some? || UrlParseChannelId(parse(url)).Some? || UrlParseUsername(parse(url)).Some?
    ensures GetIdFromUrl(url, key, remote, parse, scrape) == GetIdFromUrl(url, key, remote, parse, otherScrape)
  {
  }

  // ---------------------------------------------------------------------
  // Tags.

  /** Every tag of every channel. */
  function AllTags(cs: seq<Settings.Channel>): (ts: set<string>)
    ensures forall t :: t in ts <==> exists c :: c in cs && t in c.tags
  {
    if cs == [] then {}
    else
      var n := |cs| - 1;
      assert cs == cs[..n] + [cs[n]];
      AllTags(cs[..n]) + (set t | t in cs[n].tags)
  }

  /** `tags`: the distinct tags of all channels, sorted. */
  method Tags(channels: seq<Settings.Channel>) returns (tags: seq<string>)
    ensures StrictlySorted(tags)
    ensures forall t :: t in tags <==> exists c :: c in channels && t in c.tags
  {
    var tagsSet: set<string> := {};
    for i := 0 to |channels|
      invariant tagsSet == AllTags(channels[..i])
    {
      assert channels[..i + 1] == channels[..i] + [channels[i]];
      tagsSet := AddTags(tagsSet, channels[i].tags);
    }
    assert channels[..|channels|] == channels;
    tags := SortedList(tagsSet);
  }

  /** Inserts each tag of `ts` into the set. */
  method AddTags(acc: set<string>, ts: seq<string>) returns (r: set<string>)
    ensures r == acc + (set t | t in ts)
  {
    r := acc;
    for j := 0 to |ts|
      invariant r == acc + (set t | t in ts[..j])
    {
      assert ts[..j + 1] == ts[..j] + [ts[j]];
      r := r + {ts[j]};
    }
    assert ts[..|ts|] == ts;
  }

  /** Collects a set into a list and sorts it. */
  method SortedList(s: set<string>) returns (tags: seq<string>)
    ensures StrictlySorted(tags)
    ensures forall t :: t in tags <==> t in s
  {
    tags := [];
    var rest := s;
    while rest != {}
      invariant rest <= s
      invariant StrictlySorted(tags)
      invariant forall t :: t in tags <==> t in s && t !in rest
      decreases |rest|
    {
      var t :| t in rest;
      tags := InsertSorted(tags, t);
      rest := rest - {t};
    }
  }

  /** A strictly sorted list holds no tag twice. */
  lemma SortedHasNoDuplicates(tags: seq<string>)
    requires StrictlySorted(tags)
    ensures forall i, j :: 0 <= i < j < |tags| ==> tags[i] != tags[j]
  {
    forall i, j | 0 <= i < j < |tags| ensures tags[i] != tags[j] {
      if tags[i] == tags[j] {
        LessIrreflexive(tags[i]);
      }
    }
  }

  // ---------------------------------------------------------------------
  // The undo history.

  type u32 = x: int | 0 <= x < 0x1_0000_0000

  datatype Action =
    | CheckNow
    | Archive(videoId: string)
    | Unarchive(videoId: string)
    | AddChannel(channelId: string)
    | UpdateOrDeleteChannels(note: string)

  /** Seconds since the epoch, and what was done. */
  type Entry = (u32, Action)

  const MaxEntries: nat := 100

  /** The entries after one push: the entry goes last, the log stays
      within 100 entries, and only a full log loses its oldest entry. */
  function Pushed(entries: seq<Entry>, e: Entry): (r: seq<Entry>)
    ensures |r| > 0 && r[|r| - 1] == e
    ensures |entries| <= MaxEntries ==> |r| <= MaxEntries
    ensures |entries| < MaxEntries ==> r == entries + [e]
    ensures |entries| >= MaxEntries ==> r == entries[1..] + [e]
  {
    var grown := entries + [e];
    if |grown| > MaxEntries then grown[1..] else grown
  }

  /** The entries after pushing `es` in order. */
  function PushAll(entries: seq<Entry>, es: seq<Entry>): seq<Entry> {
    if es == [] then entries else Pushed(PushAll(entries, es[..|es| - 1]), es[|es| - 1])
  }

  /** The last `n` elements of `s`, or all of them when there are fewer. */
  function Latest(s: seq<Entry>, n: nat): (r: seq<Entry>)
    ensures |r| <= n
  {
    if |s| <= n then s else s[|s| - n..]
  }

  /** However many pushes there are, the log is the 100 most recent
      entries, oldest first. */
  lemma {:induction false} PushAllKeepsLatest(entries: seq<Entry>, es: seq<Entry>)
    requires |entries| <= MaxEntries
    ensures PushAll(entries, es) == Latest(entries + es, MaxEntries)
  {
    if es != [] {
      var n := |es| - 1;
      PushAllKeepsLatest(entries, es[..n]);
      var s := entries + es[..n];
      assert entries + es == s + [es[n]];
      var l := Latest(s, MaxEntries);
      if |s| >= MaxEntries {
        assert l[1..] == s[|s| + 1 - MaxEntries..];
        assert (s + [es[n]])[|s| + 1 - MaxEntries..] == s[|s| + 1 - MaxEntries..] + [es[n]];
      }
    }
  }

  /** `UndoHistory`: a log of at most 100 entries. */
  class UndoHistory {
    var entries: seq<Entry>

    ghost predicate Valid()
      reads this
    {
      |entries| <= MaxEntries
    }

    constructor ()
      ensures Valid() && entries == []
    {
      entries := [];
    }

    /** `push`, at time `time` (the clock's reading in whole seconds). */
    method Push(action: Action, time: u32)
      requires Valid()
      modifies this
      ensures Valid()
      ensures entries == Pushed(old(entries), (time, action))
    {
      entries := entries + [(time, action)];
      if |entries| > MaxEntries {
        entries := entries[1..];
      }
    }
  }

  // ---------------------------------------------------------------------
  // Adding a channel.

  datatype AddChannelOptions = AddChannelOptions(url: string, fromTime: int, refreshRateMs: nat, tags: seq<string>)

  function ChannelsByIdUrl(id: string): string {
    "https://www.googleapis.com/youtube/v3/channels" + "?part=contentDetails,id,snippet" + "&id=" + id
  }

  /** The settings entry for a channel the API returned. */
  function NewChannel(item: Api.ChannelItem, o: AddChannelOptions): (c: Settings.Channel)
    ensures c.id == item.id && c.fromTime == o.fromTime && c.refreshRateMs == o.refreshRateMs && c.tags == o.tags
    ensures c.uploadsPlaylistId == item.contentDetails.relatedPlaylists.uploads
    ensures c.name == item.snippet.title && c.icon == item.snippet.thumbnails.medium.url
  {
    Settings.Channel(item.id, item.snippet.title, item.snippet.thumbnails.medium.url,
                     item.contentDetails.relatedPlaylists.uploads, o.fromTime, o.refreshRateMs, o.tags)
  }

  predicate HasChannel(cs: seq<Settings.Channel>, id: string) {
    exists c :: c in cs && c.id == id
  }

  /** What `add_channel` records, given the settings before it. */
  type AddOutcome = (Result<()>, Settings.Settings, Option<Action>)

  /** The last steps of `add_channel`, given the answer to the channels
      request: the first channel returned is appended, then the settings are
      saved, and only a successful save records the addition. */
  function AddFetched(s: Settings.Settings, o: AddChannelOptions, resp: Result<Api.ChannelsResponse>,
                      saveOutcome: Result<()>)
    : (r: AddOutcome)
    ensures r.2.Some? <==> r.0.Ok?
    ensures r.1 == s || (resp.Ok? && resp.value.items != []
                          && r.1 == s.(channels := s.channels + [NewChannel(resp.value.items[0], o)]))
    ensures r.0.Ok? ==> resp.Ok? && resp.value.items != [] && saveOutcome.Ok?
                        && r.1 == s.(channels := s.channels + [NewChannel(resp.value.items[0], o)])
                        && r.2 == Some(AddChannel(resp.value.items[0].id))
    ensures resp.Err? ==> r == (Err("Failed to get channel: " + resp.error), s, None)
    ensures resp.Ok? && resp.value.items == [] ==> r == (Err("No channel found"), s, None)
    ensures resp.Ok? && resp.value.items != [] ==>
              r.1 == s.(channels := s.channels + [NewChannel(resp.value.items[0], o)])
    ensures resp.Ok? && resp.value.items != [] && saveOutcome.Err? ==> r.0 == Err(saveOutcome.error)
  {
    match resp
    case Err(e) => (Err("Failed to get channel: " + e), s, None)
    case Ok(channels) =>
      if channels.items == [] then (Err("No channel found"), s, None)
      else
        var item := channels.items[0];
        var s2 := s.(channels := s.channels + [NewChannel(item, o)]);
        if saveOutcome.Err? then (Err(saveOutcome.error), s2, None)
        else (Ok(()), s2, Some(AddChannel(item.id)))
  }

  /** `add_channel` once the URL has resolved to `id`. */
  function AddResolved(s: Settings.Settings, o: AddChannelOptions, key: string, id: string, remote: Api.Remote,
                       saveOutcome: Result<()>)
    : (r: AddOutcome)
    ensures r.2.Some? <==> r.0.Ok?
    ensures r.0.Ok? ==> |r.1.channels| == |s.channels| + 1
  {
    if HasChannel(s.channels, id) then (Err("Channel already exists"), s, None)
    else AddFetched(s, o, Api.YtRequest(ChannelsByIdUrl(id), key, remote.fetch, remote.decodeChannels), saveOutcome)
  }

  /** `add_channel` on given settings: the outcome, the settings after it,
      and the history entry it records. `saveOutcome` is how saving the
      settings file and restarting the fetcher went. */
  function AddChannelSpec(s: Settings.Settings, o: AddChannelOptions, remote: Api.Remote,
                          parse: string -> Option<Url>, scrape: Scrape, saveOutcome: Result<()>)
    : (r: AddOutcome)
    ensures r.2.Some? <==> r.0.Ok?
    ensures r.0.Ok? ==> |r.1.channels| == |s.channels| + 1
  {
    var key := Settings.ApiKeyOrDefault(s);
    match GetIdFromUrl(o.url, key, remote, parse, scrape)
    case Err(e) => (Err(e), s, None)
    case Ok(id) => AddResolved(s, o, key, id, remote, saveOutcome)
  }

  /** The first channel of the answer to `add_channel`'s channels request,
      when the URL resolves and the request returns one. */
  function AnsweredChannel(s: Settings.Settings, o: AddChannelOptions, remote: Api.Remote,
                           parse: string -> Option<Url>, scrape: Scrape): Option<Api.ChannelItem>
  {
    var key := Settings.ApiKeyOrDefault(s);
    match GetIdFromUrl(o.url, key, remote, parse, scrape)
    case Err(_) => None
    case Ok(id) =>
      match Api.YtRequest(ChannelsByIdUrl(id), key, remote.fetch, remote.decodeChannels)
      case Err(_) => None
      case Ok(resp) => if resp.items == [] then None else Some(resp.items[0])
  }

  /** A channel whose id is already listed is refused and nothing changes. */
  lemma AddExistingRefused(s: Settings.Settings, o: AddChannelOptions, remote: Api.Remote,
                           parse: string -> Option<Url>, scrape: Scrape, saveOutcome: Result<()>)
    requires var id := GetIdFromUrl(o.url, Settings.ApiKeyOrDefault(s), remote, parse, scrape);
      id.Ok? && HasChannel(s.channels, id.value)
    ensures AddChannelSpec(s, o, remote, parse, scrape, saveOutcome) == (Err("Channel already exists"), s, None)
  {
  }

  /** On success the list grows by exactly one channel, appended last: the
      first channel of the answer to the channels request, with the
      options' start time, rate and tags; nothing else in the settings
      changes, and the history records the addition. */
  lemma AddAppendsLast(s: Settings.Settings, o: AddChannelOptions, remote: Api.Remote,
                       parse: string -> Option<Url>, scrape: Scrape, saveOutcome: Result<()>)
    requires AddChannelSpec(s, o, remote, parse, scrape, saveOutcome).0.Ok?
    ensures var r := AddChannelSpec(s, o, remote, parse, scrape, saveOutcome);
      var c := r.1.channels[|r.1.channels| - 1];
      && |r.1.channels| == |s.channels| + 1
      && r.1.channels[..|s.channels|] == s.channels
      && c.fromTime == o.fromTime && c.refreshRateMs == o.refreshRateMs && c.tags == o.tags
      && r.1.apiKey == s.apiKey && r.1.maxConcurrentRequests == s.maxConcurrentRequests
      && r.1.checkInBackground == s.checkInBackground
      && r.2 == Some(AddChannel(c.id))
    ensures var a := AnsweredChannel(s, o, remote, parse, scrape);
      a.Some? && AddChannelSpec(s, o, remote, parse, scrape, saveOutcome).1.channels[|s.channels|] == NewChannel(a.value, o)
  {
    var key := Settings.ApiKeyOrDefault(s);
    var id := GetIdFromUrl(o.url, key, remote, parse, scrape).value;
    var resp := Api.YtRequest(ChannelsByIdUrl(id), key, remote.fetch, remote.decodeChannels);
    var r := AddFetched(s, o, resp, saveOutcome);
    assert AddChannelSpec(s, o, remote, parse, scrape, saveOutcome) == r;
    var cs := s.channels + [NewChannel(resp.value.items[0], o)];
    assert r.1.channels == cs;
    assert cs[..|s.channels|] == s.channels;
  }

  ghost predicate UniqueIds(cs: seq<Settings.Channel>) {
    forall i, j :: 0 <= i < j < |cs| ==> cs[i].id != cs[j].id
  }

  /** Channel ids stay unique when the API returns the channel that was
      asked for: the duplicate check is made against the resolved id, while
      the stored channel takes the id of the API's answer. */
  lemma AddKeepsIdsUnique(s: Settings.Settings, o: AddChannelOptions, remote: Api.Remote,
                          parse: string -> Option<Url>, scrape: Scrape, saveOutcome: Result<()>)
    requires UniqueIds(s.channels)
    requires var key := Settings.ApiKeyOrDefault(s);
      var id := GetIdFromUrl(o.url, key, remote, parse, scrape);
      id.Ok? ==> var resp := Api.YtRequest(ChannelsByIdUrl(id.value), key, remote.fetch, remote.decodeChannels);
        resp.Ok? && resp.value.items != [] ==> resp.value.items[0].id == id.value
    ensures UniqueIds(AddChannelSpec(s, o, remote, parse, scrape, saveOutcome).1.channels)
  {
    var key := Settings.ApiKeyOrDefault(s);
    var id := GetIdFromUrl(o.url, key, remote, parse, scrape);
    if id.Ok? && !HasChannel(s.channels, id.value) {
      FetchedKeepsIdsUnique(s, o, id.value, Api.YtRequest(ChannelsByIdUrl(id.value), key, remote.fetch, remote.decodeChannels),
                            saveOutcome);
    }
  }

  lemma FetchedKeepsIdsUnique(s: Settings.Settings, o: AddChannelOptions, id: string,
                              resp: Result<Api.ChannelsResponse>, saveOutcome: Result<()>)
    requires UniqueIds(s.channels) && !HasChannel(s.channels, id)
    requires resp.Ok? && resp.value.items != [] ==> resp.value.items[0].id == id
    ensures UniqueIds(AddFetched(s, o, resp, saveOutcome).1.channels)
  {
    var r := AddFetched(s, o, resp, saveOutcome);
    if r.1 != s {
      var cs := r.1.channels;
      var n := |s.channels|;
      assert cs[n].id == id;
      forall i | 0 <= i < n ensures cs[i].id != cs[n].id {
        assert cs[i] == s.channels[i];
        assert s.channels[i] in s.channels;
      }
    }
  }

  /** The application state the commands share. */
  class AppData {
    var versionedSettings: Settings.VersionedSettings
    var history: UndoHistory

    ghost predicate Valid()
      reads this, history
    {
      history.Valid()
    }

    constructor (v: Settings.VersionedSettings, h: UndoHistory)
      requires h.Valid()
      ensures Valid() && versionedSettings == v && history == h
    {
      versionedSettings := v;
      history := h;
    }

    /** `add_channel`, at time `time`. */
    method AddChannel(o: AddChannelOptions, remote: Api.Remote, parse: string -> Option<Url>, scrape: Scrape,
                      saveOutcome: Result<()>, time: u32)
      returns (r: Result<()>)
      requires Valid()
      modifies this, history
      ensures Valid() && history == old(history)
      ensures var spec := AddChannelSpec(Settings.UnwrapRef(old(versionedSettings)), o, remote, parse, scrape, saveOutcome);
        && r == spec.0
        && Settings.UnwrapRef(versionedSettings) == spec.1
        && history.entries == (if spec.2.Some? then Pushed(old(history.entries), (time, spec.2.value)) else old(history.entries))
    {
      var settings := Settings.UnwrapRef(versionedSettings);
      var key := Settings.ApiKeyOrDefault(settings);
      var idResult := GetIdFromUrl(o.url, key, remote, parse, scrape);
      if idResult.Err? {
        return Err(idResult.error);
      }
      r := AddResolvedChannel(settings, o, key, idResult.value, remote, saveOutcome, time);
    }

    /** What follows the resolution of the URL to `id`: the duplicate loop,
        then the channels request. */
    method AddResolvedChannel(settings: Settings.Settings, o: AddChannelOptions, key: string, id: string,
                              remote: Api.Remote, saveOutcome: Result<()>, time: u32)
      returns (r: Result<()>)
      requires Valid() && settings == Settings.UnwrapRef(versionedSettings)
      modifies this, history
      ensures Valid() && history == old(history)
      ensures var spec := AddResolved(settings, o, key, id, remote, saveOutcome);
        && r == spec.0
        && Settings.UnwrapRef(versionedSettings) == spec.1
        && history.entries == (if spec.2.Some? then Pushed(old(history.entries), (time, spec.2.value)) else old(history.entries))
    {
      for i := 0 to |settings.channels|
        invariant forall k :: 0 <= k < i ==> settings.channels[k].id != id
      {
        if settings.channels[i].id == id {
          assert HasChannel(settings.channels, id) by { assert settings.channels[i] in settings.channels; }
          return Err("Channel already exists");
        }
      }
      var url := ChannelsByIdUrl(id);
      var channels := Api.YtRequest(url, key, remote.fetch, remote.decodeChannels);
      r := AddFetchedChannel(settings, o, channels, saveOutcome, time);
    }

    /** What follows the channels request. */
    method AddFetchedChannel(settings: Settings.Settings, o: AddChannelOptions, channels: Result<Api.ChannelsResponse>,
                             saveOutcome: Result<()>, time: u32)
      returns (r: Result<()>)
      requires Valid() && settings == Settings.UnwrapRef(versionedSettings)
      modifies this, history
      ensures Valid() && history == old(history)
      ensures var spec := AddFetched(settings, o, channels, saveOutcome);
        && r == spec.0
        && Settings.UnwrapRef(versionedSettings) == spec.1
        && history.entries == (if spec.2.Some? then Pushed(old(history.entries), (time, spec.2.value)) else old(history.entries))
    {
      if channels.Err? {
        return Err("Failed to get channel: " + channels.error);
      }
      if |channels.value.items| == 0 {
        return Err("No channel found");
      }
      var channel := channels.value.items[0];
      versionedSettings := Settings.Wrap(settings.(channels := settings.channels + [NewChannel(channel, o)]));
      if saveOutcome.Err? {
        return Err(saveOutcome.error);
      }
      history.Push(Action.AddChannel(channel.id), time);
      r := Ok(());
    }
  }
}
