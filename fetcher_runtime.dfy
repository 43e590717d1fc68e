/** The draft fetcher (src-tauri/src/fetcher_runtime.rs): its interval map
    and the decision to start. Its runtime thread only prints ticks and is
    not modelled. */
module FetcherRuntime {
  import opened Wrappers
  import Settings
  import Grouping

  /** `from_time` is declared `u64` here while the settings hold an `i64`;
      the value is copied unchanged. */
  datatype ChannelIntervalInfo = ChannelIntervalInfo(uploadsPlaylistId: string, fromTime: int)

  datatype IntervalInfo = IntervalInfo(interval: nat, channels: seq<ChannelIntervalInfo>)

  function Info(c: Settings.Channel): ChannelIntervalInfo {
    ChannelIntervalInfo(c.uploadsPlaylistId, c.fromTime)
  }

  function GroupInfo(channels: seq<Settings.Channel>, rate: nat): IntervalInfo {
    IntervalInfo(rate, Grouping.Project(Grouping.RateFilter(channels, rate), Info))
  }

  function AddTo(info: IntervalInfo, c: Settings.Channel): IntervalInfo {
    if c.refreshRateMs == info.interval then info.(channels := info.channels + [Info(c)]) else info
  }

  lemma GroupInfoAppend(cs: seq<Settings.Channel>, c: Settings.Channel, rate: nat)
    ensures GroupInfo(cs + [c], rate) == AddTo(GroupInfo(cs, rate), c)
  {
    Grouping.RateFilterAppend(cs, c, rate);
    Grouping.ProjectAppend(Grouping.RateFilter(cs, rate), c, Info);
  }

  /** `intervals_map`: one entry per distinct refresh rate, its `interval`
      equal to its key, holding the playlist and start time of each channel
      of that rate in settings order. */
  method IntervalsMap(channels: seq<Settings.Channel>) returns (m: map<nat, IntervalInfo>)
    ensures m.Keys == Grouping.Rates(channels)
    ensures forall k :: k in m ==> m[k] == GroupInfo(channels, k)
  {
    m := map[];
    for i := 0 to |channels|
      invariant m.Keys == Grouping.Rates(channels[..i])
      invariant forall k :: k in m ==> m[k] == GroupInfo(channels[..i], k)
    {
      var c := channels[i];
      assert channels[..i + 1] == channels[..i] + [c];
      Grouping.RatesAppend(channels[..i], c);
      forall k ensures GroupInfo(channels[..i + 1], k) == AddTo(GroupInfo(channels[..i], k), c) {
        GroupInfoAppend(channels[..i], c, k);
      }
      if c.refreshRateMs !in m {
        Grouping.RateFilterNone(channels[..i], c.refreshRateMs);
      }
      var entry := if c.refreshRateMs in m then m[c.refreshRateMs] else IntervalInfo(c.refreshRateMs, []);
      m := m[c.refreshRateMs := entry.(channels := entry.channels + [Info(c)])];
    }
    assert channels[..|channels|] == channels;
  }

  /** The entry of a rate copies each of its channels' playlist id and
      start time, in settings order. */
  lemma EntryCopiesChannels(channels: seq<Settings.Channel>, rate: nat)
    ensures var g := Grouping.RateFilter(channels, rate);
      && GroupInfo(channels, rate).interval == rate
      && |GroupInfo(channels, rate).channels| == |g|
      && forall i :: 0 <= i < |g| ==>
           GroupInfo(channels, rate).channels[i].uploadsPlaylistId == g[i].uploadsPlaylistId
           && GroupInfo(channels, rate).channels[i].fromTime == g[i].fromTime
  {
  }

  /** The runtime thread `spawn` starts; it does not receive the map. */
  datatype FetcherHandle = Thread

  /** `spawn`: no thread without channels. The interval map is built and
      then dropped, as in the draft. */
  method Spawn(settings: Settings.Settings) returns (r: Option<FetcherHandle>)
    ensures r.None? <==> settings.channels == []
  {
    if |settings.channels| == 0 {
      return None;
    }
    var intervalsMap := IntervalsMap(settings.channels);
    r := Some(Thread);
  }
}
