/** The YouTube Data API client (src-tauri/src/api.rs): the decision logic of
    `yt_request` over an abstract JSON document, the response shapes the
    rest of the program reads, and the two id lookups. The HTTP exchange
    and serde's typed decoding are parameters (see `Remote`). */
module Api {
  import opened Wrappers
  import Strings

  const I64Min: int := -0x8000_0000_0000_0000
  const I64Max: int := 0x7FFF_FFFF_FFFF_FFFF

  /** A `serde_json::Value`. Integer numbers keep their value; any other
      number is a `Float`, kept only by its text. */
  datatype Json =
    | Null
    | Bool(b: bool)
    | Int(i: int)
    | Float(text: string)
    | Str(s: string)
    | Arr(elems: seq<Json>)
    | Obj(fields: seq<(string, Json)>)

  /** Field of an object; like serde_json's map, a later duplicate key wins. */
  function Lookup(fields: seq<(string, Json)>, key: string): Option<Json> {
    if fields == [] then None
    else if fields[|fields| - 1].0 == key then Some(fields[|fields| - 1].1)
    else Lookup(fields[..|fields| - 1], key)
  }

  /** `Value::get(key)`: only an object has fields. */
  function Get(j: Json, key: string): Option<Json> {
    match j
    case Obj(fields) => Lookup(fields, key)
    case _ => None
  }

  /** `Value::as_i64`: an integer within the 64-bit signed range. */
  function AsI64(j: Json): Option<int> {
    if j.Int? && I64Min <= j.i <= I64Max then Some(j.i) else None
  }

  /** `Value::as_str`. */
  function AsStr(j: Json): Option<string> {
    if j.Str? then Some(j.s) else None
  }

  /** What the GET produced: a send failure, a body that is not JSON, or a
      JSON document. */
  datatype Transport = SendFailed(reason: string) | NotJson(reason: string) | Body(json: Json)

  /** The HTTP GET of (url, api key), the key travelling in the
      X-Goog-Api-Key header. */
  type Fetch = (string, string) -> Transport

  /** The envelope's `code` when it is a 64-bit integer. */
  function EnvelopeCode(errorObj: Json): Option<int> {
    match Get(errorObj, "code") case Some(v) => AsI64(v) case None => None
  }

  /** The envelope's `message` when it is a string. */
  function EnvelopeText(errorObj: Json): Option<string> {
    match Get(errorObj, "message") case Some(v) => AsStr(v) case None => None
  }

  /** "{code} {message}" of an embedded error object; a missing or mistyped
      code or message renders as the empty string. */
  function EnvelopeMessage(errorObj: Json): (m: string)
    ensures EnvelopeCode(errorObj).None? && EnvelopeText(errorObj).None? ==> m == " "
    ensures EnvelopeCode(errorObj).Some? && EnvelopeText(errorObj).None? ==>
              m == Strings.IntToString(EnvelopeCode(errorObj).value) + " "
    ensures EnvelopeCode(errorObj).None? && EnvelopeText(errorObj).Some? ==>
              m == " " + EnvelopeText(errorObj).value
  {
    var codeStr := match EnvelopeCode(errorObj) case Some(n) => Strings.IntToString(n) case None => "";
    codeStr + " " + (match EnvelopeText(errorObj) case Some(s) => s case None => "")
  }

  /** Index of the first space in `s`, or `|s|` when there is none. */
  function SpaceIndex(s: string): (k: nat)
    ensures k <= |s| && (k < |s| ==> s[k] == ' ')
    ensures forall j :: 0 <= j < k ==> s[j] != ' '
  {
    if s == [] || s[0] == ' ' then 0 else 1 + SpaceIndex(s[1..])
  }

  /** Reads an envelope message back: the text before the first space is
      the code (none when it is empty), the text after it the message. */
  function ReadEnvelope(m: string): (Option<int>, string) {
    var k := SpaceIndex(m);
    (if k == 0 then None else Some(Strings.ParseInt(m[..k])), if k < |m| then m[k + 1..] else "")
  }

  /** Both fields survive the rendering: the code, when the envelope has an
      integer one, precedes the first space, and everything after that
      space is the message text, spaces included. */
  lemma EnvelopeMessageReadsBack(errorObj: Json)
    ensures ReadEnvelope(EnvelopeMessage(errorObj)).0 == EnvelopeCode(errorObj)
    ensures ReadEnvelope(EnvelopeMessage(errorObj)).1 ==
              match EnvelopeText(errorObj) case Some(s) => s case None => ""
  {
    var text := match EnvelopeText(errorObj) case Some(s) => s case None => "";
    match EnvelopeCode(errorObj)
    case None =>
      SplitAtSpace("", text);
    case Some(n) =>
      Strings.IntToStringRoundTrip(n);
      Strings.NatToStringDigits(if n < 0 then -n else n);
      SplitAtSpace(Strings.IntToString(n), text);
  }

  /** The first space after a space-free prefix is the one that follows it. */
  lemma SplitAtSpace(a: string, t: string)
    requires forall j :: 0 <= j < |a| ==> a[j] != ' '
    ensures SpaceIndex(a + " " + t) == |a|
    ensures (a + " " + t)[..|a|] == a && (a + " " + t)[|a| + 1..] == t
  {
    var m := a + " " + t;
    assert m[|a|] == ' ';
    assert forall j :: 0 <= j < |a| ==> m[j] == a[j];
    assert m[..|a|] == a;
    assert m[|a| + 1..] == t;
  }

  /** An API refusal with code 403 and no message renders as "403 ". */
  lemma EnvelopeCodeOnly()
    ensures EnvelopeMessage(Obj([("code", Int(403))])) == "403 "
  {
    assert Strings.NatToString(403) == Strings.NatToString(40) + ['3'];
    assert Strings.NatToString(40) == Strings.NatToString(4) + ['0'];
  }

  /** `yt_request`: transport failures first, then the embedded error
      envelope (whatever the expected type), then the typed decoding. */
  function YtRequest<T>(url: string, key: string, fetch: Fetch, decode: Json -> Result<T>): (r: Result<T>)
    ensures fetch(url, key).SendFailed? ==> r == Err("API request failed: " + fetch(url, key).reason)
    ensures fetch(url, key).NotJson? ==> r == Err("API response was not JSON: " + fetch(url, key).reason)
    ensures fetch(url, key).Body? && Get(fetch(url, key).json, "error").Some? ==>
              r == Err(EnvelopeMessage(Get(fetch(url, key).json, "error").value))
    ensures fetch(url, key).Body? && Get(fetch(url, key).json, "error").None? ==>
              match decode(fetch(url, key).json)
              case Ok(v) => r == Ok(v)
              case Err(e) => r == Err("Unexpected API response: " + e)
  {
    match fetch(url, key)
    case SendFailed(e) => Err("API request failed: " + e)
    case NotJson(e) => Err("API response was not JSON: " + e)
    case Body(json) =>
      match Get(json, "error")
      case Some(errorObj) => Err(EnvelopeMessage(errorObj))
      case None =>
        match decode(json)
        case Ok(v) => Ok(v)
        case Err(e) => Err("Unexpected API response: " + e)
  }

  /** An envelope message opens with a digit, a minus sign or the space
      before the message, so it is never mistaken for the shape-mismatch or
      transport errors, which open with a letter. */
  lemma EnvelopeMessageOpening(errorObj: Json)
    ensures |EnvelopeMessage(errorObj)| > 0
    ensures var c := EnvelopeMessage(errorObj)[0]; Strings.IsDigit(c) || c == '-' || c == ' '
  {
    var code := EnvelopeCode(errorObj);
    if code.Some? {
      Strings.IntToStringRoundTrip(code.value);
      Strings.NatToStringDigits(if code.value < 0 then -code.value else code.value);
    }
  }

  /** An error envelope decides the outcome the same way for every expected
      response type. */
  lemma EnvelopeIgnoresExpectedType<T, U>(url: string, key: string, fetch: Fetch,
                                         d1: Json -> Result<T>, d2: Json -> Result<U>)
    requires fetch(url, key).Body? && Get(fetch(url, key).json, "error").Some?
    ensures YtRequest(url, key, fetch, d1).Err? && YtRequest(url, key, fetch, d2).Err?
    ensures YtRequest(url, key, fetch, d1).error == YtRequest(url, key, fetch, d2).error
  {
  }

  // ---------------------------------------------------------------------
  // The fields of each response the program reads.

  /** playlistItems: `videoPublishedAt` is absent for a video that was made
      private but is still listed. */
  datatype PlaylistContentDetails = PlaylistContentDetails(videoPublishedAt: Option<string>, videoId: string)
  datatype Playlist = Playlist(contentDetails: PlaylistContentDetails)
  datatype PlaylistItemsResponse = PlaylistItemsResponse(items: seq<Playlist>)

  datatype Thumbnail = Thumbnail(url: string)
  datatype VideoThumbnails = VideoThumbnails(standard: Option<Thumbnail>, maxres: Option<Thumbnail>)
  datatype VideoSnippet = VideoSnippet(
    publishedAt: string,
    title: string,
    description: string,
    thumbnails: VideoThumbnails,
    channelId: string,
    channelTitle: string)
  datatype VideoContentDetails = VideoContentDetails(duration: string)
  /** `actualStartTime` is absent for a stream that has not started. */
  datatype LiveStreamingDetails = LiveStreamingDetails(actualStartTime: Option<string>)
  datatype Video = Video(
    id: string,
    contentDetails: Option<VideoContentDetails>,
    liveStreamingDetails: Option<LiveStreamingDetails>,
    snippet: VideoSnippet)
  datatype VideosResponse = VideosResponse(items: seq<Video>)

  datatype RelatedPlaylists = RelatedPlaylists(uploads: string)
  datatype ChannelContentDetails = ChannelContentDetails(relatedPlaylists: RelatedPlaylists)
  datatype ChannelThumbnails = ChannelThumbnails(medium: Thumbnail)
  datatype ChannelSnippet = ChannelSnippet(title: string, thumbnails: ChannelThumbnails)
  datatype ChannelItem = ChannelItem(id: string, contentDetails: ChannelContentDetails, snippet: ChannelSnippet)
  datatype ChannelsResponse = ChannelsResponse(items: seq<ChannelItem>)

  /** The remote side: the GET, and serde's decoding into each shape (its
      error being serde's message). */
  datatype Remote = Remote(
    fetch: Fetch,
    decodePlaylistItems: Json -> Result<PlaylistItemsResponse>,
    decodeVideos: Json -> Result<VideosResponse>,
    decodeChannels: Json -> Result<ChannelsResponse>)

  function VideoByIdUrl(id: string): string {
    "https://youtube.googleapis.com/youtube/v3/videos?part=snippet&id=" + id
  }

  function ChannelByUsernameUrl(username: string): string {
    "https://youtube.googleapis.com/youtube/v3/channels?part=contentDetails,id,snippet&forUsername=" + username
  }

  /** The channel of the first video returned; an error when none is. */
  function ChannelIdFromVideoId(id: string, key: string, remote: Remote): (r: Result<string>)
    ensures var resp := YtRequest(VideoByIdUrl(id), key, remote.fetch, remote.decodeVideos);
      && (resp.Err? ==> r == Err("Failed to get video: " + resp.error))
      && (resp.Ok? && resp.value.items == [] ==> r == Err("No video returned"))
      && (r.Ok? <==> resp.Ok? && |resp.value.items| > 0)
      && (r.Ok? ==> r.value == resp.value.items[0].snippet.channelId)
  {
    match YtRequest(VideoByIdUrl(id), key, remote.fetch, remote.decodeVideos)
    case Err(e) => Err("Failed to get video: " + e)
    case Ok(videos) =>
      if |videos.items| > 0 then Ok(videos.items[0].snippet.channelId)
      else Err("No video returned")
  }

  /** A username must match exactly one channel. */
  function ChannelIdFromUsername(username: string, key: string, remote: Remote): (r: Result<string>)
    ensures var resp := YtRequest(ChannelByUsernameUrl(username), key, remote.fetch, remote.decodeChannels);
      && (resp.Err? ==> r == Err("Failed to get video: " + resp.error))
      && (resp.Ok? && |resp.value.items| > 1 ==> r == Err("YouTube username search returned in multiple channels"))
      && (resp.Ok? && resp.value.items == [] ==> r == Err("No video returned"))
      && (r.Ok? <==> resp.Ok? && |resp.value.items| == 1)
      && (r.Ok? ==> r.value == resp.value.items[0].id)
  {
    match YtRequest(ChannelByUsernameUrl(username), key, remote.fetch, remote.decodeChannels)
    case Err(e) => Err("Failed to get video: " + e)
    case Ok(channels) =>
      if |channels.items| > 1 then Err("YouTube username search returned in multiple channels")
      else if |channels.items| == 1 then Ok(channels.items[0].id)
      else Err("No video returned")
  }
}
