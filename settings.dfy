/** The persisted settings (src-tauri/src/settings.rs), without the file
    loading and saving. */
module Settings {
  import opened Utf8

  /** A monitored channel. The refresh rate is `refresh_rate_ms` here and
      `refresh_rate` where background.rs reads it: the same field. */
  datatype Channel = Channel(
    id: string,
    name: string,
    icon: string,
    uploadsPlaylistId: string,
    fromTime: int,
    refreshRateMs: nat,
    tags: seq<string>)

  /** `api_key` is private in the source, reachable through the methods below. */
  datatype Settings = Settings(
    apiKey: string,
    maxConcurrentRequests: nat,
    channels: seq<Channel>,
    checkInBackground: bool)

  datatype VersionedSettings = V1(settings: Settings)

  /** The 39 bytes the built-in key is spelled with. */
  const DefaultKeyBytes: seq<byte> := [
    65, 73, 122, 97, 83, 121, 68, 52, 50, 110, 65, 76, 52, 57, 118, 48, 108, 100, 121, 99, 110,
    100, 49, 78, 79, 113, 71, 111, 114, 54, 54, 95, 56, 107, 108, 83, 78, 102, 48]

  /** `String::from_utf8(key).unwrap()`: the bytes are ASCII, so the
      decoding succeeds and the `unwrap` never panics. */
  function DefaultKey(): (k: string)
    ensures |k| == 39 && k != ""
    ensures forall i :: 0 <= i < 39 ==> k[i] as int == DefaultKeyBytes[i]
  {
    AsciiDecodes(DefaultKeyBytes);
    FromUtf8(DefaultKeyBytes).value
  }

  /** `VersionedSettings::default()`. */
  function DefaultSettings(): (v: VersionedSettings)
    ensures UnwrapRef(v).apiKey == "" && UnwrapRef(v).channels == []
    ensures UnwrapRef(v).maxConcurrentRequests == 5 && UnwrapRef(v).checkInBackground
  {
    V1(Settings("", 5, [], true))
  }

  function UnwrapRef(v: VersionedSettings): Settings {
    match v
    case V1(s) => s
  }

  /** `Settings::wrap`: unwrapping gives the same settings back. */
  function Wrap(s: Settings): (v: VersionedSettings)
    ensures UnwrapRef(v) == s
  {
    V1(s)
  }

  /** The configured key, or the built-in one when none is set; never empty. */
  function ApiKeyOrDefault(s: Settings): (k: string)
    ensures k != ""
    ensures s.apiKey == "" ==> k == DefaultKey()
    ensures s.apiKey != "" ==> k == s.apiKey
  {
    if s.apiKey == "" then DefaultKey() else s.apiKey
  }

  /** `set_api_key`: replaces the key and nothing else. */
  function SetApiKey(s: Settings, key: string): (r: Settings)
    ensures r.apiKey == key
    ensures r.maxConcurrentRequests == s.maxConcurrentRequests
    ensures r.channels == s.channels && r.checkInBackground == s.checkInBackground
  {
    s.(apiKey := key)
  }

  /** After setting a non-empty key, that key is the one requests use; after
      clearing it, the built-in key is used again. */
  lemma SetKeyThenUse(s: Settings, key: string)
    ensures key != "" ==> ApiKeyOrDefault(SetApiKey(s, key)) == key
    ensures key == "" ==> ApiKeyOrDefault(SetApiKey(s, key)) == DefaultKey()
  {
  }

  /** Fresh settings fall back to the built-in key. */
  lemma DefaultUsesBuiltInKey()
    ensures ApiKeyOrDefault(UnwrapRef(DefaultSettings())) == DefaultKey()
  {
  }
}
