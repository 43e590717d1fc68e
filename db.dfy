/** The SQLite video store (src-tauri/src/db.rs): the `videos` table as a
    map from id to row, the three statements that touch it, and the query
    text `get_videos` assembles. Connection pool, migrations and row
    decoding are not modelled. */
module Db {
  import opened Wrappers
  import opened Strings
  import Api
  import Settings

  /** A row of the `videos` table. */
  datatype Video = Video(
    id: string,
    title: string,
    description: string,
    publishTimeMs: int,
    durationMs: int,
    thumbnailStandard: bool,
    thumbnailMaxres: bool,
    channelId: string,
    channelName: string,
    unread: bool,
    archived: bool)

  type Rows = map<string, Video>

  /** The id column is the key: every row is stored under its own id. */
  ghost predicate KeysMatch(rows: Rows) {
    forall id :: id in rows ==> rows[id].id == id
  }

  /** The INSERT names nine columns; `unread` and `archived` take the
      table's defaults (unread, not archived). */
  function StoredRow(v: Video): Video {
    v.(unread := true, archived := false)
  }

  /** Stands in for the text of the constraint error the database reports for a second row with the same id. */
  const UniqueViolation := "UNIQUE constraint failed: videos.id"

  /** `insert_video` on a given table: succeeds exactly when the id is new;
      a duplicate is an error that leaves every row as it was. */
  function InsertRow(rows: Rows, v: Video): (r: (Result<()>, Rows))
    ensures r.0.Ok? <==> v.id !in rows
    ensures r.0.Err? ==> r.1 == rows && StartsWith(r.0.error, "Error saving video: ")
    ensures r.1.Keys == rows.Keys + {v.id}
    ensures forall id :: id in rows ==> r.1[id] == rows[id]
    ensures r.0.Ok? ==> r.1[v.id] == StoredRow(v)
  {
    if v.id in rows then (Err("Error saving video: " + UniqueViolation), rows)
    else (Ok(()), rows[v.id := StoredRow(v)])
  }

  /** Rows the UPDATE of `set_archived` matches: the id is the key. */
  function ArchivedAffected(rows: Rows, id: string): nat {
    if id in rows then 1 else 0
  }

  /** `set_archived` on a given table: only the `archived` field of the row
      with that id changes; no such row is the error "0 rows affected". */
  function SetArchivedRows(rows: Rows, id: string, value: bool): (r: (Result<()>, Rows))
    ensures r.0.Ok? <==> id in rows
    ensures r.0.Err? ==> r.1 == rows && r.0.error == "0 rows affected"
    ensures r.1.Keys == rows.Keys
    ensures forall k :: k in rows && k != id ==> r.1[k] == rows[k]
    ensures id in rows ==> r.1[id] == rows[id].(archived := value)
  {
    var affected := ArchivedAffected(rows, id);
    if affected != 1 then (Err(IntToString(affected) + " rows affected"), rows)
    else (Ok(()), rows[id := rows[id].(archived := value)])
  }

  function VideoIds(items: seq<Api.Playlist>): (ids: seq<string>)
    ensures |ids| == |items|
    ensures forall i :: 0 <= i < |items| ==> ids[i] == items[i].contentDetails.videoId
  {
    seq(|items|, i requires 0 <= i < |items| => items[i].contentDetails.videoId)
  }

  function Placeholders(n: nat): seq<string> {
    seq(n, _ => "?")
  }

  lemma {:induction false} PlaceholdersCount(n: nat)
    ensures SumCount(Placeholders(n), '?') == n
  {
    if n > 0 {
      assert Placeholders(n) == Placeholders(n - 1) + ["?"];
      PlaceholdersCount(n - 1);
      SumCountAppend(Placeholders(n - 1), "?", '?');
    }
  }

  const IdsOpen := "SELECT id FROM videos WHERE id IN ("
  const IdsClose := ");"
  const Comma := ","

  /** n comma-separated placeholders hold exactly n `?`. */
  lemma PlaceholderListCount(n: nat)
    ensures CountChar(Join(Placeholders(n), Comma), '?') == n
  {
    CountJoin(Placeholders(n), Comma, '?');
    PlaceholdersCount(n);
  }

  /** The text and bindings of the existence query of `get_ids`. The source
      computes `len - 1` on an unsigned length, so it needs at least one id. */
  method IdsQuery(ids: seq<string>) returns (query: string, bindings: seq<string>)
    requires |ids| >= 1
    ensures query == IdsOpen + Join(Placeholders(|ids|), Comma) + IdsClose
    ensures CountChar(query, '?') == |ids|
    ensures bindings == ids
  {
    var idPlaceholders := "?";
    for n := 0 to |ids| - 1
      invariant idPlaceholders == Join(Placeholders(n + 1), Comma)
    {
      JoinAppend(Placeholders(n + 1), Comma, "?");
      assert Placeholders(n + 1) + ["?"] == Placeholders(n + 2);
      idPlaceholders := idPlaceholders + ",?";
    }
    query := IdsOpen + idPlaceholders + IdsClose;
    bindings := [];
    for i := 0 to |ids|
      invariant bindings == ids[..i]
    {
      bindings := bindings + [ids[i]];
    }
    assert ids[..|ids|] == ids;
    PlaceholderListCount(|ids|);
    PrependAbsent(IdsOpen, idPlaceholders, '?');
    AppendAbsent(IdsOpen + idPlaceholders, IdsClose, '?');
  }

  /** The table, updated in place by the statements below. */
  class VideoStore {
    var rows: Rows

    ghost predicate Valid()
      reads this
    {
      KeysMatch(rows)
    }

    constructor ()
      ensures Valid() && rows == map[]
    {
      rows := map[];
    }

    /** `get_ids`: which of the listed ids are already stored. */
    method GetIds(items: seq<Api.Playlist>) returns (existing: seq<string>)
      requires |items| >= 1
      ensures forall id :: id in existing <==> id in rows && id in VideoIds(items)
      ensures forall i, j :: 0 <= i < j < |existing| ==> existing[i] != existing[j]
    {
      var query, bindings := IdsQuery(VideoIds(items));
      // The rows `SELECT id ... IN (...)` returns: each stored row whose id is
      // bound, once; their order is the database's and is not relied on.
      existing := [];
      for i := 0 to |bindings|
        invariant forall id :: id in existing <==> id in rows && id in bindings[..i]
        invariant forall a, b :: 0 <= a < b < |existing| ==> existing[a] != existing[b]
      {
        assert bindings[..i + 1] == bindings[..i] + [bindings[i]];
        if bindings[i] in rows && bindings[i] !in existing {
          existing := existing + [bindings[i]];
        }
      }
      assert bindings[..|bindings|] == bindings;
    }

    /** `insert_video`. */
    method InsertVideo(v: Video) returns (r: Result<()>)
      requires Valid()
      modifies this
      ensures Valid()
      ensures (r, rows) == InsertRow(old(rows), v)
    {
      if v.id in rows {
        r := Err("Error saving video: " + UniqueViolation);
      } else {
        rows := rows[v.id := StoredRow(v)];
        r := Ok(());
      }
    }

    /** `set_archived`. */
    method SetArchived(id: string, value: bool) returns (r: Result<()>)
      requires Valid()
      modifies this
      ensures Valid()
      ensures (r, rows) == SetArchivedRows(old(rows), id, value)
    {
      var rowsAffected := if id in rows then 1 else 0;
      if rowsAffected != 1 {
        r := Err(IntToString(rowsAffected) + " rows affected");
      } else {
        rows := rows[id := rows[id].(archived := value)];
        r := Ok(());
      }
    }

    /** The `archive` command. */
    method Archive(id: string) returns (r: Result<()>)
      requires Valid()
      modifies this
      ensures Valid()
      ensures rows == SetArchivedRows(old(rows), id, true).1
      ensures r.Ok? <==> id in old(rows)
      ensures r.Err? ==> r.error == "Error archiving video: 0 rows affected"
    {
      r := SetArchived(id, true);
      if r.Err? {
        r := Err("Error archiving video: " + r.error);
      }
    }

    /** The `unarchive` command. */
    method Unarchive(id: string) returns (r: Result<()>)
      requires Valid()
      modifies this
      ensures Valid()
      ensures rows == SetArchivedRows(old(rows), id, false).1
      ensures r.Ok? <==> id in old(rows)
      ensures r.Err? ==> r.error == "Error unarchiving video: 0 rows affected"
    {
      r := SetArchived(id, false);
      if r.Err? {
        r := Err("Error unarchiving video: " + r.error);
      }
    }
  }

  /** Archiving then unarchiving a stored video restores its row. */
  lemma ArchiveUnarchive(rows: Rows, id: string)
    requires id in rows && !rows[id].archived
    ensures SetArchivedRows(SetArchivedRows(rows, id, true).1, id, false).1 == rows
  {
    var once := SetArchivedRows(rows, id, true).1;
    assert SetArchivedRows(once, id, false).1 == once[id := once[id].(archived := false)];
  }

  // ---------------------------------------------------------------------
  // The query of `get_videos`.

  type u16 = x: int | 0 <= x < 0x1_0000

  datatype Options = Options(
    showAll: bool,
    showArchived: bool,
    channelFilter: string,
    tag: Option<string>,
    limit: u16)

  /** Keyset cursor: the sort key of the last video already shown. */
  datatype After = After(publishTimeMs: int, id: string)

  const SelectKw := "SELECT "
  const Star := "*"
  const FromVideos := " FROM videos"
  const WhereKw := " WHERE "
  const AndSep := " AND "
  const InstrOpen := "INSTR(channelName, "
  const InstrClose := ") channelFilter"
  const InstrSelect := InstrOpen + "?" + InstrClose
  const FilterWhere := "channelFilter > 0"
  const ShowArchivedWhere := "archived = 1"
  const HideArchivedWhere := "archived = 0"
  const AfterOpen := "(publishTimeMs,id) < ("
  const Close := ")"
  const AfterWhere := AfterOpen + "?" + Comma + "?" + Close
  const TagOpen := "channelId IN ("
  const OrderBy := " ORDER BY publishTimeMs DESC, id DESC"
  const LimitKw := " LIMIT "

  /** Ids of the channels carrying `tag`, in settings order. */
  function TagChannelIds(channels: seq<Settings.Channel>, tag: string): (ids: seq<string>)
    ensures forall id :: id in ids <==> exists c :: c in channels && tag in c.tags && c.id == id
  {
    if channels == [] then []
    else
      var c := channels[|channels| - 1];
      var prefix := channels[..|channels| - 1];
      assert channels == prefix + [c];
      TagChannelIds(prefix, tag) + (if tag in c.tags then [c.id] else [])
  }

  function TagWhere(n: nat): string {
    TagOpen + Join(Placeholders(n), Comma) + Close
  }

  function SelectList(o: Options): seq<string> {
    [Star] + (if o.channelFilter != "" then [InstrSelect] else [])
  }

  function FilterWheres(o: Options): seq<string> {
    if o.channelFilter != "" then [FilterWhere] else []
  }

  function ArchivedWheres(o: Options): seq<string> {
    if o.showAll then [] else if o.showArchived then [ShowArchivedWhere] else [HideArchivedWhere]
  }

  function AfterWheres(after: Option<After>): seq<string> {
    if after.Some? then [AfterWhere] else []
  }

  function TagWheres(o: Options, channels: seq<Settings.Channel>): seq<string> {
    if o.tag.Some? then [TagWhere(|TagChannelIds(channels, o.tag.value)|)] else []
  }

  /** The conditions, in the order they are pushed. */
  function WhereList(o: Options, after: Option<After>, channels: seq<Settings.Channel>): seq<string> {
    FilterWheres(o) + ArchivedWheres(o) + AfterWheres(after) + TagWheres(o, channels)
  }

  function BindingList(o: Options, after: Option<After>, channels: seq<Settings.Channel>): seq<string> {
    (if o.channelFilter != "" then [o.channelFilter] else [])
    + (if after.Some? then [IntToString(after.value.publishTimeMs), after.value.id] else [])
    + (if o.tag.Some? then TagChannelIds(channels, o.tag.value) else [])
  }

  function WhereText(wheres: seq<string>): string {
    if wheres == [] then "" else WhereKw + Join(wheres, AndSep)
  }

  function QueryText(selects: seq<string>, wheres: seq<string>, limit: u16): string {
    SelectKw + Join(selects, Comma) + FromVideos + WhereText(wheres) + OrderBy + LimitKw + NatToString(limit)
  }

  /** `get_videos`' query text and its bindings, in the order they are bound. */
  method GetVideosQuery(o: Options, after: Option<After>, channels: seq<Settings.Channel>)
    returns (query: string, bindings: seq<string>)
    ensures query == QueryText(SelectList(o), WhereList(o, after, channels), o.limit)
    ensures bindings == BindingList(o, after, channels)
    ensures CountChar(query, '?') == |bindings|
  {
    var selects, wheres;
    selects, wheres, bindings := Clauses(o, after, channels);
    query := AssembleQuery(selects, wheres, o.limit);
    PlaceholdersMatchBindings(o, after, channels);
  }

  /** The select list, the conditions and the bound values, built in the
      order the command pushes them. */
  method Clauses(o: Options, after: Option<After>, channels: seq<Settings.Channel>)
    returns (selects: seq<string>, wheres: seq<string>, bindings: seq<string>)
    ensures selects == SelectList(o)
    ensures wheres == WhereList(o, after, channels)
    ensures bindings == BindingList(o, after, channels)
  {
    selects := [Star];
    wheres := [];
    bindings := [];
    if o.channelFilter != "" {
      selects := selects + [InstrSelect];
      wheres := wheres + [FilterWhere];
      bindings := bindings + [o.channelFilter];
    }
    assert wheres == FilterWheres(o);
    if !o.showAll {
      if o.showArchived {
        wheres := wheres + [ShowArchivedWhere];
      } else {
        wheres := wheres + [HideArchivedWhere];
      }
    }
    assert wheres == FilterWheres(o) + ArchivedWheres(o);
    if after.Some? {
      wheres := wheres + [AfterWhere];
      bindings := bindings + [IntToString(after.value.publishTimeMs), after.value.id];
    }
    assert wheres == FilterWheres(o) + ArchivedWheres(o) + AfterWheres(after);
    if o.tag.Some? {
      var tagged, questionMarks := TaggedChannels(channels, o.tag.value);
      bindings := bindings + tagged;
      wheres := wheres + [TagOpen + Join(questionMarks, Comma) + Close];
    }
  }

  /** The tag filter's loop: one binding and one `?` per channel carrying
      the tag, in settings order. */
  method TaggedChannels(channels: seq<Settings.Channel>, tag: string)
    returns (tagged: seq<string>, questionMarks: seq<string>)
    ensures tagged == TagChannelIds(channels, tag)
    ensures questionMarks == Placeholders(|tagged|)
  {
    questionMarks := [];
    tagged := [];
    for i := 0 to |channels|
      invariant tagged == TagChannelIds(channels[..i], tag)
      invariant questionMarks == Placeholders(|tagged|)
    {
      assert channels[..i + 1][..i] == channels[..i];
      if tag in channels[i].tags {
        tagged := tagged + [channels[i].id];
        questionMarks := questionMarks + ["?"];
      }
    }
    assert channels[..|channels|] == channels;
  }

  /** The text `get_videos` assembles from its select and where lists. */
  method AssembleQuery(selects: seq<string>, wheres: seq<string>, limit: u16) returns (query: string)
    ensures query == QueryText(selects, wheres, limit)
  {
    query := SelectKw + Join(selects, Comma);
    query := query + FromVideos;
    if wheres != [] {
      query := query + WhereKw;
      query := query + Join(wheres, AndSep);
      AppendAssoc(SelectKw + Join(selects, Comma) + FromVideos, WhereKw, Join(wheres, AndSep));
    }
    query := query + OrderBy;
    query := query + LimitKw + NatToString(limit);
  }

  lemma AppendAssoc(a: string, b: string, c: string)
    ensures a + b + c == a + (b + c)
  {
  }

  lemma MarkCount()
    ensures CountChar("?", '?') == 1
  {
    assert "?"[1..] == [];
  }

  lemma InstrSelectCount()
    ensures CountChar(InstrSelect, '?') == 1
  {
    MarkCount();
    PrependAbsent(InstrOpen, "?", '?');
    AppendAbsent(InstrOpen + "?", InstrClose, '?');
  }

  lemma AfterWhereCount()
    ensures CountChar(AfterWhere, '?') == 2
  {
    MarkCount();
    PrependAbsent(AfterOpen, "?", '?');
    AppendAbsent(AfterOpen + "?", Comma, '?');
    CountCharConcat(AfterOpen + "?" + Comma, "?", '?');
    AppendAbsent(AfterOpen + "?" + Comma + "?", Close, '?');
  }

  lemma TagWhereCount(n: nat)
    ensures CountChar(TagWhere(n), '?') == n
  {
    PlaceholderListCount(n);
    PrependAbsent(TagOpen, Join(Placeholders(n), Comma), '?');
    AppendAbsent(TagOpen + Join(Placeholders(n), Comma), Close, '?');
  }

  lemma {:induction false} SumCountConcat(a: seq<string>, b: seq<string>, c: char)
    ensures SumCount(a + b, c) == SumCount(a, c) + SumCount(b, c)
  {
    if a == [] {
      assert a + b == b;
    } else {
      assert (a + b)[0] == a[0];
      assert (a + b)[1..] == a[1..] + b;
      SumCountConcat(a[1..], b, c);
    }
  }

  lemma SingleCount(s: string)
    ensures SumCount([s], '?') == CountChar(s, '?')
  {
    assert [s][1..] == [];
  }

  lemma SelectsCount(o: Options)
    ensures CountChar(Join(SelectList(o), Comma), '?') == if o.channelFilter != "" then 1 else 0
  {
    CountJoin(SelectList(o), Comma, '?');
    CountCharAbsent(Star, '?');
    if o.channelFilter != "" {
      InstrSelectCount();
      SumCountAppend([Star], InstrSelect, '?');
      assert SelectList(o) == [Star] + [InstrSelect];
    } else {
      assert SelectList(o) == [Star];
    }
  }

  lemma FilterWheresCount(o: Options)
    ensures SumCount(FilterWheres(o), '?') == 0
  {
    if o.channelFilter != "" {
      CountCharAbsent(FilterWhere, '?');
      SingleCount(FilterWhere);
    }
  }

  lemma ArchivedWheresCount(o: Options)
    ensures SumCount(ArchivedWheres(o), '?') == 0
  {
    if !o.showAll {
      var w := if o.showArchived then ShowArchivedWhere else HideArchivedWhere;
      CountCharAbsent(w, '?');
      SingleCount(w);
    }
  }

  lemma AfterWheresCount(after: Option<After>)
    ensures SumCount(AfterWheres(after), '?') == if after.Some? then 2 else 0
  {
    if after.Some? {
      AfterWhereCount();
      SingleCount(AfterWhere);
    }
  }

  lemma TagWheresCount(o: Options, channels: seq<Settings.Channel>)
    ensures SumCount(TagWheres(o, channels), '?') == if o.tag.Some? then |TagChannelIds(channels, o.tag.value)| else 0
  {
    if o.tag.Some? {
      var n := |TagChannelIds(channels, o.tag.value)|;
      TagWhereCount(n);
      SingleCount(TagWhere(n));
    }
  }

  lemma WheresCount(o: Options, after: Option<After>, channels: seq<Settings.Channel>)
    ensures SumCount(WhereList(o, after, channels), '?')
            == (if after.Some? then 2 else 0) + (if o.tag.Some? then |TagChannelIds(channels, o.tag.value)| else 0)
  {
    var w1, w2, w3, w4 := FilterWheres(o), ArchivedWheres(o), AfterWheres(after), TagWheres(o, channels);
    SumCountConcat(w1 + w2 + w3, w4, '?');
    SumCountConcat(w1 + w2, w3, '?');
    SumCountConcat(w1, w2, '?');
    FilterWheresCount(o);
    ArchivedWheresCount(o);
    AfterWheresCount(after);
    TagWheresCount(o, channels);
  }

  lemma WhereTextCount(wheres: seq<string>)
    ensures CountChar(WhereText(wheres), '?') == SumCount(wheres, '?')
  {
    if wheres != [] {
      CountJoin(wheres, AndSep, '?');
      PrependAbsent(WhereKw, Join(wheres, AndSep), '?');
    }
  }

  lemma QueryTextCount(selects: seq<string>, wheres: seq<string>, limit: u16)
    ensures CountChar(QueryText(selects, wheres, limit), '?')
            == CountChar(Join(selects, Comma), '?') + CountChar(WhereText(wheres), '?')
  {
    var j := Join(selects, Comma);
    var w := WhereText(wheres);
    PrependAbsent(SelectKw, j, '?');
    AppendAbsent(SelectKw + j, FromVideos, '?');
    CountCharConcat(SelectKw + j + FromVideos, w, '?');
    var x := SelectKw + j + FromVideos + w;
    AppendAbsent(x, OrderBy, '?');
    AppendAbsent(x + OrderBy, LimitKw, '?');
    IntToStringAvoids(limit, '?');
    AppendAbsent(x + OrderBy + LimitKw, NatToString(limit), '?');
  }

  /** Every generated query has exactly as many `?` placeholders as bindings. */
  lemma PlaceholdersMatchBindings(o: Options, after: Option<After>, channels: seq<Settings.Channel>)
    ensures CountChar(QueryText(SelectList(o), WhereList(o, after, channels), o.limit), '?')
            == |BindingList(o, after, channels)|
  {
    QueryTextCount(SelectList(o), WhereList(o, after, channels), o.limit);
    SelectsCount(o);
    WhereTextCount(WhereList(o, after, channels));
    WheresCount(o, after, channels);
  }

  /** A WHERE clause is emitted exactly when some option restricts the rows. */
  lemma WhereIffRestricted(o: Options, after: Option<After>, channels: seq<Settings.Channel>)
    ensures (WhereList(o, after, channels) == []) <==> (o.channelFilter == "" && o.showAll && after.None? && o.tag.None?)
  {
  }

  /** Without `show_all` exactly one archived condition is present, and it
      is the one `show_archived` selects; with it there is none. */
  lemma ArchivedCondition(o: Options, after: Option<After>, channels: seq<Settings.Channel>)
    ensures var w := WhereList(o, after, channels);
      && (o.showAll ==> ShowArchivedWhere !in w && HideArchivedWhere !in w)
      && (!o.showAll && o.showArchived ==> ShowArchivedWhere in w && HideArchivedWhere !in w)
      && (!o.showAll && !o.showArchived ==> HideArchivedWhere in w && ShowArchivedWhere !in w)
  {
    var n := if o.tag.Some? then |TagChannelIds(channels, o.tag.value)| else 0;
    assert TagWhere(n)[0] == 'c';
    assert ShowArchivedWhere[0] == 'a' && HideArchivedWhere[0] == 'a';
    assert FilterWhere[0] == 'c' && AfterWhere[0] == '(';
    assert ShowArchivedWhere != HideArchivedWhere by { assert ShowArchivedWhere[11] != HideArchivedWhere[11]; }
  }

  /** The bindings are the channel filter, then the cursor's publish time and
      id, then one id per tagged channel. */
  lemma BindingOrder(o: Options, after: Option<After>, channels: seq<Settings.Channel>)
    ensures var b := BindingList(o, after, channels);
      var f := if o.channelFilter != "" then 1 else 0;
      && (o.channelFilter != "" ==> b[0] == o.channelFilter)
      && (after.Some? ==> b[f] == IntToString(after.value.publishTimeMs) && b[f + 1] == after.value.id)
      && (o.tag.Some? ==> b[f + (if after.Some? then 2 else 0)..] == TagChannelIds(channels, o.tag.value))
  {
  }

  /** Every query ends with the keyset ordering and the page size. */
  lemma QueryEnding(selects: seq<string>, wheres: seq<string>, limit: u16)
    ensures EndsWith(QueryText(selects, wheres, limit), OrderBy + " LIMIT " + NatToString(limit))
  {
    var q := QueryText(selects, wheres, limit);
    var tail := OrderBy + " LIMIT " + NatToString(limit);
    var head := "SELECT " + Join(selects, ",") + " FROM videos" + WhereText(wheres);
    assert q == head + tail;
    assert q[|q| - |tail|..] == tail;
  }
}
