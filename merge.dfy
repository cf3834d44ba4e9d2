/**
 * The merge of the three collected tables and the preparation of the merged table for upload:
 * left joins of the Instagram and YouTube tables onto the Last.fm table by `artist_id`, all-null
 * platform columns when a table is absent or empty, the weighted data-quality score, and the
 * null-fill rules applied to a copy before upload.
 */
module Merge {
  import opened Wrappers
  import Table

  /** One cell of a pandas frame; `Null` is `None`/`NaN`. */
  datatype Cell = Null | Int(i: int) | Real(r: real) | Str(s: string) | Bool(b: bool)

  /** A row maps column names to cells. */
  type Row = map<string, Cell>

  /** The contents of a frame: its column order and its rows. */
  datatype Frame = Frame(columns: seq<string>, rows: seq<Row>)

  /** The join key; a row without the column is keyed by `Null`. */
  function Key(r: Row): Cell {
    if "artist_id" in r then r["artist_id"] else Null
  }

  /** Every row has a cell for every column. */
  ghost predicate WellFormed(f: Frame) {
    forall i, c :: 0 <= i < |f.rows| && c in f.columns ==> c in f.rows[i]
  }

  // ---- column assignment and null fill -------------------------------------------------------

  /** `df[col] = values`: each row gets its value under `col`; a new column goes last. */
  function AssignSpec(f: Frame, col: string, values: seq<Cell>): Frame
    requires |values| == |f.rows|
  {
    Frame(if col in f.columns then f.columns else f.columns + [col],
          seq(|f.rows|, i requires 0 <= i < |f.rows| => f.rows[i][col := values[i]]))
  }

  /** A cell replaced by `v` when it is null. */
  function FillCell(r: Row, col: string, v: Cell): Row {
    if col in r && r[col].Null? then r[col := v] else r
  }

  /** `df[col] = df[col].fillna(v)` when the frame has the column, the frame unchanged otherwise. */
  function FillSpec(f: Frame, col: string, v: Cell): Frame {
    if col in f.columns then Frame(f.columns, seq(|f.rows|, i requires 0 <= i < |f.rows| => FillCell(f.rows[i], col, v)))
    else f
  }

  /** Each listed column filled in turn. */
  function FillAll(f: Frame, cols: seq<string>, v: Cell): Frame
    decreases |cols|
  {
    if cols == [] then f else FillAll(FillSpec(f, cols[0], v), cols[1..], v)
  }

  /** A pandas frame updated in place by column assignment and `fillna`. */
  class DataFrame {
    var columns: seq<string>
    var rows: seq<Row>

    function Value(): Frame
      reads this
    {
      Frame(columns, rows)
    }

    constructor (f: Frame)
      ensures Value() == f
    {
      columns := f.columns;
      rows := f.rows;
    }

    /** `df.copy()`: a new frame with the same contents. */
    method Copy() returns (d: DataFrame)
      ensures fresh(d) && d.Value() == Value()
    {
      d := new DataFrame(Value());
    }

    method AssignColumn(col: string, values: seq<Cell>)
      requires |values| == |rows|
      modifies this
      ensures Value() == AssignSpec(old(Value()), col, values)
    {
      if col !in columns {
        columns := columns + [col];
      }
      var old_ := rows;
      rows := seq(|old_|, i requires 0 <= i < |old_| => old_[i][col := values[i]]);
    }

    method FillNa(col: string, v: Cell)
      modifies this
      ensures Value() == FillSpec(old(Value()), col, v)
    {
      if col in columns {
        var old_ := rows;
        rows := seq(|old_|, i requires 0 <= i < |old_| => FillCell(old_[i], col, v));
      }
    }
  }

  /** After a fill, the column is never null where the frame has it, and nothing else changes. */
  lemma FillSpecFacts(f: Frame, col: string, v: Cell, i: nat, c: string)
    requires i < |f.rows| && !v.Null?
    ensures FillSpec(f, col, v).columns == f.columns && |FillSpec(f, col, v).rows| == |f.rows|
    ensures var r := FillSpec(f, col, v).rows[i];
      r.Keys == f.rows[i].Keys &&
      (c in r && (c != col || col !in f.columns) ==> r[c] == f.rows[i][c]) &&
      (c in r && c == col && col in f.columns ==> r[c] == (if f.rows[i][c].Null? then v else f.rows[i][c]))
  {
  }

  // ---- joins -----------------------------------------------------------------------------------

  /** The columns taken from a platform table, without the key: `col not in [id, name] or col.startswith(prefix)`. */
  function RightColumns(cols: seq<string>, prefix: string): (r: seq<string>)
    ensures forall k :: 0 <= k < |r| ==> r[k] in cols && r[k] != "artist_id" && (r[k] != "artist_name" || prefix <= r[k])
  {
    if cols == [] then []
    else
      var c := cols[0];
      (if c != "artist_id" && (c != "artist_name" || prefix <= c) then [c] else []) + RightColumns(cols[1..], prefix)
  }

  /** The `suffixes=('', suffix)` rule: a right column whose name the left frame already has is renamed. */
  function Renamed(c: string, leftCols: seq<string>, suffix: string): string {
    if c in leftCols then c + suffix else c
  }

  /** The cell of a matching right row, `Null` when there is none. */
  function CellOf(right: Option<Row>, c: string): Cell {
    if right.Some? && c in right.value then right.value[c] else Null
  }

  /** A left row extended with the right columns of its match (or nulls). */
  function Attach(base: Row, cols: seq<string>, right: Option<Row>, leftCols: seq<string>, suffix: string): (r: Row)
    ensures base.Keys <= r.Keys
    ensures forall k :: 0 <= k < |cols| ==> Renamed(cols[k], leftCols, suffix) in r
    decreases |cols|
  {
    if cols == [] then base
    else Attach(base[Renamed(cols[0], leftCols, suffix) := CellOf(right, cols[0])], cols[1..], right, leftCols, suffix)
  }

  /** A column no right column is renamed to keeps its left value. */
  lemma {:induction false} AttachKeeps(base: Row, cols: seq<string>, right: Option<Row>, leftCols: seq<string>,
                                        suffix: string, c: string)
    requires c in base
    requires forall k :: 0 <= k < |cols| ==> Renamed(cols[k], leftCols, suffix) != c
    ensures Attach(base, cols, right, leftCols, suffix)[c] == base[c]
    decreases |cols|
  {
    if cols != [] {
      var next := base[Renamed(cols[0], leftCols, suffix) := CellOf(right, cols[0])];
      assert forall k :: 0 <= k < |cols[1..]| ==> cols[1..][k] == cols[k + 1];
      AttachKeeps(next, cols[1..], right, leftCols, suffix, c);
    }
  }

  /** Without a match every attached column is null. */
  lemma {:induction false} AttachNone(base: Row, cols: seq<string>, leftCols: seq<string>, suffix: string)
    ensures forall k :: 0 <= k < |cols| ==> Attach(base, cols, None, leftCols, suffix)[Renamed(cols[k], leftCols, suffix)] == Null
    decreases |cols|
  {
    if cols != [] {
      var c0 := Renamed(cols[0], leftCols, suffix);
      var next := base[c0 := Null];
      assert forall k :: 0 <= k < |cols[1..]| ==> cols[1..][k] == cols[k + 1];
      AttachNone(next, cols[1..], leftCols, suffix);
      if forall k :: 0 <= k < |cols[1..]| ==> Renamed(cols[1..][k], leftCols, suffix) != c0 {
        AttachKeeps(next, cols[1..], right := None, leftCols := leftCols, suffix := suffix, c := c0);
      }
    }
  }

  /** `left.merge(right[cols], on='artist_id', how='left', suffixes=('', suffix))`. */
  function MergeLeft(left: Frame, right: Frame, prefix: string, suffix: string): (out: Frame)
    ensures |out.rows| >= |left.rows|
  {
    var rc := RightColumns(right.columns, prefix);
    var joined := Table.LeftJoin(left.rows, right.rows, Key, Key);
    Frame(left.columns + seq(|rc|, k requires 0 <= k < |rc| => Renamed(rc[k], left.columns, suffix)),
          seq(|joined|, i requires 0 <= i < |joined| => Attach(joined[i].0, rc, joined[i].1, left.columns, suffix)))
  }

  /** Neither `artist_id` nor `artist_name` is among the renamed right columns. */
  lemma RenamedAvoidsIdentity(right: Frame, left: Frame, prefix: string, suffix: string, k: nat)
    requires "artist_id" in left.columns && "artist_name" in left.columns
    requires !(prefix <= "artist_name") && suffix != [] && suffix[|suffix| - 1] !in {'d', 'e'}
    requires k < |RightColumns(right.columns, prefix)|
    ensures var c := Renamed(RightColumns(right.columns, prefix)[k], left.columns, suffix);
      c != "artist_id" && c != "artist_name"
  {
    var c := RightColumns(right.columns, prefix)[k];
    if c in left.columns {
      var r := c + suffix;
      assert r[|r| - 1] == suffix[|suffix| - 1];
    }
  }

  /**
   * Every left row is kept; with a unique-keyed right table the join is one-to-one, and each output
   * row keeps its left row's `artist_id` and `artist_name`.
   */
  lemma MergeLeftKeepsLeft(left: Frame, right: Frame, prefix: string, suffix: string)
    requires "artist_id" in left.columns && "artist_name" in left.columns && WellFormed(left)
    requires !(prefix <= "artist_name") && suffix != [] && suffix[|suffix| - 1] !in {'d', 'e'}
    requires Table.UniqueKeys(right.rows, Key)
    ensures var out := MergeLeft(left, right, prefix, suffix);
      |out.rows| == |left.rows| &&
      forall i :: 0 <= i < |left.rows| ==>
        out.rows[i]["artist_id"] == left.rows[i]["artist_id"] && out.rows[i]["artist_name"] == left.rows[i]["artist_name"]
  {
    var rc := RightColumns(right.columns, prefix);
    var joined := Table.LeftJoin(left.rows, right.rows, Key, Key);
    Table.LeftJoinUniqueRight(left.rows, right.rows, Key, Key);
    forall k | 0 <= k < |rc|
      ensures Renamed(rc[k], left.columns, suffix) != "artist_id" && Renamed(rc[k], left.columns, suffix) != "artist_name"
    {
      RenamedAvoidsIdentity(right, left, prefix, suffix, k);
    }
    forall i | 0 <= i < |left.rows|
      ensures MergeLeft(left, right, prefix, suffix).rows[i]["artist_id"] == left.rows[i]["artist_id"]
      ensures MergeLeft(left, right, prefix, suffix).rows[i]["artist_name"] == left.rows[i]["artist_name"]
    {
      assert joined[i].0 == left.rows[i];
      AttachKeeps(left.rows[i], rc, joined[i].1, left.columns, suffix, "artist_id");
      AttachKeeps(left.rows[i], rc, joined[i].1, left.columns, suffix, "artist_name");
    }
  }

  // ---- merge_all_data ----------------------------------------------------------------------------

  const InstagramColumns: seq<string> := ["instagram_handle", "instagram_followers", "instagram_following",
    "instagram_posts", "instagram_avg_likes", "instagram_avg_comments", "instagram_engagement_rate",
    "instagram_reels_count", "instagram_verified"]
  const YouTubeColumns: seq<string> := ["youtube_channel_id", "youtube_subscribers", "youtube_total_views",
    "youtube_video_count", "youtube_avg_views_per_video"]

  /** Each listed column assigned all-null. */
  function NullColumns(f: Frame, cols: seq<string>): (r: Frame)
    ensures |r.rows| == |f.rows| && forall c :: c in f.columns ==> c in r.columns
    decreases |cols|
  {
    if cols == [] then f else NullColumns(AssignSpec(f, cols[0], seq(|f.rows|, _ => Null)), cols[1..])
  }

  /** After the null columns are added, each of them is null in every row, and the row count is unchanged. */
  lemma {:induction false} NullColumnsFacts(f: Frame, cols: seq<string>)
    ensures |NullColumns(f, cols).rows| == |f.rows|
    ensures forall i, k :: 0 <= i < |f.rows| && 0 <= k < |cols| ==>
              cols[k] in NullColumns(f, cols).rows[i] && NullColumns(f, cols).rows[i][cols[k]] == Null
    ensures forall c :: c in cols ==> c in NullColumns(f, cols).columns
    decreases |cols|
  {
    if cols != [] {
      var g := AssignSpec(f, cols[0], seq(|f.rows|, _ => Null));
      NullColumnsFacts(g, cols[1..]);
      assert forall k :: 1 <= k < |cols| ==> cols[k] == cols[1..][k - 1];
      forall i | 0 <= i < |f.rows|
        ensures cols[0] in NullColumns(f, cols).rows[i] && NullColumns(f, cols).rows[i][cols[0]] == Null
      {
        NullColumnsKeep(g, cols[1..], i, cols[0]);
      }
    }
  }

  /** Assigning null columns leaves the other cells alone. */
  lemma {:induction false} NullColumnsKeep(f: Frame, cols: seq<string>, i: nat, c: string)
    requires i < |f.rows| && c in f.rows[i]
    ensures |NullColumns(f, cols).rows| == |f.rows| && c in NullColumns(f, cols).rows[i]
    ensures c !in cols ==> NullColumns(f, cols).rows[i][c] == f.rows[i][c]
    ensures f.rows[i][c] == Null ==> NullColumns(f, cols).rows[i][c] == Null
    decreases |cols|
  {
    if cols != [] {
      var g := AssignSpec(f, cols[0], seq(|f.rows|, _ => Null));
      NullColumnsKeep(g, cols[1..], i, c);
    }
  }

  /** One platform step: the join when the table is present and non-empty, the null columns otherwise. */
  function PlatformStep(merged: Frame, table: Option<Frame>, prefix: string, suffix: string, nullCols: seq<string>): Frame {
    if table.Some? && |table.value.rows| > 0 then MergeLeft(merged, table.value, prefix, suffix)
    else NullColumns(merged, nullCols)
  }

  /** `notna` of a column: present and not null. */
  predicate NotNa(r: Row, c: string) {
    c in r && !r[c].Null?
  }

  /** The data-quality score in tenths: 3 for Last.fm listeners, 4 for Instagram followers, 3 for YouTube subscribers. */
  function QualityTenths(r: Row): (t: nat)
    ensures t <= 10
  {
    (if NotNa(r, "lastfm_listeners") then 3 else 0) + (if NotNa(r, "instagram_followers") then 4 else 0)
    + (if NotNa(r, "youtube_subscribers") then 3 else 0)
  }

  /** The score takes only the six values a weighted sum of three indicators can take. */
  lemma QualityValues(r: Row)
    ensures QualityTenths(r) in {0, 3, 4, 6, 7, 10}
    ensures QualityTenths(r) == 0 <==> !NotNa(r, "lastfm_listeners") && !NotNa(r, "instagram_followers") && !NotNa(r, "youtube_subscribers")
    ensures QualityTenths(r) == 10 <==> NotNa(r, "lastfm_listeners") && NotNa(r, "instagram_followers") && NotNa(r, "youtube_subscribers")
  {
  }

  function QualityCell(r: Row): Cell {
    Real(QualityTenths(r) as real / 10.0)
  }

  /** `merge_all_data` on frame contents; `date` and `now` are the clock readings. */
  /** The metadata columns and the quality score added after the joins. */
  function Finish(f: Frame, date: Cell, now: Cell): (r: Frame)
    ensures |r.rows| == |f.rows|
  {
    var dated := AssignSpec(f, "collection_date", seq(|f.rows|, _ => date));
    var stamped := AssignSpec(dated, "last_updated", seq(|dated.rows|, _ => now));
    AssignSpec(stamped, "data_quality_score", seq(|stamped.rows|, i requires 0 <= i < |stamped.rows| => QualityCell(stamped.rows[i])))
  }

  /** The added columns leave every other cell alone. */
  lemma FinishKeeps(f: Frame, date: Cell, now: Cell, i: nat, c: string)
    requires i < |f.rows| && c in f.rows[i] && c !in ["collection_date", "last_updated", "data_quality_score"]
    ensures c in Finish(f, date, now).rows[i] && Finish(f, date, now).rows[i][c] == f.rows[i][c]
  {
  }

  /** `merge_all_data` on frame contents; `date` and `now` are the clock readings. */
  function MergeSpec(lastfm: Frame, instagram: Option<Frame>, youtube: Option<Frame>, date: Cell, now: Cell): Frame {
    var withIg := PlatformStep(lastfm, instagram, "instagram_", "_ig", InstagramColumns);
    Finish(PlatformStep(withIg, youtube, "youtube_", "_yt", YouTubeColumns), date, now)
  }

  /** Every merged row carries the score of its own completeness, one of the six values. */
  lemma FinishQuality(f: Frame, date: Cell, now: Cell, i: nat)
    requires i < |f.rows|
    ensures var r := Finish(f, date, now).rows[i];
      "data_quality_score" in r && r["data_quality_score"].Real? &&
      r["data_quality_score"].r * 10.0 in {0.0, 3.0, 4.0, 6.0, 7.0, 10.0}
  {
    var dated := AssignSpec(f, "collection_date", seq(|f.rows|, _ => date));
    var stamped := AssignSpec(dated, "last_updated", seq(|dated.rows|, _ => now));
    QualityValues(stamped.rows[i]);
  }

  /** An absent or empty Instagram table gives every row the nine Instagram columns, all null. */
  lemma AbsentInstagramIsNull(lastfm: Frame, instagram: Option<Frame>)
    requires instagram.None? || instagram.value.rows == []
    ensures var step := PlatformStep(lastfm, instagram, "instagram_", "_ig", InstagramColumns);
      |step.rows| == |lastfm.rows| &&
      forall i, k :: 0 <= i < |lastfm.rows| && 0 <= k < |InstagramColumns| ==>
        InstagramColumns[k] in step.rows[i] && step.rows[i][InstagramColumns[k]] == Null
  {
    NullColumnsFacts(lastfm, InstagramColumns);
  }

  /** An absent or empty YouTube table gives every row the five YouTube columns, all null. */
  lemma AbsentYouTubeIsNull(merged: Frame, youtube: Option<Frame>)
    requires youtube.None? || youtube.value.rows == []
    ensures var step := PlatformStep(merged, youtube, "youtube_", "_yt", YouTubeColumns);
      |step.rows| == |merged.rows| &&
      forall i, k :: 0 <= i < |merged.rows| && 0 <= k < |YouTubeColumns| ==>
        YouTubeColumns[k] in step.rows[i] && step.rows[i][YouTubeColumns[k]] == Null
  {
    NullColumnsFacts(merged, YouTubeColumns);
  }

  /** `after` has the rows of `before`, in order, each with the same `artist_id` and `artist_name`. */
  predicate SameArtists(before: Frame, after: Frame) {
    |after.rows| == |before.rows| &&
    forall i :: 0 <= i < |before.rows| && "artist_id" in before.rows[i] && "artist_name" in before.rows[i] ==>
      "artist_id" in after.rows[i] && "artist_name" in after.rows[i] &&
      after.rows[i]["artist_id"] == before.rows[i]["artist_id"] && after.rows[i]["artist_name"] == before.rows[i]["artist_name"]
  }

  lemma SameArtistsTrans(a: Frame, b: Frame, c: Frame)
    requires SameArtists(a, b) && SameArtists(b, c)
    ensures SameArtists(a, c)
  {
  }

  /** The metadata step keeps every artist. */
  lemma FinishSameArtists(f: Frame, date: Cell, now: Cell)
    ensures SameArtists(f, Finish(f, date, now))
  {
    forall i | 0 <= i < |f.rows| && "artist_id" in f.rows[i] && "artist_name" in f.rows[i]
      ensures Finish(f, date, now).rows[i]["artist_id"] == f.rows[i]["artist_id"]
      ensures Finish(f, date, now).rows[i]["artist_name"] == f.rows[i]["artist_name"]
    {
      FinishKeeps(f, date, now, i, "artist_id");
      FinishKeeps(f, date, now, i, "artist_name");
    }
  }

  /** A platform step keeps the rows, their ids and names, when the platform table has unique ids. */
  lemma PlatformStepKeeps(merged: Frame, table: Option<Frame>, prefix: string, suffix: string, nullCols: seq<string>)
    requires "artist_id" in merged.columns && "artist_name" in merged.columns && WellFormed(merged)
    requires !(prefix <= "artist_name") && suffix != [] && suffix[|suffix| - 1] !in {'d', 'e'}
    requires "artist_id" !in nullCols && "artist_name" !in nullCols
    requires table.Some? ==> Table.UniqueKeys(table.value.rows, Key)
    ensures SameArtists(merged, PlatformStep(merged, table, prefix, suffix, nullCols))
  {
    if table.Some? && |table.value.rows| > 0 {
      MergeLeftKeepsLeft(merged, table.value, prefix, suffix);
    } else {
      forall i | 0 <= i < |merged.rows|
        ensures "artist_id" in NullColumns(merged, nullCols).rows[i] && "artist_name" in NullColumns(merged, nullCols).rows[i]
        ensures NullColumns(merged, nullCols).rows[i]["artist_id"] == merged.rows[i]["artist_id"]
        ensures NullColumns(merged, nullCols).rows[i]["artist_name"] == merged.rows[i]["artist_name"]
      {
        NullColumnsKeep(merged, nullCols, i, "artist_id");
        NullColumnsKeep(merged, nullCols, i, "artist_name");
      }
    }
  }

  /** The two platform steps' prefixes and suffixes cannot produce `artist_id` or `artist_name`. */
  lemma StepConstants()
    ensures !("instagram_" <= "artist_name") && "_ig"[|"_ig"| - 1] !in {'d', 'e'}
    ensures !("youtube_" <= "artist_name") && "_yt"[|"_yt"| - 1] !in {'d', 'e'}
    ensures "artist_id" !in InstagramColumns && "artist_name" !in InstagramColumns
    ensures "artist_id" !in YouTubeColumns && "artist_name" !in YouTubeColumns
  {
    assert "instagram_"[0] != "artist_name"[0];
    assert "youtube_"[0] != "artist_name"[0];
  }

  method MergeAllData(lastfm: DataFrame, instagram: DataFrame?, youtube: DataFrame?, date: Cell, now: Cell)
    returns (merged: DataFrame)
    ensures fresh(merged)
    ensures merged.Value() == MergeSpec(old(lastfm.Value()), if instagram == null then None else Some(old(instagram.Value())),
                                        if youtube == null then None else Some(old(youtube.Value())), date, now)
  {
    merged := lastfm.Copy();
    merged := AddPlatforms(merged, instagram, youtube);
    AddMetadata(merged, date, now);
  }

  /** The Instagram block, then the YouTube block. */
  method AddPlatforms(merged: DataFrame, instagram: DataFrame?, youtube: DataFrame?) returns (out: DataFrame)
    requires instagram != merged && youtube != merged
    modifies merged
    ensures out == merged || fresh(out)
    ensures out.Value() == PlatformStep(PlatformStep(old(merged.Value()), if instagram == null then None else Some(old(instagram.Value())),
                                                     "instagram_", "_ig", InstagramColumns),
                                        if youtube == null then None else Some(old(youtube.Value())), "youtube_", "_yt", YouTubeColumns)
  {
    out := AddPlatform(merged, instagram, "instagram_", "_ig", InstagramColumns);
    out := AddPlatform(out, youtube, "youtube_", "_yt", YouTubeColumns);
  }

  /** One platform block of `merge_all_data`: the join into a new frame, or null columns assigned in place. */
  method AddPlatform(merged: DataFrame, table: DataFrame?, prefix: string, suffix: string, nullCols: seq<string>)
    returns (out: DataFrame)
    requires table != merged
    modifies merged
    ensures out == merged || fresh(out)
    ensures out.Value() == PlatformStep(old(merged.Value()), if table == null then None else Some(old(table.Value())), prefix, suffix, nullCols)
  {
    if table != null && |table.rows| > 0 {
      out := new DataFrame(MergeLeft(merged.Value(), table.Value(), prefix, suffix));
    } else {
      AddNullColumns(merged, nullCols);
      out := merged;
    }
  }

  /** The `collection_date`, `last_updated` and `data_quality_score` assignments. */
  method AddMetadata(merged: DataFrame, date: Cell, now: Cell)
    modifies merged
    ensures merged.Value() == Finish(old(merged.Value()), date, now)
  {
    merged.AssignColumn("collection_date", seq(|merged.rows|, _ => date));
    merged.AssignColumn("last_updated", seq(|merged.rows|, _ => now));
    var rows := merged.rows;
    merged.AssignColumn("data_quality_score", seq(|rows|, i requires 0 <= i < |rows| => QualityCell(rows[i])));
  }

  /** The `merged[col] = None` assignments, one column at a time. */
  method AddNullColumns(merged: DataFrame, cols: seq<string>)
    modifies merged
    ensures merged.Value() == NullColumns(old(merged.Value()), cols)
  {
    var i := 0;
    while i < |cols|
      invariant 0 <= i <= |cols|
      invariant NullColumns(old(merged.Value()), cols) == NullColumns(merged.Value(), cols[i..])
    {
      assert cols[i..][1..] == cols[i + 1..];
      merged.AssignColumn(cols[i], seq(|merged.rows|, _ => Null));
      i := i + 1;
    }
  }

  /**
   * With unique-keyed platform tables the merge is one row per Last.fm row, in order, each keeping
   * its Last.fm `artist_id` and `artist_name`.
   */
  lemma MergeKeepsLastfm(lastfm: Frame, instagram: Option<Frame>, youtube: Option<Frame>, date: Cell, now: Cell)
    requires "artist_id" in lastfm.columns && "artist_name" in lastfm.columns && WellFormed(lastfm)
    requires instagram.Some? ==> Table.UniqueKeys(instagram.value.rows, Key)
    requires youtube.Some? ==> Table.UniqueKeys(youtube.value.rows, Key)
    ensures SameArtists(lastfm, MergeSpec(lastfm, instagram, youtube, date, now))
  {
    var withIg := PlatformStep(lastfm, instagram, "instagram_", "_ig", InstagramColumns);
    InstagramStepFacts(lastfm, instagram);
    var withYt := PlatformStep(withIg, youtube, "youtube_", "_yt", YouTubeColumns);
    YouTubeStepFacts(withIg, youtube);
    FinishSameArtists(withYt, date, now);
    SameArtistsTrans(lastfm, withIg, withYt);
    SameArtistsTrans(lastfm, withYt, Finish(withYt, date, now));
  }

  lemma InstagramStepFacts(lastfm: Frame, instagram: Option<Frame>)
    requires "artist_id" in lastfm.columns && "artist_name" in lastfm.columns && WellFormed(lastfm)
    requires instagram.Some? ==> Table.UniqueKeys(instagram.value.rows, Key)
    ensures var out := PlatformStep(lastfm, instagram, "instagram_", "_ig", InstagramColumns);
      SameArtists(lastfm, out) && "artist_id" in out.columns && "artist_name" in out.columns && WellFormed(out)
  {
    StepConstants();
    PlatformStepKeeps(lastfm, instagram, "instagram_", "_ig", InstagramColumns);
    PlatformStepColumns(lastfm, instagram, "instagram_", "_ig", InstagramColumns);
  }

  lemma YouTubeStepFacts(merged: Frame, youtube: Option<Frame>)
    requires "artist_id" in merged.columns && "artist_name" in merged.columns && WellFormed(merged)
    requires youtube.Some? ==> Table.UniqueKeys(youtube.value.rows, Key)
    ensures SameArtists(merged, PlatformStep(merged, youtube, "youtube_", "_yt", YouTubeColumns))
  {
    StepConstants();
    PlatformStepKeeps(merged, youtube, "youtube_", "_yt", YouTubeColumns);
  }

  /** A platform step keeps the left columns and yields a well-formed frame. */
  lemma PlatformStepColumns(merged: Frame, table: Option<Frame>, prefix: string, suffix: string, nullCols: seq<string>)
    requires WellFormed(merged)
    ensures var out := PlatformStep(merged, table, prefix, suffix, nullCols);
      (forall c :: c in merged.columns ==> c in out.columns) && WellFormed(out)
  {
    var out := PlatformStep(merged, table, prefix, suffix, nullCols);
    if table.Some? && |table.value.rows| > 0 {
      var right := table.value;
      var rc := RightColumns(right.columns, prefix);
      var joined := Table.LeftJoin(merged.rows, right.rows, Key, Key);
      forall i, c | 0 <= i < |out.rows| && c in out.columns
        ensures c in out.rows[i]
      {
        assert joined[i].0 in merged.rows;
        if c !in merged.columns {
          var k :| 0 <= k < |rc| && c == Renamed(rc[k], merged.columns, suffix);
        }
      }
    } else {
      NullColumnsWellFormed(merged, nullCols);
    }
  }

  lemma {:induction false} NullColumnsWellFormed(f: Frame, cols: seq<string>)
    requires WellFormed(f)
    ensures WellFormed(NullColumns(f, cols)) && forall c :: c in f.columns ==> c in NullColumns(f, cols).columns
    decreases |cols|
  {
    if cols != [] {
      NullColumnsWellFormed(AssignSpec(f, cols[0], seq(|f.rows|, _ => Null)), cols[1..]);
    }
  }

  // ---- upload_to_bigquery fill rules ---------------------------------------------------------

  const IntColumns: seq<string> := ["lastfm_listeners", "lastfm_playcount", "instagram_followers",
    "instagram_following", "instagram_posts", "youtube_subscribers", "youtube_total_views", "youtube_video_count"]
  const FloatColumns: seq<string> := ["lastfm_playcount_per_listener", "instagram_avg_likes",
    "instagram_avg_comments", "instagram_engagement_rate", "youtube_avg_views_per_video", "data_quality_score"]

  /** The frame that is uploaded: null `instagram_verified` to False, listed integer columns to 0, listed float columns to 0.0. */
  function UploadSpec(f: Frame): Frame {
    FillAll(FillAll(FillSpec(f, "instagram_verified", Bool(false)), IntColumns, Int(0)), FloatColumns, Real(0.0))
  }

  /** The value a fill leaves in one cell of the upload. */
  function UploadedCell(c: string, x: Cell): Cell {
    if !x.Null? then x
    else if c == "instagram_verified" then Bool(false)
    else if c in IntColumns then Int(0)
    else if c in FloatColumns then Real(0.0)
    else Null
  }

  /** One fill over a list of columns: a listed column present in the frame loses its nulls, the rest is kept. */
  lemma {:induction false} FillAllFacts(f: Frame, cols: seq<string>, v: Cell, i: nat, c: string)
    requires i < |f.rows| && !v.Null?
    ensures FillAll(f, cols, v).columns == f.columns && |FillAll(f, cols, v).rows| == |f.rows|
    ensures FillAll(f, cols, v).rows[i].Keys == f.rows[i].Keys
    ensures c in f.rows[i] ==>
              FillAll(f, cols, v).rows[i][c] == (if c in cols && c in f.columns && f.rows[i][c].Null? then v else f.rows[i][c])
    decreases |cols|
  {
    if cols != [] {
      var g := FillSpec(f, cols[0], v);
      FillSpecFacts(f, cols[0], v, i, c);
      FillAllFacts(g, cols[1..], v, i, c);
    }
  }

  /**
   * In the uploaded frame a row has the same columns, and each cell of a column the frame has is
   * what `UploadedCell` says: nulls in the listed columns are filled, everything else is unchanged.
   */
  lemma UploadFacts(f: Frame, i: nat, c: string)
    requires i < |f.rows| && c in f.rows[i] && c in f.columns
    ensures |UploadSpec(f).rows| == |f.rows| && UploadSpec(f).rows[i].Keys == f.rows[i].Keys
    ensures UploadSpec(f).rows[i][c] == UploadedCell(c, f.rows[i][c])
  {
    var g := FillSpec(f, "instagram_verified", Bool(false));
    FillSpecFacts(f, "instagram_verified", Bool(false), i, c);
    var h := FillAll(g, IntColumns, Int(0));
    FillAllFacts(g, IntColumns, Int(0), i, c);
    FillAllFacts(h, FloatColumns, Real(0.0), i, c);
  }

  /** `upload_to_bigquery` up to the load job: the fills are applied to a copy, never to `df`. */
  method PrepareUpload(df: DataFrame) returns (up: DataFrame)
    ensures fresh(up) && up.Value() == UploadSpec(df.Value())
  {
    up := df.Copy();
    up.FillNa("instagram_verified", Bool(false));
    FillColumns(up, IntColumns, Int(0));
    FillColumns(up, FloatColumns, Real(0.0));
  }

  /** One of the `for col in cols` fill loops. */
  method FillColumns(up: DataFrame, cols: seq<string>, v: Cell)
    modifies up
    ensures up.Value() == FillAll(old(up.Value()), cols, v)
  {
    var i := 0;
    while i < |cols|
      invariant 0 <= i <= |cols|
      invariant FillAll(old(up.Value()), cols, v) == FillAll(up.Value(), cols[i..], v)
    {
      assert cols[i..][1..] == cols[i + 1..];
      up.FillNa(cols[i], v);
      i := i + 1;
    }
  }
}
