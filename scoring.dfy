/**
 * The scoring query that `generate_sql_file` writes: the six score columns of `artist_scores`, the
 * WHERE filter that selects emerging artists from `artist_raw_data`, and the ORDER BY. The query is
 * modelled with SQL's own value rules: every column may be NULL, arithmetic and comparisons on NULL
 * give NULL, and a WHERE or CASE condition holds only when it is TRUE.
 */
module Scoring {
  import opened Wrappers
  import Merge

  // ---- SQL values and three-valued logic ------------------------------------------------------

  /** A numeric SQL value: `None` is NULL. INT64 columns are carried as their exact real value. */
  type Num = Option<real>

  /** The three truth values of SQL. */
  datatype Truth = True | False | Unknown

  function And3(a: Truth, b: Truth): (r: Truth)
    ensures r == True <==> a == True && b == True
    ensures r == False <==> a == False || b == False
  {
    if a == False || b == False then False else if a == True && b == True then True else Unknown
  }

  function Or3(a: Truth, b: Truth): (r: Truth)
    ensures r == True <==> a == True || b == True
    ensures r == False <==> a == False && b == False
  {
    if a == True || b == True then True else if a == False && b == False then False else Unknown
  }

  function Holds(b: bool): Truth {
    if b then True else False
  }

  /** `a > b` */
  function Gt(a: Num, b: Num): (r: Truth)
    ensures r == Unknown <==> a.None? || b.None?
    ensures r == True <==> a.Some? && b.Some? && a.value > b.value
  {
    if a.None? || b.None? then Unknown else Holds(a.value > b.value)
  }

  /** `a >= b` */
  function Ge(a: Num, b: Num): (r: Truth)
    ensures r == True <==> a.Some? && b.Some? && a.value >= b.value
  {
    if a.None? || b.None? then Unknown else Holds(a.value >= b.value)
  }

  /** `x BETWEEN lo AND hi` */
  function Between(x: Num, lo: real, hi: real): (r: Truth)
    ensures r == True <==> x.Some? && lo <= x.value <= hi
  {
    And3(Ge(x, Some(lo)), Ge(Some(hi), x))
  }

  /** `x IS NULL`, the one test that is never UNKNOWN. */
  function IsNull(x: Num): (r: Truth)
    ensures r != Unknown && (r == True <==> x.None?)
  {
    Holds(x.None?)
  }

  /** `x IN (list)` for a string column. */
  function InList(x: Option<string>, list: seq<string>): (r: Truth)
    ensures r == True <==> x.Some? && x.value in list
  {
    if x.None? then Unknown else Holds(x.value in list)
  }

  /** `a + b`, NULL when either side is. */
  function Add(a: Num, b: Num): (r: Num)
    ensures r.Some? <==> a.Some? && b.Some?
    ensures r.Some? ==> r.value == a.value + b.value
  {
    if a.Some? && b.Some? then Some(a.value + b.value) else None
  }

  function Sub(a: Num, b: Num): (r: Num)
    ensures r.Some? <==> a.Some? && b.Some?
    ensures r.Some? ==> r.value + b.value == a.value
  {
    if a.Some? && b.Some? then Some(a.value - b.value) else None
  }

  function Mul(a: Num, b: Num): (r: Num)
    ensures r.Some? <==> a.Some? && b.Some?
    ensures r.Some? ==> r.value == a.value * b.value
  {
    if a.Some? && b.Some? then Some(a.value * b.value) else None
  }

  /** `a / b`: BigQuery's `/` raises an error on a zero divisor, so a caller must rule one out. */
  function Div(a: Num, b: Num): (r: Num)
    requires b.Some? ==> b.value != 0.0
    ensures r.Some? <==> a.Some? && b.Some?
    ensures r.Some? ==> r.value * b.value == a.value
  {
    if a.Some? && b.Some? then Some(a.value / b.value) else None
  }

  /** `SAFE_DIVIDE(a, b)`: NULL instead of the error when `b` is zero. */
  function SafeDivide(a: Num, b: Num): (r: Num)
    ensures r.Some? <==> a.Some? && b.Some? && b.value != 0.0
    ensures r.Some? ==> r.value * b.value == a.value
  {
    if a.Some? && b.Some? && b.value != 0.0 then Some(a.value / b.value) else None
  }

  /** `NULLIF(a, z)` */
  function NullIf(a: Num, z: real): (r: Num)
    ensures r.Some? <==> a.Some? && a.value != z
    ensures r.Some? ==> r.value == a.value
  {
    if a.Some? && a.value != z then a else None
  }

  /** `LEAST(a, b)` and `GREATEST(a, b)`: NULL when either argument is. */
  function Least(a: Num, b: Num): (r: Num)
    ensures r.Some? <==> a.Some? && b.Some?
    ensures r.Some? ==> r.value <= a.value && r.value <= b.value && (r.value == a.value || r.value == b.value)
  {
    if a.Some? && b.Some? then Some(if a.value <= b.value then a.value else b.value) else None
  }

  function Greatest(a: Num, b: Num): (r: Num)
    ensures r.Some? <==> a.Some? && b.Some?
    ensures r.Some? ==> r.value >= a.value && r.value >= b.value && (r.value == a.value || r.value == b.value)
  {
    if a.Some? && b.Some? then Some(if a.value >= b.value then a.value else b.value) else None
  }

  function Lit(x: real): Num {
    Some(x)
  }

  function IntNum(x: Option<int>): (r: Num)
    ensures r.Some? <==> x.Some?
    ensures r.Some? ==> r.value == x.value as real
  {
    if x.Some? then Some(x.value as real) else None
  }

  // ---- the row the query reads ----------------------------------------------------------------

  /**
   * A row of `artist_raw_data`: the columns the query computes with, and the cells of the columns
   * it copies unchanged (see `Copied`), keyed by column name.
   */
  datatype RawRow = RawRow(genre: Option<string>, listeners: Option<int>, playsPerListener: Num,
                           followers: Option<int>, engagementRate: Num, subscribers: Option<int>,
                           quality: Num, copied: map<string, Merge.Cell>)

  /** The columns the SELECT list passes through without computing with them. */
  const Copied: set<string> := {"artist_id", "artist_name", "collection_date", "lastfm_playcount", "instagram_handle",
                                "instagram_avg_likes", "youtube_channel_id", "youtube_total_views",
                                "youtube_avg_views_per_video"}

  function Listeners(r: RawRow): Num { IntNum(r.listeners) }
  function Followers(r: RawRow): Num { IntNum(r.followers) }
  function Subscribers(r: RawRow): Num { IntNum(r.subscribers) }

  /** `growth_potential` */
  datatype Growth = High | Medium | Low

  // ---- the score columns ----------------------------------------------------------------------

  /** `SAFE_DIVIDE(instagram_followers, NULLIF(lastfm_listeners, 0))` */
  function UnderratedRatio(r: RawRow): (x: Num)
    ensures x.Some? <==> r.followers.Some? && r.listeners.Some? && r.listeners.value != 0
    ensures x.Some? ==> x.value * r.listeners.value as real == r.followers.value as real
  {
    SafeDivide(Followers(r), NullIf(Listeners(r), 0.0))
  }

  /** `LEAST(instagram_engagement_rate * 2, 10)`: twice the rate, capped at 10. */
  function EngagementScore(r: RawRow): (x: Num)
    ensures x.Some? <==> r.engagementRate.Some?
    ensures x.Some? ==> x.value <= 10.0 && x.value <= 2.0 * r.engagementRate.value
    ensures x.Some? ==> (x.value == 10.0 || x.value == 2.0 * r.engagementRate.value)
  {
    Least(Mul(r.engagementRate, Lit(2.0)), Lit(10.0))
  }

  /** `CASE WHEN cond THEN 1 ELSE 0 END` */
  function CaseOne(cond: Truth): (n: nat)
    ensures n == 1 <==> cond == True
    ensures n <= 1
  {
    if cond == True then 1 else 0
  }

  /** The three `CASE WHEN ... THEN 1 ELSE 0 END` terms of `platform_count`, added. */
  function PlatformCount(r: RawRow): (n: nat)
    ensures n <= 3
    ensures n == 0 <==> !(r.listeners.Some? && r.listeners.value > 5000) && !(r.followers.Some? && r.followers.value > 10000)
                        && !(r.subscribers.Some? && r.subscribers.value > 1000)
    ensures n == 3 <==> r.listeners.Some? && r.listeners.value > 5000 && r.followers.Some? && r.followers.value > 10000
                        && r.subscribers.Some? && r.subscribers.value > 1000
  {
    CaseOne(Gt(Listeners(r), Lit(5000.0))) + CaseOne(Gt(Followers(r), Lit(10000.0))) + CaseOne(Gt(Subscribers(r), Lit(1000.0)))
  }

  /** The CASE of `growth_potential`; a NULL comparison falls through to `Low`. */
  function GrowthPotential(r: RawRow): (g: Growth)
    ensures g == High <==> r.followers.Some? && r.listeners.Some? && r.followers.value > 2 * r.listeners.value
    ensures g == Medium <==> r.followers.Some? && r.listeners.Some? && r.listeners.value < r.followers.value <= 2 * r.listeners.value
  {
    if Gt(Followers(r), Mul(Listeners(r), Lit(2.0))) == True then High
    else if Gt(Followers(r), Listeners(r)) == True then Medium
    else Low
  }

  /** `NULLIF(GREATEST(lastfm_listeners, 1), 0)`: the listener count floored at 1; the NULLIF never applies. */
  function Denominator(r: RawRow): (d: Num)
    ensures d.Some? <==> r.listeners.Some?
    ensures d.Some? ==> d.value >= 1.0
    ensures d.Some? ==> d.value == if r.listeners.value >= 1 then r.listeners.value as real else 1.0
  {
    NullIf(Greatest(Listeners(r), Lit(1.0)), 0.0)
  }

  /** The weighted sum above the division of `priority_score`. */
  function Numerator(r: RawRow): (x: Num)
    ensures x.Some? <==> r.followers.Some? && r.engagementRate.Some? && r.subscribers.Some? && r.playsPerListener.Some?
    ensures x.Some? ==> x.value == 0.3 * r.followers.value as real + 0.4 * r.engagementRate.value * r.followers.value as real
                                   + 0.2 * r.subscribers.value as real + 0.1 * 1000.0 * r.playsPerListener.value
  {
    Add(Add(Add(Mul(Followers(r), Lit(0.3)), Mul(Mul(r.engagementRate, Followers(r)), Lit(0.4))),
            Mul(Subscribers(r), Lit(0.2))),
        Mul(Mul(r.playsPerListener, Lit(1000.0)), Lit(0.1)))
  }

  /**
   * `priority_score`: the weighted sum over the floored listener count. The division is always
   * defined (the `Div` precondition), and the score is NULL exactly when one of its five inputs is.
   */
  function PriorityScore(r: RawRow): (p: Num)
    ensures p.Some? <==> r.followers.Some? && r.engagementRate.Some? && r.subscribers.Some? && r.playsPerListener.Some?
                         && r.listeners.Some?
    ensures p.Some? ==> p.value * Denominator(r).value == Numerator(r).value
  {
    Div(Numerator(r), Denominator(r))
  }

  /** `instagram_followers - lastfm_listeners` */
  function FollowerGap(r: RawRow): (x: Num)
    ensures x.Some? <==> r.followers.Some? && r.listeners.Some?
    ensures x.Some? ==> x.value == (r.followers.value - r.listeners.value) as real
  {
    Sub(Followers(r), Listeners(r))
  }

  // ---- properties of the scores -------------------------------------------------------------------

  /** With a positive listener count the growth category is a band of the underrated ratio. */
  lemma GrowthAgreesWithRatio(r: RawRow)
    requires r.listeners.Some? && r.listeners.value > 0 && r.followers.Some?
    ensures UnderratedRatio(r).Some?
    ensures GrowthPotential(r) == High <==> UnderratedRatio(r).value > 2.0
    ensures GrowthPotential(r) == Medium <==> 1.0 < UnderratedRatio(r).value <= 2.0
    ensures GrowthPotential(r) == Low <==> UnderratedRatio(r).value <= 1.0
  {
    var x := UnderratedRatio(r).value;
    var l := r.listeners.value as real;
    var f := r.followers.value as real;
    ScaleCompare(x, 2.0, l, f);
    ScaleCompare(x, 1.0, l, f);
  }

  /** Multiplying both sides by a positive number keeps the order. */
  lemma ScaleCompare(x: real, c: real, l: real, f: real)
    requires l > 0.0 && x * l == f
    ensures x > c <==> f > c * l
  {
    if x > c {
      assert (x - c) * l > 0.0;
    } else {
      assert (c - x) * l >= 0.0;
    }
  }

  /** With at least one listener the floored denominator is the listener count, so the score is a plain quotient. */
  lemma PriorityOverListeners(r: RawRow)
    requires r.listeners.Some? && r.listeners.value >= 1
    requires PriorityScore(r).Some?
    ensures PriorityScore(r).value * r.listeners.value as real == Numerator(r).value
  {
  }

  /**
   * Zero listeners and a positive follower count: the ratio is NULL, the growth is `High`, and the score
   * is the whole weighted sum, since the denominator is floored at 1.
   */
  lemma ZeroListeners(r: RawRow)
    requires r.listeners == Some(0) && r.followers.Some? && r.followers.value > 0
    ensures UnderratedRatio(r).None?
    ensures GrowthPotential(r) == High
    ensures PriorityScore(r).Some? ==> PriorityScore(r).value == Numerator(r).value
  {
  }

  /** A scenario: 50000 listeners, 120000 followers, a 3.0 % engagement rate, 8000 subscribers, 4.0 plays per listener. */
  lemma ScenarioExample(r: RawRow)
    requires r.listeners == Some(50000) && r.followers == Some(120000) && r.engagementRate == Some(3.0)
    requires r.subscribers == Some(8000) && r.playsPerListener == Some(4.0)
    ensures UnderratedRatio(r) == Some(2.4)
    ensures EngagementScore(r) == Some(6.0)
    ensures GrowthPotential(r) == High
    ensures PlatformCount(r) == 3
    ensures PriorityScore(r) == Some(3.64)
    ensures FollowerGap(r) == Some(70000.0)
  {
    assert Numerator(r).value == 182000.0;
    assert Denominator(r).value == 50000.0;
    assert PriorityScore(r).value * 50000.0 == 182000.0;
  }

  // ---- the WHERE filter -----------------------------------------------------------------------

  const Genres: seq<string> := ["jazz", "folk", "alternative", "soul", "indie", "indie folk", "blues", "rnb",
    "nu jazz", "funk", "piano", "80s", "unknown"]

  /** The WHERE clause, evaluated in three-valued logic. */
  function Where(r: RawRow): Truth {
    And3(And3(And3(And3(And3(
      InList(r.genre, Genres),
      Between(Listeners(r), 5000.0, 200000.0)),
      Or3(IsNull(Followers(r)), Between(Followers(r), 1000.0, 100000.0))),
      Or3(IsNull(r.engagementRate), Gt(r.engagementRate, Lit(1.0)))),
      Ge(r.quality, Lit(0.3))),
      Gt(Listeners(r), Lit(0.0)))
  }

  /** A row is selected only when the WHERE clause is TRUE; FALSE and UNKNOWN both drop it. */
  predicate Retained(r: RawRow) {
    Where(r) == True
  }

  /**
   * The filter in two-valued terms: a known genre from the list, a known listener count in
   * [5000, 200000], followers unknown or in [1000, 100000], engagement unknown or above 1.0, and a
   * known quality of at least 0.3.
   */
  lemma RetainedIff(r: RawRow)
    ensures Retained(r) <==>
      r.genre.Some? && r.genre.value in Genres &&
      r.listeners.Some? && 5000 <= r.listeners.value <= 200000 &&
      (r.followers.None? || 1000 <= r.followers.value <= 100000) &&
      (r.engagementRate.None? || r.engagementRate.value > 1.0) &&
      r.quality.Some? && r.quality.value >= 0.3
  {
  }

  /** A retained row always has a ratio, and its score, when known, divides by the listener count itself. */
  lemma RetainedScores(r: RawRow)
    requires Retained(r)
    ensures r.followers.Some? ==> UnderratedRatio(r).Some?
    ensures Denominator(r) == Some(r.listeners.value as real)
    ensures PriorityScore(r).Some? ==> PriorityScore(r).value * r.listeners.value as real == Numerator(r).value
  {
    RetainedIff(r);
  }

  // ---- the scored table -----------------------------------------------------------------------

  /** One row of `artist_scores`: the columns read from the raw row, and the six computed ones. */
  datatype Scored = Scored(raw: RawRow, underratedRatio: Num, engagementScore: Num, platformCount: nat,
                           growthPotential: Growth, priorityScore: Num, followerGap: Num)

  function Score(r: RawRow): Scored {
    Scored(r, UnderratedRatio(r), EngagementScore(r), PlatformCount(r), GrowthPotential(r), PriorityScore(r), FollowerGap(r))
  }

  /** The SELECT list applied to the rows the WHERE clause keeps, in table order. */
  function Select(rows: seq<RawRow>): (out: seq<Scored>)
    ensures forall k :: 0 <= k < |out| ==> Retained(out[k].raw) && out[k] == Score(out[k].raw) && out[k].raw in rows
    ensures forall k :: 0 <= k < |rows| && Retained(rows[k]) ==> Score(rows[k]) in out
    ensures |out| <= |rows|
  {
    if rows == [] then []
    else (if Retained(rows[0]) then [Score(rows[0])] else []) + Select(rows[1..])
  }

  /** A single row is kept, scored, exactly when the WHERE clause retains it. */
  lemma SelectOne(r: RawRow)
    ensures Select([r]) == if Retained(r) then [Score(r)] else []
  {
    assert [r][1..] == [];
  }

  /** The WHERE clause judges each row on its own: the selection of a concatenation is the concatenation of the selections. */
  lemma {:induction false} SelectSplit(a: seq<RawRow>, b: seq<RawRow>)
    ensures Select(a + b) == Select(a) + Select(b)
  {
    if a != [] {
      SelectSplit(a[1..], b);
      assert (a + b)[1..] == a[1..] + b;
    } else {
      assert a + b == b;
    }
  }

  /** `priority_score DESC` with BigQuery's default `NULLS LAST` for a descending key: may `a` come before `b`. */
  predicate Before(a: Num, b: Num) {
    b.None? || (a.Some? && a.value >= b.value)
  }

  predicate SortedByPriority(s: seq<Scored>) {
    forall i, j :: 0 <= i < j < |s| ==> Before(s[i].priorityScore, s[j].priorityScore)
  }

  /** `x` placed before the first element it may precede. */
  function Insert(x: Scored, s: seq<Scored>): (r: seq<Scored>)
    requires SortedByPriority(s)
    ensures multiset(r) == multiset(s) + multiset{x}
    ensures SortedByPriority(r)
  {
    if s == [] || Before(x.priorityScore, s[0].priorityScore) then [x] + s
    else
      var rest := Insert(x, s[1..]);
      assert s == [s[0]] + s[1..];
      PrecedesAll(s[0], x, s[1..], rest);
      [s[0]] + rest
  }

  /** `y` may precede every element of `t` and `x`, hence every element of an arrangement of them; so `[y] + r` stays sorted. */
  lemma PrecedesAll(y: Scored, x: Scored, t: seq<Scored>, r: seq<Scored>)
    requires SortedByPriority([y] + t) && Before(y.priorityScore, x.priorityScore)
    requires SortedByPriority(r) && multiset(r) == multiset(t) + multiset{x}
    ensures SortedByPriority([y] + r)
  {
    forall k | 0 <= k < |r| ensures Before(y.priorityScore, r[k].priorityScore) {
      assert r[k] in multiset(r);
      if r[k] != x {
        assert r[k] in multiset(t);
        var m :| 0 <= m < |t| && t[m] == r[k];
        assert ([y] + t)[0] == y && ([y] + t)[m + 1] == t[m];
      }
    }
    var yr := [y] + r;
    forall i, j | 0 <= i < j < |yr| ensures Before(yr[i].priorityScore, yr[j].priorityScore) {
      if i > 0 {
        assert yr[i] == r[i - 1] && yr[j] == r[j - 1];
      } else {
        assert yr[j] == r[j - 1];
      }
    }
  }

  /** One order the ORDER BY may produce; ties are left in an order the engine does not promise. */
  function SortByPriority(s: seq<Scored>): (r: seq<Scored>)
    ensures multiset(r) == multiset(s)
    ensures SortedByPriority(r)
  {
    if s == [] then []
    else
      assert s == [s[0]] + s[1..];
      Insert(s[0], SortByPriority(s[1..]))
  }

  /** The whole query: filter, score, order. */
  function ScoreQuery(rows: seq<RawRow>): seq<Scored> {
    SortByPriority(Select(rows))
  }

  /**
   * The query result is ordered by descending score, holds the scored form of exactly the retained
   * rows, and each row carries its own scores.
   */
  lemma ScoreQueryFacts(rows: seq<RawRow>)
    ensures SortedByPriority(ScoreQuery(rows))
    ensures multiset(ScoreQuery(rows)) == multiset(Select(rows))
    ensures forall x :: x in ScoreQuery(rows) ==> Retained(x.raw) && x == Score(x.raw)
    ensures forall k :: 0 <= k < |rows| && Retained(rows[k]) ==> Score(rows[k]) in ScoreQuery(rows)
    ensures |ScoreQuery(rows)| == |Select(rows)|
  {
    assert |ScoreQuery(rows)| == |multiset(ScoreQuery(rows))|;
    var sel := Select(rows);
    forall x | x in ScoreQuery(rows)
      ensures Retained(x.raw) && x == Score(x.raw)
    {
      assert x in multiset(sel);
    }
    forall k | 0 <= k < |rows| && Retained(rows[k])
      ensures Score(rows[k]) in ScoreQuery(rows)
    {
      assert Score(rows[k]) in multiset(sel);
    }
  }

  /** Each input row contributes its scored form to the query result once if retained and not at all otherwise. */
  lemma ScoreQueryOne(r: RawRow)
    ensures multiset(ScoreQuery([r])) == if Retained(r) then multiset{Score(r)} else multiset{}
  {
    SelectOne(r);
  }

  /** The query neither merges nor duplicates rows: the result of a concatenation is the union of the results with multiplicity. */
  lemma ScoreQuerySplit(a: seq<RawRow>, b: seq<RawRow>)
    ensures multiset(ScoreQuery(a + b)) == multiset(ScoreQuery(a)) + multiset(ScoreQuery(b))
  {
    SelectSplit(a, b);
  }

  /** Two retained rows, even equal ones, give two result rows. */
  lemma EqualRowsKept(r: RawRow)
    requires Retained(r)
    ensures multiset(ScoreQuery([r, r]))[Score(r)] == 2
  {
    assert [r, r] == [r] + [r];
    ScoreQuerySplit([r], [r]);
    ScoreQueryOne(r);
  }

  // ---- reading the uploaded table -------------------------------------------------------------

  function IntCell(c: Merge.Cell): Option<int> {
    if c.Int? then Some(c.i) else None
  }

  function RealCell(c: Merge.Cell): Num {
    if c.Real? then Some(c.r) else if c.Int? then Some(c.i as real) else None
  }

  function StrCell(c: Merge.Cell): Option<string> {
    if c.Str? then Some(c.s) else None
  }

  function Column<T>(row: Merge.Row, c: string, read: Merge.Cell -> Option<T>): Option<T> {
    if c in row then read(row[c]) else None
  }

  /** A merged row as the query reads it from the warehouse; a missing column is NULL. */
  function FromMerged(row: Merge.Row): RawRow {
    RawRow(Column(row, "primary_genre", StrCell), Column(row, "lastfm_listeners", IntCell),
           Column(row, "lastfm_playcount_per_listener", RealCell), Column(row, "instagram_followers", IntCell),
           Column(row, "instagram_engagement_rate", RealCell), Column(row, "youtube_subscribers", IntCell),
           Column(row, "data_quality_score", RealCell), map c | c in Copied && c in row :: row[c])
  }

  /** Every column the SELECT copies reaches the scored row unchanged; a missing one stays missing (NULL). */
  lemma CopiedColumns(row: Merge.Row, c: string)
    requires c in Copied
    ensures c in row <==> c in Score(FromMerged(row)).raw.copied
    ensures c in row ==> Score(FromMerged(row)).raw.copied[c] == row[c]
  {
  }

  /**
   * The upload fills a null `instagram_followers` with 0 before the query runs, and 0 is outside
   * [1000, 100000]: a merged artist without Instagram followers is never retained, so the
   * `instagram_followers IS NULL` branch of the filter never applies to uploaded rows.
   */
  lemma UploadedWithoutFollowersIsDropped(f: Merge.Frame, i: nat)
    requires i < |f.rows| && "instagram_followers" in f.columns && "instagram_followers" in f.rows[i]
    requires f.rows[i]["instagram_followers"] == Merge.Null
    ensures i < |Merge.UploadSpec(f).rows|
    ensures FromMerged(Merge.UploadSpec(f).rows[i]).followers == Some(0)
    ensures !Retained(FromMerged(Merge.UploadSpec(f).rows[i]))
  {
    Merge.UploadFacts(f, i, "instagram_followers");
    RetainedIff(FromMerged(Merge.UploadSpec(f).rows[i]));
  }

  /** The same holds for a null engagement rate, which the upload turns into 0.0. */
  lemma UploadedWithoutEngagementIsDropped(f: Merge.Frame, i: nat)
    requires i < |f.rows| && "instagram_engagement_rate" in f.columns && "instagram_engagement_rate" in f.rows[i]
    requires f.rows[i]["instagram_engagement_rate"] == Merge.Null
    ensures i < |Merge.UploadSpec(f).rows|
    ensures FromMerged(Merge.UploadSpec(f).rows[i]).engagementRate == Some(0.0)
    ensures !Retained(FromMerged(Merge.UploadSpec(f).rows[i]))
  {
    Merge.UploadFacts(f, i, "instagram_engagement_rate");
    RetainedIff(FromMerged(Merge.UploadSpec(f).rows[i]));
  }

  // ---- generate_sql_file ------------------------------------------------------------------------

  const DefaultDataset := "artist_discovery"

  /** The tables the generated statement names. */
  datatype SqlFile = SqlFile(project: string, dataset: string, target: string, source: string)

  /**
   * `generate_sql_file` on its two environment readings: nothing is generated when the project id is
   * missing, empty or still the `your...` placeholder; the dataset defaults to `artist_discovery`.
   */
  function GenerateSqlFile(projectId: Option<string>, datasetId: Option<string>): (r: Option<SqlFile>)
    ensures r.None? <==> projectId.None? || projectId.value == "" || "your" <= projectId.value
    ensures r.Some? ==> r.value.project == projectId.value
    ensures r.Some? ==> r.value.dataset == (if datasetId.Some? then datasetId.value else DefaultDataset)
  {
    if projectId.None? || projectId.value == "" || "your" <= projectId.value then None
    else
      var dataset := if datasetId.Some? then datasetId.value else DefaultDataset;
      var prefix := projectId.value + "." + dataset + ".";
      Some(SqlFile(projectId.value, dataset, prefix + "artist_scores", prefix + "artist_raw_data"))
  }

  /** The statement reads `artist_raw_data` and replaces `artist_scores` in the same dataset: never its own input. */
  lemma TargetIsNotSource(projectId: Option<string>, datasetId: Option<string>)
    requires GenerateSqlFile(projectId, datasetId).Some?
    ensures var f := GenerateSqlFile(projectId, datasetId).value;
      f.target != f.source && f.target[..|f.target| - |"artist_scores"|] == f.source[..|f.source| - |"artist_raw_data"|]
  {
    var f := GenerateSqlFile(projectId, datasetId).value;
    var prefix := f.project + "." + f.dataset + ".";
    assert f.target == prefix + "artist_scores" && f.source == prefix + "artist_raw_data";
    assert f.target[..|prefix|] == prefix && f.source[..|prefix|] == prefix;
    assert |f.target| != |f.source|;
  }
}
