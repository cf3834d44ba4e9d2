/**
 * The YouTube collector: how a search for an artist's channel is scored and ranked, the subscriber
 * band a channel's statistics must fall in, the recent-video average, and the quota-counting loop
 * over the Last.fm artists that ends in an append save.
 */
module YouTube {
  import opened Wrappers
  import opened Text
  import Json
  import Table

  /** One channel record of the `channels().list` reply: its id, snippet and subscriber statistic. */
  datatype Channel = Channel(id: string, title: string, description: Option<string>, subscriberCount: Option<Json.Json>)

  /** A channel that survived the subscriber floor, with its match score. */
  datatype Candidate = Candidate(id: string, subscribers: int, score: int)

  const StopWords: seq<string> := ["the", "a", "an", "and"]

  /** The words of the lower-cased artist name that the score looks for. */
  function ArtistWords(name: string): seq<string> {
    SignificantWords(Words(Lower(name)), StopWords)
  }

  /** How many of the words (counting repeats) occur in the text. */
  function CountIn(words: seq<string>, text: string): (n: nat)
    ensures n <= |words|
    ensures n == 0 <==> forall k :: 0 <= k < |words| ==> !Contains(text, words[k])
    ensures n == |words| <==> forall k :: 0 <= k < |words| ==> Contains(text, words[k])
  {
    if words == [] then 0
    else
      var rest := CountIn(words[1..], text);
      assert forall k :: 1 <= k < |words| ==> words[k] == words[1..][k - 1];
      (if Contains(text, words[0]) then 1 else 0) + rest
  }

  /**
   * The match score of a channel with `subs` subscribers: 10 for "official" in the lower-cased title,
   * 5 per name word in the title, 2 per name word in the description, and 1 inside the band 500..500000.
   */
  function Score(words: seq<string>, c: Channel, subs: int): int {
    var title := Lower(c.title);
    var desc := Lower(c.description.GetOr(""));
    (if Contains(title, "official") then 10 else 0)
    + CountIn(words, title) * 5
    + CountIn(words, desc) * 2
    + (if 500 <= subs <= 500000 then 1 else 0)
  }

  /** `int(statistics.get('subscriberCount', 0))`; `None` when `int` raises. */
  function Subscribers(c: Channel): Option<int> {
    match c.subscriberCount
    case None => Some(0)
    case Some(j) => Json.ToInt(j)
  }

  function CandidateOf(words: seq<string>, c: Channel, subs: int): Candidate {
    Candidate(c.id, subs, Score(words, c, subs))
  }

  predicate Parses(chs: seq<Channel>) {
    forall k :: 0 <= k < |chs| ==> Subscribers(chs[k]).Some?
  }

  /**
   * The candidate list built by the loop over the reply: `None` when some subscriber count does not
   * parse (the loop raises), otherwise one candidate per channel with at least 500 subscribers, in order.
   */
  function CandidatesOf(words: seq<string>, chs: seq<Channel>): (r: Option<seq<Candidate>>)
    ensures r.Some? <==> Parses(chs)
    ensures r.Some? ==> |r.value| <= |chs| && forall x :: x in r.value ==> x.subscribers >= 500
  {
    if chs == [] then Some([])
    else
      var init := chs[..|chs| - 1];
      var last := chs[|chs| - 1];
      assert forall k :: 0 <= k < |init| ==> init[k] == chs[k];
      match CandidatesOf(words, init)
      case None => None
      case Some(cs) =>
        match Subscribers(last)
        case None => None
        case Some(s) =>
          if s < 500 then Some(cs) else Some(cs + [CandidateOf(words, last, s)])
  }

  /**
   * The candidates are exactly the channels with at least 500 subscribers: each such channel gives
   * a candidate, and each candidate comes from such a channel.
   */
  lemma {:induction false} CandidatesMembers(words: seq<string>, chs: seq<Channel>)
    requires Parses(chs)
    ensures forall k :: 0 <= k < |chs| && Subscribers(chs[k]).value >= 500 ==>
              CandidateOf(words, chs[k], Subscribers(chs[k]).value) in CandidatesOf(words, chs).value
    ensures forall x :: x in CandidatesOf(words, chs).value ==>
              (exists k :: 0 <= k < |chs| && Subscribers(chs[k]) == Some(x.subscribers) &&
                 x == CandidateOf(words, chs[k], x.subscribers))
  {
    if chs != [] {
      var init := chs[..|chs| - 1];
      assert forall k :: 0 <= k < |init| ==> init[k] == chs[k];
      CandidatesMembers(words, init);
    }
  }

  /** How the candidate list grows by one channel (the step of the method's loop). */
  lemma CandidatesSnoc(words: seq<string>, chs: seq<Channel>, i: nat)
    requires i < |chs|
    ensures var prev := CandidatesOf(words, chs[..i]);
      CandidatesOf(words, chs[..i + 1]) ==
        if prev.None? || Subscribers(chs[i]).None? then None
        else if Subscribers(chs[i]).value < 500 then prev
        else Some(prev.value + [CandidateOf(words, chs[i], Subscribers(chs[i]).value)])
  {
    assert chs[..i + 1][..i] == chs[..i];
  }

  /** The sort key `(score, subscribers)` of `a` is larger than that of `b`. */
  predicate KeyGreater(a: Candidate, b: Candidate) {
    a.score > b.score || (a.score == b.score && a.subscribers > b.subscribers)
  }

  /**
   * The candidate the stable descending sort puts first: its key is maximal, and it is strictly greater
   * than the key of every earlier candidate, so among equal keys it is the earliest.
   */
  function ArgBest(cs: seq<Candidate>): (k: nat)
    requires cs != []
    ensures k < |cs|
    ensures forall j :: 0 <= j < |cs| ==> !KeyGreater(cs[j], cs[k])
    ensures forall j :: 0 <= j < k ==> KeyGreater(cs[k], cs[j])
  {
    if |cs| == 1 then 0
    else
      var k := ArgBest(cs[..|cs| - 1]);
      assert forall j :: 0 <= j < |cs| - 1 ==> cs[..|cs| - 1][j] == cs[j];
      if KeyGreater(cs[|cs| - 1], cs[k]) then |cs| - 1 else k
  }

  /**
   * `search_youtube_channel`: the id of the best candidate when its score is at least 5, and `None`
   * when the search fails or finds nothing, the channel request fails or raises, or no channel survives.
   */
  function SearchSpec(name: string, search: Reply<string>, channels: Reply<Channel>): (r: Option<string>)
    ensures search.Failed? || search.items == [] || channels.Failed? ==> r.None?
  {
    if search.Failed? || search.items == [] || channels.Failed? then None
    else
      match CandidatesOf(ArtistWords(name), channels.items)
      case None => None
      case Some(cs) =>
        if cs == [] then None
        else
          var best := cs[ArgBest(cs)];
          if best.score >= 5 then Some(best.id) else None
  }

  /** `id` is a channel with at least 500 subscribers, score at least 5 and a key no other such channel beats. */
  predicate BestCandidate(name: string, chs: seq<Channel>, id: string) {
    Parses(chs) &&
    exists k :: 0 <= k < |chs| && chs[k].id == id &&
      Subscribers(chs[k]).value >= 500 &&
      Score(ArtistWords(name), chs[k], Subscribers(chs[k]).value) >= 5 &&
      forall j :: 0 <= j < |chs| && Subscribers(chs[j]).value >= 500 ==>
        !KeyGreater(CandidateOf(ArtistWords(name), chs[j], Subscribers(chs[j]).value),
                    CandidateOf(ArtistWords(name), chs[k], Subscribers(chs[k]).value))
  }

  /** A returned id belongs to a channel with at least 500 subscribers, score at least 5 and a maximal key. */
  lemma SearchReturnsMaximal(name: string, ids: seq<string>, chs: seq<Channel>, id: string)
    requires SearchSpec(name, Ok(ids), Ok(chs)) == Some(id)
    ensures BestCandidate(name, chs, id)
  {
    var words := ArtistWords(name);
    var cs := CandidatesOf(words, chs).value;
    CandidatesMembers(words, chs);
    var b := ArgBest(cs);
    assert cs[b] in cs;
    var k :| 0 <= k < |chs| && Subscribers(chs[k]) == Some(cs[b].subscribers) &&
             cs[b] == CandidateOf(words, chs[k], cs[b].subscribers);
    forall j | 0 <= j < |chs| && Subscribers(chs[j]).value >= 500
      ensures !KeyGreater(CandidateOf(words, chs[j], Subscribers(chs[j]).value), cs[b])
    {
      var x := CandidateOf(words, chs[j], Subscribers(chs[j]).value);
      assert x in cs;
      var i :| 0 <= i < |cs| && cs[i] == x;
    }
  }

  /**
   * Once both requests succeed and every count parses, a channel is returned exactly when some
   * channel with at least 500 subscribers scores at least 5.
   */
  lemma SearchSomeIff(name: string, ids: seq<string>, chs: seq<Channel>)
    requires ids != [] && Parses(chs)
    ensures SearchSpec(name, Ok(ids), Ok(chs)).Some? <==>
              exists k :: 0 <= k < |chs| && Subscribers(chs[k]).value >= 500 &&
                Score(ArtistWords(name), chs[k], Subscribers(chs[k]).value) >= 5
  {
    var words := ArtistWords(name);
    var cs := CandidatesOf(words, chs).value;
    CandidatesMembers(words, chs);
    if SearchSpec(name, Ok(ids), Ok(chs)).Some? {
      var b := ArgBest(cs);
      assert cs[b] in cs;
      var k :| 0 <= k < |chs| && Subscribers(chs[k]) == Some(cs[b].subscribers) &&
               cs[b] == CandidateOf(words, chs[k], cs[b].subscribers);
      assert Score(words, chs[k], Subscribers(chs[k]).value) >= 5;
    }
    if exists k :: 0 <= k < |chs| && Subscribers(chs[k]).value >= 500 &&
                   Score(words, chs[k], Subscribers(chs[k]).value) >= 5 {
      var k :| 0 <= k < |chs| && Subscribers(chs[k]).value >= 500 &&
               Score(words, chs[k], Subscribers(chs[k]).value) >= 5;
      var x := CandidateOf(words, chs[k], Subscribers(chs[k]).value);
      assert x in cs;
      var i :| 0 <= i < |cs| && cs[i] == x;
      var b := ArgBest(cs);
      assert !KeyGreater(cs[i], cs[b]);
    }
  }

  /** "official" in the title scores 10 on its own, so such a channel with 500+ subscribers guarantees a result. */
  lemma OfficialTitleSuffices(name: string, ids: seq<string>, chs: seq<Channel>, k: nat)
    requires ids != [] && Parses(chs)
    requires k < |chs| && Subscribers(chs[k]).value >= 500 && Contains(Lower(chs[k].title), "official")
    ensures SearchSpec(name, Ok(ids), Ok(chs)).Some?
  {
    SearchSomeIff(name, ids, chs);
  }

  /** `search_youtube_channel`, with the candidate loop and the sort replaced by a running best. */
  method SearchYouTubeChannel(name: string, search: Reply<string>, channels: Reply<Channel>) returns (r: Option<string>)
    ensures r == SearchSpec(name, search, channels)
  {
    if search.Failed? || search.items == [] || channels.Failed? {
      return None;
    }
    var chs := channels.items;
    var words := ArtistWords(name);
    var cands: seq<Candidate> := [];
    var i := 0;
    while i < |chs|
      invariant 0 <= i <= |chs|
      invariant CandidatesOf(words, chs[..i]) == Some(cands)
    {
      CandidatesSnoc(words, chs, i);
      var subs := Subscribers(chs[i]);
      if subs.None? {
        ParsesPrefix(chs, i + 1);
        return None;
      }
      if subs.value >= 500 {
        cands := cands + [CandidateOf(words, chs[i], subs.value)];
      }
      i := i + 1;
    }
    assert chs[..i] == chs;
    if cands == [] {
      return None;
    }
    var b := 0;
    var j := 1;
    while j < |cands|
      invariant 1 <= j <= |cands| && b < j
      invariant b == ArgBest(cands[..j])
    {
      ArgBestSnoc(cands, j);
      if KeyGreater(cands[j], cands[b]) {
        b := j;
      }
      j := j + 1;
    }
    assert cands[..j] == cands;
    if cands[b].score >= 5 {
      r := Some(cands[b].id);
    } else {
      r := None;
    }
  }

  lemma ArgBestSnoc(cs: seq<Candidate>, j: nat)
    requires 1 <= j < |cs|
    ensures ArgBest(cs[..j + 1]) == if KeyGreater(cs[j], cs[ArgBest(cs[..j])]) then j else ArgBest(cs[..j])
  {
    assert cs[..j + 1][..j] == cs[..j];
  }

  lemma ParsesPrefix(chs: seq<Channel>, n: nat)
    requires n <= |chs| && !Parses(chs[..n])
    ensures !Parses(chs)
  {
    var k :| 0 <= k < n && Subscribers(chs[..n][k]).None?;
    assert chs[..n][k] == chs[k];
  }

  /** The `statistics` of the first item of a `channels().list` reply. */
  datatype StatsItem = StatsItem(subscriberCount: Option<Json.Json>, viewCount: Option<Json.Json>, videoCount: Option<Json.Json>)

  /** The record `get_channel_stats` returns. Average views are kept exact; the rounding is not modelled. */
  datatype ChannelStats = ChannelStats(channelId: string, subscribers: int, totalViews: int, videoCount: int, avgViewsPerVideo: real)

  /** With videos and views, the average times the number of videos is the total views. */
  predicate ExactAverage(s: ChannelStats) {
    s.videoCount > 0 && s.totalViews >= 0 ==> s.avgViewsPerVideo * s.videoCount as real == s.totalViews as real
  }

  function CountOr0(j: Option<Json.Json>): Option<int> {
    match j
    case None => Some(0)
    case Some(v) => Json.ToInt(v)
  }

  /**
   * `get_channel_stats`: the statistics of the first item when every count parses and the subscriber
   * count lies in 500..500000; otherwise (no item, a failed request, a raise, outside the band) `None`.
   */
  function GetChannelStats(channelId: string, reply: Reply<StatsItem>): (r: Option<ChannelStats>)
    ensures r.Some? ==> 500 <= r.value.subscribers <= 500000
    ensures r.Some? ==> r.value.channelId == channelId
    ensures r.Some? && r.value.videoCount == 0 ==> r.value.avgViewsPerVideo == 0.0
    ensures r.Some? ==> ExactAverage(r.value)
    ensures reply.Failed? || reply.items == [] ==> r.None?
  {
    if reply.Failed? || reply.items == [] then None
    else
      var item := reply.items[0];
      StatsInBand(channelId, CountOr0(item.subscriberCount), CountOr0(item.viewCount), CountOr0(item.videoCount))
  }

  /** The record for three parsed counts, when all of them parsed and the subscribers lie in the band. */
  function StatsInBand(channelId: string, subs: Option<int>, views: Option<int>, videos: Option<int>): (r: Option<ChannelStats>)
    ensures r.Some? <==> subs.Some? && views.Some? && videos.Some? && 500 <= subs.value <= 500000
    ensures r.Some? ==> r.value == StatsRecord(channelId, subs.value, views.value, videos.value)
    ensures r.Some? ==> r.value.channelId == channelId && 500 <= r.value.subscribers <= 500000
    ensures r.Some? && r.value.videoCount == 0 ==> r.value.avgViewsPerVideo == 0.0
    ensures r.Some? ==> ExactAverage(r.value)
  {
    match (subs, views, videos)
    case (Some(s), Some(v), Some(n)) =>
      if s < 500 || s > 500000 then None else Some(StatsRecord(channelId, s, v, n))
    case _ => None
  }

  /** The record for parsed counts: views over videos, 0 without videos, and the `if avg_views > 0` guard. */
  function StatsRecord(channelId: string, subs: int, views: int, videos: int): (s: ChannelStats)
    ensures s.channelId == channelId && s.subscribers == subs && s.totalViews == views && s.videoCount == videos
    ensures videos == 0 ==> s.avgViewsPerVideo == 0.0
    ensures videos > 0 && views >= 0 ==> s.avgViewsPerVideo * videos as real == views as real
    ensures ExactAverage(s)
    ensures s.avgViewsPerVideo >= 0.0
  {
    var avg := if videos > 0 then views as real / videos as real else 0.0;
    ChannelStats(channelId, subs, views, videos, if avg > 0.0 then avg else 0.0)
  }

  function Sum(xs: seq<int>): int {
    if xs == [] then 0 else xs[0] + Sum(xs[1..])
  }

  /** A sum of values inside [lo, hi] lies between |xs|·lo and |xs|·hi. */
  lemma {:induction false} SumBounds(xs: seq<int>, lo: int, hi: int)
    requires forall k :: 0 <= k < |xs| ==> lo <= xs[k] <= hi
    ensures |xs| as real * lo as real <= Sum(xs) as real <= |xs| as real * hi as real
  {
    if xs != [] {
      SumBounds(xs[1..], lo, hi);
      var n := |xs[1..]| as real;
      assert |xs| as real * lo as real == n * lo as real + lo as real;
      assert |xs| as real * hi as real == n * hi as real + hi as real;
    }
  }

  /** The view counts of a `videos().list` reply; `None` when one of them does not parse. */
  function ViewCounts(items: seq<Option<Json.Json>>): (r: Option<seq<int>>)
    ensures r.Some? ==> |r.value| == |items|
    ensures r.Some? ==> forall k :: 0 <= k < |items| ==> CountOr0(items[k]) == Some(r.value[k])
  {
    if items == [] then Some([])
    else
      match (CountOr0(items[0]), ViewCounts(items[1..]))
      case (Some(v), Some(rest)) => Some([v] + rest)
      case _ => None
  }

  /**
   * `get_recent_video_stats`: the mean view count of the videos in the uploads playlist; 0 when the
   * channel has no item, the playlist has no video, a request fails or a count does not parse.
   * The rounding to a whole number is not modelled.
   */
  function RecentVideoAverage(channel: Reply<string>, playlist: Reply<string>, videos: Reply<Option<Json.Json>>): real {
    if channel.Failed? || channel.items == [] || playlist.Failed? || playlist.items == [] || videos.Failed? then 0.0
    else
      match ViewCounts(videos.items)
      case None => 0.0
      case Some(vs) => if vs == [] then 0.0 else Mean(vs)
  }

  function Mean(vs: seq<int>): real
    requires vs != []
  {
    Sum(vs) as real / |vs| as real
  }

  /** A mean lies between the bounds of the values. */
  lemma MeanBounds(vs: seq<int>, lo: int, hi: int)
    requires vs != [] && forall k :: 0 <= k < |vs| ==> lo <= vs[k] <= hi
    ensures lo as real <= Mean(vs) <= hi as real
  {
    SumBounds(vs, lo, hi);
    DivBounds(Sum(vs) as real, |vs| as real, lo as real, hi as real);
  }

  /** The recent-video average lies between the smallest and the largest view count. */
  lemma RecentAverageBounds(channel: seq<string>, playlist: seq<string>, items: seq<Option<Json.Json>>, lo: int, hi: int)
    requires channel != [] && playlist != [] && items != []
    requires ViewCounts(items).Some?
    requires forall k :: 0 <= k < |items| ==> lo <= ViewCounts(items).value[k] <= hi
    ensures lo as real <= RecentVideoAverage(Ok(channel), Ok(playlist), Ok(items)) <= hi as real
  {
    var vs := ViewCounts(items).value;
    assert RecentVideoAverage(Ok(channel), Ok(playlist), Ok(items)) == Mean(vs);
    MeanBounds(vs, lo, hi);
  }

  lemma DivBounds(s: real, n: real, lo: real, hi: real)
    requires n > 0.0 && n * lo <= s <= n * hi
    ensures lo <= s / n <= hi
  {
  }

  /** One row of the Last.fm table, as far as the YouTube collector reads it. */
  datatype Artist = Artist(artistId: string, artistName: string)

  /** The row written for an artist whose channel passed the checks. */
  datatype YouTubeRow = YouTubeRow(artistId: string, artistName: string, stats: ChannelStats)

  /**
   * What the API answered for one artist: the search and channel-details replies of
   * `search_youtube_channel`, the statistics reply of `get_channel_stats`, and the channel, playlist
   * and video replies of `get_recent_video_stats`.
   */
  datatype Replies = Replies(
    search: Reply<string>, channels: Reply<Channel>, statsReply: Reply<StatsItem>,
    channel: Reply<string>, playlist: Reply<string>, videos: Reply<Option<Json.Json>>)

  /** What the loop makes of one artist's replies: the channel found, the statistics reply, the recent-video average. */
  datatype Lookup = Lookup(channelId: Option<string>, statsReply: Reply<StatsItem>, recentAverage: real)

  function LookupOf(a: Artist, r: Replies): Lookup {
    Lookup(SearchSpec(a.artistName, r.search, r.channels), r.statsReply,
           RecentVideoAverage(r.channel, r.playlist, r.videos))
  }

  function LookupsOf(artists: seq<Artist>, replies: seq<Replies>): (ls: seq<Lookup>)
    requires |replies| == |artists|
    ensures |ls| == |artists| && forall i :: 0 <= i < |artists| ==> ls[i] == LookupOf(artists[i], replies[i])
  {
    seq(|artists|, i requires 0 <= i < |artists| => LookupOf(artists[i], replies[i]))
  }

  /** `if channel_id:` — an empty id is falsy. */
  predicate Found(l: Lookup) {
    l.channelId.Some? && l.channelId.value != ""
  }

  predicate Collected(l: Lookup) {
    Found(l) && GetChannelStats(l.channelId.value, l.statsReply).Some?
  }

  /** Found, but the statistics are refused: the iteration `continue`s. */
  predicate FilteredOut(l: Lookup) {
    Found(l) && GetChannelStats(l.channelId.value, l.statsReply).None?
  }

  /** Units charged for one artist: 100 for the search, 1 for the statistics, 2 for the videos. */
  function Cost(l: Lookup): nat {
    100 + (if Found(l) then 1 else 0) + (if Collected(l) then 2 else 0)
  }

  function RowOf(a: Artist, l: Lookup): YouTubeRow
    requires Collected(l)
  {
    var s := GetChannelStats(l.channelId.value, l.statsReply).value;
    YouTubeRow(a.artistId, a.artistName, s.(avgViewsPerVideo := l.recentAverage))
  }

  /** The state of the loop: rows collected, quota used, one-second sleeps taken, artists processed. */
  datatype Run = Run(rows: seq<YouTubeRow>, quota: nat, sleeps: nat, processed: nat)

  /** The loop of `main` from artist `i` on. A filtered-out artist skips the sleep and the quota check. */
  function RunFrom(artists: seq<Artist>, lookups: seq<Lookup>, i: nat, acc: Run): Run
    requires |lookups| == |artists| && i <= |artists|
    decreases |artists| - i
  {
    if i == |artists| then acc
    else
      var l := lookups[i];
      var quota := acc.quota + Cost(l);
      if FilteredOut(l) then RunFrom(artists, lookups, i + 1, Run(acc.rows, quota, acc.sleeps, i + 1))
      else
        var rows := if Collected(l) then acc.rows + [RowOf(artists[i], l)] else acc.rows;
        var next := Run(rows, quota, acc.sleeps + 1, i + 1);
        if quota > 9000 then next else RunFrom(artists, lookups, i + 1, next)
  }

  function Collection(artists: seq<Artist>, lookups: seq<Lookup>): Run
    requires |lookups| == |artists|
  {
    RunFrom(artists, lookups, 0, Run([], 0, 0, 0))
  }

  /** Quota charged for the first `n` artists. */
  function QuotaAfter(lookups: seq<Lookup>, n: nat): nat
    requires n <= |lookups|
  {
    if n == 0 then 0 else QuotaAfter(lookups, n - 1) + Cost(lookups[n - 1])
  }

  function FoundCount(lookups: seq<Lookup>, n: nat): nat
    requires n <= |lookups|
  {
    if n == 0 then 0 else FoundCount(lookups, n - 1) + (if Found(lookups[n - 1]) then 1 else 0)
  }

  function FilteredCount(lookups: seq<Lookup>, n: nat): nat
    requires n <= |lookups|
  {
    if n == 0 then 0 else FilteredCount(lookups, n - 1) + (if FilteredOut(lookups[n - 1]) then 1 else 0)
  }

  /** The rows the first `n` artists yield, in artist order. */
  function RowsUpTo(artists: seq<Artist>, lookups: seq<Lookup>, n: nat): seq<YouTubeRow>
    requires |lookups| == |artists| && n <= |artists|
  {
    if n == 0 then []
    else RowsUpTo(artists, lookups, n - 1) + (if Collected(lookups[n - 1]) then [RowOf(artists[n - 1], lookups[n - 1])] else [])
  }

  /** The loop state after the first `n` artists, had it not stopped. */
  predicate StateAfter(artists: seq<Artist>, lookups: seq<Lookup>, n: nat, acc: Run)
    requires |lookups| == |artists| && n <= |artists|
  {
    && acc.processed == n
    && acc.quota == QuotaAfter(lookups, n)
    && acc.rows == RowsUpTo(artists, lookups, n)
    && acc.sleeps == n - FilteredCount(lookups, n)
  }

  /** The quota check after the `k`-th artist (counting from 1) is reached and fails. */
  predicate Stops(lookups: seq<Lookup>, k: nat)
    requires 1 <= k <= |lookups|
  {
    !FilteredOut(lookups[k - 1]) && QuotaAfter(lookups, k) > 9000
  }

  /** The loop state after artist `i`: its cost, its row when collected, and a sleep unless it was filtered out. */
  function Step(artists: seq<Artist>, lookups: seq<Lookup>, i: nat, acc: Run): Run
    requires |lookups| == |artists| && i < |artists|
  {
    var l := lookups[i];
    Run(if Collected(l) then acc.rows + [RowOf(artists[i], l)] else acc.rows, acc.quota + Cost(l),
        if FilteredOut(l) then acc.sleeps else acc.sleeps + 1, i + 1)
  }

  /** The loop goes on after a filtered-out artist, and after any other while the quota allows. */
  lemma RunFromStep(artists: seq<Artist>, lookups: seq<Lookup>, i: nat, acc: Run)
    requires |lookups| == |artists| && i < |artists|
    ensures var next := Step(artists, lookups, i, acc);
      RunFrom(artists, lookups, i, acc) ==
        if FilteredOut(lookups[i]) || next.quota <= 9000 then RunFrom(artists, lookups, i + 1, next) else next
  {
  }

  lemma StateStep(artists: seq<Artist>, lookups: seq<Lookup>, i: nat, acc: Run)
    requires |lookups| == |artists| && i < |artists| && StateAfter(artists, lookups, i, acc)
    ensures StateAfter(artists, lookups, i + 1, Step(artists, lookups, i, acc))
  {
  }

  lemma {:induction false} RunFromState(artists: seq<Artist>, lookups: seq<Lookup>, i: nat, acc: Run)
    requires |lookups| == |artists| && i <= |artists| && StateAfter(artists, lookups, i, acc)
    ensures i <= RunFrom(artists, lookups, i, acc).processed <= |artists|
    ensures StateAfter(artists, lookups, RunFrom(artists, lookups, i, acc).processed, RunFrom(artists, lookups, i, acc))
    decreases |artists| - i
  {
    if i < |artists| {
      var next := Step(artists, lookups, i, acc);
      StateStep(artists, lookups, i, acc);
      RunFromStep(artists, lookups, i, acc);
      if FilteredOut(lookups[i]) || next.quota <= 9000 {
        RunFromState(artists, lookups, i + 1, next);
      }
    }
  }

  lemma {:induction false} RunFromStops(artists: seq<Artist>, lookups: seq<Lookup>, i: nat, acc: Run)
    requires |lookups| == |artists| && i <= |artists| && acc.processed == i && acc.quota == QuotaAfter(lookups, i)
    requires forall k :: 1 <= k <= i ==> !Stops(lookups, k)
    ensures var p := RunFrom(artists, lookups, i, acc).processed;
      && i <= p <= |artists|
      && (forall k :: 1 <= k < p ==> !Stops(lookups, k))
      && (p < |artists| ==> p >= 1 && Stops(lookups, p))
    decreases |artists| - i
  {
    if i < |artists| {
      var l := lookups[i];
      var quota := acc.quota + Cost(l);
      assert quota == QuotaAfter(lookups, i + 1);
      if FilteredOut(l) {
        RunFromStops(artists, lookups, i + 1, Run(acc.rows, quota, acc.sleeps, i + 1));
      } else {
        var rows := if Collected(l) then acc.rows + [RowOf(artists[i], l)] else acc.rows;
        if quota <= 9000 {
          RunFromStops(artists, lookups, i + 1, Run(rows, quota, acc.sleeps + 1, i + 1));
        } else {
          assert Stops(lookups, i + 1);
        }
      }
    }
  }

  /**
   * The loop of `main`: the quota is 100 per processed artist, 1 per channel found and 2 per row
   * collected; filtered-out artists skip the one-second sleep; the loop ends early exactly at the first
   * quota check that exceeds 9000, and a filtered-out artist never triggers that check.
   */
  lemma CollectionFacts(artists: seq<Artist>, lookups: seq<Lookup>)
    requires |lookups| == |artists|
    ensures var r := Collection(artists, lookups);
      && r.processed <= |artists|
      && r.quota == 100 * r.processed + FoundCount(lookups, r.processed) + 2 * |r.rows|
      && r.rows == RowsUpTo(artists, lookups, r.processed)
      && r.sleeps == r.processed - FilteredCount(lookups, r.processed)
      && (forall k :: 1 <= k < r.processed ==> !Stops(lookups, k))
      && (r.processed < |artists| ==> r.processed >= 1 && Stops(lookups, r.processed))
  {
    RunFromState(artists, lookups, 0, Run([], 0, 0, 0));
    RunFromStops(artists, lookups, 0, Run([], 0, 0, 0));
    var r := Collection(artists, lookups);
    QuotaSplit(artists, lookups, r.processed);
  }

  lemma {:induction false} QuotaSplit(artists: seq<Artist>, lookups: seq<Lookup>, n: nat)
    requires |lookups| == |artists| && n <= |artists|
    ensures QuotaAfter(lookups, n) == 100 * n + FoundCount(lookups, n) + 2 * |RowsUpTo(artists, lookups, n)|
  {
    if n > 0 {
      QuotaSplit(artists, lookups, n - 1);
    }
  }

  /** Every collected row carries a channel inside the 500..500000 subscriber band. */
  lemma {:induction false} RowsInBand(artists: seq<Artist>, lookups: seq<Lookup>, n: nat)
    requires |lookups| == |artists| && n <= |artists|
    ensures forall k :: 0 <= k < |RowsUpTo(artists, lookups, n)| ==>
              500 <= RowsUpTo(artists, lookups, n)[k].stats.subscribers <= 500000
  {
    if n > 0 {
      RowsInBand(artists, lookups, n - 1);
    }
  }

  /** `row` was collected for artist `a`: its channel is the one the search chose, its average the recent one. */
  predicate FromSearch(a: Artist, r: Replies, row: YouTubeRow) {
    && row.artistId == a.artistId && row.artistName == a.artistName
    && r.search.Ok? && r.channels.Ok?
    && SearchSpec(a.artistName, r.search, r.channels) == Some(row.stats.channelId)
    && row.stats.avgViewsPerVideo == RecentVideoAverage(r.channel, r.playlist, r.videos)
  }

  lemma RowOfFromSearch(a: Artist, r: Replies)
    requires Collected(LookupOf(a, r))
    ensures FromSearch(a, r, RowOf(a, LookupOf(a, r)))
  {
  }

  /** Every row collected from the first `n` artists comes from the search of one of them. */
  lemma {:induction false} RowsFromSearch(artists: seq<Artist>, replies: seq<Replies>, n: nat)
    requires |replies| == |artists| && n <= |artists|
    ensures forall k :: 0 <= k < |RowsUpTo(artists, LookupsOf(artists, replies), n)| ==>
              exists i :: 0 <= i < n && FromSearch(artists[i], replies[i], RowsUpTo(artists, LookupsOf(artists, replies), n)[k])
  {
    if n > 0 {
      RowsFromSearch(artists, replies, n - 1);
      var ls := LookupsOf(artists, replies);
      var prev := RowsUpTo(artists, ls, n - 1);
      var rows := RowsUpTo(artists, ls, n);
      forall k | 0 <= k < |rows|
        ensures exists i :: 0 <= i < n && FromSearch(artists[i], replies[i], rows[k])
      {
        if k < |prev| {
          assert rows[k] == prev[k];
          assert exists i :: 0 <= i < n - 1 && FromSearch(artists[i], replies[i], prev[k]);
        } else {
          assert Collected(ls[n - 1]) && rows[k] == RowOf(artists[n - 1], ls[n - 1]);
          RowOfFromSearch(artists[n - 1], replies[n - 1]);
        }
      }
    } else {
      assert RowsUpTo(artists, LookupsOf(artists, replies), n) == [];
    }
  }

  /**
   * Every row `main` collects names a channel with at least 500 subscribers and score at least 5 that no
   * other candidate of that artist's search outranks.
   */
  lemma RowChannelIsBest(artists: seq<Artist>, replies: seq<Replies>, k: nat)
    requires |replies| == |artists|
    requires k < |Collection(artists, LookupsOf(artists, replies)).rows|
    ensures var row := Collection(artists, LookupsOf(artists, replies)).rows[k];
      exists i :: 0 <= i < |artists| && FromSearch(artists[i], replies[i], row) &&
        BestCandidate(artists[i].artistName, replies[i].channels.items, row.stats.channelId)
  {
    var ls := LookupsOf(artists, replies);
    var run := Collection(artists, ls);
    CollectionFacts(artists, ls);
    RowsFromSearch(artists, replies, run.processed);
    var row := run.rows[k];
    var i :| 0 <= i < run.processed && FromSearch(artists[i], replies[i], row);
    SearchReturnsMaximal(artists[i].artistName, replies[i].search.items, replies[i].channels.items, row.stats.channelId);
  }

  /**
   * The body of the loop of `main` for one artist, up to the sleep: the channel search, then the statistics
   * when a channel is found, then the recent-video average when they pass. It returns the units charged,
   * the row collected, and whether the iteration `continue`s.
   */
  method VisitArtist(artists: seq<Artist>, replies: seq<Replies>, i: nat, ghost lookups: seq<Lookup>)
    returns (cost: nat, row: Option<YouTubeRow>, skipped: bool)
    requires i < |artists| == |replies| == |lookups|
    requires forall k {:trigger LookupOf(artists[k], replies[k])} :: 0 <= k < |artists| ==> lookups[k] == LookupOf(artists[k], replies[k])
    ensures cost == Cost(lookups[i]) && skipped == FilteredOut(lookups[i])
    ensures row.Some? <==> Collected(lookups[i])
    ensures row.Some? ==> Collected(lookups[i]) && row.value == RowOf(artists[i], lookups[i])
  {
    var a, r := artists[i], replies[i];
    ghost var l := LookupOf(a, r);
    assert lookups[i] == l;
    var channelId := SearchYouTubeChannel(a.artistName, r.search, r.channels);
    assert l.channelId == channelId;
    cost, row, skipped := 100, None, false;
    if channelId.Some? && channelId.value != "" {
      var stats := GetChannelStats(channelId.value, r.statsReply);
      cost := cost + 1;
      if stats.None? {
        skipped := true;
        return;
      }
      var avg := RecentVideoAverage(r.channel, r.playlist, r.videos);
      assert l.recentAverage == avg;
      row := Some(YouTubeRow(a.artistId, a.artistName, stats.value.(avgViewsPerVideo := avg)));
      cost := cost + 2;
    }
  }

  /**
   * The loop of `main` over the Last.fm artists, with its `continue` and `break`: the channel comes from
   * `search_youtube_channel` and the average from `get_recent_video_stats`, both on the artist's replies.
   */
  method CollectYouTube(artists: seq<Artist>, replies: seq<Replies>) returns (out: Run)
    requires |replies| == |artists|
    ensures out == Collection(artists, LookupsOf(artists, replies))
  {
    out := CollectRun(artists, replies, LookupsOf(artists, replies));
  }

  /** The loop itself, against lookups known only index by index. */
  method CollectRun(artists: seq<Artist>, replies: seq<Replies>, ghost lookups: seq<Lookup>) returns (out: Run)
    requires |replies| == |artists| && |lookups| == |artists|
    requires forall k {:trigger LookupOf(artists[k], replies[k])} :: 0 <= k < |artists| ==> lookups[k] == LookupOf(artists[k], replies[k])
    ensures out == Collection(artists, lookups)
  {
    var rows: seq<YouTubeRow> := [];
    var quota: nat := 0;
    var sleeps: nat := 0;
    var i := 0;
    while i < |artists|
      invariant 0 <= i <= |artists|
      invariant RunFrom(artists, lookups, i, Run(rows, quota, sleeps, i)) == Collection(artists, lookups)
    {
      var cost, row, skipped := VisitArtist(artists, replies, i, lookups);
      quota := quota + cost;
      if skipped {
        i := i + 1;
        continue;
      }
      if row.Some? {
        rows := rows + [row.value];
      }
      sleeps := sleeps + 1;
      i := i + 1;
      if quota > 9000 {
        return Run(rows, quota, sleeps, i);
      }
    }
    out := Run(rows, quota, sleeps, i);
  }

  /**
   * `main`: nothing happens without the Last.fm file; otherwise the loop runs and the collected rows are
   * appended to the existing output, deduplicated by `artist_id` keeping the last row. `None`: nothing written.
   */
  method YouTubeMain(lastfm: Option<seq<Artist>>, replies: seq<Replies>, existing: Option<seq<YouTubeRow>>)
    returns (written: Option<seq<YouTubeRow>>)
    requires lastfm.Some? ==> |replies| == |lastfm.value|
    ensures lastfm.None? ==> written.None?
    ensures lastfm.Some? ==>
              written == Table.AppendSave(existing, Collection(lastfm.value, LookupsOf(lastfm.value, replies)).rows,
                                          (r: YouTubeRow) => r.artistId)
  {
    if lastfm.None? {
      return None;
    }
    var run := CollectYouTube(lastfm.value, replies);
    written := Table.AppendSave(existing, run.rows, (r: YouTubeRow) => r.artistId);
  }
}
