/**
 * The song-level collector: the reading of the `artist.gettoptracks` payload, the scan of an
 * artist's Instagram posts for one that mentions a track near its release, the assembly of one
 * record per track with its null-filled sections, and the driver over the first ten artists with
 * its handle normalisation and progress saves. API replies are parameters; dates are day numbers.
 */
module Songs {
  import opened Wrappers
  import opened Json
  import Text
  import Merge

  // ---- get_lastfm_top_tracks ----------------------------------------------------------------------

  /** One parsed track: the name as the API gave it, the three counts and the url. */
  datatype Track = Track(name: Json, playcount: int, listeners: int, url: Json, rank: int)

  /** `int(track.get('@attr', {}).get('rank', 0))`, `None` when it raises. */
  function RankOf(fields: map<string, Json>): Option<int> {
    match Get(fields, "@attr", JObj(map[]))
    case JObj(attr) => ToInt(Get(attr, "rank", JInt(0)))
    case _ => None
  }

  /** The dictionary built for one entry of the track list, `None` when building it raises. */
  function TrackOf(entry: Json): Option<Track> {
    match entry
    case JObj(f) =>
      if "name" !in f then None
      else
        var playcount := ToInt(Get(f, "playcount", JInt(0)));
        var listeners := ToInt(Get(f, "listeners", JInt(0)));
        var rank := RankOf(f);
        if playcount.None? || listeners.None? || rank.None? then None
        else Some(Track(f["name"], playcount.value, listeners.value, Get(f, "url", JStr("")), rank.value))
    case _ => None
  }

  /** The loop over the track list: every entry parsed in order, or `None` as soon as one raises. */
  function TracksOf(entries: seq<Json>): (r: Option<seq<Track>>)
    ensures r.Some? <==> forall i :: 0 <= i < |entries| ==> TrackOf(entries[i]).Some?
    ensures r.Some? ==> |r.value| == |entries| && forall i :: 0 <= i < |entries| ==> Some(r.value[i]) == TrackOf(entries[i])
  {
    if entries == [] then Some([])
    else
      var first := TrackOf(entries[0]);
      var rest := TracksOf(entries[1..]);
      if first.None? then None
      else if rest.None? then None
      else Some([first.value] + rest.value)
  }

  /** `data['toptracks']['track']` when it is a list; any other shape gives no tracks, one way or another. */
  function TrackEntries(data: Json): Option<seq<Json>> {
    if data.JObj? && "toptracks" in data.fields && data.fields["toptracks"].JObj?
       && "track" in data.fields["toptracks"].fields && data.fields["toptracks"].fields["track"].JArr?
    then Some(data.fields["toptracks"].fields["track"].items)
    else None
  }

  /**
   * `get_lastfm_top_tracks` on the reply (`None` when the request or the decoding raised): every
   * exception inside is caught and gives the empty list.
   */
  function GetLastfmTopTracks(reply: Option<Json>): seq<Track> {
    if reply.None? then []
    else match TrackEntries(reply.value)
      case None => []
      case Some(entries) => (match TracksOf(entries) case None => [] case Some(ts) => ts)
  }

  /**
   * The tracks are the payload's entries in order, one each, when all of them parse; a payload
   * without `toptracks` or `track`, or with one malformed entry, gives no tracks at all.
   */
  lemma TopTracksFacts(reply: Option<Json>)
    ensures var ts := GetLastfmTopTracks(reply);
      && (reply.None? || TrackEntries(reply.value).None? ==> ts == [])
      && (reply.Some? && TrackEntries(reply.value).Some? ==>
            var es := TrackEntries(reply.value).value;
            && ((exists i :: 0 <= i < |es| && TrackOf(es[i]).None?) ==> ts == [])
            && ((forall i :: 0 <= i < |es| ==> TrackOf(es[i]).Some?) ==>
                  |ts| == |es| && forall i :: 0 <= i < |es| ==> Some(ts[i]) == TrackOf(es[i])))
  {
  }

  /** Missing counts and rank default to 0 and a missing url to the empty string. */
  lemma TrackDefaults(name: Json)
    ensures TrackOf(JObj(map["name" := name])) == Some(Track(name, 0, 0, JStr(""), 0))
  {
  }

  // ---- get_instagram_posts_for_song -------------------------------------------------------------

  /** A post of the profile's feed; a missing caption is the empty string; `date` is a day number. */
  datatype Post = Post(shortcode: string, caption: string, date: int, likes: int, comments: int)

  /** The dictionary returned for the matching post. */
  datatype PostRecord = PostRecord(postId: string, postDate: int, likes: int, comments: int, caption: string, url: string)

  const MaxPostsToCheck: nat := 50
  const ReleaseWindowDays: nat := 30
  const CaptionLimit: nat := 200

  /** The caption mentions the track: the whole lower-cased name, or one of its words longer than three characters. */
  predicate Mentions(trackName: string, caption: string) {
    var c := Text.Lower(caption);
    var t := Text.Lower(trackName);
    Text.Contains(c, t) || exists k :: 0 <= k < |Text.Words(t)| && |Text.Words(t)[k]| > 3 && Text.Contains(c, Text.Words(t)[k])
  }

  function Abs(x: int): nat {
    if x < 0 then -x else x
  }

  /** Without a release date every date is near; with one, at most 30 days away either side. */
  predicate NearRelease(published: Option<int>, date: int) {
    published.None? || Abs(date - published.value) <= ReleaseWindowDays
  }

  predicate Qualifies(trackName: string, published: Option<int>, p: Post) {
    Mentions(trackName, p.caption) && NearRelease(published, p.date)
  }

  /** `s[:n]` */
  function Prefix(s: string, n: nat): (r: string)
    ensures |r| <= n && r <= s && (|s| <= n ==> r == s)
  {
    if |s| <= n then s else s[..n]
  }

  function RecordOf(p: Post): PostRecord {
    PostRecord(p.shortcode, p.date, p.likes, p.comments, Prefix(p.caption, CaptionLimit),
               "https://www.instagram.com/p/" + p.shortcode + "/")
  }

  /** The posts the scan may look at: the first 50. */
  function Examined(posts: seq<Post>): (r: seq<Post>)
    ensures |r| <= MaxPostsToCheck && r <= posts && (|posts| <= MaxPostsToCheck ==> r == posts)
  {
    if |posts| <= MaxPostsToCheck then posts else posts[..MaxPostsToCheck]
  }

  /** The index of the first qualifying post at or after `i`. */
  function FirstFrom(trackName: string, published: Option<int>, posts: seq<Post>, i: nat): (r: Option<nat>)
    requires i <= |posts|
    ensures r.Some? ==> i <= r.value < |posts| && Qualifies(trackName, published, posts[r.value])
                        && forall j :: i <= j < r.value ==> !Qualifies(trackName, published, posts[j])
    ensures r.None? ==> forall j :: i <= j < |posts| ==> !Qualifies(trackName, published, posts[j])
    decreases |posts| - i
  {
    if i == |posts| then None
    else if Qualifies(trackName, published, posts[i]) then Some(i)
    else FirstFrom(trackName, published, posts, i + 1)
  }

  /** Whether the handle is truthy. */
  predicate HasHandle(handle: Option<string>) {
    handle.Some? && handle.value != ""
  }

  /**
   * `get_instagram_posts_for_song`: `profile` is the posts the feed yields before it ends or raises,
   * `None` when the profile lookup raises. A feed that raises after them gives the same result, as the
   * scan ends there either with the match or, through the handler, with `None`.
   */
  function PostScanSpec(handle: Option<string>, trackName: string, published: Option<int>, profile: Option<seq<Post>>): Option<PostRecord> {
    if !HasHandle(handle) || profile.None? then None
    else ScanResult(trackName, published, profile.value)
  }

  /** The record of the first qualifying post among the first 50. */
  function ScanResult(trackName: string, published: Option<int>, posts: seq<Post>): Option<PostRecord> {
    var examined := Examined(posts);
    match FirstFrom(trackName, published, examined, 0)
    case None => None
    case Some(i) => Some(RecordOf(examined[i]))
  }

  /**
   * A post is returned exactly when the handle is truthy, the profile loads and one of the first 50
   * posts mentions the track near its release; it is the first such post, with its caption cut to 200
   * characters.
   */
  lemma PostScanFacts(handle: Option<string>, trackName: string, published: Option<int>, profile: Option<seq<Post>>)
    ensures var r := PostScanSpec(handle, trackName, published, profile);
      && (r.Some? <==> HasHandle(handle) && profile.Some? &&
                       exists i :: 0 <= i < |profile.value| && i < MaxPostsToCheck && Qualifies(trackName, published, profile.value[i]))
      && (r.Some? ==> exists i :: 0 <= i < |profile.value| && i < MaxPostsToCheck
                        && Qualifies(trackName, published, profile.value[i]) && r.value == RecordOf(profile.value[i])
                        && (forall j :: 0 <= j < i ==> !Qualifies(trackName, published, profile.value[j]))
                        && |r.value.caption| <= CaptionLimit && r.value.caption <= profile.value[i].caption)
  {
    if HasHandle(handle) && profile.Some? {
      var posts := profile.value;
      var examined := Examined(posts);
      var f := FirstFrom(trackName, published, examined, 0);
      if f.None? {
        forall i | 0 <= i < |posts| && i < MaxPostsToCheck ensures !Qualifies(trackName, published, posts[i]) {
          assert posts[i] == examined[i];
        }
      } else {
        assert examined[f.value] == posts[f.value];
        forall j | 0 <= j < f.value ensures !Qualifies(trackName, published, posts[j]) {
          assert posts[j] == examined[j];
        }
      }
    }
  }

  /** Posts after the fiftieth never matter. */
  lemma ScanLimit(handle: Option<string>, trackName: string, published: Option<int>, posts: seq<Post>, more: seq<Post>)
    requires |posts| == MaxPostsToCheck
    ensures PostScanSpec(handle, trackName, published, Some(posts + more)) == PostScanSpec(handle, trackName, published, Some(posts))
  {
    assert Examined(posts + more) == posts;
  }

  /** A mentioning post exactly 30 days from the release still qualifies; one 31 days away does not. */
  lemma WindowEdges(trackName: string, p: Post, release: int)
    requires Mentions(trackName, p.caption)
    ensures Abs(p.date - release) == 30 ==> Qualifies(trackName, Some(release), p)
    ensures Abs(p.date - release) == 31 ==> !Qualifies(trackName, Some(release), p)
  {
  }

  /** The number of one-second pauses: one per examined post that does not mention the track. */
  function Pauses(trackName: string, posts: seq<Post>): nat
    decreases |posts|
  {
    if posts == [] then 0
    else Pauses(trackName, posts[..|posts| - 1]) + (if Mentions(trackName, posts[|posts| - 1].caption) then 0 else 1)
  }

  lemma PausesSnoc(trackName: string, posts: seq<Post>, i: nat)
    requires i < |posts|
    ensures Pauses(trackName, posts[..i + 1]) ==
            Pauses(trackName, posts[..i]) + (if Mentions(trackName, posts[i].caption) then 0 else 1)
  {
    assert posts[..i + 1][..i] == posts[..i];
  }

  /** Where the scan stops: at the first qualifying post, else after the examined posts. */
  function StopAt(trackName: string, published: Option<int>, posts: seq<Post>): (n: nat)
    ensures n <= |Examined(posts)|
  {
    match FirstFrom(trackName, published, Examined(posts), 0)
    case Some(i) => i
    case None => |Examined(posts)|
  }

  /** The post loop of `get_instagram_posts_for_song`, with its counter, `continue` and `break`s. */
  method GetInstagramPostsForSong(handle: Option<string>, trackName: string, published: Option<int>, profile: Option<seq<Post>>)
    returns (found: Option<PostRecord>, pauses: nat)
    ensures found == PostScanSpec(handle, trackName, published, profile)
    ensures HasHandle(handle) && profile.Some? ==>
              pauses == Pauses(trackName, profile.value[..StopAt(trackName, published, profile.value)])
  {
    if !HasHandle(handle) || profile.None? {
      return None, 0;
    }
    found, pauses := ScanPosts(trackName, published, profile.value);
  }

  /** The loop over the feed. */
  method ScanPosts(trackName: string, published: Option<int>, posts: seq<Post>) returns (found: Option<PostRecord>, pauses: nat)
    ensures found == ScanResult(trackName, published, posts)
    ensures pauses == Pauses(trackName, posts[..StopAt(trackName, published, posts)])
  {
    ghost var examined := Examined(posts);
    var postCount := 0;
    pauses := 0;
    found := None;
    while postCount < |posts|
      invariant postCount <= |posts| && postCount <= MaxPostsToCheck
      invariant postCount <= |examined| && posts[..postCount] == examined[..postCount]
      invariant FirstFrom(trackName, published, examined, postCount) == FirstFrom(trackName, published, examined, 0)
      invariant pauses == Pauses(trackName, posts[..postCount])
      decreases |posts| - postCount
    {
      if postCount >= MaxPostsToCheck {
        break;
      }
      var p := posts[postCount];
      assert p == examined[postCount];
      PausesSnoc(trackName, posts, postCount);
      if Mentions(trackName, p.caption) {
        if published.Some? {
          if Abs(p.date - published.value) > ReleaseWindowDays {
            postCount := postCount + 1;
            continue;
          }
        }
        found := Some(RecordOf(p));
        break;
      }
      postCount := postCount + 1;
      pauses := pauses + 1;
    }
  }

  // ---- collect_song_data_for_artist ---------------------------------------------------------

  /** The dictionary `search_youtube_video` returns for a found video. */
  datatype Video = Video(id: string, title: string, views: int, likes: int, comments: int, published: Option<int>, url: string)

  /** The six `youtube_*` columns of a song record. */
  datatype YouTubeFields = YouTubeFields(videoId: Option<string>, views: Option<int>, likes: Option<int>,
                                         comments: Option<int>, published: Option<int>, url: Option<string>)

  /** The five `instagram_*` columns of a song record. */
  datatype InstagramFields = InstagramFields(postId: Option<string>, postDate: Option<int>, likes: Option<int>,
                                             comments: Option<int>, url: Option<string>)

  /** One song record: the artist, the Last.fm columns of the track, the two media sections and the collection date. */
  datatype SongRecord = SongRecord(artistName: Merge.Cell, track: Track, youtube: YouTubeFields,
                                   instagram: InstagramFields, collectionDate: string)

  const NoVideo := YouTubeFields(None, None, None, None, None, None)
  const NoPost := InstagramFields(None, None, None, None, None)

  /** The YouTube columns filled from a found video; its title is not kept. */
  function VideoColumns(v: Video): (f: YouTubeFields)
    ensures f.videoId == Some(v.id) && f.views == Some(v.views) && f.likes == Some(v.likes)
    ensures f.comments == Some(v.comments) && f.published == v.published && f.url == Some(v.url)
  {
    YouTubeFields(Some(v.id), Some(v.views), Some(v.likes), Some(v.comments), v.published, Some(v.url))
  }

  /** The Instagram columns filled from a matching post; its caption is not kept. */
  function PostColumns(p: PostRecord): (f: InstagramFields)
    ensures f.postId == Some(p.postId) && f.postDate == Some(p.postDate) && f.likes == Some(p.likes)
    ensures f.comments == Some(p.comments) && f.url == Some(p.url)
  {
    InstagramFields(Some(p.postId), Some(p.postDate), Some(p.likes), Some(p.comments), Some(p.url))
  }

  /** The record for one track, with the video found for it and the post found for it, if any. */
  function SongRecordOf(artist: Merge.Cell, t: Track, video: Option<Video>, post: Option<PostRecord>, today: string): SongRecord {
    SongRecord(artist, t,
               if video.Some? then VideoColumns(video.value) else NoVideo,
               if post.Some? then PostColumns(post.value) else NoPost,
               today)
  }

  /**
   * The records for one artist, one per track of the reply; `videos(i)` is the search result for
   * track `i`. Post scraping is disabled, so no record carries a post.
   */
  function SongsSpec(artist: Merge.Cell, reply: Option<Json>, videos: nat -> Option<Video>, today: string): seq<SongRecord> {
    RecordsFor(artist, GetLastfmTopTracks(reply), videos, today)
  }

  function RecordsFor(artist: Merge.Cell, tracks: seq<Track>, videos: nat -> Option<Video>, today: string): seq<SongRecord> {
    seq(|tracks|, (i: nat) requires i < |tracks| => SongRecordOf(artist, tracks[i], videos(i), None, today))
  }

  /**
   * One record per track, in Last.fm order, keeping the artist, the track's columns and the date;
   * without a video every `youtube_*` column is None, with one they are its id, counts, date and url;
   * every `instagram_*` column is None.
   */
  lemma SongRecords(artist: Merge.Cell, reply: Option<Json>, videos: nat -> Option<Video>, today: string)
    ensures var tracks := GetLastfmTopTracks(reply);
      var songs := SongsSpec(artist, reply, videos, today);
      && |songs| == |tracks|
      && forall i :: 0 <= i < |songs| ==>
        && songs[i].artistName == artist && songs[i].track == tracks[i] && songs[i].collectionDate == today
        && (videos(i).None? <==> songs[i].youtube.videoId.None?)
        && (videos(i).None? ==> songs[i].youtube == YouTubeFields(None, None, None, None, None, None))
        && (videos(i).Some? ==> songs[i].youtube.videoId == Some(videos(i).value.id) && songs[i].youtube.views == Some(videos(i).value.views)
                                && songs[i].youtube.likes == Some(videos(i).value.likes) && songs[i].youtube.comments == Some(videos(i).value.comments)
                                && songs[i].youtube.published == videos(i).value.published && songs[i].youtube.url == Some(videos(i).value.url))
        && songs[i].instagram == InstagramFields(None, None, None, None, None)
  {
    var tracks := GetLastfmTopTracks(reply);
    var songs := SongsSpec(artist, reply, videos, today);
    forall i | 0 <= i < |songs|
      ensures songs[i] == SongRecordOf(artist, tracks[i], videos(i), None, today)
    {
    }
  }

  /**
   * `collect_song_data_for_artist`: the `song_record` dictionary built and then updated section by
   * section for each track. The handle is not used while post scraping is disabled.
   */
  method CollectSongDataForArtist(artist: Merge.Cell, handle: Option<string>, reply: Option<Json>,
                                  videos: nat -> Option<Video>, today: string) returns (songs: seq<SongRecord>)
    ensures songs == SongsSpec(artist, reply, videos, today)
  {
    var tracks := GetLastfmTopTracks(reply);
    songs := [];
    if tracks == [] {
      return;
    }
    songs := TrackRecords(artist, tracks, videos, today);
  }

  /** The loop over the tracks of `collect_song_data_for_artist`. */
  method TrackRecords(artist: Merge.Cell, tracks: seq<Track>, videos: nat -> Option<Video>, today: string)
    returns (songs: seq<SongRecord>)
    ensures songs == RecordsFor(artist, tracks, videos, today)
  {
    songs := [];
    for i := 0 to |tracks|
      invariant |songs| == i
      invariant forall k :: 0 <= k < i ==> songs[k] == SongRecordOf(artist, tracks[k], videos(k), None, today)
    {
      var video := videos(i);
      var rec := SongRecord(artist, tracks[i], NoVideo, NoPost, today);
      if video.Some? {
        rec := rec.(youtube := VideoColumns(video.value));
      } else {
        rec := rec.(youtube := NoVideo);
      }
      // No post is looked up, so the Instagram section is always the null-filled one.
      rec := rec.(instagram := NoPost);
      assert rec == SongRecordOf(artist, tracks[i], videos(i), None, today);
      songs := songs + [rec];
    }
    assert songs == RecordsFor(artist, tracks, videos, today);
  }

  // ---- main -------------------------------------------------------------------------------

  /** A row of the Last.fm table after the left join with the Instagram handles. */
  datatype ArtistRow = ArtistRow(name: Merge.Cell, handle: Merge.Cell)

  const MaxArtists: nat := 10
  const ProgressEvery: nat := 3

  /** A string handle loses every `@`; a missing or non-string handle becomes None. */
  function NormaliseHandle(c: Merge.Cell): (h: Option<string>)
    ensures h.Some? <==> c.Str?
    ensures h.Some? ==> '@' !in h.value && |h.value| <= |c.s| && (forall x :: x in h.value ==> x in c.s)
    ensures h.Some? ==> multiset(h.value) == multiset(c.s)['@' := 0]
  {
    if c.Str? then Text.RemoveCharMultiset(c.s, '@'); Some(Text.RemoveChar(c.s, '@')) else None
  }

  /** A handle without `@` is kept as it is. */
  lemma {:induction false} NormaliseKeepsPlainHandle(s: string)
    requires '@' !in s
    ensures NormaliseHandle(Merge.Str(s)) == Some(s)
  {
    Text.RemoveCharAbsent(s, '@');
  }

  /** The inputs per artist: `replies(k)` is the top-tracks reply and `videos(k, i)` the search result for track `i`. */
  datatype Sources = Sources(replies: nat -> Option<Json>, videos: (nat, nat) -> Option<Video>)

  /** The search results for the tracks of artist `k`. */
  function VideosOf(src: Sources, k: nat): nat -> Option<Video> {
    (i: nat) => src.videos(k, i)
  }

  /** The songs of each artist: `songsOf(row, k)` for the artist in row `k`. */
  function ArtistSongs(src: Sources, today: string): (ArtistRow, nat) -> seq<SongRecord> {
    (row: ArtistRow, k: nat) => SongsSpec(row.name, src.replies(k), VideosOf(src, k), today)
  }

  /** The songs of the first `n` artists, in order. */
  function SongsUpTo(rows: seq<ArtistRow>, songsOf: (ArtistRow, nat) -> seq<SongRecord>, n: nat): seq<SongRecord>
    requires n <= |rows|
  {
    if n == 0 then [] else SongsUpTo(rows, songsOf, n - 1) + songsOf(rows[n - 1], n - 1)
  }

  /** The files written after the first `n` artists: the progress saves after every third artist with songs so far. */
  function SavesUpTo(rows: seq<ArtistRow>, songsOf: (ArtistRow, nat) -> seq<SongRecord>, n: nat): seq<seq<SongRecord>>
    requires n <= |rows|
  {
    if n == 0 then []
    else
      var songs := SongsUpTo(rows, songsOf, n);
      SavesUpTo(rows, songsOf, n - 1) + (if n % ProgressEvery == 0 && songs != [] then [songs] else [])
  }

  /** What `main` produced: nothing when the Last.fm table cannot be read, else the songs and every file write. */
  datatype Run = NoArtists | Collected(songs: seq<SongRecord>, writes: seq<seq<SongRecord>>)

  function Processed(rows: seq<ArtistRow>): (n: nat)
    ensures n <= |rows| && n <= MaxArtists
  {
    if |rows| < MaxArtists then |rows| else MaxArtists
  }

  /** The run over the first `Processed(rows)` artists, then the final save when any song was collected. */
  function RunOver(rows: seq<ArtistRow>, songsOf: (ArtistRow, nat) -> seq<SongRecord>): Run {
    var n := Processed(rows);
    var songs := SongsUpTo(rows, songsOf, n);
    Collected(songs, SavesUpTo(rows, songsOf, n) + (if songs != [] then [songs] else []))
  }

  function MainSpec(table: Option<seq<ArtistRow>>, src: Sources, today: string): Run {
    match table
    case None => NoArtists
    case Some(rows) => RunOver(rows, ArtistSongs(src, today))
  }

  lemma {:induction false} SavesArePrefixes(rows: seq<ArtistRow>, songsOf: (ArtistRow, nat) -> seq<SongRecord>, n: nat)
    requires n <= |rows|
    ensures forall w :: w in SavesUpTo(rows, songsOf, n) ==> w != [] && w <= SongsUpTo(rows, songsOf, n)
  {
    if n > 0 {
      SavesArePrefixes(rows, songsOf, n - 1);
      var prev := SongsUpTo(rows, songsOf, n - 1);
      var songs := SongsUpTo(rows, songsOf, n);
      assert songs == prev + songsOf(rows[n - 1], n - 1);
      assert prev <= songs;
    }
  }

  lemma {:induction false} SavesEmpty(rows: seq<ArtistRow>, songsOf: (ArtistRow, nat) -> seq<SongRecord>, n: nat)
    requires n <= |rows|
    ensures SongsUpTo(rows, songsOf, n) == [] ==> SavesUpTo(rows, songsOf, n) == []
  {
    if n > 0 && SongsUpTo(rows, songsOf, n) == [] {
      var prev := SongsUpTo(rows, songsOf, n - 1);
      assert |prev + songsOf(rows[n - 1], n - 1)| == 0;
      assert prev == [];
      SavesEmpty(rows, songsOf, n - 1);
    }
  }

  /** Only the first `n` rows matter to the songs of the first `n` artists. */
  lemma {:induction false} SongsOfFirstArtists(rows: seq<ArtistRow>, more: seq<ArtistRow>,
                                               songsOf: (ArtistRow, nat) -> seq<SongRecord>, n: nat)
    requires n <= |rows|
    ensures SongsUpTo(rows + more, songsOf, n) == SongsUpTo(rows, songsOf, n)
  {
    if n > 0 {
      var longer := rows + more;
      SongsOfFirstArtists(rows, more, songsOf, n - 1);
      assert longer[n - 1] == rows[n - 1];
      assert SongsUpTo(longer, songsOf, n) == SongsUpTo(longer, songsOf, n - 1) + songsOf(longer[n - 1], n - 1);
    }
  }

  lemma {:induction false} SavesOfFirstArtists(rows: seq<ArtistRow>, more: seq<ArtistRow>,
                                               songsOf: (ArtistRow, nat) -> seq<SongRecord>, n: nat)
    requires n <= |rows|
    ensures SavesUpTo(rows + more, songsOf, n) == SavesUpTo(rows, songsOf, n)
  {
    if n > 0 {
      SavesOfFirstArtists(rows, more, songsOf, n - 1);
      SongsOfFirstArtists(rows, more, songsOf, n);
    }
  }

  /**
   * Every file written holds a non-empty prefix of the collected songs, the last one all of them,
   * and nothing is written when no song was collected; artists after the tenth never matter.
   */
  lemma RunFacts(rows: seq<ArtistRow>, songsOf: (ArtistRow, nat) -> seq<SongRecord>, more: seq<ArtistRow>)
    ensures var r := RunOver(rows, songsOf);
      && (forall w :: w in r.writes ==> w != [] && w <= r.songs)
      && (r.songs == [] <==> r.writes == [])
      && (r.songs != [] ==> r.writes[|r.writes| - 1] == r.songs)
      && (|rows| >= MaxArtists ==> RunOver(rows + more, songsOf) == r)
  {
    var n := Processed(rows);
    SavesArePrefixes(rows, songsOf, n);
    SavesEmpty(rows, songsOf, n);
    if |rows| >= MaxArtists {
      SongsOfFirstArtists(rows, more, songsOf, n);
      SavesOfFirstArtists(rows, more, songsOf, n);
    }
  }

  /** `main` after the table is read and joined: the loop over `merged_df.head(10)` with its saves. */
  method SongLevelMain(table: Option<seq<ArtistRow>>, src: Sources, today: string) returns (r: Run)
    ensures r == MainSpec(table, src, today)
  {
    if table.None? {
      return NoArtists;
    }
    var rows := table.value;
    ghost var songsOf := ArtistSongs(src, today);
    var n := Processed(rows);
    var all: seq<SongRecord> := [];
    var writes: seq<seq<SongRecord>> := [];
    for k := 0 to n
      invariant all == SongsUpTo(rows, songsOf, k)
      invariant writes == SavesUpTo(rows, songsOf, k)
    {
      var handle := NormaliseHandle(rows[k].handle);
      var songs := CollectSongDataForArtist(rows[k].name, handle, src.replies(k), VideosOf(src, k), today);
      assert songs == songsOf(rows[k], k);
      all := all + songs;
      assert all == SongsUpTo(rows, songsOf, k + 1);
      if (k + 1) % ProgressEvery == 0 {
        if all != [] {
          writes := writes + [all];
        }
      }
    }
    if all != [] {
      writes := writes + [all];
    }
    r := Collected(all, writes);
  }
}
