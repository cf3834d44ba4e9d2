/**
 * The Instagram collector: the identity check of a candidate profile, the search for an artist's
 * most-subscribed YouTube channel and the handles in its descriptions, the fallback name variations,
 * the metric sample of a profile, and the loop over the Last.fm artists with its checkpoints and
 * append save. Profiles are what `Profile.from_username` would load; a handle absent from the map is
 * one whose lookup raises.
 */
module Instagram {
  import opened Wrappers
  import opened Text
  import Json
  import Table
  import YouTube
  import opened Handles

  /** One post of a profile's feed. */
  datatype Post = Post(likes: int, comments: int, isVideo: bool)

  /** A loaded profile; `posts` in the order `get_posts` yields them. */
  datatype Profile = Profile(fullName: Option<string>, biography: Option<string>, followers: int,
                             followees: int, mediacount: int, isVerified: bool, posts: seq<Post>)

  // ---- identity check ------------------------------------------------------------------------

  const VerifyStopWords: seq<string> := ["the", "a", "an", "and", "or"]
  const MusicKeywords: seq<string> := ["music", "artist", "band", "musician", "singer", "songwriter"]
  const FollowerFloor: int := 5000

  function NameWords(name: string): seq<string> {
    SignificantWords(Words(Lower(name)), VerifyStopWords)
  }

  predicate HasMusicKeyword(fullName: string, bio: string) {
    exists k :: 0 <= k < |MusicKeywords| && (Contains(fullName, MusicKeywords[k]) || Contains(bio, MusicKeywords[k]))
  }

  /**
   * `verify_instagram_match`: the profile loads, some name word or music keyword occurs in its
   * lower-cased full name or biography, and it has at least 5000 followers.
   */
  predicate VerifyMatch(handle: string, name: string, profiles: map<string, Profile>) {
    handle in profiles &&
    var p := profiles[handle];
    var fullName := Lower(p.fullName.GetOr(""));
    var bio := Lower(p.biography.GetOr(""));
    var words := NameWords(name);
    (AnyIn(words, fullName) || AnyIn(words, bio) || HasMusicKeyword(fullName, bio)) && p.followers >= FollowerFloor
  }

  /** A token of the lower-cased name that the check looks for. */
  predicate IsNameWord(name: string, w: string) {
    w in Words(Lower(name)) && |w| > 2 && w !in VerifyStopWords
  }

  /**
   * The check in terms of the name's tokens themselves: a handle is accepted exactly when its
   * profile loads with at least 5000 followers and some name token longer than two characters that
   * is not a stop word, or some music keyword, occurs in the lower-cased full name or biography.
   */
  lemma VerifyMatchIff(handle: string, name: string, profiles: map<string, Profile>)
    ensures VerifyMatch(handle, name, profiles) <==>
      (handle in profiles && profiles[handle].followers >= FollowerFloor &&
       var fullName := Lower(profiles[handle].fullName.GetOr(""));
       var bio := Lower(profiles[handle].biography.GetOr(""));
       ((exists w :: IsNameWord(name, w) && (Contains(fullName, w) || Contains(bio, w))) ||
        HasMusicKeyword(fullName, bio)))
  {
    if handle in profiles {
      var p := profiles[handle];
      var fullName := Lower(p.fullName.GetOr(""));
      var bio := Lower(p.biography.GetOr(""));
      var words := NameWords(name);
      if AnyIn(words, fullName) || AnyIn(words, bio) {
        var k :| 0 <= k < |words| && (Contains(fullName, words[k]) || Contains(bio, words[k]));
        assert IsNameWord(name, words[k]);
      }
      if exists w :: IsNameWord(name, w) && (Contains(fullName, w) || Contains(bio, w)) {
        var w :| IsNameWord(name, w) && (Contains(fullName, w) || Contains(bio, w));
        var k :| 0 <= k < |words| && words[k] == w;
        assert Contains(fullName, words[k]) || Contains(bio, words[k]);
      }
    }
  }

  /** The first element satisfying `ok`, with every earlier one failing it. */
  function FirstWhere<T>(xs: seq<T>, ok: T -> bool): (r: Option<T>)
    ensures r.Some? ==> r.value in xs && ok(r.value)
    ensures r.None? <==> forall k :: 0 <= k < |xs| ==> !ok(xs[k])
    ensures r.Some? ==> exists k :: 0 <= k < |xs| && xs[k] == r.value && forall j :: 0 <= j < k ==> !ok(xs[j])
  {
    if xs == [] then None
    else if ok(xs[0]) then Some(xs[0])
    else
      var r := FirstWhere(xs[1..], ok);
      assert forall k :: 1 <= k < |xs| ==> xs[k] == xs[1..][k - 1];
      r
  }

  /** The first handle of the list that passes the check: the `for handle in handles` loops. */
  function FirstVerified(hs: seq<string>, name: string, profiles: map<string, Profile>): Option<string> {
    FirstWhere(hs, h => VerifyMatch(h, name, profiles))
  }

  method PickVerified(hs: seq<string>, name: string, profiles: map<string, Profile>) returns (r: Option<string>)
    ensures r == FirstVerified(hs, name, profiles)
  {
    var i := 0;
    while i < |hs|
      invariant 0 <= i <= |hs|
      invariant FirstVerified(hs[i..], name, profiles) == FirstVerified(hs, name, profiles)
    {
      assert hs[i..][1..] == hs[i + 1..];
      if VerifyMatch(hs[i], name, profiles) {
        return Some(hs[i]);
      }
      i := i + 1;
    }
    return None;
  }

  // ---- the most-subscribed channel -----------------------------------------------------------

  /** One item of the `channels().list(part='statistics')` reply. */
  datatype ChannelStat = ChannelStat(id: string, subscriberCount: Option<Json.Json>)

  /** The subscriber counts of the reply's channels; `None` when one does not parse (the loop raises). */
  function SubscriberList(chs: seq<ChannelStat>): (r: Option<seq<int>>)
    ensures r.Some? <==> forall k :: 0 <= k < |chs| ==> YouTube.CountOr0(chs[k].subscriberCount).Some?
    ensures r.Some? ==> (|r.value| == |chs| &&
              forall k :: 0 <= k < |chs| ==> YouTube.CountOr0(chs[k].subscriberCount) == Some(r.value[k]))
  {
    if chs == [] then Some([])
    else
      assert forall k :: 1 <= k < |chs| ==> chs[k] == chs[1..][k - 1];
      match (YouTube.CountOr0(chs[0].subscriberCount), SubscriberList(chs[1..]))
      case (Some(s), Some(rest)) => Some([s] + rest)
      case _ => None
  }

  /** Python's `max` by subscribers: a largest count, the first one among equals. */
  function MostSubscribed(subs: seq<int>): (k: nat)
    requires subs != []
    ensures k < |subs|
    ensures forall j :: 0 <= j < |subs| ==> subs[j] <= subs[k]
    ensures forall j :: 0 <= j < k ==> subs[j] < subs[k]
  {
    if |subs| == 1 then 0
    else
      var k := MostSubscribed(subs[..|subs| - 1]);
      assert forall j :: 0 <= j < |subs| - 1 ==> subs[..|subs| - 1][j] == subs[j];
      if subs[|subs| - 1] > subs[k] then |subs| - 1 else k
  }

  /**
   * `find_best_youtube_channel`: the id and subscriber count of the most-subscribed channel, or
   * `None` without a client, on a failed request, an empty search or channel list, or a count that
   * does not parse.
   */
  function BestChannel(client: bool, search: Reply<string>, channels: Reply<ChannelStat>): (r: Option<(string, int)>)
    ensures !client || search.Failed? || search.items == [] || channels.Failed? ==> r.None?
  {
    if !client || search.Failed? || search.items == [] || channels.Failed? then None
    else
      match SubscriberList(channels.items)
      case None => None
      case Some(subs) =>
        if subs == [] then None
        else
          var k := MostSubscribed(subs);
          Some((channels.items[k].id, subs[k]))
  }

  /**
   * A channel is returned exactly when the requests succeed, the channel list is non-empty and
   * every count parses; it is then the first channel with the largest subscriber count.
   */
  lemma BestChannelIsMostSubscribed(client: bool, search: Reply<string>, channels: Reply<ChannelStat>)
    ensures BestChannel(client, search, channels).Some? <==>
              (client && search.Ok? && search.items != [] && channels.Ok? && channels.items != [] &&
               forall k :: 0 <= k < |channels.items| ==> YouTube.CountOr0(channels.items[k].subscriberCount).Some?)
    ensures BestChannel(client, search, channels).Some? ==>
              var (id, s) := BestChannel(client, search, channels).value;
              exists k :: (0 <= k < |channels.items| && channels.items[k].id == id &&
                YouTube.CountOr0(channels.items[k].subscriberCount) == Some(s) &&
                (forall j :: 0 <= j < |channels.items| ==> YouTube.CountOr0(channels.items[j].subscriberCount).value <= s) &&
                (forall j :: 0 <= j < k ==> YouTube.CountOr0(channels.items[j].subscriberCount).value < s))
  {
    var r := BestChannel(client, search, channels);
    if r.Some? {
      var subs := SubscriberList(channels.items).value;
      var k := MostSubscribed(subs);
      assert channels.items[k].id == r.value.0 && subs[k] == r.value.1;
    }
  }

  method FindBestYouTubeChannel(client: bool, search: Reply<string>, channels: Reply<ChannelStat>)
    returns (r: Option<(string, int)>)
    ensures r == BestChannel(client, search, channels)
  {
    if !client || search.Failed? || search.items == [] || channels.Failed? {
      return None;
    }
    var chs := channels.items;
    var subs: seq<int> := [];
    var i := 0;
    while i < |chs|
      invariant 0 <= i <= |chs| && |subs| == i
      invariant forall k :: 0 <= k < i ==> YouTube.CountOr0(chs[k].subscriberCount) == Some(subs[k])
    {
      var s := YouTube.CountOr0(chs[i].subscriberCount);
      if s.None? {
        return None;
      }
      subs := subs + [s.value];
      i := i + 1;
    }
    assert SubscriberList(chs).Some?;
    assert SubscriberList(chs).value == subs;
    if subs == [] {
      return None;
    }
    var k := MostSubscribed(subs);
    return Some((chs[k].id, subs[k]));
  }

  // ---- handles in the channel's descriptions -------------------------------------------------

  /** The replies the YouTube client gives for one artist's requests. */
  datatype YouTubeView = YouTubeView(
    client: bool,
    search: Reply<string>,
    channels: Reply<ChannelStat>,
    channelSnippet: Reply<Option<string>>,
    uploads: Reply<string>,
    playlist: Reply<string>,
    videoSnippets: map<string, Reply<Option<string>>>)

  /** `get_channel_description` / `get_video_description`: `''` when the first item has no description. */
  function Description(reply: Reply<Option<string>>): Option<string> {
    if reply.Failed? || reply.items == [] then None else Some(reply.items[0].GetOr(""))
  }

  /** `get_top_videos`: the video ids of the uploads playlist, `[]` when a request fails or finds nothing. */
  function TopVideos(uploads: Reply<string>, playlist: Reply<string>): seq<string> {
    if uploads.Failed? || uploads.items == [] || playlist.Failed? then [] else playlist.items
  }

  function VideoDescription(view: YouTubeView, video: string): Option<string> {
    if video in view.videoSnippets then Description(view.videoSnippets[video]) else None
  }

  /** The channel description followed by the video descriptions, in the order they are scanned. */
  function Descriptions(view: YouTubeView): seq<Option<string>> {
    var videos := TopVideos(view.uploads, view.playlist);
    [Description(view.channelSnippet)] + seq(|videos|, i requires 0 <= i < |videos| => VideoDescription(view, videos[i]))
  }

  /** A truthy description. */
  predicate Present(d: Option<string>) {
    d.Some? && d.value != []
  }

  /** The handles a description contributes, verified first-in-list; nothing for a falsy one. */
  function DescriptionHandle(d: Option<string>, name: string, profiles: map<string, Profile>,
                             arrange: set<string> -> seq<string>): Option<string> {
    if Present(d) then FirstVerified(arrange(HandleSet(d)), name, profiles) else None
  }

  /** The first verified handle over the descriptions in order. */
  function ScanDescriptions(ds: seq<Option<string>>, name: string, profiles: map<string, Profile>,
                            arrange: set<string> -> seq<string>): Option<string>
  {
    FirstPicked(ds, Picker(name, profiles, arrange))
  }

  /** The search of one description, as one function value. */
  function Picker(name: string, profiles: map<string, Profile>, arrange: set<string> -> seq<string>):
    Option<string> -> Option<string>
  {
    (d: Option<string>) => DescriptionHandle(d, name, profiles, arrange)
  }

  /** The first result `pick` yields over the descriptions in order. */
  function FirstPicked(ds: seq<Option<string>>, pick: Option<string> -> Option<string>): Option<string> {
    if ds == [] then None
    else if pick(ds[0]).Some? then pick(ds[0])
    else FirstPicked(ds[1..], pick)
  }

  /** The scan yields the result of the first description that yields one, or nothing when none does. */
  lemma {:induction false} FirstPickedFacts(ds: seq<Option<string>>, pick: Option<string> -> Option<string>)
    ensures var r := FirstPicked(ds, pick);
      (r.None? <==> forall k :: 0 <= k < |ds| ==> pick(ds[k]).None?) &&
      (r.Some? ==> exists k :: 0 <= k < |ds| && pick(ds[k]) == r && forall j :: 0 <= j < k ==> pick(ds[j]).None?)
  {
    if ds != [] && pick(ds[0]).None? {
      var rest := ds[1..];
      FirstPickedFacts(rest, pick);
      assert forall k :: 1 <= k < |ds| ==> ds[k] == rest[k - 1];
      var r := FirstPicked(rest, pick);
      if r.Some? {
        var k :| 0 <= k < |rest| && pick(rest[k]) == r && forall j :: 0 <= j < k ==> pick(rest[j]).None?;
        assert pick(ds[k + 1]) == r;
      }
    }
  }

  /** A description's handle passes the check and is in the handle list of a truthy description. */
  lemma DescriptionHandleFacts(d: Option<string>, name: string, profiles: map<string, Profile>,
                               arrange: set<string> -> seq<string>)
    ensures var r := DescriptionHandle(d, name, profiles, arrange);
      r.Some? ==> Present(d) && r.value in arrange(HandleSet(d)) && VerifyMatch(r.value, name, profiles)
  {
    if Present(d) {
      FirstVerifiedFacts(arrange(HandleSet(d)), name, profiles);
    }
  }

  /**
   * The scan's handle passes the check, comes from the first description that yields one, and is
   * in that description's handle list; the scan finds nothing exactly when no description yields one.
   */
  lemma ScanDescriptionsFacts(ds: seq<Option<string>>, name: string, profiles: map<string, Profile>,
                              arrange: set<string> -> seq<string>)
    ensures var r := ScanDescriptions(ds, name, profiles, arrange);
      (r.Some? ==> VerifyMatch(r.value, name, profiles)) &&
      (r.Some? ==> exists k :: (0 <= k < |ds| && Present(ds[k]) && r.value in arrange(HandleSet(ds[k])) &&
                     DescriptionHandle(ds[k], name, profiles, arrange) == r &&
                     forall j :: 0 <= j < k ==> DescriptionHandle(ds[j], name, profiles, arrange).None?)) &&
      (r.None? <==> forall k :: 0 <= k < |ds| ==> DescriptionHandle(ds[k], name, profiles, arrange).None?)
  {
    var pick := Picker(name, profiles, arrange);
    FirstPickedFacts(ds, pick);
    assert forall k :: 0 <= k < |ds| ==> pick(ds[k]) == DescriptionHandle(ds[k], name, profiles, arrange);
    var r := FirstPicked(ds, pick);
    if r.Some? {
      var k :| 0 <= k < |ds| && pick(ds[k]) == r && forall j :: 0 <= j < k ==> pick(ds[j]).None?;
      DescriptionHandleFacts(ds[k], name, profiles, arrange);
    }
  }

  /**
   * `find_instagram_handle_from_youtube`: nothing without a client or a channel with a non-empty id;
   * otherwise the scan of the channel and video descriptions.
   */
  function HandleFromYouTube(name: string, view: YouTubeView, profiles: map<string, Profile>,
                             arrange: set<string> -> seq<string>): Option<string> {
    if !view.client then None
    else
      match BestChannel(view.client, view.search, view.channels)
      case None => None
      case Some(best) => if best.0 == "" then None else ScanDescriptions(Descriptions(view), name, profiles, arrange)
  }

  /**
   * A handle found on YouTube passes the check and is one that the extractor returned for the
   * channel or a video description, so it has the extractor's shape.
   */
  lemma HandleFromYouTubeFacts(name: string, view: YouTubeView, profiles: map<string, Profile>,
                               arrange: set<string> -> seq<string>)
    requires HasArrangements(arrange)
    requires HandleFromYouTube(name, view, profiles, arrange).Some?
    ensures var h := HandleFromYouTube(name, view, profiles, arrange).value;
      VerifyMatch(h, name, profiles) && |h| >= 2 && IsLowerCase(h) &&
      exists k :: 0 <= k < |Descriptions(view)| && h in HandleSet(Descriptions(view)[k])
  {
    var h := HandleFromYouTube(name, view, profiles, arrange).value;
    var ds := Descriptions(view);
    ScanDescriptionsFacts(ds, name, profiles, arrange);
    var k :| 0 <= k < |ds| && Present(ds[k]) && h in arrange(HandleSet(ds[k]));
    assert IsArrangement(arrange(HandleSet(ds[k])), HandleSet(ds[k]));
    HandleSetShape(ds[k], h);
  }

  lemma DescriptionsShape(view: YouTubeView)
    ensures var videos := TopVideos(view.uploads, view.playlist);
      var ds := Descriptions(view);
      |ds| == 1 + |videos| && ds[0] == Description(view.channelSnippet) &&
      forall i :: 0 <= i < |videos| ==> ds[1 + i] == VideoDescription(view, videos[i])
  {
  }

  /**
   * One step of the scan: the description at `i` either yields the handle and ends the pauses, or hands
   * over to the rest after one pause.
   */
  lemma ScanStep(ds: seq<Option<string>>, i: nat, name: string, profiles: map<string, Profile>,
                 arrange: set<string> -> seq<string>)
    requires i < |ds|
    ensures ScanDescriptions(ds[i..], name, profiles, arrange) ==
              if DescriptionHandle(ds[i], name, profiles, arrange).Some? then DescriptionHandle(ds[i], name, profiles, arrange)
              else ScanDescriptions(ds[i + 1..], name, profiles, arrange)
    ensures PassedOver(ds[i..], Picker(name, profiles, arrange)) ==
              if DescriptionHandle(ds[i], name, profiles, arrange).Some? then 0
              else 1 + PassedOver(ds[i + 1..], Picker(name, profiles, arrange))
  {
    assert ds[i..][0] == ds[i];
    assert ds[i..][1..] == ds[i + 1..];
  }

  /** How many descriptions `pick` passes over before the first that yields a result: all of them when none does. */
  function PassedOver(ds: seq<Option<string>>, pick: Option<string> -> Option<string>): (r: nat)
    ensures r <= |ds|
    ensures forall k :: 0 <= k < r ==> pick(ds[k]).None?
    ensures r < |ds| ==> pick(ds[r]).Some?
  {
    if ds == [] then 0
    else if pick(ds[0]).Some? then 0
    else 1 + PassedOver(ds[1..], pick)
  }

  /**
   * The half-second pauses of a scan: none when the channel description yields the handle, otherwise one
   * per video description that yields none, up to the first that does.
   */
  function ScanPauses(ds: seq<Option<string>>, name: string, profiles: map<string, Profile>,
                      arrange: set<string> -> seq<string>): nat
    requires ds != []
  {
    if DescriptionHandle(ds[0], name, profiles, arrange).Some? then 0 else PassedOver(ds[1..], Picker(name, profiles, arrange))
  }

  /** The scan finds nothing exactly when the channel description yields nothing and every video costs a pause. */
  lemma ScanPausesNone(ds: seq<Option<string>>, name: string, profiles: map<string, Profile>,
                       arrange: set<string> -> seq<string>)
    requires ds != []
    ensures ScanDescriptions(ds, name, profiles, arrange).None? <==>
              DescriptionHandle(ds[0], name, profiles, arrange).None? && ScanPauses(ds, name, profiles, arrange) == |ds| - 1
  {
    var pick := Picker(name, profiles, arrange);
    FirstPickedPassedOver(ds, pick);
    assert pick(ds[0]) == DescriptionHandle(ds[0], name, profiles, arrange);
  }

  lemma FirstPickedPassedOver(ds: seq<Option<string>>, pick: Option<string> -> Option<string>)
    requires ds != []
    ensures FirstPicked(ds, pick).None? <==> pick(ds[0]).None? && PassedOver(ds[1..], pick) == |ds| - 1
  {
    FirstPickedFacts(ds, pick);
    var vs := ds[1..];
    assert forall k :: 0 <= k < |vs| ==> vs[k] == ds[k + 1];
  }

  /** The handle list of one description, searched for a verified handle. */
  method CheckDescription(d: Option<string>, name: string, profiles: map<string, Profile>,
                          arrange: set<string> -> seq<string>) returns (h: Option<string>)
    requires HasArrangements(arrange)
    ensures h == DescriptionHandle(d, name, profiles, arrange)
  {
    h := None;
    if Present(d) {
      var handles := ExtractInstagramHandles(d, arrange);
      h := PickVerified(handles, name, profiles);
    }
  }

  method FindInstagramHandleFromYouTube(name: string, view: YouTubeView, profiles: map<string, Profile>,
                                        arrange: set<string> -> seq<string>)
    returns (h: Option<string>, pauses: nat)
    requires HasArrangements(arrange)
    ensures h == HandleFromYouTube(name, view, profiles, arrange)
    ensures pauses == if view.client && BestChannel(view.client, view.search, view.channels).Some? &&
                         BestChannel(view.client, view.search, view.channels).value.0 != ""
                      then ScanPauses(Descriptions(view), name, profiles, arrange) else 0
    ensures pauses <= |TopVideos(view.uploads, view.playlist)|
  {
    h, pauses := None, 0;
    if !view.client {
      return;
    }
    var best := FindBestYouTubeChannel(view.client, view.search, view.channels);
    if best.None? || best.value.0 == "" {
      return;
    }
    h, pauses := ScanChannel(name, view, profiles, arrange);
  }

  /** The scan of the channel description, then of each top video's description, stopping at a handle. */
  method ScanChannel(name: string, view: YouTubeView, profiles: map<string, Profile>,
                     arrange: set<string> -> seq<string>)
    returns (h: Option<string>, pauses: nat)
    requires HasArrangements(arrange)
    ensures h == ScanDescriptions(Descriptions(view), name, profiles, arrange)
    ensures pauses == ScanPauses(Descriptions(view), name, profiles, arrange)
    ensures pauses <= |TopVideos(view.uploads, view.playlist)|
  {
    pauses := 0;
    ghost var ds := Descriptions(view);
    var videos := TopVideos(view.uploads, view.playlist);
    DescriptionsShape(view);
    ghost var vs := ds[1..];
    h := CheckDescription(Description(view.channelSnippet), name, profiles, arrange);
    ScanStep(ds, 0, name, profiles, arrange);
    assert ds[0..] == ds && vs[0..] == vs;
    if h.Some? {
      return;
    }
    var i := 0;
    while i < |videos|
      invariant 0 <= i <= |videos| && h.None?
      invariant ScanDescriptions(ds, name, profiles, arrange) == ScanDescriptions(vs[i..], name, profiles, arrange)
      invariant pauses + PassedOver(vs[i..], Picker(name, profiles, arrange)) == PassedOver(vs, Picker(name, profiles, arrange))
    {
      h := CheckDescription(VideoDescription(view, videos[i]), name, profiles, arrange);
      assert vs[i] == VideoDescription(view, videos[i]);
      ScanStep(vs, i, name, profiles, arrange);
      if h.Some? {
        return;
      }
      pauses := pauses + 1;
      i := i + 1;
    }
    assert vs[i..] == [];
  }

  // ---- fallback variations -------------------------------------------------------------------

  /** The lower-cased name with spaces, dots and hyphens removed. */
  function HandleBase(name: string): (b: string)
    ensures ' ' !in b && '.' !in b && '-' !in b
    ensures |b| <= |name|
    ensures multiset(b) == multiset(Lower(name))[' ' := 0]['.' := 0]['-' := 0]
  {
    RemoveCharMultiset(Lower(name), ' ');
    RemoveCharMultiset(RemoveChar(Lower(name), ' '), '.');
    RemoveCharMultiset(RemoveChar(RemoveChar(Lower(name), ' '), '.'), '-');
    RemoveChar(RemoveChar(RemoveChar(Lower(name), ' '), '.'), '-')
  }

  /** A name without spaces, dots and hyphens has its lower-cased form as its base. */
  lemma HandleBasePlain(name: string)
    requires ' ' !in name && '.' !in name && '-' !in name
    ensures HandleBase(name) == Lower(name)
  {
    var l := Lower(name);
    assert forall i :: 0 <= i < |l| ==> l[i] != ' ' && l[i] != '.' && l[i] != '-' by {
      forall i | 0 <= i < |l|
        ensures l[i] != ' ' && l[i] != '.' && l[i] != '-'
      {
        assert name[i] in name;
      }
    }
    RemoveCharAbsent(l, ' ');
    RemoveCharAbsent(l, '.');
    RemoveCharAbsent(l, '-');
  }

  /** The base of a concatenation is the concatenation of the bases, so the kept characters stay in order. */
  lemma {:induction false} HandleBaseAppend(a: string, b: string)
    ensures HandleBase(a + b) == HandleBase(a) + HandleBase(b)
  {
    LowerAppend(a, b);
    RemoveCharAppend(Lower(a), Lower(b), ' ');
    RemoveCharAppend(RemoveChar(Lower(a), ' '), RemoveChar(Lower(b), ' '), '.');
    RemoveCharAppend(RemoveChar(RemoveChar(Lower(a), ' '), '.'), RemoveChar(RemoveChar(Lower(b), ' '), '.'), '-');
  }

  /** The fallback candidates, in the order they are tried. */
  function Variations(name: string): seq<string> {
    var base := HandleBase(name);
    [base, RemoveAll(base, "the"), base + "music", base + "official"]
  }

  /**
   * `find_instagram_handle`: a truthy handle found on YouTube wins; otherwise the first variation
   * whose profile exists and passes the check.
   */
  function HandleSpec(name: string, view: YouTubeView, profiles: map<string, Profile>,
                      arrange: set<string> -> seq<string>): (r: Option<string>)
    ensures r.Some? ==> VerifyMatch(r.value, name, profiles)
  {
    var fromYouTube := HandleFromYouTube(name, view, profiles, arrange);
    ScanDescriptionsFacts(Descriptions(view), name, profiles, arrange);
    if fromYouTube.Some? && fromYouTube.value != "" then fromYouTube
    else FirstVerified(Variations(name), name, profiles)
  }

  /** YouTube takes precedence: whenever the description scan finds a handle, the variations are not tried. */
  lemma YouTubeTakesPrecedence(name: string, view: YouTubeView, profiles: map<string, Profile>,
                               arrange: set<string> -> seq<string>)
    requires HasArrangements(arrange)
    requires HandleFromYouTube(name, view, profiles, arrange).Some?
    ensures HandleSpec(name, view, profiles, arrange) == HandleFromYouTube(name, view, profiles, arrange)
  {
    HandleFromYouTubeFacts(name, view, profiles, arrange);
  }

  /**
   * Without a YouTube handle the result is the first variation, in the fixed order, whose profile
   * passes the check; every earlier variation fails it.
   */
  lemma FallbackOrder(name: string, view: YouTubeView, profiles: map<string, Profile>,
                      arrange: set<string> -> seq<string>)
    requires HandleFromYouTube(name, view, profiles, arrange).None?
    ensures var r := HandleSpec(name, view, profiles, arrange);
      var vs := Variations(name);
      (r.None? <==> forall k :: 0 <= k < 4 ==> !VerifyMatch(vs[k], name, profiles)) &&
      (r.Some? ==> exists k :: 0 <= k < 4 && vs[k] == r.value && r.value in profiles &&
                     forall j :: 0 <= j < k ==> !VerifyMatch(vs[j], name, profiles))
  {
    var vs := Variations(name);
    assert HandleSpec(name, view, profiles, arrange) == FirstVerified(vs, name, profiles);
    FirstVerifiedFacts(vs, name, profiles);
  }

  /** `FirstVerified` in terms of the check itself. */
  lemma FirstVerifiedFacts(hs: seq<string>, name: string, profiles: map<string, Profile>)
    ensures var r := FirstVerified(hs, name, profiles);
      (r.None? <==> forall k :: 0 <= k < |hs| ==> !VerifyMatch(hs[k], name, profiles)) &&
      (r.Some? ==> exists k :: 0 <= k < |hs| && hs[k] == r.value && r.value in profiles &&
                     forall j :: 0 <= j < k ==> !VerifyMatch(hs[j], name, profiles))
  {
    var ok := h => VerifyMatch(h, name, profiles);
    assert forall k :: 0 <= k < |hs| ==> ok(hs[k]) == VerifyMatch(hs[k], name, profiles);
  }

  method FindInstagramHandle(name: string, view: YouTubeView, profiles: map<string, Profile>,
                             arrange: set<string> -> seq<string>)
    returns (h: Option<string>, pauses: nat)
    requires HasArrangements(arrange)
    ensures h == HandleSpec(name, view, profiles, arrange)
  {
    h, pauses := FindInstagramHandleFromYouTube(name, view, profiles, arrange);
    if h.Some? && h.value != "" {
      return;
    }
    h := TryVariations(name, profiles);
  }

  /** The fallback: the variations in order, the first whose profile exists and passes the check. */
  method TryVariations(name: string, profiles: map<string, Profile>) returns (h: Option<string>)
    ensures h == FirstVerified(Variations(name), name, profiles)
  {
    var variations := Variations(name);
    var i := 0;
    while i < |variations|
      invariant 0 <= i <= |variations|
      invariant FirstVerified(variations[i..], name, profiles) == FirstVerified(variations, name, profiles)
    {
      assert variations[i..][1..] == variations[i + 1..];
      if variations[i] in profiles {
        if VerifyMatch(variations[i], name, profiles) {
          return Some(variations[i]);
        }
      }
      i := i + 1;
    }
    return None;
  }

  // ---- metric sample -------------------------------------------------------------------------

  /** The record `get_instagram_metrics` returns; averages and rate are exact, the rounding is not modelled. */
  datatype Metrics = Metrics(handle: string, followers: int, following: int, posts: int, avgLikes: real,
                             avgComments: real, engagementRate: real, reelsCount: nat, verified: bool)

  const MaxPosts: nat := 12

  function TotalLikes(ps: seq<Post>): int {
    if ps == [] then 0 else ps[0].likes + TotalLikes(ps[1..])
  }

  function TotalComments(ps: seq<Post>): int {
    if ps == [] then 0 else ps[0].comments + TotalComments(ps[1..])
  }

  /** The number of video posts. */
  function ReelCount(ps: seq<Post>): (n: nat)
    ensures n <= |ps|
    ensures n == 0 <==> forall k :: 0 <= k < |ps| ==> !ps[k].isVideo
  {
    if ps == [] then 0
    else
      assert forall k :: 1 <= k < |ps| ==> ps[k] == ps[1..][k - 1];
      (if ps[0].isVideo then 1 else 0) + ReelCount(ps[1..])
  }

  /** Likes plus comments per post, per follower, as a percentage; 0 without followers. */
  function EngagementRate(avgLikes: real, avgComments: real, followers: int): real {
    if followers > 0 then (avgLikes + avgComments) / followers as real * 100.0 else 0.0
  }

  /** The rate is 0 without followers, and otherwise times the followers gives a hundred times the per-post engagement. */
  lemma EngagementRateFacts(avgLikes: real, avgComments: real, followers: int)
    ensures followers <= 0 ==> EngagementRate(avgLikes, avgComments, followers) == 0.0
    ensures followers > 0 ==> EngagementRate(avgLikes, avgComments, followers) * followers as real == (avgLikes + avgComments) * 100.0
  {
  }

  /** The posts `get_instagram_metrics` samples: the first twelve. */
  function Sample(p: Profile): seq<Post> {
    if |p.posts| <= MaxPosts then p.posts else p.posts[..MaxPosts]
  }

  function MetricsSpec(username: string, profiles: map<string, Profile>): Option<Metrics> {
    if username !in profiles then None
    else
      var p := profiles[username];
      var sample := Sample(p);
      if sample == [] then None
      else
        var avgLikes := TotalLikes(sample) as real / |sample| as real;
        var avgComments := TotalComments(sample) as real / |sample| as real;
        if p.followers < FollowerFloor then None
        else Some(Metrics(username, p.followers, p.followees, p.mediacount, avgLikes, avgComments,
                          EngagementRate(avgLikes, avgComments, p.followers), ReelCount(sample), p.isVerified))
  }

  /**
   * Metrics exist exactly for a loadable profile with posts and at least 5000 followers. They then
   * describe at most twelve sampled posts: no more reels than samples, averages over the sample, and
   * an engagement rate computed against a positive follower count.
   */
  lemma MetricsFacts(username: string, profiles: map<string, Profile>)
    ensures MetricsSpec(username, profiles).None? <==>
              (username !in profiles || profiles[username].posts == [] || profiles[username].followers < FollowerFloor)
    ensures MetricsSpec(username, profiles).Some? ==>
              var m := MetricsSpec(username, profiles).value;
              var sample := Sample(profiles[username]);
              0 < |sample| <= MaxPosts && sample <= profiles[username].posts &&
              m.reelsCount <= |sample| && m.followers >= FollowerFloor && m.handle == username &&
              m.avgLikes * |sample| as real == TotalLikes(sample) as real &&
              m.avgComments * |sample| as real == TotalComments(sample) as real &&
              m.engagementRate * m.followers as real == (m.avgLikes + m.avgComments) * 100.0
  {
    if username in profiles {
      var p := profiles[username];
      var sample := Sample(p);
      assert sample == [] <==> p.posts == [];
      if sample != [] {
        EngagementRateFacts(TotalLikes(sample) as real / |sample| as real,
                            TotalComments(sample) as real / |sample| as real, p.followers);
      }
    }
  }

  method GetInstagramMetrics(username: string, profiles: map<string, Profile>) returns (m: Option<Metrics>)
    ensures m == MetricsSpec(username, profiles)
  {
    if username !in profiles {
      return None;
    }
    var p := profiles[username];
    var posts: seq<Post> := [];
    var postCount := 0;
    var i := 0;
    while i < |p.posts|
      invariant 0 <= i <= |p.posts| && i < MaxPosts
      invariant posts == p.posts[..i] && postCount == i
    {
      posts := posts + [p.posts[i]];
      postCount := postCount + 1;
      i := i + 1;
      if postCount >= MaxPosts {
        break;
      }
    }
    assert posts == Sample(p);
    if |posts| == 0 {
      return None;
    }
    var avgLikes := TotalLikes(posts) as real / |posts| as real;
    var avgComments := TotalComments(posts) as real / |posts| as real;
    var rate := EngagementRate(avgLikes, avgComments, p.followers);
    var reels := ReelCount(posts);
    if p.followers < FollowerFloor {
      return None;
    }
    return Some(Metrics(username, p.followers, p.followees, p.mediacount, avgLikes, avgComments, rate, reels, p.isVerified));
  }

  // ---- the collection loop -------------------------------------------------------------------

  /** One output row: the metrics with the Last.fm id and name attached. */
  datatype InstagramRow = InstagramRow(artistId: string, artistName: string, metrics: Metrics)

  function RowId(r: InstagramRow): string {
    r.artistId
  }

  const CheckpointInterval: nat := 50

  /** The row one artist contributes: a truthy handle with metrics, or nothing. */
  function ArtistRow(a: YouTube.Artist, views: string -> YouTubeView, profiles: map<string, Profile>,
                     arrange: set<string> -> seq<string>): Option<InstagramRow> {
    RowFrom(a, HandleSpec(a.artistName, views(a.artistName), profiles, arrange), profiles)
  }

  /** The row for a handle search result: a truthy handle whose metrics load, or nothing. */
  function RowFrom(a: YouTube.Artist, handle: Option<string>, profiles: map<string, Profile>): Option<InstagramRow> {
    match handle
    case None => None
    case Some(h) =>
      if h == "" then None
      else
        match MetricsSpec(h, profiles)
        case None => None
        case Some(m) => Some(InstagramRow(a.artistId, a.artistName, m))
  }

  /** The row the loop collects for each artist, as one function value. */
  function RowFor(views: string -> YouTubeView, profiles: map<string, Profile>,
                  arrange: set<string> -> seq<string>): YouTube.Artist -> Option<InstagramRow> {
    (a: YouTube.Artist) => ArtistRow(a, views, profiles, arrange)
  }

  /** The rows collected over the artists, in order, `row` giving each artist's row if any. */
  function RowsOf(artists: seq<YouTube.Artist>, row: YouTube.Artist -> Option<InstagramRow>): seq<InstagramRow> {
    if artists == [] then []
    else
      var last := row(artists[|artists| - 1]);
      RowsOf(artists[..|artists| - 1], row) + (if last.Some? then [last.value] else [])
  }

  /**
   * Every collected row belongs to one of the artists, carries a handle that passed the check
   * against that artist's name, and a profile with at least 5000 followers.
   */
  lemma {:induction false} RowsAreVerified(artists: seq<YouTube.Artist>, views: string -> YouTubeView,
                                           profiles: map<string, Profile>, arrange: set<string> -> seq<string>)
    ensures |RowsOf(artists, RowFor(views, profiles, arrange))| <= |artists|
    ensures forall r :: r in RowsOf(artists, RowFor(views, profiles, arrange)) ==>
              YouTube.Artist(r.artistId, r.artistName) in artists &&
              VerifyMatch(r.metrics.handle, r.artistName, profiles) && r.metrics.followers >= FollowerFloor
  {
    if artists != [] {
      var init := artists[..|artists| - 1];
      RowsAreVerified(init, views, profiles, arrange);
      var a := artists[|artists| - 1];
      var last := ArtistRow(a, views, profiles, arrange);
      assert RowFor(views, profiles, arrange)(a) == last;
      if last.Some? {
        var h := HandleSpec(a.artistName, views(a.artistName), profiles, arrange).value;
        MetricsFacts(h, profiles);
      }
      assert forall x :: x in init ==> x in artists;
    }
  }

  lemma RowsOfSnoc(artists: seq<YouTube.Artist>, i: nat, row: YouTube.Artist -> Option<InstagramRow>)
    requires i < |artists|
    ensures var r := row(artists[i]);
      RowsOf(artists[..i + 1], row) == RowsOf(artists[..i], row) + (if r.Some? then [r.value] else [])
  {
    assert artists[..i + 1][..i] == artists[..i];
  }

  /** The body of the loop for one artist: find a handle, then collect its metrics. */
  method CollectArtist(a: YouTube.Artist, views: string -> YouTubeView, profiles: map<string, Profile>,
                       arrange: set<string> -> seq<string>) returns (row: Option<InstagramRow>)
    requires HasArrangements(arrange)
    ensures row == ArtistRow(a, views, profiles, arrange)
  {
    var handle, _ := FindInstagramHandle(a.artistName, views(a.artistName), profiles, arrange);
    row := MetricsRow(a, handle, profiles);
  }

  /** The second half of the loop body: the metrics of a truthy handle. */
  method MetricsRow(a: YouTube.Artist, handle: Option<string>, profiles: map<string, Profile>)
    returns (row: Option<InstagramRow>)
    ensures row == RowFrom(a, handle, profiles)
  {
    row := None;
    if handle.Some? && handle.value != "" {
      var metrics := GetInstagramMetrics(handle.value, profiles);
      if metrics.Some? {
        row := Some(InstagramRow(a.artistId, a.artistName, metrics.value));
      }
    }
  }

  /** How the number of completed checkpoint intervals grows with one more artist. */
  lemma CheckpointStep(i: nat)
    ensures (i + 1) / CheckpointInterval == i / CheckpointInterval + (if (i + 1) % CheckpointInterval == 0 then 1 else 0)
    ensures (i + 1) % CheckpointInterval == 0 ==> (i / CheckpointInterval + 1) * CheckpointInterval == i + 1
  {
    var q, r := i / 50, i % 50;
    assert i == 50 * q + r && 0 <= r < 50;
    if r == 49 {
      assert i + 1 == 50 * (q + 1);
    } else {
      assert i + 1 == 50 * q + (r + 1) && r + 1 < 50;
    }
  }

  /** The checkpoints written while the first `n` artists are processed. */
  function CheckpointsUpTo(artists: seq<YouTube.Artist>, n: nat, row: YouTube.Artist -> Option<InstagramRow>): seq<(nat, seq<InstagramRow>)>
    requires n <= |artists|
  {
    if n == 0 then []
    else
      CheckpointsUpTo(artists, n - 1, row) +
        (if n % CheckpointInterval == 0 then [(n, RowsOf(artists[..n], row))] else [])
  }

  /** After `n` artists there is one checkpoint per completed 50, the `j`-th holding the rows of the first `50(j+1)` artists. */
  lemma {:induction false} CheckpointsFacts(artists: seq<YouTube.Artist>, n: nat, row: YouTube.Artist -> Option<InstagramRow>)
    requires n <= |artists|
    ensures var cs := CheckpointsUpTo(artists, n, row);
      |cs| == n / CheckpointInterval &&
      forall j :: 0 <= j < |cs| ==> cs[j] == ((j + 1) * CheckpointInterval, RowsOf(artists[..(j + 1) * CheckpointInterval], row))
  {
    if n > 0 {
      CheckpointsFacts(artists, n - 1, row);
      CheckpointStep(n - 1);
      var prev := CheckpointsUpTo(artists, n - 1, row);
      var cs := CheckpointsUpTo(artists, n, row);
      if n % CheckpointInterval == 0 {
        assert cs == prev + [(n, RowsOf(artists[..n], row))];
        forall j | 0 <= j < |cs|
          ensures cs[j] == ((j + 1) * CheckpointInterval, RowsOf(artists[..(j + 1) * CheckpointInterval], row))
        {
          if j < |prev| {
            assert cs[j] == prev[j];
          }
        }
      } else {
        assert cs == prev;
      }
    }
  }

  /**
   * `main`: nothing happens without the Last.fm file. Otherwise every artist is processed, each
   * followed by one 10-second wait; after every 50th artist a checkpoint holds all rows so far; and
   * the final save appends the rows to the existing file, deduplicated on `artist_id`.
   */
  method InstagramMain(lastfm: Option<seq<YouTube.Artist>>, views: string -> YouTubeView,
                       profiles: map<string, Profile>, arrange: set<string> -> seq<string>,
                       existing: Option<seq<InstagramRow>>)
    returns (checkpoints: seq<(nat, seq<InstagramRow>)>, written: Option<seq<InstagramRow>>, waits: nat)
    requires HasArrangements(arrange)
    ensures lastfm.None? ==> checkpoints == [] && written.None? && waits == 0
    ensures lastfm.Some? ==>
              var row := RowFor(views, profiles, arrange);
              waits == |lastfm.value| && |checkpoints| == |lastfm.value| / CheckpointInterval &&
              (forall j :: 0 <= j < |checkpoints| ==>
                 checkpoints[j] == ((j + 1) * CheckpointInterval, RowsOf(lastfm.value[..(j + 1) * CheckpointInterval], row))) &&
              written == Table.AppendSave(existing, RowsOf(lastfm.value, row), RowId)
  {
    checkpoints, written, waits := [], None, 0;
    if lastfm.None? {
      return;
    }
    var artists := lastfm.value;
    ghost var rowOf := RowFor(views, profiles, arrange);
    var rows;
    rows, checkpoints, waits := CollectArtists(artists, views, profiles, arrange, rowOf);
    CheckpointsFacts(artists, |artists|, rowOf);
    written := Table.AppendSave(existing, rows, RowId);
  }

  /** The loop over the artists of `main`; `rowOf` stands for the row `CollectArtist` computes. */
  method CollectArtists(artists: seq<YouTube.Artist>, views: string -> YouTubeView,
                        profiles: map<string, Profile>, arrange: set<string> -> seq<string>,
                        ghost rowOf: YouTube.Artist -> Option<InstagramRow>)
    returns (rows: seq<InstagramRow>, checkpoints: seq<(nat, seq<InstagramRow>)>, waits: nat)
    requires HasArrangements(arrange)
    requires forall a {:trigger ArtistRow(a, views, profiles, arrange)} :: rowOf(a) == ArtistRow(a, views, profiles, arrange)
    ensures rows == RowsOf(artists, rowOf) && checkpoints == CheckpointsUpTo(artists, |artists|, rowOf)
    ensures waits == |artists|
  {
    rows, checkpoints, waits := [], [], 0;
    for i := 0 to |artists|
      invariant waits == i
      invariant rows == RowsOf(artists[..i], rowOf)
      invariant checkpoints == CheckpointsUpTo(artists, i, rowOf)
    {
      var row := CollectArtistAs(artists[i], views, profiles, arrange, rowOf);
      RowsOfSnoc(artists, i, rowOf);
      if row.Some? {
        rows := rows + [row.value];
      }
      waits := waits + 1;
      if (i + 1) % CheckpointInterval == 0 {
        checkpoints := checkpoints + [(i + 1, rows)];
      }
    }
    assert artists[..|artists|] == artists;
  }

  /** `CollectArtist` seen through `rowOf`, which keeps the row's definition out of the loop's proof. */
  method CollectArtistAs(a: YouTube.Artist, views: string -> YouTubeView, profiles: map<string, Profile>,
                         arrange: set<string> -> seq<string>, ghost rowOf: YouTube.Artist -> Option<InstagramRow>)
    returns (row: Option<InstagramRow>)
    requires HasArrangements(arrange)
    requires forall x {:trigger ArtistRow(x, views, profiles, arrange)} :: rowOf(x) == ArtistRow(x, views, profiles, arrange)
    ensures row == rowOf(a)
  {
    row := CollectArtist(a, views, profiles, arrange);
  }
}
