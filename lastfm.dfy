/**
 * The Last.fm collector: the reading of the three API methods it calls (`tag.gettopartists`,
 * `geo.gettopartists`, `artist.getinfo`), the record built for one artist, and the pipeline of
 * `main` (collect candidates per genre and from the UK chart, deduplicate by name keeping the first,
 * fetch details, filter by listener band and the established-artist list, append to the saved table
 * deduplicating by id keeping the last).
 *
 * A request that raised is a `None` reply. A Python exception that the script does not catch ends
 * the run; it is the `Crashed` outcome.
 */
module LastFm {
  import opened Wrappers
  import opened Json
  import Text
  import Table

  // ---- reading the top-artists listings ---------------------------------------------------------

  /**
   * `data['topartists']['artist']` when both keys are there, `[]` when one is missing or the request
   * raised; `None` when the lookup itself raises a TypeError, which neither search function catches
   * (a payload that is not an object, for instance).
   */
  function TopArtists(reply: Option<Json>): (r: Option<Json>)
    ensures reply.None? ==> r == Some(JArr([]))
    ensures reply.Some? && reply.value.JObj? && "topartists" in reply.value.fields && reply.value.fields["topartists"].JObj?
            ==> r == Some(Get(reply.value.fields["topartists"].fields, "artist", JArr([])))
  {
    match reply
    case None => Some(JArr([]))
    case Some(JObj(d)) =>
      if "topartists" !in d then Some(JArr([]))
      else (match d["topartists"]
        case JObj(e) => Some(if "artist" in e then e["artist"] else JArr([]))
        case JArr(items) => if JStr("artist") in items then None else Some(JArr([]))
        case JStr(s) => if Text.Contains(s, "artist") then None else Some(JArr([]))
        case _ => None)
    case Some(JArr(items)) => if JStr("topartists") in items then None else Some(JArr([]))
    case Some(JStr(s)) => if Text.Contains(s, "topartists") then None else Some(JArr([]))
    case Some(_) => None
  }

  /** Python truthiness of a JSON value. */
  predicate Truthy(j: Json) {
    match j
    case JNull => false
    case JBool(b) => b
    case JInt(n) => n != 0
    case JStr(s) => s != ""
    case JArr(items) => items != []
    case JObj(fields) => fields != map[]
  }

  /**
   * `for artist in artists`: the elements of a list; an empty string or object yields nothing; any other
   * value raises, as iterating it raises or yields strings on which `.get` raises.
   */
  function Elements(j: Json): (r: Option<seq<Json>>)
    ensures j.JArr? ==> r == Some(j.items)
    ensures r.Some? && !j.JArr? ==> r.value == []
  {
    match j
    case JArr(items) => Some(items)
    case JStr(s) => if s == "" then Some([]) else None
    case JObj(fields) => if fields == map[] then Some([]) else None
    case _ => None
  }

  /** A genre listing: `if not artists: continue` skips every falsy value before the loop may raise. */
  function GenreListing(reply: Option<Json>): Option<seq<Json>> {
    match TopArtists(reply)
    case None => None
    case Some(j) => if Truthy(j) then Elements(j) else Some([])
  }

  /** The UK listing is looped over without the truthiness check. */
  function UkListing(reply: Option<Json>): Option<seq<Json>> {
    match TopArtists(reply)
    case None => None
    case Some(j) => Elements(j)
  }

  // ---- candidates ---------------------------------------------------------------------------

  /** One row of `all_artists`: name and listener count of the listing, and where it came from. */
  datatype Candidate = Candidate(name: Json, listeners: int, source: string)

  /** `{'artist_name': artist.get('name', ''), 'lastfm_listeners': int(artist.get('listeners', 0)), 'source': ...}` */
  function CandidateOf(entry: Json, source: string): (r: Option<Candidate>)
    ensures r.Some? ==> r.value.source == source
    ensures r.Some? <==> entry.JObj? && ToInt(Get(entry.fields, "listeners", JInt(0))).Some?
  {
    match entry
    case JObj(d) =>
      (match ToInt(Get(d, "listeners", JInt(0)))
       case None => None
       case Some(n) => Some(Candidate(Get(d, "name", JStr("")), n, source)))
    case _ => None
  }

  /** The candidates of one listing, in order; `None` when one entry raises. */
  function CandidatesOf(entries: seq<Json>, source: string): (r: Option<seq<Candidate>>)
    ensures r.Some? ==> |r.value| == |entries| && forall k :: 0 <= k < |entries| ==> CandidateOf(entries[k], source) == Some(r.value[k])
    ensures r.None? ==> exists k :: 0 <= k < |entries| && CandidateOf(entries[k], source).None?
  {
    if entries == [] then Some([])
    else
      var init := entries[..|entries| - 1];
      match CandidatesOf(init, source)
      case None => None
      case Some(cs) =>
        (match CandidateOf(entries[|entries| - 1], source)
         case None => None
         case Some(c) => Some(cs + [c]))
  }

  const TargetGenres: seq<string> := ["jazz", "folk", "alternative", "soul", "indie", "indie folk", "british soul",
    "uk jazz", "indie rock", "singer-songwriter", "british indie", "acoustic", "neo soul", "jazz fusion"]

  function GenreSource(genre: string): string {
    "genre:" + genre
  }

  /** The candidates of the first `n` target genres; `None` once one of them raises. */
  function FromGenres(replies: seq<Option<Json>>, n: nat): Option<seq<Candidate>>
    requires n <= |replies| && n <= |TargetGenres|
  {
    if n == 0 then Some([])
    else match FromGenres(replies, n - 1)
      case None => None
      case Some(acc) =>
        (match GenreListing(replies[n - 1])
         case None => None
         case Some(es) =>
           (match CandidatesOf(es, GenreSource(TargetGenres[n - 1]))
            case None => None
            case Some(cs) => Some(acc + cs)))
  }

  /** The one-second pauses of the first `n` genres: one after every genre whose listing was not skipped. */
  function GenrePauses(replies: seq<Option<Json>>, n: nat): nat
    requires n <= |replies|
  {
    if n == 0 then 0
    else GenrePauses(replies, n - 1) + (if GenreListing(replies[n - 1]).Some? && GenreListing(replies[n - 1]).value != [] then 1 else 0)
  }

  /** `all_artists`: every target genre in turn, then the UK chart. */
  function AllCandidates(replies: seq<Option<Json>>, uk: Option<Json>): Option<seq<Candidate>>
    requires |replies| == |TargetGenres|
  {
    match FromGenres(replies, |TargetGenres|)
    case None => None
    case Some(acc) =>
      (match UkListing(uk)
       case None => None
       case Some(es) =>
         (match CandidatesOf(es, "uk_top")
          case None => None
          case Some(cs) => Some(acc + cs)))
  }

  function CandidateName(c: Candidate): Json {
    c.name
  }

  /** `df.drop_duplicates(subset='artist_name')`: the first candidate of every name. */
  function Unique(all: seq<Candidate>): seq<Candidate> {
    Table.DedupKeepFirst(all, CandidateName)
  }

  // ---- artist.getinfo ------------------------------------------------------------------------

  /** One row of the Last.fm table. */
  datatype Record = Record(artistId: string, artistName: Json, listeners: int, playcount: int,
                           playsPerListener: real, url: Json, genres: string, primaryGenre: string, source: string)

  /** What `get_artist_details` gave: a record, `None` (the function returned None), or an uncaught raise. */
  datatype Details = Found(record: Record) | Skipped | Raised

  /**
   * `[tag['name'] for tag in tags[:5]]` on a list: `None` when a tag is not an object or has no
   * `name` (the KeyError or TypeError is caught). The names themselves may be any JSON value.
   */
  function TagValues(tags: seq<Json>): (r: Option<seq<Json>>)
    ensures r.Some? <==> forall k :: 0 <= k < |tags| ==> tags[k].JObj? && "name" in tags[k].fields
    ensures r.Some? ==> |r.value| == |tags| && forall k :: 0 <= k < |tags| ==> r.value[k] == tags[k].fields["name"]
  {
    if tags == [] then Some([])
    else
      var t := tags[0];
      if t.JObj? && "name" in t.fields then
        match TagValues(tags[1..])
        case None => None
        case Some(rest) => Some([t.fields["name"]] + rest)
      else None
  }

  /** The names `', '.join` accepts: `None` when one of them is not a string (the TypeError is caught). */
  function StringsOf(vs: seq<Json>): (r: Option<seq<string>>)
    ensures r.Some? <==> forall k :: 0 <= k < |vs| ==> vs[k].JStr?
    ensures r.Some? ==> |r.value| == |vs| && forall k :: 0 <= k < |vs| ==> vs[k] == JStr(r.value[k])
  {
    if vs == [] then Some([])
    else if !vs[0].JStr? then None
    else
      match StringsOf(vs[1..])
      case None => None
      case Some(rest) => Some([vs[0].s] + rest)
  }

  /** The genre names of a record: the tags' `name` values, when every tag has one and all are strings. */
  function TagNames(tags: seq<Json>): (r: Option<seq<string>>)
    ensures r.Some? ==> |r.value| == |tags|
    ensures r.Some? ==> forall k :: 0 <= k < |tags| ==> tags[k].JObj? && "name" in tags[k].fields && tags[k].fields["name"] == JStr(r.value[k])
  {
    match TagValues(tags)
    case None => None
    case Some(vs) => StringsOf(vs)
  }

  /** The first five tags, or none when `tags` is not a list. */
  function FirstTags(tags: Json): (r: seq<Json>)
    ensures |r| <= 5
    ensures tags.JArr? ==> r == tags.items[..if |tags.items| < 5 then |tags.items| else 5]
    ensures !tags.JArr? ==> r == []
  {
    if tags.JArr? then tags.items[..if |tags.items| < 5 then |tags.items| else 5] else []
  }

  /** `', '.join(names)` */
  function Join(names: seq<string>): string {
    if names == [] then "" else if |names| == 1 then names[0] else names[0] + ", " + Join(names[1..])
  }

  /** `playcount / listeners if listeners > 0 else 0.0`, exact (the rounding to two places is left out). */
  function PerListener(playcount: int, listeners: int): real {
    if listeners > 0 then playcount as real / listeners as real else 0.0
  }

  /** Times the listeners, the ratio gives back the plays; without listeners it is 0. */
  lemma PerListenerFacts(playcount: int, listeners: int)
    ensures listeners > 0 ==> PerListener(playcount, listeners) * listeners as real == playcount as real
    ensures listeners <= 0 ==> PerListener(playcount, listeners) == 0.0
  {
  }

  /**
   * `get_artist_details(queried)` on the reply of `artist.getinfo`, in the order the code evaluates:
   * the `artist` object with its `stats` and `tags` (a `.get` on a non-object raises AttributeError,
   * which is not caught), the two counts (ValueError and TypeError are caught), the tag names, the id
   * hashed from the queried name (`.encode()` on a non-string raises AttributeError, not caught), then
   * the stored name, the url and the join of the genre names.
   */
  function GetArtistDetails(queried: Json, reply: Option<Json>, hash: string -> string): (d: Details)
    ensures d.Found? ==> queried.JStr? && d.record.artistId == hash(queried.s)
    ensures d.Found? ==> reply.Some? && reply.value.JObj? && "artist" in reply.value.fields
    ensures reply.None? ==> d == Skipped
  {
    if reply.None? || !reply.value.JObj? || "artist" !in reply.value.fields then Skipped
    else
      var artist := reply.value.fields["artist"];
      if !artist.JObj? then Raised
      else
        var stats := Get(artist.fields, "stats", JObj(map[]));
        if !stats.JObj? then Raised
        else
          var listeners := ToInt(Get(stats.fields, "listeners", JInt(0)));
          var playcount := ToInt(Get(stats.fields, "playcount", JInt(0)));
          if listeners.None? || playcount.None? then Skipped
          else
            var holder := Get(artist.fields, "tags", JObj(map[]));
            if !holder.JObj? then Raised
            else
              var values := TagValues(FirstTags(Get(holder.fields, "tag", JArr([]))));
              if values.None? then Skipped
              else if !queried.JStr? then Raised
              else if "name" !in artist.fields then Skipped
              else
                var names := StringsOf(values.value);
                if names.None? then Skipped
                else
                  var primary := if names.value == [] then "unknown" else names.value[0];
                  Found(Record(hash(queried.s), artist.fields["name"], listeners.value, playcount.value,
                               PerListener(playcount.value, listeners.value), Get(artist.fields, "url", JStr("")),
                               Join(names.value), primary, ""))
  }

  /**
   * A lookup raises out of `get_artist_details` exactly on an AttributeError: the `artist` value, its
   * `stats` or its `tags` holder is not an object, or, once the counts and the tag list have been read,
   * the queried name is not a string and cannot be encoded for the hash.
   */
  lemma RaisedIff(queried: Json, reply: Option<Json>, hash: string -> string)
    ensures GetArtistDetails(queried, reply, hash) == Raised <==>
      reply.Some? && reply.value.JObj? && "artist" in reply.value.fields &&
      var artist := reply.value.fields["artist"];
      (!artist.JObj? ||
       var stats := Get(artist.fields, "stats", JObj(map[]));
       (!stats.JObj? ||
        (ToInt(Get(stats.fields, "listeners", JInt(0))).Some? && ToInt(Get(stats.fields, "playcount", JInt(0))).Some? &&
         var holder := Get(artist.fields, "tags", JObj(map[]));
         (!holder.JObj? || (TagValues(FirstTags(Get(holder.fields, "tag", JArr([])))).Some? && !queried.JStr?)))))
  {
  }

  /**
   * A non-string queried name raises even when a tag name is not a string either: the hash comes
   * before the join that would have failed on the tag name.
   */
  lemma NonStringQueryRaises(hash: string -> string)
    ensures GetArtistDetails(JInt(7), Some(JObj(map["artist" := JObj(map["name" := JStr("x"),
              "tags" := JObj(map["tag" := JArr([JObj(map["name" := JInt(5)])])])])])), hash) == Raised
  {
  }

  /** With a string query, a tag name that is not a string makes the caught join fail: `None`. */
  lemma NonStringTagSkipped(hash: string -> string)
    ensures GetArtistDetails(JStr("x"), Some(JObj(map["artist" := JObj(map["name" := JStr("x"),
              "tags" := JObj(map["tag" := JArr([JObj(map["name" := JInt(5)])])])])])), hash) == Skipped
  {
  }

  /** A reply without `artist`, or one that is not an object, gives `None`. */
  lemma NoArtistIsSkipped(queried: Json, reply: Json, hash: string -> string)
    requires !reply.JObj? || "artist" !in reply.fields
    ensures GetArtistDetails(queried, Some(reply), hash) == Skipped
  {
  }

  /**
   * A record's counts are the payload's, 0 when missing; its plays per listener is their quotient when
   * there are listeners and 0.0 otherwise; its genres are the names of the first five tags when `tags`
   * is a list and none otherwise; and its primary genre is the first of them, `unknown` when there is none.
   */
  lemma RecordFields(queried: Json, reply: Option<Json>, hash: string -> string)
    requires GetArtistDetails(queried, reply, hash).Found?
    ensures var r := GetArtistDetails(queried, reply, hash).record;
      var artist := reply.value.fields["artist"];
      var stats := Get(artist.fields, "stats", JObj(map[])).fields;
      var tags := Get(Get(artist.fields, "tags", JObj(map[])).fields, "tag", JArr([]));
      && Some(r.listeners) == ToInt(Get(stats, "listeners", JInt(0)))
      && Some(r.playcount) == ToInt(Get(stats, "playcount", JInt(0)))
      && ("listeners" !in stats ==> r.listeners == 0)
      && ("playcount" !in stats ==> r.playcount == 0)
      && r.playsPerListener == PerListener(r.playcount, r.listeners)
      && TagNames(FirstTags(tags)).Some?
      && r.genres == Join(TagNames(FirstTags(tags)).value)
      && r.primaryGenre == (if FirstTags(tags) == [] then "unknown" else TagNames(FirstTags(tags)).value[0])
      && (!tags.JArr? ==> r.primaryGenre == "unknown" && r.genres == "")
      && r.artistName == artist.fields["name"]
  {
  }

  /** The id is a function of the queried name alone: the same query gives the same id whatever the reply. */
  lemma IdIgnoresReply(queried: Json, a: Option<Json>, b: Option<Json>, hash: string -> string)
    requires GetArtistDetails(queried, a, hash).Found? && GetArtistDetails(queried, b, hash).Found?
    ensures GetArtistDetails(queried, a, hash).record.artistId == GetArtistDetails(queried, b, hash).record.artistId
  {
  }

  // ---- the detail loop, the filter and the save ---------------------------------------------------

  /** `detailed_artists` for the unique candidates: `None` when a lookup raised. */
  function DetailedRows(unique: seq<Candidate>, lookup: Json -> Option<Json>, hash: string -> string): (r: Option<seq<Record>>)
    ensures r.Some? ==> |r.value| <= |unique|
  {
    if unique == [] then Some([])
    else
      var init := unique[..|unique| - 1];
      var c := unique[|unique| - 1];
      match DetailedRows(init, lookup, hash)
      case None => None
      case Some(rows) =>
        (match GetArtistDetails(c.name, lookup(c.name), hash)
         case Raised => None
         case Skipped => Some(rows)
         case Found(rec) => Some(rows + [rec.(source := c.source)]))
  }

  /** Every detailed record comes from one unique candidate: its id hashes that name and it carries that source. */
  lemma {:induction false} DetailedProvenance(unique: seq<Candidate>, lookup: Json -> Option<Json>, hash: string -> string)
    requires DetailedRows(unique, lookup, hash).Some?
    ensures forall k :: 0 <= k < |DetailedRows(unique, lookup, hash).value| ==>
              exists c :: c in unique && c.name.JStr? &&
                DetailedRows(unique, lookup, hash).value[k].artistId == hash(c.name.s) &&
                DetailedRows(unique, lookup, hash).value[k].source == c.source
  {
    if unique != [] {
      var init := unique[..|unique| - 1];
      var c := unique[|unique| - 1];
      DetailedProvenance(init, lookup, hash);
      var rows := DetailedRows(init, lookup, hash).value;
      var out := DetailedRows(unique, lookup, hash).value;
      forall k | 0 <= k < |out|
        ensures exists c' :: c' in unique && c'.name.JStr? && out[k].artistId == hash(c'.name.s) && out[k].source == c'.source
      {
        if k < |rows| {
          assert out[k] == rows[k];
          var c' :| c' in init && c'.name.JStr? && rows[k].artistId == hash(c'.name.s) && rows[k].source == c'.source;
          assert c' in unique;
        } else {
          assert c in unique;
        }
      }
    }
  }

  /** The listed established acts, lower-cased. */
  const Established: seq<string> := ["coldplay", "radiohead", "adele", "ed sheeran", "arctic monkeys", "the 1975",
    "david bowie", "pink floyd", "the beatles", "rolling stones"]

  /** `artist_name.str.lower().isin(...)`; a name that is not a string is never in the list. */
  predicate IsEstablished(name: Json) {
    name.JStr? && Text.Lower(name.s) in Established
  }

  predicate Emerging(r: Record) {
    5000 <= r.listeners <= 200000 && !IsEstablished(r.artistName)
  }

  /** The two row filters, applied in order. */
  function FinalRows(detailed: seq<Record>): (r: seq<Record>)
    ensures forall k :: 0 <= k < |r| ==> Emerging(r[k]) && r[k] in detailed
    ensures forall x :: x in detailed && Emerging(x) ==> x in r
    ensures |r| <= |detailed|
  {
    if detailed == [] then []
    else (if Emerging(detailed[0]) then [detailed[0]] else []) + FinalRows(detailed[1..])
  }

  function RecordId(r: Record): string {
    r.artistId
  }

  /**
   * The save: the rows alone when there is no file yet, otherwise old and new rows deduplicated on
   * `artist_id` keeping the last. Unlike the other collectors, the file is written even when no row
   * passed the filters.
   */
  function Save(existing: Option<seq<Record>>, rows: seq<Record>): (w: seq<Record>)
    ensures existing.None? ==> w == rows
    ensures existing.Some? ==> Table.UniqueKeys(w, RecordId) && Table.KeysOf(w, RecordId) == Table.KeysOf(existing.value + rows, RecordId)
  {
    match existing
    case None => rows
    case Some(old_) => Table.DedupKeepLast(old_ + rows, RecordId)
  }

  /** In a save onto an existing file, every id collected now is written with its last new row. */
  lemma SaveNewRowsWin(existing: seq<Record>, rows: seq<Record>, id: string)
    requires id in Table.KeysOf(rows, RecordId)
    ensures exists i :: 0 <= i < |Save(Some(existing), rows)| && Save(Some(existing), rows)[i] == Table.LastWith(rows, RecordId, id)
  {
    Table.NewRowsWin(existing, rows, RecordId, id);
    assert rows != [];
    assert Save(Some(existing), rows) == Table.AppendSave(Some(existing), rows, RecordId).value;
  }

  /** How a run of `main` ended. */
  datatype Outcome = NoKey | Crashed | NoCandidates | NoDetails | Saved(final: seq<Record>, written: seq<Record>)

  /** `main` on its inputs: the key check, the candidate collection, the details, the filters and the save. */
  function MainSpec(hasKey: bool, replies: seq<Option<Json>>, uk: Option<Json>, lookup: Json -> Option<Json>,
                    hash: string -> string, existing: Option<seq<Record>>): Outcome
    requires |replies| == |TargetGenres|
  {
    if !hasKey then NoKey
    else match AllCandidates(replies, uk)
      case None => Crashed
      case Some(all) =>
        if all == [] then NoCandidates
        else match DetailedRows(Unique(all), lookup, hash)
          case None => Crashed
          case Some(detailed) =>
            if detailed == [] then NoDetails
            else Saved(FinalRows(detailed), Save(existing, FinalRows(detailed)))
  }

  /**
   * What a saved run writes: only emerging artists (in the band, not established) among the new rows,
   * each detailed from its name's first candidate; with an existing file, one row per id.
   */
  lemma MainFacts(hasKey: bool, replies: seq<Option<Json>>, uk: Option<Json>, lookup: Json -> Option<Json>,
                  hash: string -> string, existing: Option<seq<Record>>)
    requires |replies| == |TargetGenres|
    requires MainSpec(hasKey, replies, uk, lookup, hash, existing).Saved?
    ensures var o := MainSpec(hasKey, replies, uk, lookup, hash, existing);
      && (forall k :: 0 <= k < |o.final| ==> Emerging(o.final[k]))
      && (existing.None? ==> o.written == o.final)
      && (existing.Some? ==> Table.UniqueKeys(o.written, RecordId))
      && FromFirstCandidates(o.final, AllCandidates(replies, uk).value, hash)
  {
    var all := AllCandidates(replies, uk).value;
    FinalProvenance(all, lookup, hash);
  }

  /** `x` has the id of a string-named candidate that is the first of its name, and that candidate's source. */
  ghost predicate FromFirstCandidate(x: Record, all: seq<Candidate>, hash: string -> string) {
    exists c :: c in all && c.name.JStr? && x.artistId == hash(c.name.s) && x.source == c.source &&
      c.name in Table.KeysOf(all, CandidateName) && c == Table.FirstWith(all, CandidateName, c.name)
  }

  ghost predicate FromFirstCandidates(rows: seq<Record>, all: seq<Candidate>, hash: string -> string) {
    forall k :: 0 <= k < |rows| ==> FromFirstCandidate(rows[k], all, hash)
  }

  /** The filtered detail rows trace back to first candidates. */
  lemma FinalProvenance(all: seq<Candidate>, lookup: Json -> Option<Json>, hash: string -> string)
    requires DetailedRows(Unique(all), lookup, hash).Some?
    ensures FromFirstCandidates(FinalRows(DetailedRows(Unique(all), lookup, hash).value), all, hash)
  {
    var unique := Unique(all);
    var detailed := DetailedRows(unique, lookup, hash).value;
    var final := FinalRows(detailed);
    DetailedProvenance(unique, lookup, hash);
    Table.DedupKeepFirstIsFirst(all, CandidateName);
    forall k | 0 <= k < |final|
      ensures FromFirstCandidate(final[k], all, hash)
    {
      assert final[k] in detailed;
      var j :| 0 <= j < |detailed| && detailed[j] == final[k];
      var c :| c in unique && c.name.JStr? && detailed[j].artistId == hash(c.name.s) && detailed[j].source == c.source;
      UniqueIsFirst(all, c);
    }
  }

  /** A deduplicated candidate is a candidate, and the first of its name. */
  lemma UniqueIsFirst(all: seq<Candidate>, c: Candidate)
    requires c in Unique(all)
    ensures c in all && c.name in Table.KeysOf(all, CandidateName) && c == Table.FirstWith(all, CandidateName, c.name)
  {
    Table.DedupKeepFirstIsFirst(all, CandidateName);
    var i :| 0 <= i < |Unique(all)| && Unique(all)[i] == c;
  }

  // ---- the loops of main -------------------------------------------------------------------------

  /** The inner `for artist in artists` loop: the candidates of one listing, or `None` when one raises. */
  method CollectListing(entries: seq<Json>, source: string) returns (cs: Option<seq<Candidate>>)
    ensures cs == CandidatesOf(entries, source)
  {
    var acc: seq<Candidate> := [];
    var j := 0;
    while j < |entries|
      invariant 0 <= j <= |entries|
      invariant CandidatesOf(entries[..j], source) == Some(acc)
    {
      assert entries[..j + 1][..j] == entries[..j];
      var c := CandidateOf(entries[j], source);
      if c.None? {
        CandidatesCrash(entries, source, j + 1);
        return None;
      }
      acc := acc + [c.value];
      j := j + 1;
    }
    assert entries[..j] == entries;
    cs := Some(acc);
  }

  /** Once a prefix of a listing raises, the whole listing does. */
  lemma {:induction false} CandidatesCrash(entries: seq<Json>, source: string, n: nat)
    requires n <= |entries| && CandidatesOf(entries[..n], source).None?
    ensures CandidatesOf(entries, source).None?
    decreases |entries| - n
  {
    if n < |entries| {
      assert entries[..n + 1][..n] == entries[..n];
      CandidatesCrash(entries, source, n + 1);
    } else {
      assert entries[..n] == entries;
    }
  }

  lemma {:induction false} GenresCrash(replies: seq<Option<Json>>, n: nat)
    requires n <= |replies| == |TargetGenres| && FromGenres(replies, n).None?
    ensures FromGenres(replies, |TargetGenres|).None?
    decreases |TargetGenres| - n
  {
    if n < |TargetGenres| {
      GenresCrash(replies, n + 1);
    }
  }

  /** The genre loop: `None` when a listing raises, otherwise all genre candidates and the pauses taken. */
  method CollectGenres(replies: seq<Option<Json>>) returns (all: Option<seq<Candidate>>, pauses: nat)
    requires |replies| == |TargetGenres|
    ensures all == FromGenres(replies, |TargetGenres|)
    ensures all.Some? ==> pauses == GenrePauses(replies, |TargetGenres|)
  {
    var acc: seq<Candidate> := [];
    pauses := 0;
    var g := 0;
    while g < |TargetGenres|
      invariant 0 <= g <= |TargetGenres|
      invariant FromGenres(replies, g) == Some(acc)
      invariant pauses == GenrePauses(replies, g)
    {
      var artists := GenreListing(replies[g]);
      if artists.None? {
        GenresCrash(replies, g + 1);
        return None, pauses;
      }
      if artists.value == [] {
        assert CandidatesOf([], GenreSource(TargetGenres[g])) == Some([]);
        assert acc + [] == acc;
        g := g + 1;
        continue;
      }
      var cs := CollectListing(artists.value, GenreSource(TargetGenres[g]));
      if cs.None? {
        GenresCrash(replies, g + 1);
        return None, pauses;
      }
      acc := acc + cs.value;
      pauses := pauses + 1;
      g := g + 1;
    }
    all := Some(acc);
  }

  /** The detail loop over the unique candidates, one half-second pause each. */
  method CollectDetails(unique: seq<Candidate>, lookup: Json -> Option<Json>, hash: string -> string)
    returns (detailed: Option<seq<Record>>, halfSeconds: nat)
    ensures detailed == DetailedRows(unique, lookup, hash)
    ensures detailed.Some? ==> halfSeconds == |unique|
  {
    var acc: seq<Record> := [];
    var i := 0;
    while i < |unique|
      invariant 0 <= i <= |unique|
      invariant DetailedRows(unique[..i], lookup, hash) == Some(acc)
    {
      assert unique[..i + 1][..i] == unique[..i];
      var row := unique[i];
      var details := GetArtistDetails(row.name, lookup(row.name), hash);
      if details.Raised? {
        DetailsCrash(unique, lookup, hash, i + 1);
        return None, i;
      }
      if details.Found? {
        acc := acc + [details.record.(source := row.source)];
      }
      i := i + 1;
    }
    assert unique[..i] == unique;
    detailed, halfSeconds := Some(acc), i;
  }

  lemma {:induction false} DetailsCrash(unique: seq<Candidate>, lookup: Json -> Option<Json>, hash: string -> string, n: nat)
    requires n <= |unique| && DetailedRows(unique[..n], lookup, hash).None?
    ensures DetailedRows(unique, lookup, hash).None?
    decreases |unique| - n
  {
    if n < |unique| {
      assert unique[..n + 1][..n] == unique[..n];
      DetailsCrash(unique, lookup, hash, n + 1);
    } else {
      assert unique[..n] == unique;
    }
  }

  /**
   * `main`. `replies` holds the `tag.gettopartists` reply of each target genre, `uk` the
   * `geo.gettopartists` reply, `lookup` the `artist.getinfo` reply for a name, `hash` the md5 hex
   * digest and `existing` the saved table, if any. Besides the outcome it reports the one-second and
   * half-second pauses of a run that got past the candidate collection.
   */
  method LastfmMain(hasKey: bool, replies: seq<Option<Json>>, uk: Option<Json>, lookup: Json -> Option<Json>,
                    hash: string -> string, existing: Option<seq<Record>>)
    returns (outcome: Outcome, seconds: nat, halfSeconds: nat)
    requires |replies| == |TargetGenres|
    ensures outcome == MainSpec(hasKey, replies, uk, lookup, hash, existing)
    ensures outcome.NoCandidates? || outcome.NoDetails? || outcome.Saved? ==>
              seconds == GenrePauses(replies, |TargetGenres|) && halfSeconds == |Unique(AllCandidates(replies, uk).value)|
  {
    seconds, halfSeconds := 0, 0;
    if !hasKey {
      return NoKey, seconds, halfSeconds;
    }
    var fromGenres;
    fromGenres, seconds := CollectGenres(replies);
    if fromGenres.None? {
      return Crashed, seconds, halfSeconds;
    }
    var ukEntries := UkListing(uk);
    if ukEntries.None? {
      return Crashed, seconds, halfSeconds;
    }
    var ukCandidates := CollectListing(ukEntries.value, "uk_top");
    if ukCandidates.None? {
      return Crashed, seconds, halfSeconds;
    }
    var all := fromGenres.value + ukCandidates.value;
    if all == [] {
      return NoCandidates, seconds, halfSeconds;
    }
    var unique := Unique(all);
    var detailed;
    detailed, halfSeconds := CollectDetails(unique, lookup, hash);
    if detailed.None? {
      return Crashed, seconds, halfSeconds;
    }
    if detailed.value == [] {
      return NoDetails, seconds, halfSeconds;
    }
    var final := FinalRows(detailed.value);
    outcome := Saved(final, Save(existing, final));
  }
}
