# A&R artist discovery pipeline — a Dafny model

This project models the decision and transformation rules of the data-collection scripts of an
A&R (artists and repertoire) discovery dashboard. The pipeline finds emerging UK artists on
Last.fm, looks for their Instagram and YouTube presence, merges the three sources into one table,
uploads it to a warehouse and scores it with a generated SQL statement. An orchestrator runs the
four collection steps in a loop with retries, rate-limit cool-downs and a resumable checkpoint.

Every network reply, file read, log file, subprocess outcome, clock reading, Ctrl+C and hash is a
parameter of the model. Sleeps are returned as counts or as traces of durations. What the scripts
compute from those inputs is modelled, with its branches, error paths, defaults and constants; the
differences are listed under "Left out".

The modules follow the scripts:

- `Orchestrator` (`scripts/automated_data_collection.py`): `run_script`'s retry loop over attempt
  outcomes, the log check for a recent Instagram rate limit, the checkpoint document and the
  `main_collection_loop` with resume, limit, interrupt and per-stage results.
- `LastFm` (`scripts/collect_lastfm_artists.py`): the genre and UK listings, the candidate rows,
  `get_artist_details` record construction, deduplication, the listener band, the exclusion list
  and the append save.
- `Handles` and `HandleExamples` (`scripts/collect_instagram_data.py`): the three handle patterns
  of `extract_instagram_handles`, written out as scanners over ASCII text, and worked examples.
- `Instagram` (`scripts/collect_instagram_data.py`): the identity check, the most-subscribed
  channel, the description scan, the fallback variations, the metric sample, the checkpoints and
  the final save.
- `YouTube` (`scripts/collect_youtube_data.py`): channel scoring and ranking, the statistics band,
  the recent-video average and the quota loop of `main`.
- `Merge` (`scripts/merge_and_upload_bigquery.py`): a `DataFrame` class updated in place by column
  assignment and `fillna`; the left joins, the all-null platform columns, the data-quality score and
  the null fills before upload.
- `Scoring` (`scripts/generate_sql.py`): the SQL scores and the WHERE filter in three-valued logic
  over exact reals, the ordering, and the guard of `generate_sql_file`.
- `Songs` (`scripts/collect_song_level_data.py`): top-track parsing, the post scan, the song records
  and the artist loop of `main`.
- Helpers: `Wrappers` (Option), `Text` (Python's `lower`, `in`, `split`, `replace` on ASCII),
  `Json` (decoded payloads, `dict.get`, `int()`), `Table` (pandas `drop_duplicates`, left `merge`
  and the append-then-deduplicate save the collectors share).

## Model

| member | source | states |
|---|---|---|
| Orchestrator.RunScript | scripts/automated_data_collection.py:69-138 | The retry loop yields exactly the run its specification describes: the return value, the sleeps and the attempts made. |
| Orchestrator.RunFromFacts | scripts/automated_data_collection.py:83-138 | From any attempt on, the run succeeds exactly when a later attempt within the budget exits with 0. The attempt that succeeded is the first such attempt. No more than `max_retries` attempts are made. Every sleep is either the retry delay or the script's cool-down. |
| Orchestrator.RunScriptFacts | scripts/automated_data_collection.py:83-99 | `run_script` returns True exactly when some attempt 1..max_retries exits with 0. It makes at most max_retries attempts. It sleeps nothing but the retry delay or the script's own cool-down. |
| Orchestrator.RunFromSleeps | scripts/automated_data_collection.py:105-136 | Every failure but the last is followed by a sleep; the final failure is not. The exception is a rate-limited last attempt of the Instagram or YouTube script, which still waits and then returns False. |
| Orchestrator.LastfmCoolDown | scripts/automated_data_collection.py:106-113 | The Last.fm collector has no cool-down: its script name mentions neither instagram nor youtube in any case. |
| Orchestrator.InstagramCoolDown | scripts/automated_data_collection.py:106-109 | A rate-limited Instagram collector waits 1320 seconds. |
| Orchestrator.YouTubeCoolDown | scripts/automated_data_collection.py:110-113 | A rate-limited YouTube collector waits 300 seconds, since its name does not mention instagram. |
| Orchestrator.MergeCoolDown | scripts/automated_data_collection.py:106-113 | The merge script has no cool-down and falls through to the general retry rule. |
| Orchestrator.StageCoolDown | scripts/automated_data_collection.py:236-278 | The cool-down of each of the four stages is the one its script name selects. |
| Orchestrator.RecentLines | scripts/automated_data_collection.py:146 | The lines read are the last 50 of the log, or all of them when there are fewer. |
| Orchestrator.CheckInstagramRateLimit | scripts/automated_data_collection.py:141-153 | True exactly when a log file exists and one of its last 50 lines mentions "rate limit" or "22 minutes" in any case, or "401". |
| Orchestrator.OldAlarmsExpire | scripts/automated_data_collection.py:146-149 | An alarming line followed by 50 quiet lines no longer triggers the wait. |
| Orchestrator.CheckpointJson | scripts/automated_data_collection.py:285-323 | A saved checkpoint has the keys iteration, last_run and stats, plus interrupted for the Ctrl+C checkpoint only, and its iteration is the counter. |
| Orchestrator.ResumeFromCheckpoint | scripts/automated_data_collection.py:51-59 | A later invocation resumes from the counter of the checkpoint saved last, whether or not it was interrupted. |
| Orchestrator.RunStage | scripts/automated_data_collection.py:236-278 | Each stage runs its script with its own retry budget and delay: 2, 5 with a 60-second delay, 3 and 2. |
| Orchestrator.RunIteration | scripts/automated_data_collection.py:230-283 | One iteration computes exactly the specified iteration. All four stages run in order whatever the earlier ones returned, with a 10-second pause after each of the first three. A recent Instagram rate limit in the log adds the 1320-second wait before the Instagram stage. |
| Orchestrator.FourStages | scripts/automated_data_collection.py:236-282 | Every iteration reports the results of all four stages. |
| Orchestrator.BoundedRun | scripts/automated_data_collection.py:211-323 | With a limit, an invocation runs at most one iteration, and none when the saved counter has already reached the limit. The one checkpoint written carries the resumed counter plus one and is marked interrupted exactly when Ctrl+C arrived. |
| Orchestrator.UnboundedRun | scripts/automated_data_collection.py:219-323 | Without a limit, the loop runs until Ctrl+C arrives in iteration k. It saves k-1 normal checkpoints numbered on from the resumed counter, then one interrupted checkpoint. Each completed iteration reports four results. |
| Orchestrator.LoopFromCompleted | scripts/automated_data_collection.py:220-323 | Without a limit, the loop's state before the interrupt is that of the completed iterations, and the interrupt appends its checkpoint. |
| Orchestrator.CompletedShape | scripts/automated_data_collection.py:285-306 | After n uninterrupted iterations there are n checkpoints, numbered consecutively from the resumed counter, and 4n stage results. |
| Orchestrator.MainCollectionLoop | scripts/automated_data_collection.py:200-330 | The loop produces exactly the run its specification describes, including the crash on an unusable checkpoint. |
| Orchestrator.IterationLoop | scripts/automated_data_collection.py:219-323 | The `while True` loop from the loaded counter follows the loop specification step by step. |
| Text.Lower | scripts/collect_instagram_data.py:194-196 | `str.lower()` maps every character through the ASCII lower-case map and keeps the length. |
| Text.LowerIsLowerCase | scripts/collect_instagram_data.py:165 | A lower-cased string is lower-case, and lower-casing a lower-case string changes nothing. |
| Text.ContainsAt | scripts/collect_instagram_data.py:198-201 | Python's substring test holds exactly when the needle occurs at some index of the haystack. |
| Text.Words | scripts/collect_youtube_data.py:65 | `split()` yields non-empty words without whitespace, each occurring in the string. |
| Text.SignificantWords | scripts/collect_instagram_data.py:197 | The name words kept are exactly the tokens longer than two characters that are not stop words. |
| Text.RemoveChar | scripts/collect_song_level_data.py:368 | `replace(c, '')` removes every `c` and adds no character. |
| Text.RemoveCharMultiset | scripts/collect_song_level_data.py:368 | `replace(c, '')` keeps every other character exactly as often as it occurs and drops every `c`. |
| Text.RemoveCharAppend | scripts/collect_song_level_data.py:368 | Removing `c` from a concatenation removes it from each part, so the kept characters keep their order. |
| Text.RemoveCharAbsent | scripts/collect_song_level_data.py:368 | Removing a character that does not occur leaves the string unchanged. |
| Text.RemoveAllAbsent | scripts/collect_instagram_data.py:272 | Removing a pattern that does not occur leaves the string unchanged. |
| Json.Get | scripts/collect_lastfm_artists.py:119-124 | `dict.get` returns the stored value when the key is present and the default otherwise. |
| Json.ParseDecimal | scripts/collect_lastfm_artists.py:121-122 | `int()` parses back the decimal rendering of every natural number, as the API sends counts as strings. |
| Json.ParseNumeral | scripts/collect_lastfm_artists.py:121-122 | `int()` of a bare numeral is the number its digits denote, with the `_` separators dropped. |
| Json.SeparatorDropped | scripts/collect_lastfm_artists.py:121-122 | `int()` accepts one `_` between two runs of digits and reads the same number as without it. |
| Json.SeparatorRefused | scripts/collect_lastfm_artists.py:121-122 | `int()` refuses a doubled or a trailing `_`. |
| Table.KeysOfIndex | scripts/collect_instagram_data.py:441 | A key is among a table's keys exactly when some row carries it. |
| Table.DedupKeepLast | scripts/collect_instagram_data.py:441 | Keep-last deduplication keeps every key exactly once and invents no row. |
| Table.DedupKeepLastIsLast | scripts/collect_youtube_data.py:314 | Each row that keep-last deduplication keeps is the last row of its key. |
| Table.LastWithAppend | scripts/collect_lastfm_artists.py:271-272 | After concatenation, the last row of a key the new rows have is a new row. |
| Table.DedupUniqueIsIdentity | scripts/collect_instagram_data.py:441 | Deduplicating a table with unique keys changes nothing. |
| Table.DedupShadowed | scripts/collect_youtube_data.py:313-314 | Old rows whose keys all recur in the new rows vanish from the save. |
| Table.SelfAppendIdempotent | scripts/collect_youtube_data.py:313-314 | Saving a unique-keyed table onto itself gives the table back. |
| Table.DedupKeepFirst | scripts/collect_lastfm_artists.py:211 | Keep-first deduplication keeps every key exactly once and invents no row. |
| Table.DedupKeepFirstIsFirst | scripts/collect_lastfm_artists.py:211 | Each row that keep-first deduplication keeps is the first row of its key. |
| Table.MatchesOf | scripts/merge_and_upload_bigquery.py:90-95 | The matches of a key are right rows with that key, and there are none exactly when no right row has it. |
| Table.LeftJoin | scripts/merge_and_upload_bigquery.py:90-95 | A left join pairs left rows with right rows of the same key. A left row gets `None` exactly when no right row has its key. The output has at least as many rows as the left table. |
| Table.LeftJoinKeepsLeft | scripts/merge_and_upload_bigquery.py:90-95 | Every left row appears in the join. |
| Table.MatchesOfUnique | scripts/merge_and_upload_bigquery.py:116-121 | With a unique-keyed right table, a key has at most one match. |
| Table.LeftJoinUniqueRight | scripts/merge_and_upload_bigquery.py:90-95 | With a unique-keyed right table, the join has one row per left row, in left order. |
| Table.AppendSave | scripts/collect_youtube_data.py:305-319 | Nothing is written when nothing was collected. Without a file, the new rows are written alone. Otherwise one row per key of old and new rows is written. |
| Table.NewRowsWin | scripts/collect_instagram_data.py:432-442 | In an append save onto an existing file, every newly collected key is written with its latest new row. |
| Handles.RunEnd | scripts/collect_instagram_data.py:160 | The greedy `[a-zA-Z0-9_.]+` run stops exactly at the first character outside the class. |
| Handles.UrlMatches | scripts/collect_instagram_data.py:160-161 | Every capture of pattern 1 is a non-empty handle that follows "instagram.com/", in any case, in the text. |
| Handles.MentionEnd | scripts/collect_instagram_data.py:167 | Backtracking settles on the longest capture after which the negative look-ahead holds, or fails when there is none. |
| Handles.MentionMatches | scripts/collect_instagram_data.py:167-168 | Every capture of pattern 2 is a non-empty handle that follows an `@` in the text. |
| Handles.LabelLength | scripts/collect_instagram_data.py:173 | The label alternative matches 9 characters ("instagram"), 2 ("ig") or none, and a match lies inside the text. |
| Handles.LabelMatches | scripts/collect_instagram_data.py:173-174 | Every capture of pattern 3 is a non-empty handle. |
| Handles.KeptHandlesSnoc | scripts/collect_instagram_data.py:162-177 | Each loop adds a capture, lower-cased, exactly when it is kept: longer than one character and, for pattern 2, without a dot. |
| Handles.HandleSetShape | scripts/collect_instagram_data.py:154-178 | Every extracted handle is lower-case, at least two characters long and made of `[a-z0-9_.]`. |
| Handles.UrlHandleInText | scripts/collect_instagram_data.py:160-165 | A pattern-1 handle appears right after "instagram.com/" in the lower-cased text. |
| Handles.MentionHandleInText | scripts/collect_instagram_data.py:167-171 | A pattern-2 handle holds no dot and appears after an `@` in the text, in its original case. |
| Handles.AddKept | scripts/collect_instagram_data.py:162-177 | One `for match in matches` loop adds exactly the kept captures, lower-cased, to the set. |
| Handles.ExtractInstagramHandles | scripts/collect_instagram_data.py:154-178 | The result lists every handle of the three patterns exactly once, in the set's iteration order. Empty or missing text gives no handles. |
| HandleExamples.UrlExample | scripts/collect_instagram_data.py:160-165 | "instagram.com/janedoe" yields "janedoe". |
| HandleExamples.MentionDotExample | scripts/collect_instagram_data.py:167-171 | "@janedoe.music" is captured whole by the mention pattern and then rejected for its dot. |
| HandleExamples.LabelExample | scripts/collect_instagram_data.py:173-177 | "IG: janedoe.music" yields "janedoe.music", dot and all. |
| HandleExamples.UnanchoredLabelExample | scripts/collect_instagram_data.py:173 | The label is not anchored to a word start: "big news" yields "news". |
| HandleExamples.LabelCaptureAtStart | scripts/collect_instagram_data.py:173-174 | A label match at the start of the text whose handle runs to the end captures that tail. |
| HandleExamples.FirstLabelMatch | scripts/collect_instagram_data.py:173-174 | The first capture of a label match at the start is the handle run after the separators. |
| Instagram.VerifyMatchIff | scripts/collect_instagram_data.py:180-205 | A handle is accepted exactly when its profile loads with at least 5000 followers and its lower-cased full name or bio contains a sufficient word. That word is either a name token longer than two characters that is not a stop word, or a music keyword. A failed lookup rejects the handle. |
| Instagram.FirstWhere | scripts/collect_instagram_data.py:230-232 | The first element passing the check is returned, every earlier one fails it, and nothing is returned only when all fail. |
| Instagram.PickVerified | scripts/collect_instagram_data.py:230-232 | The `for handle in handles` loop returns the first handle that passes the check. |
| Instagram.SubscriberList | scripts/collect_instagram_data.py:92-97 | The subscriber counts exist exactly when every channel's count converts; they are then one per channel, in order, defaulting to 0. |
| Instagram.MostSubscribed | scripts/collect_instagram_data.py:101 | Python's `max` by subscribers picks a largest count, the first one among equals. |
| Instagram.BestChannel | scripts/collect_instagram_data.py:57-106 | No client, a failed request or an empty search gives no channel. |
| Instagram.BestChannelIsMostSubscribed | scripts/collect_instagram_data.py:80-106 | A channel is returned exactly when the requests succeed, the channel list is non-empty and every count parses. It is the first channel with the largest subscriber count. |
| Instagram.FindBestYouTubeChannel | scripts/collect_instagram_data.py:57-106 | The method computes the most-subscribed channel as specified. |
| Instagram.FirstPickedFacts | scripts/collect_instagram_data.py:227-242 | The scan yields the handle of the first description that yields one, and nothing exactly when no description yields one. |
| Instagram.DescriptionHandleFacts | scripts/collect_instagram_data.py:228-232 | A description yields a handle only when it is truthy. The handle is in that description's extracted list and passes the check. |
| Instagram.ScanDescriptionsFacts | scripts/collect_instagram_data.py:227-242 | The handle found passes the check and comes from the first description that yields one, from that description's list. Nothing is found exactly when no description yields a handle. |
| Instagram.HandleFromYouTubeFacts | scripts/collect_instagram_data.py:207-247 | A handle found on YouTube passes the check and was extracted from the channel or a video description, so it is lower-case and at least two characters long. |
| Instagram.DescriptionsShape | scripts/collect_instagram_data.py:227-243 | The channel description is scanned first, then the top videos' descriptions in playlist order. |
| Instagram.CheckDescription | scripts/collect_instagram_data.py:228-232 | One description's handle list is searched for the first verified handle. |
| Instagram.ScanStep | scripts/collect_instagram_data.py:235-243 | A description that yields a verified handle ends the scan with it and adds no pause. Otherwise the scan goes on to the next description after one pause. |
| Instagram.FindInstagramHandleFromYouTube | scripts/collect_instagram_data.py:207-247 | The method returns the specified YouTube handle. It pauses exactly as often as the scan specifies, and not at all without a client or a channel. |
| Instagram.ScanChannel | scripts/collect_instagram_data.py:226-243 | The channel-then-videos loop stops at the first verified handle. It pauses once per video description scanned without one, never after the channel description, and at most once per video. |
| Instagram.PassedOver | scripts/collect_instagram_data.py:235-243 | The count is at most the number of descriptions. Every description before it yields nothing, and the one at the count yields a result. |
| Instagram.ScanPausesNone | scripts/collect_instagram_data.py:226-247 | Nothing is found exactly when the channel description yields nothing and every video costs a pause. |
| Instagram.FirstPickedPassedOver | scripts/collect_instagram_data.py:226-243 | The scan yields nothing exactly when the first description yields nothing and the scan passes over all the rest. |
| Instagram.HandleBase | scripts/collect_instagram_data.py:269 | The base handle holds no space, dot or hyphen. Every other character of the lower-cased name stays, exactly as often as it occurs. |
| Instagram.HandleBasePlain | scripts/collect_instagram_data.py:269 | A name without spaces, dots or hyphens gives its lower-cased self as the base handle. |
| Instagram.HandleBaseAppend | scripts/collect_instagram_data.py:269 | The base handle of a concatenation is the concatenation of the base handles, so order is kept. |
| Instagram.HandleSpec | scripts/collect_instagram_data.py:249-283 | Any handle returned passes the identity check. |
| Instagram.YouTubeTakesPrecedence | scripts/collect_instagram_data.py:263-266 | Whenever the description scan finds a handle, it is the answer and the variations are not tried. |
| Instagram.FallbackOrder | scripts/collect_instagram_data.py:268-283 | Without a YouTube handle, the answer is the first of base, base without "the", base+"music" and base+"official" whose profile exists and passes the check, with every earlier one failing. There is none exactly when all four fail. |
| Instagram.FirstVerifiedFacts | scripts/collect_instagram_data.py:277-283 | The first candidate passing the check is returned, and it has a profile. There is none exactly when all fail. |
| Instagram.FindInstagramHandle | scripts/collect_instagram_data.py:249-283 | The method returns the specified handle. |
| Instagram.TryVariations | scripts/collect_instagram_data.py:277-281 | The loop over the variations returns the first verified one. |
| Instagram.ReelCount | scripts/collect_instagram_data.py:341 | The reel count is at most the number of sampled posts, and 0 exactly when none of them is a video. |
| Instagram.EngagementRateFacts | scripts/collect_instagram_data.py:335-338 | The rate is 0 without followers. Otherwise, times the followers it gives a hundred times the average likes plus comments. |
| Instagram.MetricsFacts | scripts/collect_instagram_data.py:311-366 | Metrics exist exactly for a loadable profile with posts and at least 5000 followers. They describe at most the first twelve posts. The reel count does not exceed the sample. The averages are over the sample, and the rate is against the follower count. |
| Instagram.GetInstagramMetrics | scripts/collect_instagram_data.py:301-366 | The post loop and the checks compute the specified metrics. |
| Instagram.RowsAreVerified | scripts/collect_instagram_data.py:396-412 | Every collected row belongs to one of the artists, carries a handle that passed the check against that artist's name, and has at least 5000 followers. There are no more rows than artists. |
| Instagram.RowsOfSnoc | scripts/collect_instagram_data.py:406-412 | An artist adds its row to the collection exactly when a handle with metrics was found. |
| Instagram.CollectArtist | scripts/collect_instagram_data.py:404-412 | The body of the artist loop finds a handle and then collects its metrics. |
| Instagram.MetricsRow | scripts/collect_instagram_data.py:406-412 | A truthy handle with metrics becomes a row carrying the artist's id and name. |
| Instagram.CheckpointsFacts | scripts/collect_instagram_data.py:424-427 | After n artists there is one checkpoint per completed 50. The j-th checkpoint holds the rows of the first 50(j+1) artists. |
| Instagram.InstagramMain | scripts/collect_instagram_data.py:369-446 | Without the Last.fm file nothing happens. Otherwise every artist is processed with one 10-second wait each. A checkpoint follows every 50th artist. The final save appends the rows, deduplicated on artist_id keeping the last. |
| Instagram.CollectArtists | scripts/collect_instagram_data.py:396-427 | The artist loop collects the rows, checkpoints and waits as specified. |
| YouTube.CountIn | scripts/collect_youtube_data.py:85-90 | The number of name words found in the text is 0 exactly when none occurs, and all of them exactly when each does. |
| YouTube.CandidatesOf | scripts/collect_youtube_data.py:67-101 | The candidate list exists exactly when every subscriber count parses. Every candidate has at least 500 subscribers. |
| YouTube.CandidatesMembers | scripts/collect_youtube_data.py:73-101 | The candidates are exactly the channels with at least 500 subscribers, each with its own score. |
| YouTube.ArgBest | scripts/collect_youtube_data.py:107-110 | The stable descending sort puts first a candidate with a maximal (score, subscribers) key that is the earliest among equal keys. |
| YouTube.SearchSpec | scripts/collect_youtube_data.py:30-123 | A failed or empty search and a failed channel request give no channel. |
| YouTube.SearchReturnsMaximal | scripts/collect_youtube_data.py:67-112 | A returned id is a best candidate: it belongs to a channel with at least 500 subscribers, a score of at least 5 and a maximal key among the candidates. |
| YouTube.SearchSomeIff | scripts/collect_youtube_data.py:103-114 | When both requests succeed and the counts parse, a channel is returned exactly when some channel with at least 500 subscribers scores at least 5. |
| YouTube.OfficialTitleSuffices | scripts/collect_youtube_data.py:80-82 | "official" in the title scores 10 on its own, so such a channel with 500+ subscribers guarantees a result. |
| YouTube.SearchYouTubeChannel | scripts/collect_youtube_data.py:30-123 | The candidate loop with the sort computes the specified channel. |
| YouTube.GetChannelStats | scripts/collect_youtube_data.py:126-175 | A record is returned only within the 500..500000 subscriber band, for the requested channel. Its average is total views over videos, or 0 without videos. A failed or empty reply gives none. |
| YouTube.ViewCounts | scripts/collect_youtube_data.py:222 | When every view count converts, there is one count per video, in order, each read with the default 0. |
| YouTube.RecentAverageBounds | scripts/collect_youtube_data.py:222-225 | The recent-video average lies between the smallest and the largest view count. |
| YouTube.MeanBounds | scripts/collect_youtube_data.py:223 | A mean lies between the bounds of its values. |
| YouTube.CollectionFacts | scripts/collect_youtube_data.py:260-302 | The quota is 100 per processed artist, plus 1 per channel found, plus 2 per row collected. Filtered-out artists skip the sleep and the quota check. The loop ends early exactly at the first quota check above 9000. |
| YouTube.RunFromState | scripts/collect_youtube_data.py:260-302 | From any point on, the loop keeps rows, quota and sleeps in step with the artists processed. |
| YouTube.RunFromStops | scripts/collect_youtube_data.py:296-302 | The loop stops at the first artist whose quota check fails, and never before. |
| YouTube.QuotaSplit | scripts/collect_youtube_data.py:268-284 | The quota charged for the first n artists splits into searches, stats lookups and video lookups. |
| YouTube.RowsInBand | scripts/collect_youtube_data.py:273-288 | Every collected row carries a channel inside the 500..500000 subscriber band. |
| YouTube.LookupsOf | scripts/collect_youtube_data.py:271-283 | Each artist's lookup takes its channel from the channel search on that artist's name, and its average from the recent-video replies. |
| YouTube.RowsFromSearch | scripts/collect_youtube_data.py:271-286 | Every collected row comes from one of the processed artists. It has that artist's id and name, the channel the search returned for that name, and the recent-video average. |
| YouTube.RowChannelIsBest | scripts/collect_youtube_data.py:268-286 | Every row the loop collects names a best candidate of its artist's search: at least 500 subscribers, score at least 5, and no candidate ranks above it. |
| YouTube.VisitArtist | scripts/collect_youtube_data.py:268-288 | One iteration charges the artist's quota cost. It `continue`s exactly when the channel is filtered out, and it yields a row exactly when one is collected. |
| YouTube.CollectYouTube | scripts/collect_youtube_data.py:260-302 | The loop with its `continue` and `break` computes the specified run. It calls the channel search and the recent-video average on each artist's own replies. |
| YouTube.YouTubeMain | scripts/collect_youtube_data.py:231-319 | Without the Last.fm file nothing is written. Otherwise the rows collected from the artists' replies are appended to the existing output, deduplicated by artist_id keeping the last. |
| LastFm.TopArtists | scripts/collect_lastfm_artists.py:44-57 | A failed request gives an empty listing, and a payload with `topartists` gives its `artist` list, empty when the key is absent. |
| LastFm.Elements | scripts/collect_lastfm_artists.py:178 | Iterating a list yields its items; any other value that can be iterated without raising yields nothing. |
| LastFm.CandidateOf | scripts/collect_lastfm_artists.py:178-188 | An entry becomes a candidate, tagged with its source, exactly when it is an object whose listener count converts. |
| LastFm.CandidatesOf | scripts/collect_lastfm_artists.py:178-204 | A listing gives one candidate per entry, in order, or fails when some entry raises. |
| LastFm.CollectListing | scripts/collect_lastfm_artists.py:178-188 | The inner loop builds the listing's candidates as specified. |
| LastFm.CandidatesCrash | scripts/collect_lastfm_artists.py:178-180 | Once an entry raises, the whole listing fails. |
| LastFm.GenresCrash | scripts/collect_lastfm_artists.py:168-190 | Once a genre listing raises, the whole genre loop fails. |
| LastFm.CollectGenres | scripts/collect_lastfm_artists.py:168-190 | The genre loop collects the candidates of the fourteen genres and pauses once per genre that was not skipped. |
| LastFm.TagNames | scripts/collect_lastfm_artists.py:125-139 | The genre names are the tags' `name` strings in order. |
| LastFm.TagValues | scripts/collect_lastfm_artists.py:125 | The list comprehension is defined exactly when every tag is an object with `name`, and it keeps those values in order. |
| LastFm.StringsOf | scripts/collect_lastfm_artists.py:139 | The join succeeds exactly when every value is a string, and it keeps those strings in order. |
| LastFm.RaisedIff | scripts/collect_lastfm_artists.py:110-147 | An uncaught error escapes exactly when the reply has an `artist` and one of these holds: `artist` or its `stats` is not an object, or both counts parse and either the tag holder is not an object or the tag names exist but the queried name is not a string. |
| LastFm.NonStringQueryRaises | scripts/collect_lastfm_artists.py:125-139 | A non-string queried name raises even when a tag name is not a string, because the hash comes before the join. |
| LastFm.NonStringTagSkipped | scripts/collect_lastfm_artists.py:125-139 | With a string queried name, a non-string tag name makes the join fail, which skips the artist. |
| LastFm.FirstTags | scripts/collect_lastfm_artists.py:124-125 | At most the first five tags are used, and none when `tags` is not a list. |
| LastFm.PerListenerFacts | scripts/collect_lastfm_artists.py:128 | Plays per listener times listeners gives the plays, and it is 0 without listeners. |
| LastFm.GetArtistDetails | scripts/collect_lastfm_artists.py:93-147 | A record's id is the hash of the queried name, and the reply then holds an `artist` object. A failed request gives no record. The failures follow the source's order: tag names, then the hash, then `artist['name']`, then the join. |
| LastFm.NoArtistIsSkipped | scripts/collect_lastfm_artists.py:115-116 | A reply without `artist` gives None. |
| LastFm.RecordFields | scripts/collect_lastfm_artists.py:118-141 | The record's counts are the payload's, 0 when missing. Plays per listener is their guarded quotient. The genres are the first five tag names, and the primary genre is the first of them or "unknown". The name is the one the API returned. |
| LastFm.IdIgnoresReply | scripts/collect_lastfm_artists.py:130 | The id depends on the queried name alone, whatever the reply. |
| LastFm.DetailedRows | scripts/collect_lastfm_artists.py:218-228 | There are no more detailed records than unique candidates. |
| LastFm.DetailedProvenance | scripts/collect_lastfm_artists.py:222-226 | Every detailed record comes from a unique candidate: its id hashes that candidate's name and it carries that candidate's source. |
| LastFm.CollectDetails | scripts/collect_lastfm_artists.py:218-228 | The detail loop collects the specified records, with one half-second pause per candidate. |
| LastFm.DetailsCrash | scripts/collect_lastfm_artists.py:218-228 | Once a lookup raises, the whole detail loop fails. |
| LastFm.FinalRows | scripts/collect_lastfm_artists.py:247-258 | The final rows are exactly the detailed rows with 5000..200000 listeners whose lower-cased name is not an established act. |
| LastFm.UniqueIsFirst | scripts/collect_lastfm_artists.py:210-211 | A deduplicated candidate is the first candidate of its name. |
| LastFm.FinalProvenance | scripts/collect_lastfm_artists.py:210-258 | Every final row was detailed from the first candidate of its name and carries that candidate's source. |
| LastFm.Save | scripts/collect_lastfm_artists.py:265-277 | Without a file the rows are written alone. Otherwise old and new rows are written with one row per id. |
| LastFm.SaveNewRowsWin | scripts/collect_lastfm_artists.py:268-273 | Every id collected now is written with its last new row. |
| LastFm.MainFacts | scripts/collect_lastfm_artists.py:150-277 | A saved run keeps only emerging artists, each detailed from its name's first candidate. With an existing file it writes one row per id. |
| LastFm.LastfmMain | scripts/collect_lastfm_artists.py:150-277 | `main` ends as specified: no key, a crash, no candidates, no details, or a save. It takes one-second pauses per genre kept and half-second pauses per unique candidate. |
| Merge.DataFrame.Copy | scripts/merge_and_upload_bigquery.py:81 | A copy is a new frame with the same contents. |
| Merge.DataFrame.AssignColumn | scripts/merge_and_upload_bigquery.py:99-107 | Assigning a column sets it in every row, appending it to the columns when new. |
| Merge.DataFrame.FillNa | scripts/merge_and_upload_bigquery.py:236-252 | A fill replaces the nulls of one column in place. |
| Merge.FillSpecFacts | scripts/merge_and_upload_bigquery.py:243-252 | After a fill, the column is non-null wherever it was null and present, and no other cell changes. |
| Merge.RightColumns | scripts/merge_and_upload_bigquery.py:86-88 | The columns taken from a platform table never include `artist_id` again. They include `artist_name` only with the platform prefix. |
| Merge.Attach | scripts/merge_and_upload_bigquery.py:90-95 | A merged row keeps all of its own columns and gains every right column, renamed with the suffix on a clash. |
| Merge.AttachKeeps | scripts/merge_and_upload_bigquery.py:90-95 | A left column no right column is renamed to keeps its value. |
| Merge.AttachNone | scripts/merge_and_upload_bigquery.py:90-95 | A left row without a match gets null in every right column. |
| Merge.MergeLeft | scripts/merge_and_upload_bigquery.py:90-95 | The join keeps at least every left row. |
| Merge.RenamedAvoidsIdentity | scripts/merge_and_upload_bigquery.py:86-94 | No right column lands on `artist_id` or `artist_name`, so the Last.fm identity survives. |
| Merge.MergeLeftKeepsLeft | scripts/merge_and_upload_bigquery.py:84-121 | With a unique-keyed platform table, the join is one row per Last.fm row, keeping its artist_id and artist_name. |
| Merge.NullColumnsFacts | scripts/merge_and_upload_bigquery.py:97-107 | After the null columns are added, each of them is null in every row, and the row count is unchanged. |
| Merge.NullColumnsKeep | scripts/merge_and_upload_bigquery.py:123-129 | Adding null columns leaves the other cells alone. |
| Merge.QualityTenths | scripts/merge_and_upload_bigquery.py:137-141 | The quality score in tenths is at most 10. |
| Merge.QualityValues | scripts/merge_and_upload_bigquery.py:137-141 | The score takes only the values 0, 3, 4, 6, 7 and 10 tenths. It is 0 exactly when all three metrics are null and 10 exactly when none is. |
| Merge.FinishKeeps | scripts/merge_and_upload_bigquery.py:131-141 | The metadata and score columns leave every other cell alone. |
| Merge.FinishQuality | scripts/merge_and_upload_bigquery.py:137-141 | Every merged row carries a quality score in {0, .3, .4, .6, .7, 1}. |
| Merge.AbsentInstagramIsNull | scripts/merge_and_upload_bigquery.py:97-107 | An absent or empty Instagram table gives every row the nine Instagram columns, all null. |
| Merge.AbsentYouTubeIsNull | scripts/merge_and_upload_bigquery.py:123-129 | An absent or empty YouTube table gives every row the five YouTube columns, all null. |
| Merge.PlatformStepKeeps | scripts/merge_and_upload_bigquery.py:84-129 | When the platform table has unique ids, a platform step keeps the rows in order, with their ids and names. |
| Merge.MergeKeepsLastfm | scripts/merge_and_upload_bigquery.py:69-148 | With unique-keyed platform tables, the merge has one row per Last.fm row, in order, each keeping its artist_id and artist_name. |
| Merge.InstagramStepFacts | scripts/merge_and_upload_bigquery.py:84-107 | The Instagram step keeps the artists and leaves a well-formed frame that still has `artist_id` and `artist_name`. |
| Merge.YouTubeStepFacts | scripts/merge_and_upload_bigquery.py:110-129 | The YouTube step keeps the artists. |
| Merge.PlatformStepColumns | scripts/merge_and_upload_bigquery.py:84-129 | A platform step keeps the left columns and yields a frame whose every row has every column. |
| Merge.MergeAllData | scripts/merge_and_upload_bigquery.py:69-148 | The in-place column updates produce the specified merged frame in a new frame. |
| Merge.AddPlatform | scripts/merge_and_upload_bigquery.py:84-129 | A platform block is either the join into a new frame or the null columns assigned in place. |
| Merge.FillAllFacts | scripts/merge_and_upload_bigquery.py:243-252 | A fill loop removes the nulls of the listed columns the frame has and changes nothing else. |
| Merge.UploadFacts | scripts/merge_and_upload_bigquery.py:236-252 | Before upload, a null instagram_verified becomes False and the listed integer columns' nulls become 0. The listed float columns' nulls become 0.0, and everything else is unchanged. |
| Merge.PrepareUpload | scripts/merge_and_upload_bigquery.py:225-252 | The fills are applied to a copy; the frame passed in is unchanged. |
| Merge.FillColumns | scripts/merge_and_upload_bigquery.py:243-252 | One `for col in cols` loop fills the listed columns in turn. |
| Scoring.And3 | scripts/generate_sql.py:94-101 | SQL AND is true when both sides are, and false when either is. |
| Scoring.Or3 | scripts/generate_sql.py:98-99 | SQL OR is true when either side is, and false when both are. |
| Scoring.Gt | scripts/generate_sql.py:99 | A comparison is unknown exactly when a side is NULL. |
| Scoring.Between | scripts/generate_sql.py:97-98 | BETWEEN is true exactly for a known value inside the bounds. |
| Scoring.IsNull | scripts/generate_sql.py:98-99 | IS NULL is never unknown. |
| Scoring.SafeDivide | scripts/generate_sql.py:57 | SAFE_DIVIDE is NULL on a zero divisor, and otherwise times the divisor gives the dividend. |
| Scoring.Least | scripts/generate_sql.py:61 | LEAST is NULL with a NULL argument and otherwise the smaller argument. |
| Scoring.Greatest | scripts/generate_sql.py:85 | GREATEST is NULL with a NULL argument and otherwise the larger argument. |
| Scoring.UnderratedRatio | scripts/generate_sql.py:57 | The ratio is defined exactly when followers and a non-zero listener count are known. Times the listeners it gives the followers. |
| Scoring.EngagementScore | scripts/generate_sql.py:61 | The engagement score is twice the rate, capped at 10. |
| Scoring.PlatformCount | scripts/generate_sql.py:65-67 | The platform count is 0..3. It is 0 exactly when no threshold is exceeded and 3 exactly when all are, so a NULL metric counts as absent. |
| Scoring.GrowthPotential | scripts/generate_sql.py:71-75 | High exactly when followers exceed twice the listeners, Medium when they exceed the listeners only, and Low otherwise, including NULLs. |
| Scoring.Denominator | scripts/generate_sql.py:85 | The denominator is the listener count floored at 1, so the NULLIF never applies. |
| Scoring.PriorityScore | scripts/generate_sql.py:80-85 | The score is NULL exactly when one of its five inputs is. Times the floored listener count it gives the weighted sum, and it never divides by zero. |
| Scoring.FollowerGap | scripts/generate_sql.py:88 | The gap is followers minus listeners, NULL when either is. |
| Scoring.GrowthAgreesWithRatio | scripts/generate_sql.py:57-75 | With listeners, the growth category is a band of the underrated ratio: above 2, in (1, 2], or at most 1. |
| Scoring.PriorityOverListeners | scripts/generate_sql.py:80-85 | With at least one listener, the score is the weighted sum over the listener count. |
| Scoring.ZeroListeners | scripts/generate_sql.py:57-85 | With zero listeners and a positive follower count the ratio is NULL, the growth is High. The score, when known, is the whole weighted sum. |
| Scoring.ScenarioExample | scripts/generate_sql.py:57-88 | For 50000 listeners, 120000 followers, a 3.0 % rate, 8000 subscribers and 4.0 plays per listener: ratio 2.4, engagement 6, High, 3 platforms, priority 3.64, gap 70000. |
| Scoring.RetainedIff | scripts/generate_sql.py:94-101 | A row is kept exactly when its genre is listed and its listener count is known and in [5000, 200000]. Followers must be unknown or in [1000, 100000], engagement unknown or above 1.0, and quality known and at least 0.3. |
| Scoring.RetainedScores | scripts/generate_sql.py:57-101 | A kept row always has a ratio once followers are known. Its score, when known, divides by the listener count itself. |
| Scoring.Select | scripts/generate_sql.py:34-101 | Every selected row is the scored form of a retained input row, and every retained row's scored form is selected. |
| Scoring.SelectOne | scripts/generate_sql.py:94-101 | One row gives its scored form when the WHERE clause retains it and nothing otherwise. |
| Scoring.SelectSplit | scripts/generate_sql.py:92-101 | Each row is judged on its own: selecting from a concatenation concatenates the selections, so no row is merged or duplicated. |
| Scoring.CopiedColumns | scripts/generate_sql.py:34-90 | The nine columns the SELECT passes through reach the scored row unchanged, and a missing one stays missing. |
| Scoring.Insert | scripts/generate_sql.py:103 | Inserting into an ordered result keeps it ordered and adds exactly the element. |
| Scoring.SortByPriority | scripts/generate_sql.py:103 | The ordering is a permutation in descending score, NULLs last. |
| Scoring.ScoreQueryFacts | scripts/generate_sql.py:32-103 | The query result is ordered by descending score. It holds the scored form of exactly the retained rows, each carrying its own scores, and as many rows as the selection. |
| Scoring.ScoreQueryOne | scripts/generate_sql.py:32-103 | A one-row table gives its scored form once when retained and nothing otherwise. |
| Scoring.ScoreQuerySplit | scripts/generate_sql.py:32-103 | The result of a concatenation is the union of the results, counting multiplicity. |
| Scoring.EqualRowsKept | scripts/generate_sql.py:32-103 | Two equal retained rows give two result rows. |
| Scoring.UploadedWithoutFollowersIsDropped | scripts/merge_and_upload_bigquery.py:243-245 | The upload turns a null follower count into 0, outside [1000, 100000]. So an uploaded artist without Instagram followers is never retained, and the `IS NULL` branch at scripts/generate_sql.py:98 never applies to uploaded rows. |
| Scoring.UploadedWithoutEngagementIsDropped | scripts/merge_and_upload_bigquery.py:250-252 | The upload turns a null engagement rate into 0.0, not above 1.0. So such an uploaded artist is never retained either. |
| Scoring.GenerateSqlFile | scripts/generate_sql.py:15-23 | Nothing is generated exactly when the project id is missing, empty or starts with "your". The dataset defaults to artist_discovery. |
| Scoring.TargetIsNotSource | scripts/generate_sql.py:32-92 | The statement replaces artist_scores next to artist_raw_data in the same dataset, never its own input. |
| Songs.TracksOf | scripts/collect_song_level_data.py:67-77 | Tracks are parsed one per entry, in order, and are missing as soon as one entry fails. |
| Songs.TopTracksFacts | scripts/collect_song_level_data.py:59-80 | Tracks are the payload's entries in order when all of them parse. A payload without toptracks or track, a failed request or one malformed entry gives no tracks. |
| Songs.TrackDefaults | scripts/collect_song_level_data.py:69-75 | Missing counts and rank default to 0, and a missing url to the empty string. |
| Songs.Prefix | scripts/collect_song_level_data.py:198 | A cut caption is a prefix of at most 200 characters, the whole caption when shorter. |
| Songs.Examined | scripts/collect_song_level_data.py:171-175 | The scan looks at no more than the first 50 posts. |
| Songs.FirstFrom | scripts/collect_song_level_data.py:173-205 | The post found is the first qualifying one, and none is found only when none qualifies. |
| Songs.PostScanFacts | scripts/collect_song_level_data.py:150-215 | A post is returned exactly when the handle is truthy, the profile loads and one of the first 50 posts mentions the track near its release. It is the first such post, with its caption cut to 200 characters. |
| Songs.ScanLimit | scripts/collect_song_level_data.py:171-175 | Posts after the fiftieth never matter. |
| Songs.WindowEdges | scripts/collect_song_level_data.py:183-188 | A mentioning post exactly 30 days from the release still qualifies; one 31 days away does not. |
| Songs.GetInstagramPostsForSong | scripts/collect_song_level_data.py:150-215 | The scan returns the specified post. It pauses once per examined post that does not mention the track. |
| Songs.ScanPosts | scripts/collect_song_level_data.py:173-211 | The post loop with its counter, `continue` and `break` finds the specified post and takes the specified pauses. |
| Songs.SongRecords | scripts/collect_song_level_data.py:243-313 | There is one record per track, in Last.fm order, with the artist, the track's columns and the date. Without a video every youtube column is None. Every instagram column is None while post scraping is disabled. |
| Songs.CollectSongDataForArtist | scripts/collect_song_level_data.py:218-315 | The dictionary updates build the specified records. |
| Songs.TrackRecords | scripts/collect_song_level_data.py:243-313 | The track loop builds one record per track. |
| Songs.NormaliseHandle | scripts/collect_song_level_data.py:365-370 | A string handle loses every `@` and keeps every other character exactly as often as it occurs. A missing or non-string handle becomes None. |
| Songs.NormaliseKeepsPlainHandle | scripts/collect_song_level_data.py:367-368 | A handle without `@` is kept as it is. |
| Songs.Processed | scripts/collect_song_level_data.py:358 | At most the first 10 artists are processed. |
| Songs.SavesArePrefixes | scripts/collect_song_level_data.py:380-385 | Each progress save holds a non-empty prefix of the songs collected so far. |
| Songs.SavesEmpty | scripts/collect_song_level_data.py:380-381 | Nothing is saved while no song has been collected. |
| Songs.RunFacts | scripts/collect_song_level_data.py:358-393 | Every file written holds a non-empty prefix of the collected songs, and the last one holds all of them. Nothing is written when no song was collected. Artists after the tenth never matter. |
| Songs.SongLevelMain | scripts/collect_song_level_data.py:318-393 | The artist loop with its progress saves and final save produces the specified run. |

## Left out

- Logging, printing and the log file's appends: the log is an input of the rate-limit check only.
- `get_current_stats` (scripts/automated_data_collection.py:156-197) and the `last_run` timestamp: the checkpoint's `stats` and `last_run` are opaque inputs.
- The orchestrator's command line (scripts/automated_data_collection.py:333-347): `--once` and `--iterations` reach the model as the `max_iterations` argument.
- Orchestrator.MainCollectionLoop: requires that an invocation without a limit is eventually interrupted, since the real loop is otherwise endless. Ctrl+C is modelled only at the start of an iteration, before its first stage.
- Orchestrator.RunScript: the subprocess is an oracle of attempt outcomes (exit code with its output, a timeout, an exception). The 500-character log excerpts are not modelled.
- File reads and writes (CSV, JSON and the SQL file): a file's contents are a parameter, and a write is a returned value. CSV round-tripping and pandas type inference are not modelled.
- `load_data_files` (scripts/merge_and_upload_bigquery.py:32-66) and `main` of the merge script: the three frames are inputs of `MergeAllData`. `create_bigquery_schema` and the load job in `upload_to_bigquery` are warehouse mechanics, not modelled.
- The date and timestamp conversions in `upload_to_bigquery` (scripts/merge_and_upload_bigquery.py:228-233) and the `astype('Int64')` casts. Clock readings are opaque cells.
- All API calls (YouTube client, Instaloader, Last.fm HTTP): their replies are parameters, including a failed request as its own case.
- `search_youtube_video` (scripts/collect_song_level_data.py:83-148): its result per track is a parameter.
- The merge of the Last.fm and Instagram tables at scripts/collect_song_level_data.py:341-350: `SongLevelMain` receives the joined rows.
- `time.sleep`: sleeps are returned as counts (YouTube, Last.fm, Instagram, song scan) or as traces of durations (orchestrator). The 10-second and 2-second waits of the Instagram and song-level `main` loops appear only as counts or not at all. The half-second pause after each song's video search is not modelled.
- Songs.CollectSongDataForArtist: the Instagram handle is accepted but unused, because post scraping is disabled in the source. `GetInstagramPostsForSong` is modelled on its own.
- `hashlib.md5` is a function parameter: artist ids are compared only through it.
- The order in which Python lists a set is a parameter (`arrange`); the model states only that it is a permutation.
- The regular expressions of `extract_instagram_handles` are written out as scanners over ASCII text. Python's full regex engine and Unicode `\w` are not modelled, and neither is `str.lower` beyond ASCII.
- Floating point: averages, rates, ratios and scores are exact reals.
- Merge.MergeAllData: a missing column reads as null, through `Merge.Key` and `Merge.NotNa`. The source raises KeyError when a frame lacks `artist_id` at the merges (scripts/merge_and_upload_bigquery.py:90-95 and 116-121), or lacks `instagram_followers`, `youtube_subscribers` or `lastfm_listeners` (lines 96, 122 and 138-140). The collectors always write these columns.
- Scoring.Select: the column order of the SELECT list is not kept; the copied columns are a map from name to cell.
- `int()` on strings covers ASCII whitespace, an optional sign and ASCII digits with single `_` separators. Python's acceptance of other Unicode digits and spaces is not modelled.
- Instagram.GetInstagramMetrics: the averages and the engagement rate are exact. `round(..., 2)` is not modelled.
- YouTube.GetChannelStats: the average views per video are exact. `round(..., 0)` is not modelled.
- YouTube.RecentAverageBounds: the `round(avg_views, 0)` of `get_recent_video_stats` is not modelled.
- LastFm.GetArtistDetails: plays per listener is exact. `round(..., 2)` is not modelled.
- LastFm.LastfmMain: the collection date and timestamp columns are not modelled.
- Songs.SongRecords: the collection date is a parameter.
- Scoring.SortByPriority: it is one of the orders ORDER BY may produce. The engine does not promise an order among equal scores, so only the sort order and the permutation are stated.
- The summary query in the SQL comment (scripts/generate_sql.py:105-115) is not generated SQL and is not modelled.
- The progress prints every 10th or 50th artist in the collectors are not modelled.
