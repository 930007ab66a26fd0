# Genre playlists for a Spotify library, in Dafny

This project models the genre logic of a set of Python scripts that sort the
tracks of a Spotify playlist into one playlist per genre. The scripts share an
**artist cache**, a JSON map from artist id to `{name, genres, country}`, and a
**custom-genres file**, a JSON map from artist id to `{name, genres}` entries.
Around those two files they do the following:

- **Normalize a raw tag.** `normalize_genre` maps a raw Spotify or Wikipedia
  tag to a canonical label through fixed tables, and drops the label when it
  merely repeats the input's spelling. `deduplicate_hyphen_genres` keeps the
  first genre of every hyphen-free, lower-case key.
- **Decide where a track goes.** `get_track_genres` takes the union of its
  cached artists' genres, plus regional tags. `should_track_be_in_playlist`
  decides whether the track belongs in a playlist.
- **Build cache records.** The cachers, the cache refreshers, the manual
  genre and country prompts, the custom-genre managers and Main.py's merge of
  the custom-genres file all build or rewrite cache records.
- **Fill genre playlists.** Tracks are bucketed into genre → set of track
  ids. A genre with at least 100 tracks gets a playlist: a new one, or new
  tracks appended to the existing one, in chunks of 50. The Brazilian-songs,
  custom-genre and fix scripts add tracks the same way, and the cleanup
  script removes tracks that no longer belong.
- **Talk to the catalog.**
  - Batched fetches fall back to one item at a time.
  - Retries back off exponentially.
  - Playlists are read page by page.
  - A rate limiter spaces the requests.
- **Read and write small formats.**
  - Spotify URLs are parsed into ids.
  - The `artists_without_genres` text listing is written by one script and
    read back with a regular expression by another.
  - Wikipedia infobox genres are extracted from wikitext.
  - Genres are listed and ranked, and artists with too many genres are
    listed.

The catalog, the encyclopedia, the clock, the prompts and the files are
parameters. Catalog answers, encyclopedia answers and clock readings are
oracle functions or sequences of outcomes. Typed answers are a list read
from the front, and files are map values. Each script's loop is a `method`
proved equal to a specification function over the values it reads. The
properties the scripts rely on are lemmas about those functions:
- what changes and what stays;
- idempotence and round trips;
- permutation, order and stability;
- counts and bounds;
- every error path.

Two core files are modelled through their twins. The root spotify_client.py's
`get_artist_with_retry` (spotify_client.py:20-31) is the retry loop of
model/spotify_client.py:22-45 line for line, so `SpotifyClient.RetryRun` and
`SpotifyClient.GetArtistWithRetry` model both. model/WikipediaGenres.py
differs from the root WikipediaGenres.py only in its docstrings, its `model.`
imports and its `data/` file paths, so the `WikipediaGenres` members
(`ExtractArtistNamesFromJson`, `ExtractNamesFromText`, `GetGenresForArtists`,
`Run` and the lemmas beside them) model both.

## Model

| member | source | states |
|---|---|---|
| GenreNormalize.FirstHit | Genre_Tools.py:282-297 | the index of the first table entry with a value occurring in the tag, every earlier entry having none; no index exactly when no entry hits |
| GenreNormalize.ScanTable | Genre_Tools.py:282-297 | the scan over a table with its early exit finds exactly the first entry with a hit |
| GenreNormalize.Normalized | Genre_Tools.py:231-307 | `normalize_genre` gives at most one label, and none for the sentinel tags "name" and "genres" |
| GenreNormalize.DropMusicSuffix | Genre_Tools.py:246 | removing a case-insensitive trailing " music" (with `$` also matching before a final newline) never lengthens the tag |
| GenreNormalize.NormalizeGenre | Genre_Tools.py:231-307 | the step-by-step normalization returns the labels of `Normalized` |
| GenreNormalize.ClassifyCleaned | Genre_Tools.py:281-307 | the special-case scan with early return, the umbrella scan stopping at its first hit, the fall-through and the removal of the tag's own spelling give `Classified` |
| GenreNormalize.SpecialCaseWins | Genre_Tools.py:281-285 | a special-case hit yields exactly that special label, title-cased |
| GenreNormalize.UmbrellaLabelKept | Genre_Tools.py:287-297 | without a special-case hit the first umbrella entry that hits gives its label ("Blues" for the rhythm-and-blues entry) |
| GenreNormalize.UmbrellaLabelDropped | Genre_Tools.py:303-305 | an umbrella label spelled exactly like the cleaned tag is removed, leaving no label |
| GenreNormalize.FallThrough | Genre_Tools.py:299-301 | with no hit in either table the cleaned tag is kept title-cased, or nothing when it is empty |
| GenreNormalize.FirstHitAt | Genre_Tools.py:282-297 | an entry that hits after entries that do not is the one found |
| GenreNormalize.NoHit | Genre_Tools.py:282-297 | a table in which no entry hits gives no match |
| GenreNormalize.SentinelPadded | Genre_Tools.py:240-242 | "name" and "genres" in any case and with any surrounding white space give no labels |
| GenreNormalize.MusicSuffixRemoved | Genre_Tools.py:243-246 | a trailing " music" in any case is cut and the rest stripped, unless the tag is one of the two kept music tags |
| GenreNormalize.KeptTagsUnchanged | Genre_Tools.py:245 | "brazilian music" and "japanese music" reach the tables with " music" kept |
| GenreNormalize.TableValuesNonEmpty | Genre_Tools.py:252-279 | no table value is empty, so every hit is a real occurrence in the tag |
| GenreNormalize.ContainsInEmpty | Genre_Tools.py:283 | no table entry hits the empty tag |
| GenreNormalize.EmptyAfterCleaning | Genre_Tools.py:299-301 | a tag that is empty once cleaned gives no labels |
| GenreDedup.HyphenKeyCanonical | Genre_Tools.py:322-324 | a key is lower-case, hyphen-free, single-spaced, and computing the key of a key changes nothing |
| GenreDedup.HyphenKeySpacing | Genre_Tools.py:324 | a key has no white space at either end and no two white-space characters in a row |
| GenreDedup.HyphenDedup | Genre_Tools.py:309-331 | the result has distinct keys, covers the key of every input genre, and holds only input genres |
| GenreDedup.HyphenDedupFirstPerKey | Genre_Tools.py:326-331 | the result is the input with exactly the genres that are not the first of their key left out, in input order |
| GenreDedup.HyphenDedupIdempotent | Genre_Tools.py:309-331 | de-duplicating twice is de-duplicating once |
| GenreDedup.HyphenDedupPopRock | Genre_Tools.py:321-328 | "pop-rock" and "pop rock" share the key "pop rock" and only the first is kept |
| GenreDedup.DeduplicateHyphenGenres | Genre_Tools.py:319-331 | the loop filling a dict from key to first genre returns the values of `HyphenDedup`, in insertion order |
| PlaylistMatch.ShouldTrackSomeIndex | Genre_Tools.py:346-353 | a track belongs exactly when some genre at some index has a label equal, ignoring case, to the playlist genre |
| PlaylistMatch.MatchLabels | Genre_Tools.py:351-353 | the inner loop finds a label whose lower-case form equals the lower-cased playlist genre exactly when one exists |
| PlaylistMatch.GenreMatches | Genre_Tools.py:347-353 | one genre's labels match the playlist genre exactly as `LabelMatches` says |
| PlaylistMatch.ShouldTrackBeInPlaylist | Genre_Tools.py:333-353 | the loop with its early return answers `ShouldTrack` |
| PlaylistMatch.ShouldTrackIgnoresCase | Genre_Tools.py:344 | the answer does not depend on the case of the playlist genre |
| PlaylistMatch.ShouldTrackAppend | Genre_Tools.py:347-353 | a track matches a concatenation of genre lists exactly when it matches one of the parts |
| PlaylistMatch.OwnLabelMatches | Genre_Tools.py:348-353 | a genre with a label matches the playlist named by that label |
| PlaylistMatch.NoLabelNoMatch | Genre_Tools.py:348-351 | a genre that normalizes to no labels matches no playlist |
| PlaylistMatch.MetalLabelMatchesNothing | Genre_Tools.py:303-305 | the label "Metal" normalizes to nothing, so a cached "Metal" matches no playlist |
| PlaylistMatch.RawMetalMatches | Genre_Tools.py:254 | the raw tag "metal" matches the "Metal" playlist |
| ArtistBatch.Uncached | Genre_Tools.py:154-161 | the uncached ids are exactly the ids not in the cache, in order; none exactly when every id is cached |
| ArtistBatch.FetchedGenresKeys | Genre_Tools.py:167-171 | the ids of the artists the catalog returns are exactly the keys recorded |
| ArtistBatch.FetchedGenresLast | Genre_Tools.py:167-171 | the last response for an id decides its recorded genres |
| ArtistBatch.CachedGenres | Genre_Tools.py:157-159 | exactly the cached ids are keys, each with its cached genres |
| ArtistBatch.BatchGenres | Genre_Tools.py:140-173 | every cached id is answered, and every answer is a cached id or an id the catalog returned for the uncached ids |
| ArtistBatch.BatchGenresAllCached | Genre_Tools.py:164 | when every id is cached the catalog is not consulted and the answer is the cached genres |
| ArtistBatch.BatchGenresCachedValue | Genre_Tools.py:159-171 | a cached id keeps its cached genres unless the catalog also answered for it |
| ArtistBatch.SplitCached | Genre_Tools.py:154-161 | the first loop yields the cached genres and the uncached ids in order |
| ArtistBatch.AddFetched | Genre_Tools.py:167-171 | each returned artist's genres overwrite what the map held for its id |
| ArtistBatch.GetArtistGenresBatch | Genre_Tools.py:140-173 | the two loops return `BatchGenres` |
| TrackTagging.RegionOf | Genre_Tools.py:209-214 | Brazil when the country contains "Brazil", else Japan when it contains "Japan", else Nordic when it is one of the five names; each direction stated |
| TrackTagging.HasRegionSomeArtist | Genre_Tools.py:200-214 | a region flag is raised exactly when some credited artist's cached country has the region |
| TrackTagging.ArtistsGenresUnion | Genre_Tools.py:200-203 | a genre is in the union exactly when some credited artist's batch genres hold it |
| TrackTagging.WithTag | Genre_Tools.py:216-222 | the tag is added exactly when the flag is set and no genre lower-cases to its key; nothing else is added |
| TrackTagging.TrackGenresAsWritten | Genre_Tools.py:223-227 | with a Nordic artist and at least one genre, the `.lower()` on a list raises; otherwise the Brazilian and Japanese tags alone |
| TrackTagging.TrackGenres | Genre_Tools.py:175-229 | no track gives no genres |
| TrackTagging.BrazilBeforeJapan | Genre_Tools.py:209-212 | a country naming both Brazil and Japan is Brazilian only |
| TrackTagging.TrackGenresBounds | Genre_Tools.py:216-229 | the result keeps every artist genre and adds at most the three tags |
| TrackTagging.TrackGenresTagsNeedRegion | Genre_Tools.py:216-227 | each tag is added only when some credited artist's cached country calls for it |
| TrackTagging.TrackGenresBrazilTag | Genre_Tools.py:216-219 | with a Brazilian artist some genre lower-cases to "brazilian music" |
| TrackTagging.ScandinavianMetalTag | Genre_Tools.py:223-227 | with a Nordic artist, "Scandinavian Metal" is added exactly when some label of some genre contains "metal" |
| TrackTagging.TrackGenresAgree | Genre_Tools.py:175-229 | without a Nordic artist the code as written and as intended agree |
| TrackTagging.NordicMetalRaises | Genre_Tools.py:225 | a Nordic artist and a genre that mentions metal make the code as written raise, where the intended code tags |
| TrackTagging.ScandinavianBranchRaises | Genre_Tools.py:213-227 | one artist cached with genre "metal" and country "Sweden" makes the code as written raise |
| TrackTagging.BrazilianArtistTagged | Genre_Tools.py:206-219 | a cached country "Brazil" tags the track "Brazilian Music" even when its artist has no genres |
| TrackTagging.ScanArtists | Genre_Tools.py:200-214 | the artist loop computes the union of the batch genres and the three region flags |
| TrackTagging.AddRegionalTags | Genre_Tools.py:216-222 | the Brazilian then the Japanese tagging step, as `WithTag` |
| TrackTagging.GetTrackGenres | Genre_Tools.py:175-229 | the batch lookup, the loop and the tagging steps return `TrackGenres` |
| TrackTagging.AnyMetalAdd | Genre_Tools.py:225 | adding one genre adds exactly that genre's answer to the metal test |
| TrackTagging.AnyMetalLoop | Genre_Tools.py:225 | the loop over the genre set answers the intended metal test |
| TrackTagging.AnyMetalUp | Genre_Tools.py:225 | the metal test is monotone in the set of genres |
| TrackTagging.RawMetalMentionsMetal | Genre_Tools.py:254 | the raw tag "metal" mentions metal once normalized |
| ArtistLookup.ArtistNameFromCache | Genre_Tools.py:46-85 | a cached non-empty name is returned with the cache unchanged; a failed fetch changes nothing; only the looked-up id's entry can change |
| ArtistLookup.ArtistNameCached | Genre_Tools.py:59-80 | once a non-empty name has been fetched and stored, the next lookup answers it from the cache |
| ArtistLookup.ArtistNameKeepsRecord | Genre_Tools.py:70-72 | filling in a missing name leaves the record's genres and country as they were |
| ArtistLookup.NationalTagAsWritten | Genre_Tools.py:120-125 | as written, at most one tag is appended, with the country searched for the lower-case words "brazil" and "japan" |
| ArtistLookup.NationalTag | Genre_Tools.py:120-125 | as intended, at most one tag is appended, with the country compared without regard to case |
| ArtistLookup.NationalTagIn | Genre_Tools.py:121-125 | the Brazilian tag is appended exactly when the country mentions brazil and no genre is already "brazilian music"; the Japanese one likewise, after Brazil |
| ArtistLookup.LowerAll | Genre_Tools.py:121 | the lower-cased genres, position by position |
| ArtistLookup.CapitalisedCountryMissed | Genre_Tools.py:122 | the country "Brazil" gets no tag as written and the Brazilian tag as intended |
| ArtistLookup.NationalTagIgnoresCase | Genre_Tools.py:120-125 | the intended tag does not depend on how the country is capitalised |
| ArtistLookup.ArtistGenres | Genre_Tools.py:87-138 | a cached id answers from the cache and changes nothing; a miss succeeds exactly when the catalog answers, and stores the genres it returns |
| ArtistLookup.ArtistGenresCached | Genre_Tools.py:98-136 | after a successful miss the next call answers from the cache with the same genres |
| ArtistLookup.ArtistGenresKeepsKeys | Genre_Tools.py:110-128 | on a miss every catalog and custom genre survives up to its hyphen key |
| GenrePipeline.FlattenNormalized | controller/Update_Cache.py:41-43 | the flattening loop concatenates the labels of every genre in order |
| GenrePipeline.Pipeline | controller/Update_Cache.py:41-57 | the stored genres have distinct hyphen keys |
| GenrePipeline.PipelineMember | controller/Update_Cache.py:41-57 | every stored genre is a label of some input genre or the appended tag |
| GenrePipeline.PipelineKeepsKeys | controller/Update_Cache.py:41-57 | every label of an input genre, and the tag, keeps its hyphen key among the stored genres |
| GenrePipeline.PipelineTagDropped | controller/Update_Cache.py:50-57 | a tag whose key an earlier, different label already holds is dropped |
| GenrePipeline.BrazilianTagDropped | controller/Update_Cache.py:52-57 | the tag "brazilian music" is dropped when the labels already hold "Brazilian Music" |
| GenrePipeline.RegionalTag | controller/Update_Cache.py:51-55 | at most one tag: "brazilian music" exactly when the country contains "Brazil", else "Japanese Music" exactly when it contains "Japan" |
| GenrePipeline.CodeTag | Update_Cache.py:33-36 | at most one tag, chosen by the exact country codes "BR" and "JP" |
| GenrePipeline.NotIn | controller/Update_Cache.py:39 | the custom genres absent from the base, all of them, in order |
| GenrePipeline.WithCustom | controller/Update_Cache.py:39 | the base list is a prefix and the result holds exactly the base and custom genres |
| GenrePipeline.WithCustomPresent | controller/Update_Cache.py:39 | custom genres already present add nothing |
| GenrePipeline.WithCustomKeepsRepeats | controller/Update_Cache.py:39 | a custom genre listed twice and missing from the base is appended twice, since the filter looks at the base alone |
| GenreExamples.ElectroPop | Genre_Tools.py:272-285 | "electro-pop" normalizes to ["Electropop"] alone: the first special case with a hit wins |
| GenreExamples.HardcorePunk | Genre_Tools.py:276-285 | "hardcore punk" normalizes to ["Hardcore"]: special cases come before the umbrella "rock" entry that also hits |
| GenreExamples.AnimeRap | Genre_Tools.py:274-285 | "anime rap" normalizes to ["Anime"], before the "Japanese Music" entry that also hits |
| GenreExamples.AlternativeMetal | Genre_Tools.py:287-297 | "alternative metal" normalizes to ["Metal"]: the umbrella scan stops at "metal" before "indie and alternative" and "rock" |
| GenreExamples.JRock | Genre_Tools.py:260-297 | "j-rock" normalizes to ["Rock"]: "rock" comes before the entry listing "j-rock" itself |
| GenreExamples.LowerMetal | Genre_Tools.py:303-305 | "metal" normalizes to ["Metal"]: a label differing from the tag only in case is kept |
| GenreExamples.Metal | Genre_Tools.py:303-305 | "Metal" normalizes to nothing: a label spelled exactly like the tag is removed |
| GenreExamples.Rock | Genre_Tools.py:303-305 | "Rock" normalizes to nothing |
| GenreExamples.Blues | Genre_Tools.py:266-305 | "Blues" normalizes to nothing: its entry answers "Blues", which is then removed |
| GenreExamples.BrazilianMusic | Genre_Tools.py:245-305 | "Brazilian Music" keeps its " music" and is removed as its own label |
| GenreExamples.Hardcore | Genre_Tools.py:260-297 | "Hardcore", the special-case label, normalizes again to ["Rock"] |
| GenreExamples.Anime | Genre_Tools.py:267-297 | "Anime", the special-case label, normalizes again to ["Japanese Music"] |
| GenreExamples.Genres | Genre_Tools.py:240-242 | the sentinel "Genres" is dropped whatever its case |
| ArtistGenreMappings.CustomArtistGenres | Artist_Genres.py:1549-1554 | a listed id gets its row, any other id the empty list |
| ArtistGenreMappings.EmptyDoesNotMeanAbsent | Artist_Genres.py:514-516 | an empty answer does not mean the id is missing: some rows are empty lists |
| ArtistGenreMappings.RawTagsStored | Artist_Genres.py:169-177 | rows hold raw tags as typed, such as "Chicano rock" |
| CustomGenreFile.LoadCustomGenres | model/Artist_Genres.py:17-30 | a parsed file gives its entries; a missing or corrupt file gives no entries |
| CustomGenreFile.CustomGenresOf | model/Artist_Genres.py:32-50 | the `genres` of a dictionary entry holding them, a bare list entry itself, and no genres for anything else |
| CustomGenreFile.NameOrDefault | model/Artist_Genres.py:72 | the given name unless it is missing or empty, else "Artist_" followed by the id |
| CustomGenreFile.AddCustomGenres | model/Artist_Genres.py:61-76 | the artist's entry becomes `{name, genres}` and every other entry stays |
| CustomGenreFile.AddThenGet | model/Artist_Genres.py:32-76 | reading back after an add gives the genres added; every other artist reads as before |
| CustomGenreFile.AddIdempotent | model/Artist_Genres.py:61-76 | adding the same genres twice is adding them once |
| Records.TrackIdSet | model/Playlist_Tools.py:124-126 | a track id is collected exactly when some non-null item carries it |
| UrlIds.AlnumRun | model/Playlist_Tools.py:31 | the greedy `[a-zA-Z0-9]+`: the longest alphanumeric prefix |
| UrlIds.FindMatch | model/Playlist_Tools.py:32 | the leftmost position where the marker followed by an alphanumeric character starts; none exactly when there is no such position |
| UrlIds.SearchGroup | model/Playlist_Tools.py:31-35 | no group exactly when the pattern matches nowhere |
| UrlIds.SearchGroupFound | model/Playlist_Tools.py:31-35 | a found group is a non-empty maximal alphanumeric run right after the leftmost marker that is followed by one |
| UrlIds.SearchGroupAtStart | model/Playlist_Tools.py:31-35 | a marker at the start followed by an id and a non-alphanumeric rest yields that id |
| UrlIds.FirstOccurrence | model/Artist_Genres.py:108 | the first index where the separator occurs, every earlier start having none |
| UrlIds.BeforeFirst | model/Artist_Genres.py:107-108 | the text before the first separator: a prefix free of it, the whole text exactly when there is none |
| UrlIds.ExtractPlaylistId | model/Playlist_Tools.py:18-36 | `ValueError` exactly when no "playlist/" is followed by an id, else the group |
| UrlIds.ExtractArtistId | model/Artist_Genres.py:94-118 | cut at the first "?si=", then `ValueError` exactly when no "/artist/" is followed by an id, else the group |
| UrlIds.PlaylistIdRoundTrip | model/Playlist_Tools.py:18-36 | a playlist path with a share suffix gives back its id |
| UrlIds.ArtistIdRoundTrip | model/Artist_Genres.py:94-118 | an artist path with a share suffix gives back its id, the suffix being cut first |
| RateLimiting.NextPause | model/Playlist_Tools.py:55-61 | a zero rate is a division error; otherwise the pause is non-negative, positive exactly when less than one interval has passed, and the recorded time is the clock after it |
| RateLimiting.PauseLowerBounds | model/Playlist_Tools.py:55-61 | a wait returns no earlier than the clock and no sooner than one interval after the previous request |
| RateLimiting.SuccessiveWaitsSpaced | model/Playlist_Tools.py:55-61 | two successive waits on a clock that does not run backwards return at least one interval apart |
| RateLimiting.RateLimiter.Wait | model/Playlist_Tools.py:55-61 | the limiter's last request time becomes the time the pause computes, and the rate stays |
| SpotifyClient.RetryRun | model/spotify_client.py:36-45 | each attempt from `attempt` on; a transient error with attempts left retries, any other error is re-raised, success returns the last call's value |
| SpotifyClient.NoAttemptsNoResult | model/spotify_client.py:36 | with no attempts allowed the loop body never runs and the function returns `None` |
| SpotifyClient.FirstSuccessReturned | model/spotify_client.py:37-38 | a first attempt that returns ends the run at once, after one call |
| SpotifyClient.AlwaysTransientRaisesLast | model/spotify_client.py:39-45 | when every attempt fails transiently there are exactly `max_retries` calls and the last error is re-raised |
| SpotifyClient.GetArtistWithRetry | model/spotify_client.py:22-45 | the loop's result is `RetryRun`'s, with one delay per retried attempt, each `base_delay * 2 ** attempt` |
| SpotifyClient.Survivors | model/spotify_client.py:67-73 | the item-by-item fallback never returns more items than ids |
| SpotifyClient.SurvivorsMember | model/spotify_client.py:67-73 | an item is returned exactly when it is the success of a request for some id of the batch |
| SpotifyClient.SurvivorsAllSucceed | model/spotify_client.py:67-73 | when every single request succeeds the fallback loses nothing and keeps the order |
| SpotifyClient.FetchEach | model/spotify_client.py:59-73 | one fetch per slice, in slice order |
| SpotifyClient.FetchedFromChunks | model/spotify_client.py:59-75 | the fetch is one request per slice of `batch_size` ids, the results concatenated in slice order |
| SpotifyClient.FetchedMember | model/spotify_client.py:59-75 | an item is returned exactly when its slice's batch response holds it, or its slice's batch failed and its own request returned it |
| SpotifyClient.FallbackLosesNothing | model/spotify_client.py:64-73 | when every batch fails and every single request succeeds, every id is fetched, in order |
| SpotifyClient.FetchOneByOne | model/spotify_client.py:67-73 | the fallback loop returns `Survivors` |
| SpotifyClient.FetchOneSlice | model/spotify_client.py:60-73 | one slice: the batch response, or the fallback when the batch raises |
| SpotifyClient.FetchInBatches | model/spotify_client.py:47-105 | `get_artists_batch` and `get_tracks_batch` return the concatenated slice results |
| Paging.AttemptOutcome | model/Playlist_Tools.py:75-88 | an attempt returns exactly when its page reads all succeed, and fails with the error that stopped it otherwise |
| Paging.PlaylistTracks | model/Playlist_Tools.py:67-95 | the retry policy never ends without an outcome; a raised error is one some attempt met |
| Paging.FirstAttemptCompletes | model/Playlist_Tools.py:75-88 | a first attempt that completes returns the playlist's items page after page |
| Paging.PartialPagesKept | model/Playlist_Tools.py:69-89 | items read by an attempt that timed out stay in the list, ahead of the whole playlist read by the next attempt |
| Paging.FiveTimeoutsRaise | model/Playlist_Tools.py:70-95 | a playlist that keeps timing out is read five times and the last error is raised |
| Paging.ExtendByPages | model/Playlist_Tools.py:81-86 | extending page by page appends every page's items in order |
| Paging.GetPlaylistTracks | model/Playlist_Tools.py:67-95 | the attempts return `PlaylistTracks`, with exponential delays between them |
| Paging.NameIndexLastWins | model/Playlist_Tools.py:106-108 | every listed name is a key, mapped to the id of the last playlist listed under it |
| Paging.GetExistingPlaylists | model/Playlist_Tools.py:97-114 | reading page after page until the one without `next` yields the name index of all pages |
| Paging.GetPlaylistTrackIds | model/Playlist_Tools.py:116-134 | the ids of the non-null items of every page |
| TrackBuckets.FileItem | model/Playlist_Tools.py:276-282 | one list entry: a null track is skipped, otherwise its id is added under each of its genres |
| TrackBuckets.FileBatch | model/Playlist_Tools.py:273-282 | one slice's tracks are filed in order |
| TrackBuckets.ProcessTracksBatchOptimized | model/Playlist_Tools.py:267-284 | a zero batch size raises as `range` does, a negative one files nothing, a positive one files every track under its genres whatever the size |
| TrackBuckets.AllRawGenres | Playlist_Tools.py:240 | every recorded track's raw genres are among all raw genres |
| TrackBuckets.Tabulate | Playlist_Tools.py:241 | the comprehension has exactly the raw genres as keys |
| TrackBuckets.NormalizationMap | Playlist_Tools.py:241 | the normalization map has exactly the raw genres as keys |
| TrackBuckets.CollectRawGenres | Playlist_Tools.py:232-237 | step 1 records each non-null track's raw genres under its id |
| TrackBuckets.CollectAllRaw | Playlist_Tools.py:240 | the union of the recorded genre collections |
| TrackBuckets.BuildNormalizationMap | Playlist_Tools.py:241 | each distinct raw genre is normalized once |
| TrackBuckets.FileNormalized | Playlist_Tools.py:245-252 | one track is filed under every label of every raw genre recorded for its id |
| TrackBuckets.ProcessTracksNormalized | Playlist_Tools.py:225-254 | the three passes return `NormalizedBuckets` |
| TrackBuckets.RawGenresByIdHas | Playlist_Tools.py:233-237 | step 1 records every listed track id, with the genres of the last track carrying it |
| TrackBuckets.MappedLabelsOf | Playlist_Tools.py:249-251 | the labels of a collection of raw genres are the labels of its members |
| TrackBuckets.NormalizedMember | Playlist_Tools.py:225-254 | when tracks with one id have one genre list, an id is in the bucket of a label exactly when some non-null track with that id has a raw genre normalizing to it |
| TrackBuckets.RawGenresByIdKeys | Playlist_Tools.py:233-237 | step 1 records exactly the ids of the non-null tracks |
| Bucketing.AddToAll | model/Playlist_Tools.py:281-282 | the keys become the old keys plus the genres added under |
| Bucketing.AddToNone | model/Playlist_Tools.py:281-282 | adding under no genre changes nothing |
| Bucketing.AddToOne | model/Playlist_Tools.py:282 | adding under one genre is one dictionary update |
| Bucketing.AddToAllTwice | model/Playlist_Tools.py:281-282 | adding under one set of genres and then another is adding under their union, so genre order does not matter |
| Bucketing.AddTrackToBuckets | model/Playlist_Tools.py:281-282 | the loop over a set of genres adds the id under each |
| Bucketing.AddTrackToEach | Playlist_Tools.py:251-252 | the loop over a list of genres adds the id under each of its elements |
| Bucketing.BucketedMember | model/Playlist_Tools.py:275-282 | an id is in a genre's bucket exactly when some non-null track with that id has the genre; null tracks are skipped |
| Bucketing.BucketedKeys | model/Playlist_Tools.py:269-282 | a genre has a bucket exactly when some non-null track has it, and no bucket is empty |
| Bucketing.BucketedCongruent | model/Playlist_Tools.py:275-282 | two genre assignments that agree on the listed tracks give the same buckets |
| PlaylistNames.MatchIds | model/Playlist_Tools.py:303-311 | the loop over the playlists with the inner `break` collects `MatchingIds` |
| PlaylistNames.FindMatchingPlaylists | model/Playlist_Tools.py:298-313 | the ids of the playlists named like a label of the normalized genre |
| PlaylistNames.MatchingIdsMeaning | model/Playlist_Tools.py:303-311 | an id is found exactly when some playlist with that id is named like a label of the genre, ignoring case; no labels match nothing |
| PlaylistNames.SentinelMatchesNothing | model/Playlist_Tools.py:301 | a sentinel tag finds no playlist |
| PlaylistNames.FirstContained | model/Playlist_Tools.py:328-330 | the first pattern from an index on contained in the name, every earlier one absent; none exactly when none is contained |
| PlaylistNames.GetPlaylistGenre | model/Playlist_Tools.py:315-333 | the pattern loop with its early return answers `PlaylistGenre` |
| PlaylistNames.PlaylistGenreMeaning | model/Playlist_Tools.py:315-333 | a keyword the lower-cased name contains, none earlier being contained; otherwise the lower-cased name itself |
| PlaylistNames.PopRockIsRock | model/Playlist_Tools.py:321-330 | "Pop Rock" is judged "rock", since "rock" precedes "pop" in the list |
| PlaylistNames.RapAndHipHopIsHipHop | model/Playlist_Tools.py:321-330 | "Rap And Hip Hop" is judged "hip hop", which precedes "rap" |
| PlaylistNames.GenrePlaylists | model/Playlist_Tools.py:335-355 | only existing playlists are identified |
| PlaylistNames.HasGenreKeyword | model/Playlist_Tools.py:350-353 | the keyword loop of one playlist finds a keyword exactly when the name contains one |
| PlaylistNames.IdentifyGenrePlaylists | model/Playlist_Tools.py:335-355 | the loop returns `GenrePlaylists` |
| PlaylistNames.IdentifiedIffKeyword | model/Playlist_Tools.py:315-355 | a playlist is identified exactly when `get_playlist_genre` finds a keyword in its name, keeping its id; the others are judged by their full lower-cased name |
| PlaylistWrites.PartitionMember | Playlist_Creator.py:32-41 | a qualifying genre goes to the updates, with the id its name has, exactly when its title-cased name exists, and to the creations otherwise; a genre of fewer than 100 tracks goes to neither |
| PlaylistWrites.HundredQualifies | Playlist_Creator.py:33 | a genre of exactly 100 tracks is created or updated |
| PlaylistWrites.Partition | Playlist_Creator.py:29-41 | the loop fills the two lists as `CreatesFrom` and `UpdatesFrom` say |
| PlaylistWrites.SendChunks | Playlist_Creator.py:60-63 | the slice loop makes the adds and waits of `AddChunks`, stopping at the first add that raises |
| PlaylistWrites.AddedToAppend | Playlist_Creator.py:60-63 | the tracks added by two runs of calls are the union of those each adds |
| PlaylistWrites.AddChunksShape | Playlist_Creator.py:60-63 | every add goes to the playlist, is non-empty, holds at most 50 tracks, all from the list, and is followed by a wait |
| PlaylistWrites.AddChunksAdded | Playlist_Creator.py:60-63 | when no add raises, the slices together hold every track of the list |
| PlaylistWrites.AddChunksOk | Playlist_Creator.py:60-63 | when no call raises, every slice is sent |
| PlaylistWrites.CreatePlaylistWithTracks | Playlist_Creator.py:49-71 | one creation: create, fill in slices, wait; an exception is followed by a 5 second pause, as `CreateOne` |
| PlaylistWrites.UpdatePlaylist | Playlist_Creator.py:78-104 | one update: read the playlist's tracks, add the missing ones in slices; an exception is followed by a 5 second pause, as `UpdateOne` |
| PlaylistWrites.UpdateOneShape | Playlist_Creator.py:82-95 | an update creates nothing, and adds to its own playlist only tracks the genre has and the playlist lacks, in slices of at most 50 |
| PlaylistWrites.UpdateOneAdds | Playlist_Creator.py:82-95 | when nothing raises, an update adds exactly the tracks the genre has and the playlist lacks |
| PlaylistWrites.UpdateOneNothingNew | Playlist_Creator.py:87-99 | an update of a playlist that already has every track writes nothing |
| PlaylistWrites.CreateOneAdds | Playlist_Creator.py:50-63 | a new playlist is created under its name and receives only its genre's tracks under the id given to it, and all of them when nothing raises |
| PlaylistWrites.CreateEach | Playlist_Creator.py:48-71 | the creation loop makes the calls of `CreateAll` |
| PlaylistWrites.UpdateEach | Playlist_Creator.py:77-104 | the update loop makes the calls of `UpdateAll` |
| PlaylistWrites.CreateGenrePlaylistsOptimized | Playlist_Creator.py:17-104 | the whole pass makes the calls of `Pass` |
| PlaylistWrites.CreateAllWrites | Playlist_Creator.py:48-71 | the creations write only the listed playlists, each with its own tracks |
| PlaylistWrites.UpdateAllWrites | Playlist_Creator.py:77-104 | the updates create nothing and write only the listed playlists, each with tracks it lacks |
| PlaylistWrites.PassWrites | Playlist_Creator.py:17-104 | a playlist is created only under a qualifying genre's title that is not an existing name; tracks go, in slices of at most 50, only to a playlist of their own genre |
| PlaylistWrites.PassCallsFrom | Playlist_Creator.py:44-104 | a pass makes its user lookup, then the creations, then the updates |
| PlaylistWrites.GenreAttempted | Playlist_Creator.py:68-104 | an error on one playlist does not stop the pass: unless the user lookup raised, every qualifying genre's playlist is attempted |
| PlaylistWrites.UserFailureStopsAll | Playlist_Creator.py:44-46 | the user lookup is outside the `try`: when it raises, no playlist is touched, not even those that only needed an update |
| PlaylistWrites.NamesAfter | Playlist_Tools.py:56-73 | what the account lists after a run: the old names and each new one |
| PlaylistWrites.NothingToCreate | Playlist_Creator.py:38-41 | when every qualifying genre's name exists, nothing is created |
| PlaylistWrites.GenreServed | Playlist_Creator.py:17-104 | after a run where nothing raised, each qualifying genre has a playlist holding all its tracks |
| PlaylistWrites.RerunWritesNothing | Playlist_Creator.py:17-104 | running the pass again, against the account the first error-free run left, creates and adds nothing |
| ControllerPlaylists.CutMeaning | controller/Playlist_Creator.py:51-81 | a cancelled pass is the prefix of the uncancelled one holding exactly `j` flag-preceded calls (all of them when fewer), and the call after it, if any, is the one the flag stopped |
| ControllerPlaylists.CutLater | controller/Playlist_Creator.py:47-102 | when the flag is not seen within the first calls, reads go on counting into the rest |
| ControllerPlaylists.CutEarly | controller/Playlist_Creator.py:51-92 | once the flag is seen, nothing later is done |
| ControllerPlaylists.SendChunksPolled | controller/Playlist_Creator.py:63-69 | the slice loop with a flag read before each slice makes the cut calls of `AddChunks` and reports whether it stopped |
| ControllerPlaylists.CreateOnePolled | controller/Playlist_Creator.py:50-75 | one creation with its flag reads makes the cut calls of `CreateOne` |
| ControllerPlaylists.UpdateOnePolled | controller/Playlist_Creator.py:78-102 | one update with its flag reads makes the cut calls of `UpdateOne` |
| ControllerPlaylists.CreateEachPolled | controller/Playlist_Creator.py:50-75 | the creation loop, returning once the flag is seen set, makes the cut calls of `CreateAll` |
| ControllerPlaylists.UpdateEachPolled | controller/Playlist_Creator.py:78-102 | the update loop, returning once the flag is seen set, makes the cut calls of `UpdateAll` |
| ControllerPlaylists.WriteAllPolled | controller/Playlist_Creator.py:47-102 | the creations then, unless cancelled in them, the updates: the cut of both together |
| ControllerPlaylists.CreateGenrePlaylistsControlled | controller/Playlist_Creator.py:20-102 | with the keyword accepted: a cancellation while the tracks are processed ends before any write; otherwise the cut pass |
| ControllerPlaylists.KeywordError | controller/Playlist_Creator.py:30 | a call raises `TypeError` exactly when some keyword passed is not accepted |
| ControllerPlaylists.ControllerAsWritten | controller/Playlist_Creator.py:29-34 | as written the controller always raises `TypeError`: `progress_callback` is not a parameter of `create_genre_playlists`, and only `RuntimeError` is caught |
| ControllerPlaylists.AsWrittenCreatesNothing | controller/Playlist_Creator.py:29-50 | with a genre to create and a working user lookup, the intended pass creates a playlist where the code as written raises |
| ControllerPlaylists.CancelledRun | controller/Playlist_Creator.py:47-102 | a cancelled pass makes exactly the first `j` flag-preceded calls of the uncancelled one and stops before the next; the outcome is the same |
| ControllerPlaylists.NeverCancelled | controller/Playlist_Creator.py:47-102 | a flag never seen set leaves the pass whole |
| ControllerPlaylists.CancelledAtOnce | controller/Playlist_Creator.py:51-81 | a flag set before the first read lets no playlist be read, created or written |
| GenrePlaylistBuild.BatchGenresShape | Playlist_Tools.py:177-193 | the genres written from a batch response are the catalog genres, then the custom genres, then no regional tag or exactly one, with Brazil taking precedence over Japan |
| GenrePlaylistBuild.RootBatchRecord | Playlist_Tools.py:175-199 | Playlist_Tools.py writes a batch record with no name, the country looked up and those genres, the custom genres coming from the mapping table |
| GenrePlaylistBuild.ModelBatchRecord | model/Playlist_Tools.py:216-241 | model/Playlist_Tools.py writes the name, the country looked up and those genres, the custom genres coming from the custom-genres file |
| GenrePlaylistBuild.FallbackRecord | Playlist_Tools.py:203-211 | after a failed slice, the record left under an id is what `get_artist_genres` leaves, given the artist the single request returned |
| GenrePlaylistBuild.FillCache | Playlist_Tools.py:158-211 | the fetch loop over the uncached artist ids, in slices of 50, leaves the cache that the filled-cache function defines |
| GenrePlaylistBuild.CreateGenrePlaylistsRoot | Playlist_Tools.py:144-222 | Playlist_Tools.py: the filled cache, then tracks filed under the normalized forms of their genres |
| GenrePlaylistBuild.CreateGenrePlaylistsModel | model/Playlist_Tools.py:185-284 | model/Playlist_Tools.py: the filled cache, then tracks filed, in batches of 100, under their raw genres |
| GenrePlaylistBuild.FillKeepsCached | Playlist_Tools.py:166-167 | when the catalog answers only for the ids asked, a record cached before the fetch is never rewritten |
| GenrePlaylistBuild.FillWritesOnlyArtists | Playlist_Tools.py:158-171 | every id the fetch writes was uncached and belongs to an artist of some non-null track |
| GenrePlaylistBuild.RootBatchWriteStays | Playlist_Tools.py:175-199 | a batch record that no later write touches is what the cache finally holds under the id |
| GenrePlaylistBuild.ModelBatchWriteStays | model/Playlist_Tools.py:216-241 | the same for model/Playlist_Tools.py, with the name and the file's custom genres |
| GenrePlaylistBuild.FallbackWriteIsLookup | Playlist_Tools.py:206-211 | a fallback write for an id not yet cached is the record `get_artist_genres` builds, whose genres are hyphen-distinct |
| ArtistChecker.UpdateTracksForArtist | Artist_Checker.py:30-41 | the record becomes the looked-up name, the given genres and the country it had (`None` without one); every other record is kept |
| ArtistChecker.UpdateTracksIdempotent | Artist_Checker.py:30-41 | writing the same genres again changes nothing once the record has a name |
| ArtistChecker.Queried | Artist_Checker.py:50-64 | the name lookup and, for an artist uncached or with no genres, the re-query, whose record keeps the old country; it fails exactly when the re-query is needed and raises; other records are kept |
| ArtistChecker.ManualGenresAsWritten | Artist_Checker.py:78 | the comma-split, stripped answer is never an empty list, so the guard after it is always true |
| ArtistChecker.BlankAnswerStoresEmptyGenre | Artist_Checker.py:75-80 | as written, answering `y` and then a blank line stores the genre list `[""]` |
| ArtistChecker.PrintArtistGenres | Artist_Checker.py:44-83 | the call fails exactly when the re-query raises; otherwise the artist is cached; no other record changes |
| ArtistChecker.CachedArtistUnchanged | Artist_Checker.py:54-71 | an artist cached with genres is shown from the cache and nothing is written |
| ArtistChecker.CheckKeepsCountry | Artist_Checker.py:39-62 | the record's country survives the call |
| ArtistChecker.CheckGenres | Artist_Checker.py:68-81 | after a call that did not fail, the artist has genres unless the answer was not `y` or held no genre; typed genres are never empty |
| ArtistChecker.BlankAnswerWritesNothing | Artist_Checker.py:77-81 | with empty pieces dropped, a blank typed answer writes nothing |
| ArtistFixes.FixedIds | Artist_Fixes.py:36-39 | the artists the fix applies to: cached, with an empty genre list and a non-empty mapping |
| ArtistFixes.FixAll | Artist_Fixes.py:36-43 | the fixed cache has the same ids, each record being its fixed form |
| ArtistFixes.FixMeaning | Artist_Fixes.py:36-43 | only artists with no genres and a mapping change, and only their genres, which become the mapping |
| ArtistFixes.FixChanges | Artist_Fixes.py:36-47 | the fix changes the cache exactly when it applies to someone |
| ArtistFixes.FixTwice | Artist_Fixes.py:36-43 | running the fix again changes nothing |
| ArtistFixes.FixLeavesEmpty | Artist_Fixes.py:29-43 | the artists left without genres are those that were, less the fixed ones, and their count drops by the fixed count |
| ArtistFixes.FixOne | Artist_Fixes.py:37-43 | one pass of the loop body fixes the artist exactly when the fix applies to it |
| ArtistFixes.FixEach | Artist_Fixes.py:33-43 | the loop over the cache leaves the fixed cache, lists the fixed ids in visiting order and counts them |
| ArtistFixes.UpdatedArtistsMeaning | Artist_Fixes.py:34-42 | the fixed ids are listed once each and are exactly the artists the fix applies to |
| ArtistFixes.FixArtistCache | Artist_Fixes.py:10-62 | nothing without a cache file; otherwise the fixed count, and the file is rewritten with the fixed cache exactly when the count is not zero |
| ArtistFixes.WrittenWhenChanged | Artist_Fixes.py:47-51 | a rewrite happens exactly when the fix changed the cache |
| ArtistFixes.ShowCacheStats | Artist_Fixes.py:64-83 | nothing without a cache file; the percentage raises exactly on an empty cache; otherwise the total, the with-genres count and the without-genres count, which add up |
| ArtistFixes.StatsAfterFix | Artist_Fixes.py:85-98 | the fix moves exactly the fixed artists from the without-genres count to the with-genres count |
| BrazilianSongs.IsBrazilianMeaning | Add_Brazilian_Songs.py:16-26 | an artist is Brazilian exactly when one of its genres normalizes to a Brazilian label, or its country names Brazil |
| BrazilianSongs.BrazilianArtists | Add_Brazilian_Songs.py:9-28 | the ids returned are exactly the cached artists that are Brazilian |
| BrazilianSongs.HasBrazilianLabel | Add_Brazilian_Songs.py:18-19 | one genre's test: a Brazilian label among its normalized forms |
| BrazilianSongs.HasBrazilianGenre | Add_Brazilian_Songs.py:17-21 | the inner loop, stopping at the first Brazilian label, finds one exactly when some genre has one |
| BrazilianSongs.GetBrazilianArtists | Add_Brazilian_Songs.py:9-28 | the loop over the cache collects exactly the Brazilian artists |
| BrazilianSongs.LoneRegionalTagMissed | Add_Brazilian_Songs.py:17-26 | an artist tagged only "Brazilian Music" and with no country is not found, since normalization drops that tag |
| BrazilianSongs.LoneUnlabelledTag | Add_Brazilian_Songs.py:17-26 | one genre with no normalized form and no country: not Brazilian |
| BrazilianSongs.MatchingTracksMeaning | Add_Brazilian_Songs.py:37-42 | a track is selected exactly when it is not null and some credited artist is in the set |
| BrazilianSongs.MatchingTracksAreTracks | Add_Brazilian_Songs.py:38-42 | only the ids of non-null tracks are collected |
| BrazilianSongs.GetTracksByArtists | Add_Brazilian_Songs.py:30-44 | the loop over the items collects exactly the matching tracks |
| BrazilianSongs.TriedIsAddedTo | Add_Brazilian_Songs.py:67-83 | the tracks tried, slice by slice, are the tracks the calls add to the playlist |
| BrazilianSongs.SinglesAdded | Add_Brazilian_Songs.py:76-83 | the retry counts exactly the tracks whose single add returned normally |
| BrazilianSongs.SinglesTried | Add_Brazilian_Songs.py:76-83 | the retry tries every track of the slice once, alone, at the playlist |
| BrazilianSongs.HeadTried | Add_Brazilian_Songs.py:68-83 | the first slice is tried whole or track by track, at the playlist, in adds of at most 50 |
| BrazilianSongs.HeadAdded | Add_Brazilian_Songs.py:68-83 | the first slice counts only its own tracks |
| BrazilianSongs.BatchesTried | Add_Brazilian_Songs.py:67-83 | every remaining track is tried, and every add goes to the playlist with at most 50 tracks |
| BrazilianSongs.BatchesAdded | Add_Brazilian_Songs.py:65-83 | the tracks counted are among the remaining ones, so there are at most as many |
| BrazilianSongs.BatchesNeverFail | Add_Brazilian_Songs.py:67-72 | with no add raising, every remaining track is counted, in order |
| BrazilianSongs.BatchesAlwaysFail | Add_Brazilian_Songs.py:69-83 | with every add raising, nothing is counted |
| BrazilianSongs.SinglesAlwaysFail | Add_Brazilian_Songs.py:76-83 | with every single add raising, the retry counts nothing |
| BrazilianSongs.AddTracksMeaning | Add_Brazilian_Songs.py:46-85 | with tracks to add, the function raises exactly when its unguarded playlist read raises; otherwise only tracks not yet in the playlist are sent, each is tried, and the count is at most their number; no tracks: no call; no new tracks: the read and no add |
| BrazilianSongs.AddTracksNeverFail | Add_Brazilian_Songs.py:46-85 | when no add raises, every new track is counted once |
| BrazilianSongs.AddSingles | Add_Brazilian_Songs.py:76-83 | the retry loop makes the calls and the count the retry function defines |
| BrazilianSongs.AddBatch | Add_Brazilian_Songs.py:68-83 | one pass of the slice loop: the slice whole and, when that raises, track by track |
| BrazilianSongs.AddTracksToPlaylist | Add_Brazilian_Songs.py:46-85 | the loop returns the count and makes the calls the add function defines, or the error of the playlist read, after that read alone |
| BrazilianSongs.FirstNamedMeaning | Add_Brazilian_Songs.py:117-121 | nothing is found exactly when no name lower-cases to "brazilian music"; a hit is the id of the first that does |
| BrazilianSongs.BrazilianPlaylist | Add_Brazilian_Songs.py:117-129 | a playlist used has a non-empty id |
| BrazilianSongs.FindBrazilianPlaylist | Add_Brazilian_Songs.py:117-123 | the search loop, with its `break`, finds the playlist the function defines |
| BrazilianSongs.BrazilianPlaylistMeaning | Add_Brazilian_Songs.py:117-129 | a playlist is used exactly when the first matching name has a non-empty id, and it is that id; later matches are not looked at |
| BrazilianSongs.AddBrazilianSongs | Add_Brazilian_Songs.py:87-143 | `main` makes the calls and reports the outcome the run function defines, including an exception out of one of its unguarded reads |
| BrazilianSongs.RunFromStops | Add_Brazilian_Songs.py:87-143 | `main` stops with no artists, no tracks or no playlist exactly when each is missing, before any call; it raises with no call made exactly when the source playlist or the account's playlists cannot be read, and raises after calls only at a read of the target playlist |
| BrazilianSongs.RunFromAdds | Add_Brazilian_Songs.py:131-143 | when `main` adds, every read succeeded, every add goes to the playlist found and tries exactly the matching tracks it does not hold yet, counting at most that many |
| BrazilianSongs.AddTracksThenRead | Add_Brazilian_Songs.py:142 | when the adds do not raise, the final read adds nothing |
| BrazilianSongs.BrazilianRunMeaning | Add_Brazilian_Songs.py:87-143 | the run stops with no artists exactly when no cached artist is Brazilian; when it adds, what it adds is the matching tracks less those the playlist held; when no read and no call raises, it does not raise |
| CacheRefresh.BatchSteps | controller/Artist_Cacher.py:95-96 | at most one write per artist of the batch response |
| CacheRefresh.BatchStepsMember | controller/Artist_Cacher.py:95-97 | a batch write is exactly one per non-null artist of the response, under that artist's own id |
| CacheRefresh.StepsMember | controller/Artist_Cacher.py:90-182 | a write happens exactly when some slice of 50 ids produces it, from its batch response or, when that raised, from a single request that answered |
| CacheRefresh.ApplyKeys | controller/Artist_Cacher.py:121-173 | the keys afterwards are the old keys and the keys written |
| CacheRefresh.ApplyOutside | controller/Artist_Cacher.py:121-173 | a key no write touches keeps its record, or stays absent |
| CacheRefresh.ApplyLast | controller/Artist_Cacher.py:121-173 | a written key holds the record of its last write, built from the cache as it stood just before that write |
| CacheRefresh.ApplyWritten | controller/Artist_Cacher.py:121-173 | when every record that can be built has a property, every written key's record has it |
| CacheRefresh.ApplyInvariant | controller/Artist_Cacher.py:90-182 | a property of caches that every write keeps holds after all the writes |
| CacheRefresh.StepKeysWithin | controller/Artist_Cacher.py:91-149 | with a catalog that answers only for the ids asked, every key written is one of the ids walked |
| CacheRefresh.EveryIdWritten | controller/Artist_Cacher.py:146-178 | when every batch request raises and every single request answers, every id walked is written |
| CacheRefresh.WriteStep | controller/Artist_Cacher.py:121-126 | one more write: the cache, the count and the written keys all advance by that write |
| CacheRefresh.WriteBatch | controller/Artist_Cacher.py:95-126 | the loop over a batch response makes exactly its batch writes, counted |
| CacheRefresh.WriteFallback | controller/Artist_Cacher.py:149-182 | the loop over a failed slice makes one write per single request that answered, skipping the ones that raised |
| CacheRefresh.WriteSlice | controller/Artist_Cacher.py:91-182 | one slice: its batch writes or, when the batch request raises, its single-request writes |
| CacheRefresh.RefreshCache | controller/Artist_Cacher.py:85-182 | the slice loop leaves the cache after every write, and counts the writes (`cache_misses`) |
| CacheStats.WithGenres | Artist_Fixes.py:76-77 | the artists counted as having genres are exactly those whose cached list is not empty |
| CacheStats.WithoutGenres | Artist_Fixes.py:29-76 | the artists counted as having none are exactly those whose cached list is empty |
| CacheStats.StatsPartition | Artist_Fixes.py:75-77 | every cached artist is counted exactly once, with genres or without, and the two counts add up to the total |
| CacheWriters.CacherRecord | controller/Artist_Cacher.py:97-125 | the record written is named after the artist, carries the Wikidata country, and its genres have distinct hyphen keys |
| CacheWriters.FallbackOverwrites | controller/Artist_Cacher.py:149-177 | in a failed slice `get_artist_genres` writes first; the record written right after under the same id replaces it, so the pair is one write |
| CacheWriters.CacherRecordMember | controller/Artist_Cacher.py:99-119 | every label stored comes from normalizing a catalog or encyclopedia genre, or is the regional tag |
| CacheWriters.ArtistsOfMember | controller/Artist_Cacher.py:56-59 | an artist is collected exactly when some non-null track credits it |
| CacheWriters.Uncached | controller/Artist_Cacher.py:78 | the ids kept are exactly the listed ids not in the cache, without repeats when the list has none |
| CacheWriters.AddTrackArtists | controller/Artist_Cacher.py:58-59 | the loop adds exactly the track's artists to the set |
| CacheWriters.AddArtists | controller/Artist_Cacher.py:56-59 | the loop over one slice of tracks adds exactly their artists, null tracks skipped |
| CacheWriters.CollectArtistIds | controller/Artist_Cacher.py:45-72 | the track loop collects the artists of every track fetched, by slice or one by one |
| CacheWriters.CacheArtistGenres | controller/Artist_Cacher.py:19-195 | the pass leaves the cache, the counts and the statistics error the pass function defines |
| CacheWriters.CachedCount | controller/Artist_Cacher.py:78-79 | the ids fetched are exactly the artists not cached, and `cached_count` is the number of the others |
| CacheWriters.UncachedWalkKeeps | controller/Artist_Cacher.py:87-182 | with a catalog that answers only for the ids asked, walking uncached ids rewrites no cached record |
| CacheWriters.CacherKeepsCached | controller/Artist_Cacher.py:87-182 | the walk keeps every cached record, and every new key is one of the ids, named, with distinct hyphen keys |
| CacheWriters.CacherNewKey | controller/Artist_Cacher.py:121-177 | a key the walk adds is one of the ids, with a named record whose genres have distinct hyphen keys |
| CacheWriters.NewKeyWritten | controller/Artist_Cacher.py:90-182 | a key a walk adds is one of the ids walked, holding a record of the kind every write makes |
| CacheWriters.CacherEmptyPlaylist | controller/Artist_Cacher.py:74-195 | a playlist without tracks leaves the cache as it was, and the average-time statistic raises `ZeroDivisionError` |
| CacheWriters.CountryFor | controller/Update_Cache.py:47-49 | a truthy cached country is kept, otherwise the Wikidata country is asked |
| CacheWriters.RefreshedRecord | controller/Update_Cache.py:31-62 | the refreshed record is named, carries the chosen country, and its genres have distinct hyphen keys |
| CacheWriters.UpdateAllArtists | controller/Update_Cache.py:17-105 | `main` walks every cached id in slices of 50 and counts the writes |
| CacheWriters.RefreshKeepsKeys | controller/Update_Cache.py:20-103 | with a catalog that answers only for the ids asked, the refresh adds no key and removes none |
| CacheWriters.RefreshKeepsCountry | controller/Update_Cache.py:47-86 | a truthy country already cached survives the refresh |
| CacheWriters.RefreshedRecordsDistinct | controller/Update_Cache.py:57-98 | every refreshed record is named and its genres have distinct hyphen keys |
| CacheWriters.RefreshedKeepsCustom | controller/Update_Cache.py:38-45 | the custom genres are added only when absent, and every normalized form of each keeps its hyphen key in the record |
| CacheWriters.CodeRecord | Update_Cache.py:24-41 | the country-code record has no name and stores the catalog's country code |
| CacheWriters.CodeRecordMember | Update_Cache.py:28-36 | a stored genre is exactly a catalog, encyclopedia or custom genre, or the code tag |
| CacheWriters.UpdateCountryCodes | Update_Cache.py:10-70 | the script walks every cached id in slices of 50 and counts the writes |
| CacheWriters.CodeRecordsRaw | Update_Cache.py:38-63 | a rewritten record loses its name; its genres are the raw genres, the custom genres lacked and the code tag, nothing normalized |
| CacheWriters.CodeTagKeptBesideBrazilianMusic | Update_Cache.py:33-34 | the tag for "BR" is appended even when "Brazilian Music" is already there |
| PlaylistCleanup.CachedGenresMember | Cleanup_Playlists.py:59-63 | a genre is collected exactly when some credited, cached artist has it; uncached artists add nothing |
| PlaylistCleanup.CollectCachedGenres | Cleanup_Playlists.py:59-63 | the artist loop collects the cached genres the function defines |
| PlaylistCleanup.NonNull | Cleanup_Playlists.py:52-54 | no more non-null tracks than items |
| PlaylistCleanup.PartitionCounts | Cleanup_Playlists.py:52-69 | every non-null track goes to exactly one of the two lists; null tracks go to neither |
| PlaylistCleanup.PartitionMember | Cleanup_Playlists.py:56-69 | a kept id is that of a non-null track that passes the test, a removed one that of a track that fails it |
| PlaylistCleanup.SortResponse | Cleanup_Playlists.py:52-70 | one response appends its passing tracks to the kept list and the others to the removal list |
| PlaylistCleanup.SortAll | Cleanup_Playlists.py:43-76 | the fetch loop, skipping a slice whose request raises, sorts every fetched track |
| PlaylistCleanup.Removals | Cleanup_Playlists.py:84-91 | the count is the size of what was removed |
| PlaylistCleanup.RemovalsWithin | Cleanup_Playlists.py:84-91 | only listed ids are removed, each slice at most once, so no more than were listed |
| PlaylistCleanup.RemovalsAll | Cleanup_Playlists.py:84-89 | when no removal raises, every listed id is removed, in order |
| PlaylistCleanup.RemoveInBatches | Cleanup_Playlists.py:79-91 | the removal loop's count is the removals' count |
| PlaylistCleanup.CleanupPlaylist | Cleanup_Playlists.py:15-99 | the kept, removed and total counts the cleanup function defines |
| PlaylistCleanup.CleanupCounts | Cleanup_Playlists.py:93-99 | no more is removed than was found wrong and, with one answer per id and each id listed once, kept plus removed is at most the playlist's size |
| PlaylistCleanup.RemovedOnlyMismatches | Cleanup_Playlists.py:66-87 | every removed id belongs to a fetched track whose cached genres the playlist genre does not match |
| PlaylistCleanup.AllMismatchesRemoved | Cleanup_Playlists.py:66-89 | when no removal raises, every track found wrong is removed |
| PlaylistCleanup.TotalsAppend | Cleanup_Playlists.py:140-148 | the totals of two runs of playlists add up; a playlist that raises changes nothing beside it |
| PlaylistCleanup.TotalsOfUnreadable | Cleanup_Playlists.py:141-148 | a playlist whose tracks cannot be read contributes nothing |
| PlaylistCleanup.CleanupAllGenrePlaylists | Cleanup_Playlists.py:101-158 | the run makes the outcome the cleanup-all function defines |
| PlaylistCleanup.CleanupEach | Cleanup_Playlists.py:140-148 | the playlist loop sums the counts of every playlist, skipping the ones that raise |
| PlaylistCleanup.CleanupNeedsYes | Cleanup_Playlists.py:117-133 | nothing is cleaned unless there are genre playlists and the answer, trimmed and lower-cased, is exactly "y" |
| PlaylistCleanup.Sample | Cleanup_Playlists.py:197 | at most the first 20 ids, exactly 20 when there are that many |
| PlaylistCleanup.Incorrect | Cleanup_Playlists.py:199-217 | no more tracks found wrong than sampled |
| PlaylistCleanup.IncorrectCounts | Cleanup_Playlists.py:199-217 | only fetched tracks that fail the test are counted, and each of them is |
| PlaylistCleanup.CountIncorrect | Cleanup_Playlists.py:199-217 | the sample loop counts the wrong tracks the function defines |
| PlaylistCleanup.PreviewOf | Cleanup_Playlists.py:185-225 | a playlist adds at most 20; reading its tracks is not guarded, so a failure there raises |
| PlaylistCleanup.PreviewBound | Cleanup_Playlists.py:183-225 | each playlist adds at most 20 to the total |
| PlaylistCleanup.PreviewAbortStays | Cleanup_Playlists.py:185-192 | once the preview has raised, it stays failed |
| PlaylistCleanup.PreviewPlaylist | Cleanup_Playlists.py:186-225 | one playlist's preview, as the function defines |
| PlaylistCleanup.PreviewEach | Cleanup_Playlists.py:183-225 | the preview loop's total, as the function defines |
| PlaylistCleanup.PreviewCleanup | Cleanup_Playlists.py:160-230 | the genre playlists previewed in the order listed; nothing is written |
| CustomGenreManager.StorageGenresMeaning | Add_Custom_Genres.py:16-51 | the stored genres are distinct, each is its own storage form, and they are exactly the storage forms of the typed genres |
| CustomGenreManager.FlatMapOfKeys | Add_Custom_Genres.py:49 | genres already in storage form map to themselves |
| CustomGenreManager.StorageGenresIdempotent | Add_Custom_Genres.py:49-51 | storing the stored genres again changes nothing |
| CustomGenreManager.AddArtistCustomGenres | Add_Custom_Genres.py:43-60 | the file gains or replaces exactly the artist's entry, with its name and exactly the storage forms of the typed genres |
| CustomGenreManager.AddStoredAgain | Add_Custom_Genres.py:43-60 | adding an artist's stored genres again leaves the file as it is |
| CustomGenreManager.LabelGenresMeaning | controller/Add_Custom_Genres.py:58-66 | the stored labels are distinct, and are exactly the labels `normalize_genre` gives for the typed genres |
| CustomGenreManager.AddArtistLabels | controller/Add_Custom_Genres.py:47-77 | the controller writes the artist's entry with those labels, and nothing else changes |
| CustomGenreManager.RemoveArtistCustomGenres | Add_Custom_Genres.py:168-178 | an entry that is not an object makes the name lookup before the delete raise, and the file is neither changed nor saved; otherwise the file is saved exactly when the artist had an entry, and loses exactly that entry |
| CustomGenreManager.AddThenRemove | Add_Custom_Genres.py:43-178 | removing what was just added gives back the file without that artist |
| CustomGenreManager.TypedGenres | Add_Custom_Genres.py:158-163 | nothing is read exactly when the stripped answer is empty; otherwise the non-empty stripped pieces |
| CustomGenreManager.CachedOrFetched | controller/Add_Custom_Genres.py:20-45 | the cached name and genres when the cache has a truthy name, else the catalog's answer, nothing when that raised |
| CustomGenreManager.AddByArtistId | Add_Custom_Genres.py:138-166 | the file is written exactly when the id, the artist and the typed genres are all there, and then with that artist's entry |
| CustomGenreManager.SearchAndAdd | Add_Custom_Genres.py:81-136 | the file is written exactly when a name was typed, the 1-based selection is an integer within the results and genres were typed, and then with the selected artist's entry |
| CustomGenreManager.AddKeepsOthers | Add_Custom_Genres.py:54-57 | whatever the scripts write, every other artist's entry is kept |
| CustomGenreManager.StoredGenresClean | Add_Custom_Genres.py:16-24 | storage forms hold no hyphen, no upper-case letter and no stray white space |
| CustomPlaylists.CreditMeaning | Fix_Custom_Genres.py:134-138 | crediting a track appends its id to each credited artist's list, once per credit, and adds the artists not yet there |
| CustomPlaylists.GroupedMeaning | Fix_Custom_Genres.py:129-141 | the grouping holds exactly the artists credited on some non-null track, each with the ids of the tracks crediting it, in order |
| CustomPlaylists.CreditsOfMember | Fix_Custom_Genres.py:131-138 | a track id is listed under an artist exactly when a non-null track with that id credits the artist |
| CustomPlaylists.AddCredits | Fix_Custom_Genres.py:134-138 | the artist loop credits the track as the function defines |
| CustomPlaylists.GetOriginalPlaylistTracksByArtist | Fix_Custom_Genres.py:117-141 | the track loop builds the grouping |
| CustomPlaylists.SelectionMeaning | Fix_Custom_Genres.py:200-203 | an artist is taken exactly when its file entry has genres and some non-null track of the playlist credits it |
| CustomPlaylists.CollectLabels | Fix_Custom_Genres.py:231-234 | the loop collects the labels of the artist's genres |
| CustomPlaylists.GatherMeaning | Fix_Custom_Genres.py:245-247 | gathering adds the artist's tracks to the bucket of each label and leaves every other bucket alone |
| CustomPlaylists.TargetsExist | Fix_Custom_Genres.py:240-242 | a playlist found for a label is one of the account's playlists |
| CustomPlaylists.UpdateBucket | Fix_Custom_Genres.py:245-247 | the bucket, made empty first when missing, gains the tracks |
| CustomPlaylists.MatchAndGather | Fix_Custom_Genres.py:239-247 | the label loop finds the matching playlists and fills the buckets |
| CustomPlaylists.Missing | Fix_Custom_Genres.py:268 | no more tracks than the artist has |
| CustomPlaylists.MissingMember | Fix_Custom_Genres.py:268 | the filter keeps exactly the artist's tracks the playlist lacks |
| CustomPlaylists.UpdateOneTarget | Fix_Custom_Genres.py:257-286 | one playlist's update makes the calls and the count the function defines |
| CustomPlaylists.UpdateTargetShape | Fix_Custom_Genres.py:265-280 | a playlist receives only the artist's tracks it lacks, in non-empty slices of at most 50, and no playlist is created |
| CustomPlaylists.UpdateTargetAdds | Fix_Custom_Genres.py:265-280 | when nothing raises, a playlist receives every track of the artist it lacks, and the count is their number |
| CustomPlaylists.UpdateEachTarget | Fix_Custom_Genres.py:256-286 | the playlist loop makes the calls and counts the function defines |
| CustomPlaylists.UpdateTargetsShape | Fix_Custom_Genres.py:256-286 | every add goes to a listed playlist that lacked the track; nothing is created; only listed playlists count as updated |
| CustomPlaylists.ArtistStepBuckets | Fix_Custom_Genres.py:239-247 | after one artist, its tracks are gathered under its labels |
| CustomPlaylists.ProcessArtist | Fix_Custom_Genres.py:220-292 | one artist's step, as the function defines |
| CustomPlaylists.UpdatePlaylists | Fix_Custom_Genres.py:249-288 | no matching playlist: skip, the artist not counted; otherwise the playlist loop and the artist counted |
| CustomPlaylists.ProcessArtists | Fix_Custom_Genres.py:219-292 | the artists loop, as the pass function defines |
| CustomPlaylists.PassBuckets | Fix_Custom_Genres.py:212-247 | a label's bucket holds exactly the tracks of the listed artists having that label, and only their labels have buckets |
| CustomPlaylists.SilentArtist | Fix_Custom_Genres.py:231-251 | an artist whose genres all normalize to nothing changes nothing, not even the buckets |
| CustomPlaylists.MetalArtistSkipped | Fix_Custom_Genres.py:231-251 | an artist whose only custom genre is "Metal" is skipped, since "Metal" normalizes to no label |
| CustomPlaylists.ArtistStepWrites | Fix_Custom_Genres.py:256-286 | one artist's calls create nothing, and each add goes to an existing playlist that lacked one of its tracks |
| CustomPlaylists.PassWrites | Fix_Custom_Genres.py:219-292 | the artists loop creates nothing; every add goes to an existing playlist that lacked a track some listed artist has; at most one artist is counted per id |
| CustomPlaylists.CreateNewPlaylist | Fix_Custom_Genres.py:143-178 | the creation makes the calls and reports the success the function defines |
| CustomPlaylists.CreateNewShape | Fix_Custom_Genres.py:154-178 | a reported success means every track was sent; the playlist is created under the given name only, and adds go to its id only |
| CustomPlaylists.CreateEachNew | Fix_Custom_Genres.py:300-317 | the creation loop, as the phase function defines |
| CustomPlaylists.CreatePhaseNames | Fix_Custom_Genres.py:302-315 | a playlist is created only under the title-cased name of a listed label wanting one; with a working user lookup, every such label gets one; at most one per label is counted |
| CustomPlaylists.RedoPlaylistAdditions | Fix_Custom_Genres.py:180-327 | the whole pass, as the pass function defines |
| CustomPlaylists.NothingTakenNothingWritten | Fix_Custom_Genres.py:205-207 | with no artist taken, the pass makes no call |
| CustomPlaylists.RedoPassCreates | Fix_Custom_Genres.py:295-317 | a playlist is created only for a bucket of at least 100 tracks whose title-cased label is not an existing name; the artists loop creates nothing |
| CustomGenreUpdater.UpdaterRun | Custom_Genre_Updater.py:100-104 | an empty or unreadable file stops the script before any call; otherwise the pass runs over its entries |
| CustomGenreUpdater.UpdatePlaylistsWithCustomGenres | Custom_Genre_Updater.py:90-243 | the script's run, as the run function defines |
| CustomGenreUpdater.UpdaterCreatesOnlyNew | Custom_Genre_Updater.py:218-236 | a playlist is created only under a name the account does not have, for a label gathering at least 100 tracks |
| CustomGenreUpdater.KeyIndex | Custom_Genre_Updater.py:264 | the position of the genre among the counts, or -1 exactly when it is not there |
| CustomGenreUpdater.TallyMeaning | Custom_Genre_Updater.py:256-264 | the counts hold every genre once, in first-seen order, each with its number of occurrences |
| CustomGenreUpdater.TallyOld | Custom_Genre_Updater.py:264 | a genre seen before has its count raised by one, in place |
| CustomGenreUpdater.TallyNew | Custom_Genre_Updater.py:264 | a new genre is appended with count one |
| CustomGenreUpdater.CountGenres | Custom_Genre_Updater.py:263-264 | counting one entry's genres extends the counts by them |
| CustomGenreUpdater.CountGenre | Custom_Genre_Updater.py:264 | one genre counted |
| CustomGenreUpdater.ByCountPreorder | Custom_Genre_Updater.py:274 | ordering by count is a total preorder, so the stable sort applies |
| CustomGenreUpdater.CustomGenresSummary | Custom_Genre_Updater.py:250-253 | nothing exactly when the file has no entry |
| CustomGenreUpdater.PrintCustomGenresSummary | Custom_Genre_Updater.py:245-276 | the summary loop, as the summary function defines |
| CustomGenreUpdater.SummaryTotals | Custom_Genre_Updater.py:257-270 | when each key is listed once, the artists with and without genres add up to all entries |
| CustomGenreUpdater.TakenMember | Custom_Genre_Updater.py:261-264 | a genre is counted exactly when some entry with genres lists it |
| CustomGenreUpdater.SummaryRanking | Custom_Genre_Updater.py:272-276 | the ranking lists every counted genre once, from the largest count down, ties in first-seen order; the top is its first ten, and none left out outranks one shown |
| FixCustomGenres.StoredName | Fix_Custom_Genres.py:43 | the name stored when there is one, even an empty one; the default `Artist_<id>` only when the key is missing |
| FixCustomGenres.FixGenresMeaning | Fix_Custom_Genres.py:46-73 | a fixed list has no two genres sharing a hyphen key, is empty for an empty list, and holds only labels some raw genre normalizes to |
| FixCustomGenres.FixGenresDistinct | Fix_Custom_Genres.py:53-56 | a fixed list holds no genre twice |
| FixCustomGenres.Fixed | Fix_Custom_Genres.py:37-76 | one fixed entry per entry of the file, under the same id |
| FixCustomGenres.FixedEntries | Fix_Custom_Genres.py:40-76 | an entry that held genres reads back as its fixed list, with its name or the default one; any other entry is kept as it was |
| FixCustomGenres.FixFile | Fix_Custom_Genres.py:21-84 | nothing is fixed and nothing saved exactly when the file has no entry; otherwise the fixed entries are what is saved |
| FixCustomGenres.FixOneEntry | Fix_Custom_Genres.py:41-76 | the loop body fixes one entry as the function defines |
| FixCustomGenres.FixAll | Fix_Custom_Genres.py:37-76 | the fixing loop builds the fixed entries |
| FixCustomGenres.FixCustomGenresFile | Fix_Custom_Genres.py:21-84 | the run, as the file function defines |
| FixCustomGenres.MergeAll | Fix_Custom_Genres.py:98-110 | a cached artist has only its genres replaced, a new one gets its name, genres and no country, and every other artist is unchanged |
| FixCustomGenres.CacheWithFixed | Fix_Custom_Genres.py:86-113 | the update raises, and nothing is saved, exactly when some fixed entry has no readable genre list; otherwise the merged cache |
| FixCustomGenres.MergeEntry | Fix_Custom_Genres.py:99-110 | one iteration writes the merged record of the artist |
| FixCustomGenres.UpdateArtistCacheWithFixedGenres | Fix_Custom_Genres.py:86-113 | the merge loop, as the cache function defines |
| FixCustomGenres.FixThenCache | Fix_Custom_Genres.py:336-345 | after the fix, the cache update raises exactly when some entry of the file had no genre list; otherwise those artists' cached genres are their fixed lists |
| FixCustomGenres.FixAndRedo | Fix_Custom_Genres.py:329-355 | the run stops with nothing to fix exactly when the file has no entry |
| FixCustomGenres.RunFixAndRedo | Fix_Custom_Genres.py:329-355 | `main`, as the run function defines |
| FixCustomGenres.DoneReadsFixed | Fix_Custom_Genres.py:338-348 | when the playlists are reached, every artist the pass can take has its fixed list in the cache, so the cache and the pass read the same genres |
| GenreInput.StripEach | Artist_Checker.py:78 | one stripped piece per piece |
| GenreInput.KeepNonEmptyMember | Add_Custom_Genres.py:163 | a piece is kept exactly when it is not empty |
| GenreInput.SplitOnNone | Add_Custom_Genres.py:163 | an answer without a comma splits into itself alone |
| GenreInput.SplitOnCons | Add_Custom_Genres.py:163 | up to the first comma is the first piece |
| GenreInput.SplitJoinOn | Add_Custom_Genres.py:163 | joining comma-free pieces with commas and splitting again gives the pieces back |
| GenreInput.SplitGenresClean | Add_Custom_Genres.py:163 | every genre read is non-empty, comma-free and has no white space at either end |
| GenreInput.SplitGenresMember | Add_Custom_Genres.py:163 | the genres read are exactly the non-empty stripped pieces of the answer |
| GenreInput.StripClean | Add_Custom_Genres.py:163 | a clean genre is its own stripped form |
| GenreInput.SplitGenresJoin | Add_Custom_Genres.py:163 | clean genres joined with commas are read back unchanged |
| GenreInput.SplitGenresBlank | Add_Custom_Genres.py:158-163 | an answer of white space only gives no genres |
| GenreLister.LabelsUnionMember | Genre_Lister.py:49-53 | a label is collected exactly when one of the visited tracks has a raw genre mapped to it |
| GenreLister.AddLabels | Genre_Lister.py:51-53 | the inner loop adds the labels of one track's raw genres |
| GenreLister.CollectLabels | Genre_Lister.py:49-53 | the outer loop collects the union over the recorded tracks |
| GenreLister.ListPlaylistGenres | Genre_Lister.py:18-59 | the listing, as the listing function defines |
| GenreLister.StrLePreorder | Genre_Lister.py:57 | string order is a total preorder, so `sorted` applies |
| GenreLister.ListingSorted | Genre_Lister.py:55-59 | the genres are listed once each, in strictly ascending order, they are exactly the collected set, and the total printed is their number |
| GenreLister.LabelsUnionOf | Genre_Lister.py:44-53 | with every raw genre in the normalization map, a label is collected exactly when a raw genre of a recorded track normalizes to it |
| GenreLister.Recorded | Genre_Lister.py:36-42 | step 1 records every non-null track's id, with its genres, and nothing else |
| GenreLister.RecordedHas | Genre_Lister.py:36-46 | some recorded id has a raw genre giving a label exactly when some non-null track has one |
| GenreLister.ListingMember | Genre_Lister.py:18-59 | when tracks sharing an id credit the same genres, a genre is listed exactly when some non-null track has a raw genre that `normalize_genre` turns into it |
| GenreRanker.PreloadRecordMeaning | Genre_Ranker.py:52-75 | the record holds the artist's name and Wikidata country; its genres are the catalog's, then the custom ones, then at most one regional tag |
| GenreRanker.NonNullMember | Genre_Ranker.py:50-51 | an artist is stored exactly when it is a non-null entry of the response |
| GenreRanker.FetchedFrom | Genre_Ranker.py:45-81 | every artist fetched comes from the answer to a slice of the ids; a slice whose call raised is not retried |
| GenreRanker.FetchedNone | Genre_Ranker.py:79-81 | when every call raises, nothing is fetched |
| GenreRanker.StoreUntouched | Genre_Ranker.py:71-75 | an id no fetched artist carries keeps its cached record, or stays out |
| GenreRanker.StoreWritten | Genre_Ranker.py:71-75 | an id some fetched artist carries holds the record of the last such artist |
| GenreRanker.PreloadedMeaning | Genre_Ranker.py:33-81 | a record changes only when a slice call for uncached artists of the playlist answered with that artist, and then holds its record; when every call raises the cache is unchanged |
| GenreRanker.BuildRecord | Genre_Ranker.py:52-75 | the loop body builds the pre-load record |
| GenreRanker.StoreArtists | Genre_Ranker.py:50-75 | the loop over one response stores its non-null artists |
| GenreRanker.PreloadSlice | Genre_Ranker.py:46-81 | one slice stores the artists of its answer, or none when the call raises |
| GenreRanker.PreloadArtists | Genre_Ranker.py:40-81 | the pre-load loop leaves the pre-loaded cache |
| GenreRanker.Bump | Genre_Ranker.py:108-109 | the counts of exactly the given labels go up by one, every other count stays |
| GenreRanker.CountsPositive | Genre_Ranker.py:99-109 | a label is counted only once some track gave it |
| GenreRanker.CountsTracks | Genre_Ranker.py:99-109 | with each track id visited once, a label's count is the number of tracks that have it |
| GenreRanker.CountsMeaning | Genre_Ranker.py:101-109 | a track adds at most one to a label however many of its raw genres give it, and the labels counted are exactly those some track has |
| GenreRanker.CountsOrderFree | Genre_Ranker.py:100 | the counts do not depend on the order the track ids are visited in |
| GenreRanker.RepeatedTrackIgnored | Genre_Ranker.py:88-92 | a track listed twice with the same genres leaves step 1's map as it was |
| GenreRanker.TrackLabels | Genre_Ranker.py:102-106 | one track's label set, built raw genre by raw genre |
| GenreRanker.BumpAll | Genre_Ranker.py:108-109 | the loop raises the count of each label of the track |
| GenreRanker.CountGenres | Genre_Ranker.py:99-109 | step 3's loop builds the counts |
| GenreRanker.ByRankPreorder | Genre_Ranker.py:112-115 | the key `(-count, genre)` orders items by a total preorder |
| GenreRanker.ByRankAntisym | Genre_Ranker.py:114 | the key ties no two different items |
| GenreRanker.ItemsOnce | Genre_Ranker.py:113 | each listed genre occurs once among the items, with its count, and nothing else does |
| GenreRanker.RankGenresMeaning | Genre_Ranker.py:112-115 | every counted genre is ranked once with its count, and nothing else is; a larger count comes first, equal counts in string order |
| GenreRanker.RankOrderFree | Genre_Ranker.py:112-115 | the ranking does not depend on the order the counts list their genres in |
| GenreRanker.RankPlaylistGenres | Genre_Ranker.py:19-122 | the run, as the rank function defines |
| GenreRanker.GenreCountsMeaning | Genre_Ranker.py:86-109 | a genre's count is the number of playlist tracks, by id, one of whose raw genres normalizes to it, so it never exceeds the number of tracks; the genres counted are exactly those some track has |
| GenreRanker.RankingMeaning | Genre_Ranker.py:19-122 | the cache is the pre-loaded one, every counted genre is ranked once with its count in rank order, and the number of unique genres is the number ranked |
| EmptyCacheListing.SelectedMeaning | List_Empty_Cache.py:16-19 | the ids selected are exactly the cached artists with an empty genre list, each once |
| EmptyCacheListing.DataOfMeaning | List_Empty_Cache.py:44-61 | the artists listed are exactly those written, each with a name and no genres |
| EmptyCacheListing.RootListedMeaning | List_Empty_Cache.py:31-65 | with a catalog that answers only for the ids asked every artist listed lacks genres in the cache; when every batch request raises and every single one answers, every artist without genres is listed with the name its own request gave |
| EmptyCacheListing.ApplyNamed | List_Empty_Cache.py:44-47 | a key every write of which carries the same name is listed with that name |
| EmptyCacheListing.RootData | List_Empty_Cache.py:29-65 | the root script's slice loop builds `artists_data` from its writes |
| EmptyCacheListing.CachedStepsKeys | controller/List_Empty_Cache.py:43-51 | every cached-name write is for an id of the slice the cache names |
| EmptyCacheListing.CachedStepsValue | controller/List_Empty_Cache.py:43-49 | an id of the slice the cache names is listed with the cached name |
| EmptyCacheListing.SliceKeys | controller/List_Empty_Cache.py:41-86 | with a catalog that answers only for the ids asked, a slice writes only its own ids, and the catalog only those the cache does not name |
| EmptyCacheListing.SliceFetchKeys | controller/List_Empty_Cache.py:54-86 | the request for the unnamed ids writes only ids among them |
| EmptyCacheListing.SliceNamed | controller/List_Empty_Cache.py:41-86 | a slice writes the cached name of every id of it the cache names |
| EmptyCacheListing.ControllerKeys | controller/List_Empty_Cache.py:38-86 | the controller writes only ids it walks |
| EmptyCacheListing.ControllerNamed | controller/List_Empty_Cache.py:38-86 | every id walked once whose name the cache has is listed with exactly that name; a catalog answer never replaces it |
| EmptyCacheListing.ControllerAsRoot | controller/List_Empty_Cache.py:38-86 | when the cache names none of the ids, the controller makes the root script's requests and writes |
| EmptyCacheListing.ControllerListedMeaning | controller/List_Empty_Cache.py:17-92 | every artist listed has a name and no genres; with a catalog that answers only for the ids asked it lacks genres in the cache, and one the cache names is listed with the cached name |
| EmptyCacheListing.WriteNamed | controller/List_Empty_Cache.py:42-51 | the first pass over a slice writes the cached names and gathers the others |
| EmptyCacheListing.WriteControllerSlice | controller/List_Empty_Cache.py:41-86 | one slice: the cached names, then one request for the rest when there is any |
| EmptyCacheListing.ControllerWalk | controller/List_Empty_Cache.py:38-86 | the controller's slice loop builds `artists_data` from its writes |
| EmptyCacheListing.ControllerData | controller/List_Empty_Cache.py:36-86 | the loop over the selected ids |
| EmptyCacheListing.OrderMeaning | List_Empty_Cache.py:82 | the insertion order lists every artist of `artists_data` once |
| EmptyCacheListing.RowsOf | List_Empty_Cache.py:85-86 | one row per artist listed, with the name `artists_data` holds |
| EmptyCacheListing.ByNamePreorder | List_Empty_Cache.py:82 | ordering rows by name is a total preorder, so the stable sort applies |
| EmptyCacheListing.RowsCover | List_Empty_Cache.py:82-86 | a permutation of the rows holds each artist once, with its name |
| EmptyCacheListing.SortedRowsMeaning | List_Empty_Cache.py:79-89 | the text lists every artist once, with its name, in name order; artists of the same name stay in the order they were first written |
| EmptyCacheListing.WriteText | List_Empty_Cache.py:84-89 | the loop writes the three lines of each row |
| EmptyCacheListing.Save | List_Empty_Cache.py:67-89 | the JSON and the text saved, from `artists_data` |
| EmptyCacheListing.ListArtistsWithoutGenres | List_Empty_Cache.py:10-71 | nothing is saved exactly when no artist lacks genres; otherwise the files of the root script's writes |
| EmptyCacheListing.ListArtistsWithoutGenresCached | controller/List_Empty_Cache.py:17-92 | the same for the controller script, cached names first |
| EmptyCacheListing.NothingSavedMeaning | List_Empty_Cache.py:16-23 | nothing is saved exactly when every cached artist has genres |
| EmptyCacheListing.SameWhenUnnamed | controller/List_Empty_Cache.py:41-86 | when the cache names none of the artists without genres, the two scripts save the same files |
| Lists.Dedup | controller/Artist_Cacher.py:103-109 | `list(dict.fromkeys(s))` has no repeats, keeps every element and adds none, and is no longer than the input |
| Lists.DedupOfDistinct | controller/Artist_Cacher.py:109 | a list without repeats is its own de-duplication |
| Lists.DedupIdempotent | controller/Artist_Cacher.py:103-109 | de-duplicating twice is de-duplicating once |
| Lists.DedupSubsequence | controller/Artist_Cacher.py:109 | de-duplication keeps the order, only leaving elements out |
| Lists.Chunks | controller/Artist_Cacher.py:90-91 | the slices `xs[i:i + n]` flatten back to the list, each holds between 1 and n elements, and all but the last hold n |
| Lists.FlattenMember | controller/Artist_Cacher.py:105-107 | an element is in the flattening exactly when it is in one of the lists |
| Lists.FlatMapMember | controller/Artist_Cacher.py:105-107 | an element is in the flattened normalization exactly when some genre's piece holds it |
| Lists.DedupBy | Genre_Tools.py:326-331 | the first element of every key, in the order the keys first appear: no key twice, every key kept |
| MainRun.ExtensionAsWritten | Main.py:45 | as written, `extend` with a custom entry adds the entry's key names when it is a dict, its items when it is a list, and its characters one by one when it is a string; only a number, a boolean or null makes it raise TypeError |
| MainRun.DictEntryAddsKeyNames | Main.py:43-47 | an artist cached with `["rock"]` and custom entry `{"name", "genres": ["pop"]}` ends with `["rock", "name", "genres"]` as written but `["rock", "pop"]` as intended |
| MainRun.MergedGenresAsWritten | Main.py:43-54 | as written, a cached artist's genres become its old genres then the entry's iteration, de-duplicated, starting with the old ones, and the extend raises exactly for an entry that is not iterable; a new artist's genres are the entry itself, stored whole |
| MainRun.NewArtistStoresEntry | Main.py:50-54 | as written, a new artist whose entry is an object with genres stores the object, whose iteration gives the key names "genres" and "name"; as intended it stores exactly the listed genres |
| MainRun.NewArtistKeyNames | Main.py:50-54 | a new artist with entry `{"name": "X", "genres": ["pop"]}` stores the entry, read back as `["name", "genres"]`, where the intended record holds `["pop"]` |
| MainRun.TextEntryAddsCharacters | Main.py:45-47 | as written, an artist cached with ["rock"] whose custom entry is the string "pop" gains the genres "p" and "o" |
| MainRun.MergeAll | Main.py:42-55 | after the merge the cache holds the old artists and the custom ones; artists outside the file are untouched and each file artist holds its merged record |
| MainRun.MergedMeaning | Main.py:44-54 | a cached artist keeps name and country and its genres are the old and custom genres without repeats, beginning with the old ones; a new artist gets the custom genres and country `None` |
| MainRun.DedupMember | Main.py:47 | `dict.fromkeys` keeps exactly the elements of its input |
| MainRun.DedupPrefix | Main.py:45-47 | de-duplicating an extended list begins with the de-duplicated original |
| MainRun.MergeEntry | Main.py:43-54 | one iteration writes the merged record for its artist and changes no other entry |
| MainRun.MergeStep | Main.py:42-55 | after one more iteration the visited artists hold their merged records and every other artist is as loaded |
| MainRun.MergeEach | Main.py:42-55 | after the loop every custom artist holds its merged record, and `updated_count` is the number of entries |
| MainRun.UpdateArtistCacheWithCustomGenres | Main.py:24-63 | returns nothing exactly when the custom file is empty; otherwise the cache is the full merge, `updated_count` the file's size and `artists_still_empty` zero |
| MainRun.MergeAllIs | Main.py:42-55 | any map holding exactly the merged records for the file's artists and the old ones elsewhere is the merge |
| MainRun.DedupAbsorbs | Main.py:45-47 | extending with genres already present and de-duplicating changes nothing |
| MainRun.MergeAllTwice | Main.py:24-63 | merging the same file twice equals merging once except that artists new to the cache get their custom genres de-duplicated |
| MainRun.MergedTwice | Main.py:43-54 | one artist of the file merged a second time has the same record as a de-duplicated first merge |
| MainRun.ExtraKept | Main.py:45-47 | every custom genre appended survives the de-duplication |
| MainRun.CheckArtistsWithoutGenres | Main.py:65-94 | step 1 reports true exactly when some cached artist has no genres and the list file was produced; false with the list written means every artist has genres |
| MainRun.PopulateIfNeeded | Main.py:96-137 | a non-empty custom file is merged and succeeds; the step fails exactly when that file is missing or empty, the list exists and populating raised or wrote nothing; nothing is merged exactly when no file is loaded |
| MainRun.Pipeline | Main.py:195-230 | the run succeeds exactly when step 3 does, step 2 runs exactly when step 1 reports artists without genres, and no cached artist is lost |
| MainRun.MergeAllEmpty | Main.py:34-36 | an empty custom file leaves the cache as it was |
| MainRun.PipelineCache | Main.py:205-211 | the cache is unchanged unless step 2 runs; step 2 with a non-empty custom file leaves that file merged; step 2 with no file and no list leaves it unchanged |
| MainRun.PopulatedEmptyMergesNothing | Main.py:118-128 | populating that writes an empty file succeeds but leaves the cache as it was |
| MainRun.ExitStatus | Main.py:232-234 | the process exits 0 exactly when `main` succeeded, and 1 otherwise |
| ManualCountryInputs.SelectedHaveNoCountry | Manual_Country_Inputs.py:14 | every artist the comprehension selects is cached with country `None` |
| ManualCountryInputs.NullCountryArtists | Manual_Country_Inputs.py:14 | the artists to prompt for are cached and have no country |
| ManualCountryInputs.NullCountryMeaning | Manual_Country_Inputs.py:14 | the list holds exactly the cached artists whose country is missing or `null`, each once |
| ManualCountryInputs.SetCountry | Manual_Country_Inputs.py:28 | the artist's country becomes the answer; its name and genres and every other artist are kept |
| ManualCountryInputs.VisitCountry | Manual_Country_Inputs.py:20-33 | one visit keeps the cache's artists |
| ManualCountryInputs.CountriesFrom | Manual_Country_Inputs.py:20-33 | the rest of the loop keeps the cache's artists |
| ManualCountryInputs.PromptAndUpdateCountries | Manual_Country_Inputs.py:10-38 | the loop's outcome is the pass over the artists without a country, in the cache's order |
| ManualCountryInputs.VisitCountryStep | Manual_Country_Inputs.py:21-33 | one visit changes only that artist's name and country: the country becomes the stripped answer when it is neither blank nor `exit`; `updated` is set by such an answer; running out of input and `exit` end the run; a change is written at once |
| ManualCountryInputs.CountriesFromSaves | Manual_Country_Inputs.py:28-30 | the remaining visits keep the cache as written, or unchanged and unwritten |
| ManualCountryInputs.CountrySaves | Manual_Country_Inputs.py:20-33 | every change is saved at once: the run ends with the cache as last written, or unchanged and never written |
| ManualCountryInputs.EditedStep | Manual_Country_Inputs.py:27-29 | a visit that changes only its artist's country, as its answer says, keeps the changes within what the answers allow |
| ManualCountryInputs.CountriesFromEdits | Manual_Country_Inputs.py:20-33 | the remaining visits keep the changes within what the answers allow |
| ManualCountryInputs.CountryEdits | Manual_Country_Inputs.py:20-33 | genres are never changed, an artist not prompted for keeps its record, and a country changes only to the stripped, non-blank, non-`exit` answer given at that artist's turn |
| ManualCountryInputs.UpdatedStep | Manual_Country_Inputs.py:27-29 | after a visit, `updated` holds exactly when some artist's country changed |
| ManualCountryInputs.CountriesFromUpdated | Manual_Country_Inputs.py:20-33 | after the remaining visits, `updated` holds exactly when some country changed |
| ManualCountryInputs.CountryUpdated | Manual_Country_Inputs.py:35-38 | the closing message reports an update exactly when some artist's country changed |
| ManualCountryInputs.CountriesFromUntouched | Manual_Country_Inputs.py:20-33 | an artist not visited in the rest of the loop keeps its record |
| ManualCountryInputs.CountriesFromExit | Manual_Country_Inputs.py:25-26 | with `exit` as the `k`-th answer the rest of the loop ends in `Quit` and leaves the later artists as they were |
| ManualCountryInputs.ExitStops | Manual_Country_Inputs.py:25-26 | `exit`, in any case, ends the run at that artist and no later artist is touched |
| ManualCountryInputs.AnsweredAt | Manual_Country_Inputs.py:24-29 | the `k`-th visit sets the country the answer gives and the later visits keep it |
| ManualCountryInputs.CountriesFromAnswered | Manual_Country_Inputs.py:20-33 | with no `exit` up to the `k`-th answer the `k`-th artist ends with the country its answer gives |
| ManualCountryInputs.AnsweredLater | Manual_Country_Inputs.py:20-33 | visits before the `k`-th leave the `k`-th artist's country and keep the run going |
| ManualCountryInputs.CountryAnswered | Manual_Country_Inputs.py:24-32 | with no `exit` up to the `k`-th answer the `k`-th artist's country is that stripped answer, or its old one when the answer is blank |
| ManualGenreInputs.ArtistsWithoutGenres | Manual_Genre_Inputs.py:13-32 | the loop keeps, in order, the artists with no genres or a single generic regional genre |
| ManualGenreInputs.SelectionMeaning | Manual_Genre_Inputs.py:22-32 | the selected artists are listed once each and are exactly the cached ones with no genres or whose only genre is `brazilian music` or `japanese music` in any case |
| ManualGenreInputs.Classify | Manual_Genre_Inputs.py:71-87 | a typed-genres answer is the non-empty list of the stripped non-blank comma pieces; an answer asks again exactly when it is not `quit`, not blank, and all its pieces are blank |
| ManualGenreInputs.BlankSkips | Manual_Genre_Inputs.py:77-80 | an answer of white space only skips the artist |
| ManualGenreInputs.CommaReprompts | Manual_Genre_Inputs.py:83-87 | the answer `,` asks again |
| ManualGenreInputs.Classified | Manual_Genre_Inputs.py:71 | every answer read is classified in order |
| ManualGenreInputs.NextAnswer | Manual_Genre_Inputs.py:70-87 | the inner loop stops at the first answer that does not ask again and consumes it, or runs out when every remaining answer asks again |
| ManualGenreInputs.RepromptsPassed | Manual_Genre_Inputs.py:85-87 | answers that ask again are passed over |
| ManualGenreInputs.ReadAnswer | Manual_Genre_Inputs.py:70-87 | the `while True` loop returns the first answer that does not ask again, and the position after it |
| ManualGenreInputs.ManualLabelsMeaning | Manual_Genre_Inputs.py:89-104 | the stored genres have pairwise different hyphen keys, each is a normalized label of a typed genre, and every such label's key is represented |
| ManualGenreInputs.SetGenresEntry | Manual_Genre_Inputs.py:107-110 | a missing artist gets an entry holding only the genres; a cached one changes only its genres; no other artist changes |
| ManualGenreInputs.LookedUp | Manual_Genre_Inputs.py:60 | the name lookup changes neither counters nor position, and writes the cache exactly when it fetched a missing name |
| ManualGenreInputs.Visit | Manual_Genre_Inputs.py:59-114 | a visit reads no further than the answers go |
| ManualGenreInputs.VisitFrom | Manual_Genre_Inputs.py:59-114 | the remaining visits read no further than the answers go |
| ManualGenreInputs.LabelTyped | Manual_Genre_Inputs.py:89-104 | the normalizing and de-duplicating loops compute the stored labels |
| ManualGenreInputs.VisitArtist | Manual_Genre_Inputs.py:60-114 | one pass of the loop's body is one visit |
| ManualGenreInputs.AnswerArtist | Manual_Genre_Inputs.py:73-114 | the update is the one the answer asks for |
| ManualGenreInputs.ManualGenreInput | Manual_Genre_Inputs.py:34-123 | the run is the pass over the selected artists in the cache's order, with the answers classified and labelled as the script does |
| ManualGenreInputs.VisitEdits | Manual_Genre_Inputs.py:59-114 | a visit keeps the changes within what the answers allow |
| ManualGenreInputs.VisitFromEdits | Manual_Genre_Inputs.py:59-114 | the remaining visits keep the changes within what the answers allow |
| ManualGenreInputs.ManualEdits | Manual_Genre_Inputs.py:59-114 | no artist is added or lost, every country is kept, an unvisited artist is untouched, and a visited artist's genres are its old ones or the labels of one typed answer |
| ManualGenreInputs.VisitFromCounts | Manual_Genre_Inputs.py:56-114 | each visited artist adds one to processed or skipped, a run that stops early does not count the artist it stopped at, and a stopped run stays stopped |
| ManualGenreInputs.ManualCounts | Manual_Genre_Inputs.py:56-122 | processed plus skipped is at most the number of selected artists, and equals it when the run finished |
| ManualGenreInputs.VisitFromSaves | Manual_Genre_Inputs.py:59-114 | when every artist has a name the visits write nothing and keep every name |
| ManualGenreInputs.ManualSaves | Manual_Genre_Inputs.py:47-118 | a finished run over some artists writes the final cache; `quit` or the end of input in a cache where every artist has a name writes nothing, losing the typed genres |
| MessLister.SelectMessy | Mess_Lister.py:24-31 | the loop keeps, in order, the artists with more than `min_genres` genres |
| MessLister.ListArtistsWithMultipleGenres | Mess_Lister.py:10-31 | the result is the cache's artists, in its order, with more than `min_genres` genres |
| MessLister.FilterKeepsOrder | Mess_Lister.py:26-29 | the selection only leaves artists out and keeps the cache's order |
| MessLister.ListedMeaning | Mess_Lister.py:10-31 | the listed artists are exactly the cached ones with strictly more than `min_genres` genres, each once, in the cache's order |
| MessLister.EntriesMeaning | Mess_Lister.py:54-61 | one export entry per listed artist, in order, with its id, its genres and their number |
| MessLister.ListedInCache | Mess_Lister.py:45-55 | every listed artist is in the cache, so `artist_cache[artist_id]` never fails |
| MessLister.ExportArtistsWithMultipleGenres | Mess_Lister.py:33-61 | the document written is the export of the listed artists |
| MessLister.AppendEntry | Mess_Lister.py:55-61 | one pass of the loop appends the next listed artist's entry |
| MessLister.ExportMeaning | Mess_Lister.py:48-61 | the export records the threshold, its count equals the number of entries and of listed artists, and each entry holds the listed artist's genres and a count above the threshold |
| Sorting.FilterMember | Manual_Country_Inputs.py:14 | a comprehension's filter keeps exactly the elements that pass its condition |
| Sorting.FilterDistinct | Manual_Country_Inputs.py:14 | filtering dictionary keys, which do not repeat, gives a list that does not repeat |
| Sorting.FilterLoop | Manual_Genre_Inputs.py:22-32 | the loop appending the elements that pass, in order, computes the filter |
| Sorting.SortByMeaning | Genre_Ranker.py:112-115 | `sorted` with a key returns a permutation of its input, ordered by the key, and stable among equal keys |
| Sorting.TopComesFirst | Custom_Genre_Updater.py:274-275 | in a sorted list every element of the first `k` may come before every later one |
| Sorting.SortedUnique | Genre_Ranker.py:112-115 | under an order that ties no two different elements, a list has exactly one sorted permutation |
| Text.Lower | Genre_Tools.py:323 | `lower()` keeps the length and lower-cases each character on its own |
| Text.LowerIdempotent | Genre_Tools.py:121-124 | lower-casing twice is lower-casing once |
| Text.Title | Genre_Tools.py:284-301 | `title()` keeps the length and every character that is not a letter |
| Text.TitleLowerWord | Genre_Tools.py:301 | a lower-case word is title-cased by upper-casing its first letter |
| Text.TitleCapitalWord | Genre_Tools.py:284 | a capitalised word is its own title case |
| Text.TitleSpace | Genre_Tools.py:284-301 | title-casing works word by word across a space |
| Text.Strip | Manual_Country_Inputs.py:24 | `strip()` gives no longer a string, with no white space at either end |
| Text.StripPadded | Manual_Country_Inputs.py:24 | stripping a word padded with white space gives the word |
| Text.ContainsAt | Genre_Tools.py:283-290 | an occurrence at some position makes the `in` test true |
| Text.MissingChar | Genre_Tools.py:283-290 | a character of the pattern that the text lacks makes the `in` test false |
| Text.MissingPair | Genre_Tools.py:283-290 | two adjacent pattern characters never adjacent in the text make the `in` test false |
| Text.ContainsExtend | Genre_Tools.py:122-124 | an occurrence stays an occurrence in any extension of the text |
| Text.SplitWs | Genre_Tools.py:324 | `split()` gives words: non-empty runs without white space |
| Text.SplitJoinWords | Genre_Tools.py:324 | joining words with single spaces and splitting again gives the words back |
| Text.JoinWordsSpacing | Genre_Tools.py:324 | words joined with single spaces give a single-spaced string |
| Text.ReplaceChar | Genre_Tools.py:323 | `replace('-', ' ')` keeps the length and swaps exactly the hyphens |
| Text.SplitOn | Manual_Genre_Inputs.py:83 | `split(',')` gives at least one piece, none holding a comma |
| Text.JoinSplitOn | Manual_Genre_Inputs.py:83 | joining the pieces with the separator gives the string back |
| Text.StrLeTotal | Genre_Lister.py:57 | Python's string order compares any two strings |
| Text.StrLeTrans | Genre_Lister.py:57 | Python's string order is transitive |
| Text.StrLeAntisym | Genre_Lister.py:57 | two strings each at most the other are equal |
| Wrappers.Field.Get | Manual_Country_Inputs.py:14 | `d.get(k)` has a value exactly when the key is present with a non-`null` value; a missing key and `null` both read as `None` |
| Wrappers.FieldOf | Main.py:50-54 | writing a value that may be `None` stores `null` for it, never drops the key, and reads back as the same value |
| WikiMarkup.TagEnd | WikipediaAPI.py:72 | `[^>]*` stops at or after its start and within the text |
| WikiMarkup.CloseAt | WikipediaAPI.py:72 | the lazy `.*?</ref>` finds a `</ref>` lying wholly within the text, from its start on |
| WikiMarkup.RefAt | WikipediaAPI.py:72 | a `<ref...>...</ref>` match is at least eleven characters and within the text |
| WikiMarkup.RemoveRefs | WikipediaAPI.py:72 | removing reference tags never lengthens the text |
| WikiMarkup.RefAtTag | WikipediaAPI.py:72 | a reference tag whose attributes hold no `>` and whose body holds no `</ref>` is matched whole |
| WikiMarkup.RefTagOpen | WikipediaAPI.py:72 | the opening tag ends at the first `>` after the attributes |
| WikiMarkup.RefTagClose | WikipediaAPI.py:72 | the first `</ref>` after the opening tag is the one closing the body |
| WikiMarkup.RemoveRefsPlain | WikipediaAPI.py:72 | text without `<` is kept as it is |
| WikiMarkup.RemoveRefsTag | WikipediaAPI.py:72 | a well-formed reference tag is removed and the text around it is kept |
| WikiMarkup.TargetEnd | WikipediaAPI.py:75 | the target's character class, which stops at a bar or a closing bracket, ends at or after its start and within the text |
| WikiMarkup.DisplayEnd | WikipediaAPI.py:75 | `[^\]]+` stops at or after its start and within the text |
| WikiMarkup.LinkAt | WikipediaAPI.py:75 | a link match is at least five characters and within the text |
| WikiMarkup.LinkAtRender | WikipediaAPI.py:75 | a written link with a non-empty target free of bars and closing brackets and a display free of `]` is matched whole, with its target and display |
| WikiMarkup.LinksRoundTrip | WikipediaAPI.py:75-80 | `re.findall` over links written one after the other gives back exactly those links, in order |
| WikiMarkup.LinksPlain | WikipediaAPI.py:75 | text without `[` contributes no link |
| WikiMarkup.SplitAny | WikipediaAPI.py:102 | the split on comma, semicolon, newline and bar gives at least one piece, none holding a separator |
| WikiMarkup.Unify | WikipediaAPI.py:102 | every separator is replaced by the chosen one and every other character kept |
| WikiMarkup.JoinSplitAny | WikipediaAPI.py:102 | joining the pieces with one separator gives the text with every separator turned into that one, so the pieces are exactly the runs between separators |
| WikiMarkup.SplitAnyPiece | WikipediaAPI.py:102 | each piece is free of separators |
| WikiMarkup.SplitAnyPlain | WikipediaAPI.py:102 | text without separators is one piece |
| WikiMarkup.SplitAnyCons | WikipediaAPI.py:102 | the text before the first separator is the first piece |
| WikiMarkup.SplitAnyJoin | WikipediaAPI.py:102 | separator-free pieces joined with a separator split back into the same pieces |
| WikiMarkup.SplitAnyOne | WikipediaAPI.py:90-102 | with one separator the class split is `str.split` on that character |
| WikipediaApi.CandidateGenres | WikipediaAPI.py:65-106 | the genres come from the first strategy that finds any (the `hlist` links, then the wikilinks, then the plain text), and are empty only when all three find none |
| WikipediaApi.ComplexGenres | WikipediaAPI.py:49-120 | an empty value gives no genres; the result holds no two genres equal up to case, and each is stripped, longer than one character and no stopword |
| WikipediaApi.StripIdempotent | WikipediaAPI.py:104-112 | stripping a stripped genre again changes nothing |
| WikipediaApi.EligibleMember | WikipediaAPI.py:111-117 | the genres the clean-up can keep are exactly the stripped inputs longer than one character that are no stopword |
| WikipediaApi.CleanedKept | WikipediaAPI.py:112-117 | every genre kept is stripped, longer than one character and no stopword |
| WikipediaApi.CleanedFromInput | WikipediaAPI.py:111-117 | every genre kept is an input genre, stripped |
| WikipediaApi.CleanedComplete | WikipediaAPI.py:111-118 | every input genre that could be kept has its lower-case form among the kept ones |
| WikipediaApi.CleanedFirst | WikipediaAPI.py:109-120 | the clean-up keeps no two genres equal up to case, keeps the input's order, and keeps the first eligible genre of each lower-case form |
| WikipediaApi.CleanedStep | WikipediaAPI.py:111-118 | one more pass of the clean-up loop keeps the genre exactly when it is eligible and its lower-case form is unseen |
| WikipediaApi.CleanUp | WikipediaAPI.py:109-120 | the loop with its `seen` set computes the clean-up |
| WikipediaApi.CollectParam | WikipediaAPI.py:70-80 | one parameter's loop appends the display text, or the target, of each link left after removing references |
| WikipediaApi.CollectTemplate | WikipediaAPI.py:69-80 | the loop over a template's parameters appends each parameter's genres |
| WikipediaApi.CollectHList | WikipediaAPI.py:66-80 | the loop over the `hlist` templates appends each one's genres |
| WikipediaApi.CollectWikilinks | WikipediaAPI.py:83-95 | the loop over the wikilinks appends one genre per title |
| WikipediaApi.CollectText | WikipediaAPI.py:98-106 | the loop over the plain text's pieces appends those longer than one character, stripped |
| WikipediaApi.ParseComplexGenres | WikipediaAPI.py:49-120 | the method computes `parse_complex_genres` |
| WikipediaApi.StrategyOrder | WikipediaAPI.py:82-98 | once an earlier strategy finds genres a later one's input makes no difference |
| WikipediaApi.ParamGenresOfLinks | WikipediaAPI.py:70-80 | an `hlist` parameter of links followed by a reference gives each link's display text, or its target when it has none, in order |
| WikipediaApi.RenderedStripped | WikipediaAPI.py:70 | links followed by a reference have no white space to strip |
| WikipediaApi.TitleGenresOne | WikipediaAPI.py:86-95 | a wikilink title always gives exactly one genre |
| WikipediaApi.TitleGenresAfterBar | WikipediaAPI.py:88-92 | a title with a bar gives what stands between the first bar and the next, stripped |
| WikipediaApi.TextGenresMember | WikipediaAPI.py:102-106 | the plain-text strategy gives exactly the stripped pieces longer than one character |
| WikipediaApi.PartGenresMember | WikipediaAPI.py:103-106 | the pieces kept are exactly the stripped ones longer than one character |
| WikipediaApi.TextGenresSepFree | WikipediaAPI.py:102-106 | no plain-text genre holds a comma, semicolon, newline or bar |
| WikipediaApi.PartGenresStripped | WikipediaAPI.py:104-106 | a piece kept is the stripped piece |
| WikipediaApi.StrippedSepFree | WikipediaAPI.py:104 | stripping a piece without separators leaves none |
| WikipediaApi.StripInside | WikipediaAPI.py:104 | every character of a stripped piece is a character of the piece |
| WikipediaApi.TextGenresOfJoin | WikipediaAPI.py:102-106 | genres written with a separator between them, stripped, separator-free and longer than one character, are read back as they were |
| WikipediaApi.FirstInfobox | WikipediaAPI.py:40-47 | no genre value is found exactly when no template is an infobox with a `genre` parameter |
| WikipediaApi.FirstInfoboxFirst | WikipediaAPI.py:40-45 | a genre value found is that of an infobox with a `genre` parameter that no such infobox precedes |
| WikipediaApi.NoneBefore | WikipediaAPI.py:40-42 | the templates before the one chosen are no infobox with a genre |
| WikipediaApi.PageTitle | WikipediaAPI.py:12 | the title keeps the name's length and holds no space |
| WikipediaApi.FindInfoboxGenre | WikipediaAPI.py:40-47 | the loop stops at the first infobox with a `genre` parameter |
| WikipediaApi.GetArtistGenres | WikipediaAPI.py:10-47 | the method returns what the page fetched under the artist's title gives |
| WikipediaApi.ArtistGenresMeaning | WikipediaAPI.py:10-47 | `None` exactly when the page has no revisions or no infobox with a genre; otherwise lower-case genres without repetitions, each longer than one character and no stopword |
| TextScan.WsEnd | WikipediaGenres.py:43 | `\s*` ends at or after its start, within the text |
| TextScan.QuoteEnd | WikipediaGenres.py:43 | `[^']+` ends at or after its start, within the text |
| TextScan.NlEnd | WikipediaGenres.py:43 | `\s*\n` ends just after a newline, past its start |
| TextScan.Lazy | WikipediaGenres.py:43 | `(.+?)\s*\n` gives a group of at least the length tried, ending before the match's end, within the text |
| TextScan.Starts | WikipediaGenres.py:43 | `\s*(.+?)\s*\n` with backtracking gives a group start, group end and match end in increasing order within the text |
| TextScan.MatchAt | WikipediaGenres.py:43-44 | a match at a position ends beyond it and within the text |
| TextScan.Groups | WikipediaGenres.py:44 | `findall` gives the two groups of each match, as the text between their bounds |
| TextScan.WsEndAt | WikipediaGenres.py:43 | `\s*` stops at the first character that is not white space |
| TextScan.QuoteEndAt | WikipediaGenres.py:43 | `[^']+` stops at the first quote |
| TextScan.NlAheadAt | WikipediaGenres.py:43 | white space reaching a newline lets `\s*\n` match |
| TextScan.NoNlAhead | WikipediaGenres.py:43 | without a newline before the next character that is not white space, `\s*\n` cannot match |
| TextScan.NlEndAt | WikipediaGenres.py:43 | greedy white space ending in its last newline ends the match there |
| TextScan.LazyFrom | WikipediaGenres.py:43 | the lazy group grows past every length after which `\s*\n` cannot follow |
| TextScan.MatchAtParts | WikipediaGenres.py:43 | once each part of the pattern is located, the match and its groups are those parts |
| TextScan.SkipNoQuote | WikipediaGenres.py:44 | positions holding no quote start no match, so the scan passes over them |
| TextScan.ScanChain | WikipediaGenres.py:44 | a scan that takes one match at each offset in turn finds their groups in order |
| TextScan.SpansMatch | WikipediaGenres.py:44 | at a match the scan takes its groups and resumes where the match ended |
| TextScan.SpansOver | WikipediaGenres.py:44 | quote-free stretches around a match add nothing to the scan |
| WikipediaGenres.Stripped | WikipediaGenres.py:46-47 | each match keeps its id and has its name stripped |
| WikipediaGenres.NamesOf | WikipediaGenres.py:46-47 | the loop assigns each stripped name to its id, a later match overwriting an earlier one |
| WikipediaGenres.ExtractNamesFromText | WikipediaGenres.py:35-49 | the text reader's result is the assignments of the pattern's matches over the whole content |
| WikipediaGenres.LazyEntry | WikipediaGenres.py:43 | on a one-line name followed by the entry's closing lines the lazy group is exactly the name |
| WikipediaGenres.EntryAtText | List_Empty_Cache.py:87-89 | an entry's text, where it is written, holds its id and name in place |
| WikipediaGenres.EntryScannable | List_Empty_Cache.py:87-89 | an entry with a readable id and name has the characters the pattern needs where it needs them |
| WikipediaGenres.EntryFacts | List_Empty_Cache.py:87-89 | an entry with a readable id and name, where it is written, has the characters the scan needs, and its two groups are its id and name |
| WikipediaGenres.EntryMatch | WikipediaGenres.py:43-44 | the pattern, its parts located, matches from the entry's quote and the scan resumes after it |
| WikipediaGenres.ScanEntry | WikipediaGenres.py:43-44 | the scan over a written entry finds its id and name and resumes right after it |
| WikipediaGenres.RowAt | List_Empty_Cache.py:84-89 | the file holds each entry's written text at its offset |
| WikipediaGenres.RowsScannable | List_Empty_Cache.py:84-89 | every entry of a written file of readable rows has what the scan needs, with its id and name as groups |
| WikipediaGenres.RowSpans | List_Empty_Cache.py:84-89 | one pair of group spans per row, at that row's entry |
| WikipediaGenres.Offsets | List_Empty_Cache.py:84-89 | one offset per entry, and the end of the text |
| WikipediaGenres.ScanStep | WikipediaGenres.py:44 | the scan at an entry takes that entry and resumes at the next |
| WikipediaGenres.RowStep | WikipediaGenres.py:44 | in a written file the scan at a readable row's entry takes it and resumes at the next |
| WikipediaGenres.ScanRows | WikipediaGenres.py:44 | the scan over a whole written file of readable rows finds each entry's groups, in order |
| WikipediaGenres.Pairs | List_Empty_Cache.py:87 | each row gives its id and name |
| WikipediaGenres.TextRoundTrip | WikipediaGenres.py:43-44 | `re.findall` over a text file the listing writes, with readable ids and names, finds every row's id and name, in order |
| WikipediaGenres.StripReadable | WikipediaGenres.py:47 | a readable name is kept whole by `strip()` |
| WikipediaGenres.NamesFromRows | WikipediaGenres.py:46-49 | the names read from readable rows that list a map exactly are that map |
| WikipediaGenres.NamesFromJson | WikipediaGenres.py:20-25 | the JSON reader gives a name for every id of the file, and only those |
| WikipediaGenres.NamesOfJson | WikipediaGenres.py:20-25 | the loop over `data.items()` computes the names of the JSON file, its `name` when present or the text of the value otherwise |
| WikipediaGenres.ExtractArtistNamesFromJson | WikipediaGenres.py:12-33 | the reader reads the JSON file, and falls back to the text file when the JSON is missing or malformed |
| WikipediaGenres.ReadArtistsFails | WikipediaGenres.py:28-39 | reading fails exactly when the JSON file did not load and the text file is missing, and then with a missing-file error |
| WikipediaGenres.JsonOf | List_Empty_Cache.py:75-76 | the JSON written has one entry per listed artist |
| WikipediaGenres.ListedNames | List_Empty_Cache.py:59-66 | the names the listing collected, one per listed artist |
| WikipediaGenres.JsonReadBack | WikipediaGenres.py:20-25 | the JSON file of a listing reads back as its names |
| WikipediaGenres.ListedHaveNames | List_Empty_Cache.py:59-76 | the JSON saved is the collected data, and every collected artist has a name |
| WikipediaGenres.ListingJsonReadBack | WikipediaGenres.py:12-27 | the JSON file the listing saves reads back as exactly the names it collected |
| WikipediaGenres.ListingTextReadBack | WikipediaGenres.py:28-49 | when the JSON file is missing or malformed, the text file the listing saves reads back as the same names, provided every id and name is readable in the text |
| WikipediaGenres.NormalizedAtMostOne | Genre_Tools.py:231-307 | `normalize_genre` gives at most one label per genre |
| WikipediaGenres.NormalizedGenresMeaning | WikipediaGenres.py:65-73 | the normalized genres hold each label once, exactly the labels of the raw genres, and no more than the raw genres |
| WikipediaGenres.FlatMapAtMostOne | WikipediaGenres.py:67-70 | extending with at most one label per genre gives no more labels than genres |
| WikipediaGenres.Results | WikipediaGenres.py:51-95 | one result per artist read |
| WikipediaGenres.ResultsMeaning | WikipediaGenres.py:58-93 | each entry holds the artist's name and distinct genres; it has an error exactly when the lookup raised, and then no genres; a lookup that found nothing gives no genres |
| WikipediaGenres.ProcessArtist | WikipediaGenres.py:61-93 | one pass of the loop's body builds the artist's entry from the lookup |
| WikipediaGenres.GetGenresForArtists | WikipediaGenres.py:51-95 | the loop over the artists computes the results |
| WikipediaGenres.WithGenresFound | WikipediaGenres.py:118 | the artists counted as having genres are among the results |
| WikipediaGenres.SetCardLe | WikipediaGenres.py:118-122 | a subset is no larger than its superset |
| WikipediaGenres.NormalizedNonEmpty | WikipediaGenres.py:65-73 | some label is kept exactly when some raw genre normalizes to one |
| WikipediaGenres.FoundMeaning | WikipediaGenres.py:118 | an artist counts as having genres exactly when its lookup returned genres one of which normalizes to a label; a lookup that raised counts as without |
| WikipediaGenres.SummaryCounts | WikipediaGenres.py:118-122 | the summary counts every artist read, and those with genres plus those without make the total |
| WikipediaGenres.Run | WikipediaGenres.py:104-122 | `main` fails exactly when reading fails, before any lookup; otherwise it saves the results of the lookups and their summary |

## Left out

- The network: every catalog call (`sp.*`), the Wikipedia and Wikidata HTTP requests and the OAuth client setup. The answers are parameters instead.
- The wikitext parser (mwparserfromhell): its templates, wikilinks and stripped text are inputs to `WikipediaApi`, because the parser is a foreign library.
- `get_artist_country_wikidata` (WikipediaAPI.py): its answer is a parameter wherever a country is looked up, because it is only HTTP requests and JSON navigation.
- JSON reading and writing: the files are map values. A write is recorded as the value written.
- The clock and sleeping: `time.time()` is an explicit parameter, and a sleep lasts exactly as long as asked.
  - Elapsed times, progress estimates and `format_time` are left out.
- Floating point: the rate limiter's arithmetic is on exact reals, and the ranker's percentages are not modelled.
- Unicode case mapping: `lower()` and `title()` map ASCII letters only, so a genre such as "música popular brasileira" keeps its accented capitals.
- Python's set and dictionary iteration order. A `list(set)` result is modelled as a set, and the order a dictionary is iterated in is a parameter `listOf`.
  - Every property is proved for all orders.
- `find_matching_playlists` returns a list in the source; the model returns the set of its elements, because the list's order is the order of a dictionary iteration.
- Printing and summaries: the `print` calls, `print_summary` in Main.py and `print_artists_with_multiple_genres` in Mess_Lister.py only format output.
- Exceptions that escape to a script's top-level handler: they are the `Err` or raising outcome of the operation that raised. The handler itself only prints.
  - Main.py's `KeyboardInterrupt` branch is left out because it is a signal.
- The streamlit UI, its progress bars and worker threads (app.py, view/), because they are presentation and concurrency.
  - The controller's cancellation flag is kept as polled inputs.
- The interactive menus of the custom-genre manager (`main_menu`, `view_custom_genres`, `search_artist_by_name`, `check_artist_id_by_name`). Only the decisions the answers lead to are modelled.
- check_api_status.py, the root Artist_Cacher.py, Playlist_Backup.py, test_rate_limit.py and config_template.py. They are a thread timeout, per-track network orchestration, I/O only or constants.
- A legacy-shape migration on loading the cache. `load_artist_cache` performs none, so none is modelled.
- model/Genre_Tools.py is not part of this model. The model-layer playlist code that imports it is bound to the root Genre_Tools.py definitions.
- MainRun.UpdateArtistCacheWithCustomGenres reads each custom entry's genres as intended. As written, Main.py:45 extends a cached artist's genres with the whole entry, and Main.py:50-54 stores the whole entry as a new artist's genres. The code as written is `MainRun.ExtensionAsWritten` and `MainRun.MergedGenresAsWritten`; see Findings.
- The members below take a track's genres from the intended `TrackTagging.TrackGenres` (see Findings, Genre_Tools.py:225). As written, a pass that reaches a track with an artist cached with a Nordic country and at least one genre stops with AttributeError, because none of the calling loops catches it. Each of these members goes on with that track instead.
- GetTrackGenres (TrackTagging.GetTrackGenres) returns the intended genres; the raising code as written is `TrackTagging.TrackGenresAsWritten`.
- FileItem (TrackBuckets.FileItem) files such a track under its intended genres (model/Playlist_Tools.py:278).
- FileBatch (TrackBuckets.FileBatch) files every track of the batch, such tracks included.
- ProcessTracksBatchOptimized (TrackBuckets.ProcessTracksBatchOptimized) returns buckets where the source raises.
- CollectRawGenres (TrackBuckets.CollectRawGenres) records such a track's genres (Playlist_Tools.py:236) where the source raises.
- ProcessTracksNormalized (TrackBuckets.ProcessTracksNormalized) returns buckets where the source raises, through CollectRawGenres.
- CreateGenrePlaylistsRoot (GenrePlaylistBuild.CreateGenrePlaylistsRoot) writes playlists where the source stops before any write; its fallback cache records also carry the intended national tag (below).
- CreateGenrePlaylistsModel (GenrePlaylistBuild.CreateGenrePlaylistsModel) the same, through ProcessTracksBatchOptimized.
- RankPlaylistGenres (GenreRanker.RankPlaylistGenres) ranks where the source raises (Genre_Ranker.py:91).
- GenreCountsMeaning (GenreRanker.GenreCountsMeaning) describes counts the source never reaches for such a playlist.
- RankingMeaning (GenreRanker.RankingMeaning) describes a ranking the source never reaches for such a playlist.
- ListPlaylistGenres (GenreLister.ListPlaylistGenres) lists genres where the source raises (Genre_Lister.py:41).
- ListingMember (GenreLister.ListingMember) describes a listing the source never reaches for such a playlist.
- The members below append the national tag as intended, by `ArtistLookup.NationalTag`, which ignores the country's case (see Findings, Genre_Tools.py:122-125). As written, `get_artist_genres` adds no tag for the Wikidata country "Brazil" or "Japan"; `ArtistLookup.NationalTagAsWritten` models that.
- ArtistGenres (ArtistLookup.ArtistGenres) stores the intended tag on a cache miss.
- CacherRecord (CacheWriters.CacherRecord) takes a failed slice's genres from that intended lookup (controller/Artist_Cacher.py:151).
- CacheArtistGenres (CacheWriters.CacheArtistGenres) the same, through CacherRecord.
- FallbackRecord (GenrePlaylistBuild.FallbackRecord) leaves the intended record of `get_artist_genres` (Playlist_Tools.py:208).
- FillCache (GenrePlaylistBuild.FillCache) the same on every failed slice, through FallbackRecord.
- FallbackWriteIsLookup (GenrePlaylistBuild.FallbackWriteIsLookup) equates the write with the intended lookup.
- Three import bindings fail as written; the model binds each name to the definition it evidently means:
- Genre_Tools.py:13 imports `get_artists_batch` from the root spotify_client.py, which defines only `sp` and `get_artist_with_retry` (spotify_client.py:13-31). As written, every root script that imports Genre_Tools, directly or through Playlist_Tools.py, stops with ImportError. The model takes the batch request from the catalog oracle (`ArtistBatch`) and as model/spotify_client.py defines it (`SpotifyClient`).
- Main.py:22, Add_Custom_Genres.py:13, Custom_Genre_Updater.py:19 and Fix_Custom_Genres.py:19 import `load_custom_genres` (the second and fourth also `save_custom_genres`) from the root Artist_Genres.py, which defines only `get_custom_artist_genres` (Artist_Genres.py:1549). As written, these scripts stop with ImportError. The model reads them as model/Artist_Genres.py defines them (`CustomGenreFile`).
- Cleanup_Playlists.py:12 and Fix_Custom_Genres.py:17 import `find_matching_playlists`, and Cleanup_Playlists.py also `get_playlist_genre` and `identify_genre_playlists`, from the root Playlist_Tools.py, which defines none of them. As written, these scripts stop with ImportError. The model binds them to model/Playlist_Tools.py (`PlaylistNames`).

## Findings

| source | as written | input that shows it | evidently intended | confidence | as-written member | corrected member |
|---|---|---|---|---|---|---|
| Main.py:43-54 | `extend(custom_genre_list)` extends a cached artist's genre list with a whole custom entry `{"name", "genres"}`, which adds the entry's key names; for an artist not yet cached, the whole entry is stored as its `genres` | an artist cached with `["rock"]` whose entry is `{"name": "X", "genres": ["pop"]}` ends with `["rock", "name", "genres"]`; a new artist with that entry stores the object, read back as `["name", "genres"]` | use the entry's `genres` list, giving `["rock", "pop"]` and `["pop"]` | not executed | MainRun.ExtensionAsWritten, MainRun.DictEntryAddsKeyNames, MainRun.MergedGenresAsWritten, MainRun.NewArtistKeyNames | MainRun.MergedMeaning, MainRun.MergeAll |
| Genre_Tools.py:225 | `normalize_genre(g).lower()` calls `lower()` on the list `normalize_genre` returns | a track whose artist is cached with country "Sweden" and the genre "black metal" makes `get_track_genres` raise `AttributeError` | test whether some label of `g` mentions metal, and add "Scandinavian Metal" | not executed | TrackTagging.TrackGenresAsWritten, TrackTagging.NordicMetalRaises | TrackTagging.TrackGenres |
| Genre_Tools.py:122-125 | the country is compared case-sensitively with "brazil" and "japan" | the Wikidata country "Brazil" adds no "Brazilian Music" | compare the lower-cased country | not executed | ArtistLookup.NationalTagAsWritten, ArtistLookup.CapitalisedCountryMissed | ArtistLookup.NationalTag |
| controller/Playlist_Creator.py:29-34 | `create_genre_playlists(playlist_id, progress_callback=...)` passes an argument the function does not take | any call raises `TypeError` before a playlist is created | report progress through the callback while building the buckets | not executed | ControllerPlaylists.ControllerAsWritten, ControllerPlaylists.AsWrittenCreatesNothing | ControllerPlaylists.CreateGenrePlaylistsControlled |
| Artist_Checker.py:78-80 | empty pieces of the typed answer are kept, so `if manual_genres` is always true | answering `y` and then a blank line stores the genre list `[""]` | drop blank pieces and store nothing for a blank answer | not executed | ArtistChecker.ManualGenresAsWritten, ArtistChecker.BlankAnswerStoresEmptyGenre | ArtistChecker.PrintArtistGenres, ArtistChecker.BlankAnswerWritesNothing |
