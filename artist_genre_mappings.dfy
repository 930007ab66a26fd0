/**
 * The hand-written table of custom genres in Artist_Genres.py
 * (`ARTIST_GENRE_MAPPINGS`) and its lookup `get_custom_artist_genres`.
 * The table's values are raw tags as typed by hand, not canonical labels,
 * and many entries are empty lists.
 */
module ArtistGenreMappings {

  /** Artist id to its hand-written list of raw tags. */
  type MappingTable = map<string, seq<string>>

  /** A few rows of the table, as they appear at its head and in its middle. */
  const SampleMappings: MappingTable := map[
    "3rIZMv9rysU7JkLzEaC5Jp" := ["alternative rock", "rock", "power pop", "post-britpop", "indie rock"],
    "0kObWap02DEg9EAJ3PBxzf" := ["rock", "pop rock", "arena rock", "classic rock"],
    "6GI52t8N5F02MxU0g5U69P" := ["latin rock", "blues rock", "psychedelic rock", "acid rock",
                                 "Chicano rock", "jazz fusion", "yacht rock"],
    "1o2NpYGqHiCq7FoiYdyd1x" := ["pop", "pop rock"],
    "64M6ah0SkkRsnPGtGiRAbb" := []
  ]

  /** `ARTIST_GENRE_MAPPINGS.get(artist_id, [])`. */
  function CustomArtistGenres(table: MappingTable, artistId: string): (r: seq<string>)
    ensures artistId in table ==> r == table[artistId]
    ensures artistId !in table ==> r == []
  {
    if artistId in table then table[artistId] else []
  }

  /** An empty answer does not mean the id is missing: some rows are empty lists. */
  lemma EmptyDoesNotMeanAbsent()
    ensures CustomArtistGenres(SampleMappings, "64M6ah0SkkRsnPGtGiRAbb") == []
    ensures "64M6ah0SkkRsnPGtGiRAbb" in SampleMappings
    ensures CustomArtistGenres(SampleMappings, "") == [] && "" !in SampleMappings
  {
  }

  /** The rows hold raw tags: "Chicano rock" is stored with its own capitalisation. */
  lemma RawTagsStored()
    ensures "Chicano rock" in CustomArtistGenres(SampleMappings, "6GI52t8N5F02MxU0g5U69P")
  {
    assert SampleMappings["6GI52t8N5F02MxU0g5U69P"][4] == "Chicano rock";
  }
}
