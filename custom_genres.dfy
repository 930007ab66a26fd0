/**
 * model/Artist_Genres.py: the custom-genres file (`custom_artist_genres.json`)
 * as it is loaded, read for one artist, and overwritten for one artist.
 */
module CustomGenreFile {
  import opened Wrappers
  import opened Records

  /** What `load_custom_genres` finds on disk. */
  datatype FileState = Missing | Corrupt | Parsed(entries: CustomGenres)

  /** `load_custom_genres`: a missing file or one that is not valid JSON gives `{}`. */
  function LoadCustomGenres(file: FileState): (r: CustomGenres)
    ensures file.Parsed? ==> r == file.entries
    ensures !file.Parsed? ==> r == map[]
  {
    match file
      case Parsed(entries) => entries
      case _ => map[]
  }

  /**
   * `get_custom_artist_genres`: the `genres` of a dictionary entry holding
   * them, the entry itself when it is a bare list, and `[]` otherwise.
   */
  function CustomGenresOf(custom: CustomGenres, artistId: string): (r: seq<string>)
    ensures artistId !in custom ==> r == []
    ensures artistId in custom && (custom[artistId].CText? || custom[artistId].COther?) ==> r == []
    ensures artistId in custom && custom[artistId].CDict? && custom[artistId].genres.None? ==> r == []
  {
    if artistId !in custom then []
    else match custom[artistId]
      case CDict(_, genres, _) => if genres.Some? then genres.value else []
      case CList(items) => items
      case CText(_) => []
      case COther => []
  }

  /** `artist_name or f"Artist_{artist_id}"`: the given name unless it is missing or empty. */
  function NameOrDefault(artistName: Option<string>, artistId: string): (r: string)
    ensures artistName.Some? && artistName.value != "" ==> r == artistName.value
    ensures artistName.None? || artistName.value == "" ==> r == "Artist_" + artistId
  {
    if artistName.Some? && artistName.value != "" then artistName.value else "Artist_" + artistId
  }

  /** `add_custom_genres`: that artist's entry becomes `{name, genres}`; every other entry stays. */
  function AddCustomGenres(custom: CustomGenres, artistId: string, genres: seq<string>, artistName: Option<string>): (r: CustomGenres)
    ensures r.Keys == custom.Keys + {artistId}
    ensures r[artistId] == CDict(Some(NameOrDefault(artistName, artistId)), Some(genres), None)
    ensures forall a :: a in custom && a != artistId ==> r[a] == custom[a]
  {
    custom[artistId := CDict(Some(NameOrDefault(artistName, artistId)), Some(genres), None)]
  }

  /** Reading back after an add gives the genres added; every other artist reads as before. */
  lemma AddThenGet(custom: CustomGenres, artistId: string, genres: seq<string>, artistName: Option<string>, other: string)
    ensures CustomGenresOf(AddCustomGenres(custom, artistId, genres, artistName), artistId) == genres
    ensures other != artistId ==>
      CustomGenresOf(AddCustomGenres(custom, artistId, genres, artistName), other) == CustomGenresOf(custom, other)
  {
  }

  /** Adding the same genres twice is adding them once. */
  lemma AddIdempotent(custom: CustomGenres, artistId: string, genres: seq<string>, artistName: Option<string>)
    ensures var once := AddCustomGenres(custom, artistId, genres, artistName);
      AddCustomGenres(once, artistId, genres, artistName) == once
  {
  }
}
