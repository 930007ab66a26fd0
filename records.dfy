/**
 * The entities the scripts pass around: entries of the artist-genre cache
 * file, entries of the custom-genres file, and the artist and track objects
 * the music catalog returns.
 */
module Records {
  import opened Wrappers

  /**
   * One value of the artist cache (`artist_genre_cache.json`), keyed by artist id.
   * `name` is missing in the entries some writers create; `country` may be
   * missing, `null`, or a country name.
   */
  datatype Record = Record(name: Option<string>, genres: seq<string>, country: Field<string>)
  {
    /** Python's truth value of `entry.get('name')`. */
    predicate HasName() { name.Some? && name.value != "" }
    /** `entry.get('country')`. */
    function Country(): Option<string> { country.Get() }
  }

  /** The artist cache: artist id to record. */
  type Cache = map<string, Record>

  /**
   * A catalog artist object: `id`, `name`, `genres`, and the `country` key the
   * catalog never sends (read with `.get`, so always `None` in practice).
   */
  datatype Artist = Artist(id: string, name: string, genres: seq<string>, country: Option<string>)

  /** A catalog track: its id and the ids of its credited artists, in order. */
  datatype Track = Track(id: string, artists: seq<string>)

  /** A playlist item: `item['track']`, which is `null` for removed or local tracks. */
  type Item = Option<Track>

  /**
   * One value of the custom-genres file (`custom_artist_genres.json`), keyed by
   * artist id: an object with optional `name`, `genres` and `error` keys, a
   * bare list of genres, a string, or anything else (a number, a boolean,
   * `null`).
   */
  datatype CustomEntry =
    | CDict(name: Option<string>, genres: Option<seq<string>>, error: Option<string>)
    | CList(items: seq<string>)
    | CText(text: string)
    | COther

  type CustomGenres = map<string, CustomEntry>

  /** The ids of the non-null tracks among `items`, as a set. */
  function TrackIdSet(items: seq<Item>): (r: set<string>)
    ensures forall k :: 0 <= k < |items| && items[k].Some? ==> items[k].value.id in r
    ensures forall t :: t in r ==> exists k :: 0 <= k < |items| && items[k].Some? && items[k].value.id == t
  {
    set k | 0 <= k < |items| && items[k].Some? :: items[k].value.id
  }
}
