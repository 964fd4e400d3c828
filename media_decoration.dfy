/**
 * Decoration of fetched movies and shows with the loaded configuration
 * (`mapConfigurationToMovies` and `mapConfigurationToShows`). Both walk the fetched
 * array with an index loop and overwrite three fields of every record in place: the
 * genre names looked up from the genre table, and the two image paths prefixed with
 * the configured base URLs. Shows are decorated with the same movie genre table.
 */
module MediaDecoration {
  import opened Wrappers

  /** The configuration slice the decoration reads. */
  datatype Configuration = Configuration(
    backdropPath: string,
    posterPath: string,
    movieGenres: map<int, string>)

  /** The fields of one media record at one moment. */
  datatype MediaFields = MediaFields(
    id: int,
    rating: real,
    genreIds: seq<int>,
    genreNames: Option<seq<Option<string>>>,
    backdropPath: Option<string>,
    posterPath: Option<string>)

  /**
   * A movie or show record as parsed from an API response. The decoration loop writes
   * its fields in place; `genreNames` is absent until then, and an image path the API
   * has no image for is `null` (`None`).
   */
  class MediaRecord {
    var id: int
    var rating: real
    var genreIds: seq<int>
    var genreNames: Option<seq<Option<string>>>
    var backdropPath: Option<string>
    var posterPath: Option<string>

    constructor (id: int, rating: real, genreIds: seq<int>, backdropPath: Option<string>, posterPath: Option<string>)
      ensures View() == MediaFields(id, rating, genreIds, None, backdropPath, posterPath)
    {
      this.id := id;
      this.rating := rating;
      this.genreIds := genreIds;
      this.genreNames := None;
      this.backdropPath := backdropPath;
      this.posterPath := posterPath;
    }

    /** The record's current fields. */
    function View(): MediaFields
      reads this
    {
      MediaFields(id, rating, genreIds, genreNames, backdropPath, posterPath)
    }
  }

  /** `configuration.movieGenres[id]`: the genre's name, or undefined for an unknown id. */
  function GenreName(genres: map<int, string>, id: int): Option<string>
  {
    if id in genres then Some(genres[id]) else None
  }

  /** `genre_ids.map(id => configuration.movieGenres[id])`. */
  function GenreNames(genres: map<int, string>, ids: seq<int>): (names: seq<Option<string>>)
    ensures |names| == |ids|
    ensures forall j :: 0 <= j < |ids| ==> names[j] == GenreName(genres, ids[j])
    ensures forall j :: 0 <= j < |ids| && ids[j] in genres ==> names[j] == Some(genres[ids[j]])
    ensures forall j :: 0 <= j < |ids| && ids[j] !in genres ==> names[j] == None
  {
    if ids == [] then [] else [GenreName(genres, ids[0])] + GenreNames(genres, ids[1..])
  }

  /** How a template literal renders a fetched path: `null` becomes the text "null". */
  function Interpolated(path: Option<string>): string
  {
    match path
    case Some(text) => text
    case None => "null"
  }

  /**
   * What one pass of the decoration loop makes of one record: it keeps the identity, the
   * rating and the genre ids, fills in one genre name per genre id, and only prefixes the
   * rendered image paths, so stripping the base URLs gives the fetched paths back.
   */
  function Decorated(config: Configuration, m: MediaFields): (d: MediaFields)
    ensures d.id == m.id && d.rating == m.rating && d.genreIds == m.genreIds
    ensures d.genreNames.Some? && |d.genreNames.value| == |m.genreIds|
    ensures forall j :: 0 <= j < |m.genreIds| ==>
              d.genreNames.value[j] == GenreName(config.movieGenres, m.genreIds[j])
    ensures d.backdropPath.Some?
            && StripBase(config.backdropPath, d.backdropPath.value) == Some(Interpolated(m.backdropPath))
    ensures d.posterPath.Some?
            && StripBase(config.posterPath, d.posterPath.value) == Some(Interpolated(m.posterPath))
  {
    var d := m.(genreNames := Some(GenreNames(config.movieGenres, m.genreIds)),
                backdropPath := Some(config.backdropPath + Interpolated(m.backdropPath)),
                posterPath := Some(config.posterPath + Interpolated(m.posterPath)));
    assert d.backdropPath.value[|config.backdropPath|..] == Interpolated(m.backdropPath);
    assert d.posterPath.value[|config.posterPath|..] == Interpolated(m.posterPath);
    d
  }

  /** The records an array refers to. */
  function Elements(a: array<MediaRecord>): set<MediaRecord>
    reads a
  {
    set i | 0 <= i < a.Length :: a[i]
  }

  /** No record occurs twice in the array (true of every freshly parsed response). */
  predicate Distinct(a: array<MediaRecord>)
    reads a
  {
    forall i, j :: 0 <= i < j < a.Length ==> a[i] != a[j]
  }

  /**
   * `mapConfigurationToMovies(configuration)(movies)`, and equally
   * `mapConfigurationToShows(configuration)(shows)`: decorates every record of the array
   * in place, in index order, and returns the same array.
   */
  method DecorateMedia(config: Configuration, media: array<MediaRecord>) returns (decorated: array<MediaRecord>)
    requires Distinct(media)
    modifies Elements(media)
    ensures decorated == media
    ensures media[..] == old(media[..])
    ensures forall i :: 0 <= i < media.Length ==> media[i].View() == Decorated(config, old(media[i].View()))
  {
    var i, len := 0, media.Length;
    while i < len
      invariant 0 <= i <= len == media.Length
      invariant forall k :: 0 <= k < i ==> media[k].View() == Decorated(config, old(media[k].View()))
      invariant forall k :: i <= k < len ==> media[k].View() == old(media[k].View())
    {
      var item := media[i];
      item.genreNames := Some(GenreNames(config.movieGenres, item.genreIds));
      item.backdropPath := Some(config.backdropPath + Interpolated(item.backdropPath));
      item.posterPath := Some(config.posterPath + Interpolated(item.posterPath));
      i := i + 1;
    }
    decorated := media;
  }

  /** Removes a base URL from the front of a path, if the path starts with it. */
  function StripBase(base: string, path: string): (stripped: Option<string>)
    ensures stripped.Some? <==> base <= path
    ensures stripped.Some? ==> base + stripped.value == path
  {
    if base <= path then Some(path[|base|..]) else None
  }

  /**
   * Decoration is not idempotent: decorating an already decorated record leaves it as it
   * was exactly when both base URLs are empty; otherwise the base URL is prefixed twice.
   */
  lemma DecorateTwice(config: Configuration, m: MediaFields)
    ensures Decorated(config, Decorated(config, m)).backdropPath
              == Some(config.backdropPath + config.backdropPath + Interpolated(m.backdropPath))
    ensures Decorated(config, Decorated(config, m)).posterPath
              == Some(config.posterPath + config.posterPath + Interpolated(m.posterPath))
    ensures (Decorated(config, Decorated(config, m)) == Decorated(config, m))
        <==> (config.backdropPath == [] && config.posterPath == [])
  {
    var once := Decorated(config, m);
    assert Interpolated(once.backdropPath) == config.backdropPath + Interpolated(m.backdropPath);
    assert Interpolated(once.posterPath) == config.posterPath + Interpolated(m.posterPath);
    assert config.backdropPath + (config.backdropPath + Interpolated(m.backdropPath))
        == config.backdropPath + config.backdropPath + Interpolated(m.backdropPath);
    assert config.posterPath + (config.posterPath + Interpolated(m.posterPath))
        == config.posterPath + config.posterPath + Interpolated(m.posterPath);
  }

  /**
   * A worked example. The paths are joined by plain concatenation, so a base URL ending
   * in '/' and a path starting with '/' give a double slash, and a `null` poster path
   * becomes the text "null" after the base URL; an unknown genre id gives an absent name.
   */
  lemma DecorationExample()
    ensures var config := Configuration("https://img/", "https://img/p/", map[28 := "Action"]);
            var movie := MediaFields(1, 7.5, [28, 99], None, Some("/x.jpg"), None);
            Decorated(config, movie)
              == MediaFields(1, 7.5, [28, 99], Some([Some("Action"), None]),
                             Some("https://img//x.jpg"), Some("https://img/p/null"))
  {
    var config := Configuration("https://img/", "https://img/p/", map[28 := "Action"]);
    assert GenreNames(config.movieGenres, [28, 99]) == [Some("Action"), None];
    assert "https://img/" + "/x.jpg" == "https://img//x.jpg";
    assert "https://img/p/" + "null" == "https://img/p/null";
  }
}
