/**
  `MovieDataManager` (MovieListToMVVM/Data/MovieDataManager.swift, lines 3-39):
  an id-keyed cache of favourite movies, written out whole after every change.
  The JSON encoding and `UserDefaults` are not modelled: what is stored under
  the key is `Persisted`, either nothing, data that does not decode, or the
  encoded list of movies.
 */
module MovieData {
  import opened Movies

  datatype Persisted = Missing | Undecodable | Encoded(movies: seq<Movie>)

  /** Every entry of the cache is stored under its own id. */
  ghost predicate KeyedById(cache: map<string, Movie>)
  {
    forall id | id in cache :: cache[id].id == id
  }

  /** `s` lists the values of `cache`, each once, in some order. */
  ghost predicate IsSnapshot(s: seq<Movie>, cache: map<string, Movie>)
  {
    && UniqueIds(s)
    && IdSet(s) == cache.Keys
    && forall i | 0 <= i < |s| :: cache[s[i].id] == s[i]
  }

  /** `Dictionary(uniqueKeysWithValues: movies.map { ($0.id, $0) })`, which traps on a repeated id. */
  function ById(movies: seq<Movie>): (cache: map<string, Movie>)
    requires UniqueIds(movies)
    ensures cache.Keys == IdSet(movies)
    ensures forall i | 0 <= i < |movies| :: cache[movies[i].id] == movies[i]
    decreases |movies|
  {
    if movies == [] then map[]
    else
      var init := movies[..|movies| - 1];
      var last := movies[|movies| - 1];
      assert movies == init + [last];
      ById(init)[last.id := last]
  }

  /** A map built from a list is keyed by id. */
  lemma ByIdKeyedById(movies: seq<Movie>)
    requires UniqueIds(movies)
    ensures KeyedById(ById(movies))
  {
  }

  /** `Array(movieCache.values)`: every value once, in an order the model leaves open. */
  method ValuesOf(cache: map<string, Movie>) returns (values: seq<Movie>, ghost keys: seq<string>)
    ensures |values| == |cache|
    ensures forall i | 0 <= i < |values| :: values[i] in cache.Values
    ensures forall id | id in cache :: cache[id] in values
    ensures |keys| == |values|
    ensures forall i, j | 0 <= i < j < |keys| :: keys[i] != keys[j]
    ensures forall id :: id in cache <==> id in keys
    ensures forall i | 0 <= i < |values| :: keys[i] in cache && values[i] == cache[keys[i]]
  {
    values, keys := [], [];
    var remaining := cache.Keys;
    while remaining != {}
      invariant remaining <= cache.Keys
      invariant |keys| == |values| && |values| + |remaining| == |cache|
      invariant forall i, j | 0 <= i < j < |keys| :: keys[i] != keys[j]
      invariant forall id :: id in cache <==> id in keys || id in remaining
      invariant forall i | 0 <= i < |keys| :: keys[i] !in remaining
      invariant forall i | 0 <= i < |values| :: keys[i] in cache && values[i] == cache[keys[i]]
      decreases remaining
    {
      var id :| id in remaining;
      values, keys := values + [cache[id]], keys + [id];
      remaining := remaining - {id};
    }
    forall id | id in cache ensures cache[id] in values {
      var i :| 0 <= i < |keys| && keys[i] == id;
    }
  }

  /** Loading a snapshot cannot trap, and the map rebuilt from it is exactly the cache. */
  lemma LoadAfterSave(s: seq<Movie>, cache: map<string, Movie>)
    requires IsSnapshot(s, cache)
    ensures ById(s) == cache
  {
  }

  class MovieDataManager {
    var movieCache: map<string, Movie>
    var stored: Persisted

    ghost predicate Valid()
      reads this
    {
      KeyedById(movieCache)
    }

    /** The shared instance: an empty cache, over whatever is already stored. */
    constructor(existing: Persisted)
      ensures Valid() && movieCache == map[] && stored == existing
    {
      movieCache := map[];
      stored := existing;
    }

    /** `addToCache`: insert or overwrite the entry for the movie's id, then save. */
    method AddToCache(movie: Movie)
      requires Valid()
      modifies this
      ensures Valid()
      ensures movieCache == old(movieCache)[movie.id := movie]
      ensures |movieCache| <= |old(movieCache)| + 1
      ensures movie.id in old(movieCache) ==> |movieCache| == |old(movieCache)|
      ensures stored.Encoded? && IsSnapshot(stored.movies, movieCache)
    {
      movieCache := movieCache[movie.id := movie];
      assert movieCache.Keys == old(movieCache).Keys + {movie.id};
      SaveToUserDefaults();
    }

    /** `removeFromCache`: drop the entry for `movieId`, if any, then save. */
    method RemoveFromCache(movieId: string)
      requires Valid()
      modifies this
      ensures Valid()
      ensures movieCache == old(movieCache) - {movieId}
      ensures movieId !in old(movieCache) ==> movieCache == old(movieCache)
      ensures stored.Encoded? && IsSnapshot(stored.movies, movieCache)
    {
      movieCache := movieCache - {movieId};
      SaveToUserDefaults();
    }

    /** `saveToUserDefaults`: overwrite what is stored with all values of the cache. */
    method SaveToUserDefaults()
      requires Valid()
      modifies this`stored
      ensures stored.Encoded? && IsSnapshot(stored.movies, movieCache)
    {
      var values, keys := ValuesOf(movieCache);
      assert forall i | 0 <= i < |values| :: values[i].id == keys[i];
      assert IdSet(values) == movieCache.Keys by {
        forall id | id in movieCache ensures id in IdSet(values) {
          var i :| 0 <= i < |keys| && keys[i] == id;
        }
      }
      stored := Encoded(values);
    }

    /**
      `loadFromUserDefaults`: with nothing stored, or data that does not
      decode, return no movies and leave the cache alone; otherwise the cache
      becomes the id map of the stored list, which is returned.
     */
    method LoadFromUserDefaults() returns (movies: seq<Movie>)
      requires Valid()
      requires stored.Encoded? ==> UniqueIds(stored.movies)
      modifies this`movieCache
      ensures Valid()
      ensures !stored.Encoded? ==> movies == [] && movieCache == old(movieCache)
      ensures stored.Encoded? ==> movies == stored.movies && movieCache == ById(movies)
    {
      match stored
      case Encoded(decoded) =>
        ByIdKeyedById(decoded);
        movieCache := ById(decoded);
        movies := decoded;
      case _ =>
        movies := [];
    }
  }

  /**
    A client run: whatever was in the cache, saving it and loading it back
    gives the same cache, and the ids returned are exactly its keys.
   */
  method SaveThenLoad(manager: MovieDataManager)
    requires manager.Valid()
    modifies manager
  {
    ghost var before := manager.movieCache;
    manager.SaveToUserDefaults();
    var movies := manager.LoadFromUserDefaults();
    assert manager.movieCache == before;
    assert IdSet(movies) == before.Keys;
  }
}
