/**
  The `Movie` record and the id lookups the view model performs on a list of
  movies (MovieListToMVVM/Models/Movie.swift).
 */
module Movies {
  import opened Wrappers

  /** One movie. `rating` is the source's `Double`; the model only carries it. */
  datatype Movie = Movie(
    id: string,
    title: string,
    overview: string,
    releaseDate: string,
    rating: real,
    posterPath: Option<string>,
    isFavorite: bool)

  /** The ids that occur in `list`. */
  function IdSet(list: seq<Movie>): set<string>
  {
    set i | 0 <= i < |list| :: list[i].id
  }

  /** No two records of `list` share an id. */
  predicate UniqueIds(list: seq<Movie>)
  {
    forall i, j | 0 <= i < j < |list| :: list[i].id != list[j].id
  }

  /** `a` and `b` carry the same ids in the same positions. */
  predicate SameIds(a: seq<Movie>, b: seq<Movie>)
  {
    |a| == |b| && forall i | 0 <= i < |a| :: a[i].id == b[i].id
  }

  /** Swift's `list.firstIndex(where: { $0.id == id })`. */
  function FirstIndex(list: seq<Movie>, id: string): (r: Option<nat>)
    ensures r.Some? ==> r.value < |list| && list[r.value].id == id
    ensures r.Some? ==> forall j | 0 <= j < r.value :: list[j].id != id
    ensures r.None? <==> id !in IdSet(list)
  {
    if list == [] then None
    else if list[0].id == id then Some(0)
    else
      match FirstIndex(list[1..], id)
      case None => None
      case Some(j) => Some(j + 1)
  }

  /** The first occurrence of an id depends only on the ids, not on the other fields. */
  lemma FirstIndexSameIds(a: seq<Movie>, b: seq<Movie>, id: string)
    requires SameIds(a, b)
    ensures FirstIndex(a, id) == FirstIndex(b, id)
  {
  }
}
