/**
  The service the view model talks to (MovieListToMVVM/Protocols/MovieServiceProtocol.swift),
  seen only at its boundary. The fetch itself is asynchronous: asking for it is
  recorded here, and its result is handed to the view model's completion
  separately. `loadSavedMovies` is called by the view model but missing from
  the declared protocol; it returns the favourites the service has stored,
  which the model takes as given when the service is created.
 */
module MovieServices {
  import opened Movies

  datatype ServiceCall =
    | FetchRequested
    | SaveRequested(movie: Movie)
    | DeleteRequested(movie: Movie)

  class MovieService {
    const savedMovies: seq<Movie>
    ghost var calls: seq<ServiceCall>

    constructor(saved: seq<Movie>)
      ensures savedMovies == saved && calls == []
    {
      savedMovies := saved;
      calls := [];
    }

    /** `fetchMovies(completion:)`: the request; its completion is modelled by the caller. */
    method FetchMovies()
      modifies this`calls
      ensures calls == old(calls) + [FetchRequested]
    {
      calls := calls + [FetchRequested];
    }

    /** `saveMovie(_:)`: fire and forget. */
    method SaveMovie(m: Movie)
      modifies this`calls
      ensures calls == old(calls) + [SaveRequested(m)]
    {
      calls := calls + [SaveRequested(m)];
    }

    /** `deleteMovie(_:)`: fire and forget. */
    method DeleteMovie(m: Movie)
      modifies this`calls
      ensures calls == old(calls) + [DeleteRequested(m)]
    {
      calls := calls + [DeleteRequested(m)];
    }

    /** `loadSavedMovies()`: a read of the stored favourites that changes nothing. */
    method LoadSavedMovies() returns (movies: seq<Movie>)
      ensures movies == savedMovies
    {
      movies := savedMovies;
    }
  }
}
