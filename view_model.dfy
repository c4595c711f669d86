/**
  `DefaultMovieListViewModel` (MovieListToMVVM/ViewModel/DefaultMovieListViewModel.swift):
  owns the movie list, changes favourite flags in it, merges fetched lists
  with the saved favourites and publishes its outputs through four
  observables. The source defers the cell republish and the fetch completion
  to the main queue; the model runs them at once, and the completion is the
  method `CompleteFetch`, called with the fetch's result.
 */
module MovieListViewModels {
  import opened Wrappers
  import opened Movies
  import opened Observables
  import opened MovieCells
  import opened MovieServices
  import opened FavoriteLists

  /** What a fetch resolves with: the movies, or the error's description. */
  datatype FetchResult = Success(movies: seq<Movie>) | Failure(message: string)

  /** One assignment to one of the four outputs; the view model logs them in order. */
  datatype Publication =
    | LoadingPublished(isLoading: bool)
    | CellsPublished(cells: seq<MovieCell>)
    | ErrorPublished(error: Option<string>)
    | FavoritePublished(movieId: string, isFavorite: bool)

  /** The service call that persists a record's new flag: save when favourite, delete otherwise. */
  function PersistCall(m: Movie): ServiceCall
  {
    if m.isFavorite then SaveRequested(m) else DeleteRequested(m)
  }

  /** `updateMoviesViewModel`: republish the cells unless disposed. */
  function Republished(s: Slot<seq<MovieCell>>, disposed: bool, list: seq<Movie>): Slot<seq<MovieCell>>
  {
    if disposed then s else Assigned(s, Cells(list))
  }

  /** The log entry of `updateMoviesViewModel`. */
  function CellsPublication(disposed: bool, list: seq<Movie>): seq<Publication>
  {
    if disposed then [] else [CellsPublished(Cells(list))]
  }

  class DefaultMovieListViewModel {
    const movies: Observable<seq<MovieCell>>
    const isLoading: Observable<bool>
    const error: Observable<Option<string>>
    const favoriteUpdated: Observable<(string, bool)>
    const movieService: MovieService
    var movieList: seq<Movie>
    var isDisposed: bool
    ghost var published: seq<Publication>

    /** While the view model is live, the published cells are those of the current list. */
    ghost predicate Valid()
      reads this, movies
    {
      !isDisposed ==> movies.value == Cells(movieList)
    }

    /**
      `init(movieService:)`: empty list, outputs at their initial values, and
      the merge with the saved favourites, which on the empty list changes nothing.
     */
    constructor(service: MovieService)
      ensures Valid()
      ensures fresh(movies) && fresh(isLoading) && fresh(error) && fresh(favoriteUpdated)
      ensures movieService == service && unchanged(service)
      ensures movieList == [] && !isDisposed && published == []
      ensures movies.Snapshot() == Fresh([]) && isLoading.Snapshot() == Fresh(false)
      ensures error.Snapshot() == Fresh(None) && favoriteUpdated.Snapshot() == Fresh(("", false))
    {
      movies := new Observable([]);
      isLoading := new Observable(false);
      error := new Observable(None);
      favoriteUpdated := new Observable(("", false));
      movieService := service;
      movieList := [];
      isDisposed := false;
      published := [];
      new;
      LoadSavedMovies();
      MergeIntoEmpty(service.savedMovies);
    }

    /** `deinit`: from here on, completions and republishes are skipped. */
    method Dispose()
      modifies this`isDisposed
      ensures isDisposed
    {
      isDisposed := true;
    }

    /**
      `toggleFavorite(at:)`. An index past the end is ignored. Otherwise the
      record's flag is flipped, the record is saved when it became favourite
      and deleted otherwise, `(id, flag)` is published and the cells are republished.
     */
    method ToggleFavorite(index: int)
      requires Valid() && 0 <= index
      modifies this`movieList, this`published, movies, favoriteUpdated, movieService
      ensures Valid() && isDisposed == old(isDisposed)
      ensures index >= old(|movieList|) ==>
        movieList == old(movieList) && published == old(published)
        && unchanged(movies, favoriteUpdated, movieService)
      ensures index < old(|movieList|) ==>
        var m := old(movieList[index]).(isFavorite := !old(movieList[index].isFavorite));
        && movieList == Toggled(old(movieList), index) && movieList[index] == m
        && movieService.calls == old(movieService.calls) + [PersistCall(m)]
        && favoriteUpdated.Snapshot() == Assigned(old(favoriteUpdated.Snapshot()), (m.id, m.isFavorite))
        && movies.Snapshot() == Republished(old(movies.Snapshot()), isDisposed, movieList)
        && published == old(published) + [FavoritePublished(m.id, m.isFavorite)]
                                         + CellsPublication(isDisposed, movieList)
    {
      if index >= |movieList| {
        return;
      }
      movieList := Toggled(movieList, index);
      var movie := movieList[index];
      if movie.isFavorite {
        movieService.SaveMovie(movie);
      } else {
        movieService.DeleteMovie(movie);
      }
      favoriteUpdated.SetValue((movie.id, movie.isFavorite));
      published := published + [FavoritePublished(movie.id, movie.isFavorite)];
      UpdateMoviesViewModel();
    }

    /**
      `updateFavoriteStatus(for:isFavorite:)`. An id no record carries is
      ignored. Otherwise the first record with that id gets the flag, is saved
      or deleted according to it, the cells are republished and `(id, flag)`
      is published.
     */
    method UpdateFavoriteStatus(movieId: string, isFavorite: bool)
      requires Valid()
      modifies this`movieList, this`published, movies, favoriteUpdated, movieService
      ensures Valid() && isDisposed == old(isDisposed)
      ensures movieId !in IdSet(old(movieList)) ==>
        movieList == old(movieList) && published == old(published)
        && unchanged(movies, favoriteUpdated, movieService)
      ensures movieId in IdSet(old(movieList)) ==>
        var i := FirstIndex(old(movieList), movieId).value;
        var m := old(movieList)[i].(isFavorite := isFavorite);
        && movieList == WithFavorite(old(movieList), movieId, isFavorite)
        && m.id == movieId
        && movieService.calls == old(movieService.calls) + [PersistCall(m)]
        && movies.Snapshot() == Republished(old(movies.Snapshot()), isDisposed, movieList)
        && favoriteUpdated.Snapshot() == Assigned(old(favoriteUpdated.Snapshot()), (movieId, isFavorite))
        && published == old(published) + CellsPublication(isDisposed, movieList)
                                         + [FavoritePublished(movieId, isFavorite)]
    {
      var found := FirstIndex(movieList, movieId);
      if found.Some? {
        var index := found.value;
        var updatedMovie := movieList[index].(isFavorite := isFavorite);
        if isFavorite {
          movieService.SaveMovie(updatedMovie);
        } else {
          movieService.DeleteMovie(updatedMovie);
        }
        movieList := movieList[index := updatedMovie];
        UpdateMoviesViewModel();
        favoriteUpdated.SetValue((movieId, isFavorite));
        published := published + [FavoritePublished(movieId, isFavorite)];
      }
    }

    /** `clearCache`: empty the list and republish; nothing is saved or deleted. */
    method ClearCache()
      requires Valid()
      modifies this`movieList, this`published, movies
      ensures Valid() && isDisposed == old(isDisposed)
      ensures movieList == []
      ensures movies.Snapshot() == Republished(old(movies.Snapshot()), isDisposed, [])
      ensures published == old(published) + CellsPublication(isDisposed, [])
    {
      movieList := [];
      UpdateMoviesViewModel();
    }

    /** `viewDidLoad`: start a fetch. */
    method ViewDidLoad()
      requires Valid()
      modifies this`published, isLoading, movieService
      ensures Valid() && movieList == old(movieList) && isDisposed == old(isDisposed)
      ensures old(isDisposed) ==> published == old(published) && unchanged(isLoading, movieService)
      ensures !old(isDisposed) ==> FetchStarted()
    {
      FetchMovies();
    }

    /** `viewWillAppear`: refresh, that is, start a fetch. */
    method ViewWillAppear()
      requires Valid()
      modifies this`published, isLoading, movieService
      ensures Valid() && movieList == old(movieList) && isDisposed == old(isDisposed)
      ensures old(isDisposed) ==> published == old(published) && unchanged(isLoading, movieService)
      ensures !old(isDisposed) ==> FetchStarted()
    {
      RefreshData();
    }

    /** `refreshData`: start a fetch. */
    method RefreshData()
      requires Valid()
      modifies this`published, isLoading, movieService
      ensures Valid() && movieList == old(movieList) && isDisposed == old(isDisposed)
      ensures old(isDisposed) ==> published == old(published) && unchanged(isLoading, movieService)
      ensures !old(isDisposed) ==> FetchStarted()
    {
      FetchMovies();
    }

    /** A fetch was started: loading is published as true, then the fetch is requested. */
    twostate predicate FetchStarted()
      reads this, isLoading, movieService
    {
      && isLoading.Snapshot() == Assigned(old(isLoading.Snapshot()), true)
      && movieService.calls == old(movieService.calls) + [FetchRequested]
      && published == old(published) + [LoadingPublished(true)]
    }

    /** `fetchMovies`, up to the request: a disposed view model starts nothing. */
    method FetchMovies()
      requires Valid()
      modifies this`published, isLoading, movieService
      ensures Valid() && movieList == old(movieList) && isDisposed == old(isDisposed)
      ensures old(isDisposed) ==> published == old(published) && unchanged(isLoading, movieService)
      ensures !old(isDisposed) ==> FetchStarted()
    {
      if isDisposed {
        return;
      }
      isLoading.SetValue(true);
      published := published + [LoadingPublished(true)];
      movieService.FetchMovies();
    }

    /**
      The completion of `fetchMovies`. Skipped once disposed. Otherwise loading
      is published as false before anything else; then on success the list
      becomes the fetched one merged with the saved favourites and the cells
      are republished, and on failure the list stays and the error's message
      is published.
     */
    method CompleteFetch(result: FetchResult)
      requires Valid()
      modifies this`movieList, this`published, movies, isLoading, error
      ensures Valid() && isDisposed == old(isDisposed)
      ensures isDisposed ==>
        movieList == old(movieList) && published == old(published)
        && unchanged(movies, isLoading, error)
      ensures !isDisposed ==> isLoading.Snapshot() == Assigned(old(isLoading.Snapshot()), false)
      ensures !isDisposed && result.Success? ==>
        && movieList == Merge(result.movies, movieService.savedMovies)
        && movies.Snapshot() == Assigned(old(movies.Snapshot()), Cells(movieList))
        && unchanged(error)
        && published == old(published) + [LoadingPublished(false), CellsPublished(Cells(movieList))]
      ensures !isDisposed && result.Failure? ==>
        && movieList == old(movieList)
        && error.Snapshot() == Assigned(old(error.Snapshot()), Some(result.message))
        && unchanged(movies)
        && published == old(published) + [LoadingPublished(false), ErrorPublished(Some(result.message))]
    {
      if isDisposed {
        return;
      }
      isLoading.SetValue(false);
      published := published + [LoadingPublished(false)];
      match result
      case Success(fetched) =>
        movieList := fetched;
        LoadSavedMovies();
        UpdateMoviesViewModel();
      case Failure(message) =>
        error.SetValue(Some(message));
        published := published + [ErrorPublished(Some(message))];
    }

    /**
      `loadSavedMovies`: for each saved favourite, in order, the first record
      with its id is marked favourite; ids no record carries are skipped.
     */
    method LoadSavedMovies()
      modifies this`movieList
      ensures movieList == Merge(old(movieList), movieService.savedMovies)
    {
      var savedMovies := movieService.LoadSavedMovies();
      ghost var fetched := movieList;
      for k := 0 to |savedMovies|
        invariant movieList == Merge(fetched, savedMovies[..k])
      {
        var found := FirstIndex(movieList, savedMovies[k].id);
        if found.Some? {
          var index := found.value;
          movieList := movieList[index := movieList[index].(isFavorite := true)];
        }
        assert savedMovies[..k + 1][..k] == savedMovies[..k];
      }
      assert savedMovies[..|savedMovies|] == savedMovies;
    }

    /** `updateMoviesViewModel`: republish the cells of the list unless disposed. */
    method UpdateMoviesViewModel()
      modifies this`published, movies
      ensures Valid()
      ensures movies.Snapshot() == Republished(old(movies.Snapshot()), isDisposed, movieList)
      ensures published == old(published) + CellsPublication(isDisposed, movieList)
    {
      if isDisposed {
        return;
      }
      movies.SetValue(Cells(movieList));
      published := published + [CellsPublished(Cells(movieList))];
    }
  }
  /**
    A client run: nothing saved, a fetch that returns one movie "1", then the
    favourite button of row 0 pressed twice.
   */
  method FetchThenToggleTwice(m: Movie)
    requires m.id == "1" && !m.isFavorite
  {
    var service := new MovieService([]);
    var vm := new DefaultMovieListViewModel(service);
    vm.ViewDidLoad();
    assert vm.isLoading.value;
    vm.CompleteFetch(Success([m]));
    assert Merge([m], []) == [m];
    assert vm.movieList == [m];
    assert vm.movies.value == [CellOf(m)];
    assert !vm.isLoading.value && vm.error.value == None;

    vm.ToggleFavorite(0);
    assert vm.movies.value[0].isFavorite;
    assert vm.favoriteUpdated.value == ("1", true);
    assert service.calls == [FetchRequested, SaveRequested(m.(isFavorite := true))];

    vm.ToggleFavorite(0);
    assert vm.movieList == [m];
    assert vm.favoriteUpdated.value == ("1", false);
    assert service.calls == [FetchRequested, SaveRequested(m.(isFavorite := true)), DeleteRequested(m)];
  }
}
