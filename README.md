# MovieListToMVVM favourites core, in Dafny

This project models the state handling behind the movie list screen of
MovieListToMVVM, a small MVVM sample app. The model covers:

- `Observable<T>`: a value cell with one listener. It calls the listener on every
  assignment and replays the current value when a listener is bound.
- `MovieCellViewModel`: the display projection of a `Movie`.
- `DefaultMovieListViewModel`: owns the movie list. It flips or sets favourite
  flags, clears the list, and merges a fetched list with the saved favourites.
  It publishes loading, error, cell and "favourite updated" outputs.
- `MovieDataManager`: an id-keyed cache of favourites. It writes all its values
  out after each change and can load them back.

Modules:

- `Wrappers`: the `Option` type, standing for Swift's `T?`.
- `Movies`: the `Movie` record and the lookup of a record by id.
- `Observables`: `Observable<T>`.
- `MovieCells`: `MovieCellViewModel`.
- `MovieServices`: the boundary of the movie service.
- `FavoriteLists`: the view model's list updates as functions, with their lemmas.
- `MovieListViewModels`: the `DefaultMovieListViewModel` class.
- `MovieData`: `MovieDataManager`.

Stateful parts are classes whose methods state their new state. An
`Observable`'s state is a `Slot` value: value, listener, and every delivery made
so far. A listener closure is named by a `ListenerId`, and calling it is recorded
as a delivery. The view model also keeps a ghost log, `published`, of every
assignment to its four outputs in order. That log states that loading is
published as false before the cells are republished.

The service is a boundary only. Asking for a fetch, saving and deleting are
recorded in a ghost call log. The favourites it hands back are fixed when it is
created. The fetch completion is the method `CompleteFetch`, which takes the
fetch's result. The main-queue hops run at once.

Points of the code's behaviour worth stating:

- A fetch does not reset the fetched records' `isFavorite` flags. The fetched
  list is taken as it is, and the merge only sets flags to true
  (`DefaultMovieListViewModel.swift:90, 104`).
- `toggleFavorite` checks only the upper bound (`DefaultMovieListViewModel.swift:36`).
  A negative index reaches the array access and traps. So `ToggleFavorite`
  requires `0 <= index`.
- In the program, `updateMoviesViewModel` queues the cell republish on the main
  queue, while the `(id, flag)` pair is assigned at once. So in both
  `toggleFavorite` and `updateFavoriteStatus`, listeners get the pair first and
  the cells one main-queue turn later. The model runs the republish at the
  point where it is called (see "## Left out").

## Model

| member | source | states |
|---|---|---|
| `Movies.FirstIndex` | MovieListToMVVM/ViewModel/DefaultMovieListViewModel.swift:52 | the result is the first position holding the id, and it is absent exactly when no record carries the id |
| `Movies.FirstIndexSameIds` | MovieListToMVVM/ViewModel/DefaultMovieListViewModel.swift:102-106 | changing flags never moves the first position of an id, so each lookup in the merge loop sees the fetched positions |
| `Observables.Observable.constructor` | MovieListToMVVM/Observable.swift:20-22 | a new observable holds the given value, has no listener and has delivered nothing |
| `Observables.Observable.SetValue` | MovieListToMVVM/Observable.swift:14-18 | assignment stores the value and delivers it to the bound listener, if any, with no check against the old value |
| `Observables.Observable.Bind` | MovieListToMVVM/Observable.swift:24-27 | bind makes the listener the only one and delivers the current value to it once |
| `Observables.ReadAfterAssignments` | MovieListToMVVM/Observable.swift:14-17 | after any assignments, the value read is the last one assigned, and the listener is unchanged |
| `Observables.UnboundNotifiesNobody` | MovieListToMVVM/Observable.swift:12-21 | before any bind, assignments deliver nothing |
| `Observables.EveryAssignmentDelivered` | MovieListToMVVM/Observable.swift:15-16 | with a listener bound, each assignment delivers its value to it once and in order, repeated values included |
| `Observables.RebindRoutesToLatest` | MovieListToMVVM/Observable.swift:24-26 | after a rebind, the new listener gets the replay and every later value, and no earlier listener gets anything |
| `MovieCells.CellOf` | MovieListToMVVM/ViewModel/MovieCellViewModel.swift:19-25 | a cell shows its movie's title, overview and favourite flag, and its back-reference is that movie |
| `MovieCells.CellsMirrorList` | MovieListToMVVM/ViewModel/DefaultMovieListViewModel.swift:112 | the cells are one per movie in list order, and reading their back-references gives the list back |
| `MovieServices.MovieService.constructor` | MovieListToMVVM/Protocols/MovieServiceProtocol.swift:10-14 | a service starts with its saved favourites and no calls made |
| `MovieServices.MovieService.FetchMovies` | MovieListToMVVM/Protocols/MovieServiceProtocol.swift:11 | a fetch request is recorded; its result reaches the view model through the completion |
| `MovieServices.MovieService.SaveMovie` | MovieListToMVVM/Protocols/MovieServiceProtocol.swift:12 | saving records exactly that movie |
| `MovieServices.MovieService.DeleteMovie` | MovieListToMVVM/Protocols/MovieServiceProtocol.swift:13 | deleting records exactly that movie |
| `MovieServices.MovieService.LoadSavedMovies` | MovieListToMVVM/ViewModel/DefaultMovieListViewModel.swift:101 | the saved favourites are read without changing anything |
| `FavoriteLists.ToggleFlipsOneFlag` | MovieListToMVVM/ViewModel/DefaultMovieListViewModel.swift:38 | toggling negates the flag at the index and keeps length, ids, every other field and every other record |
| `FavoriteLists.ToggleTwiceRestores` | MovieListToMVVM/ViewModel/DefaultMovieListViewModel.swift:38 | toggling the same index twice gives back the original list |
| `FavoriteLists.WithFavoriteChangesFirstMatch` | MovieListToMVVM/ViewModel/DefaultMovieListViewModel.swift:52-62 | setting by id changes only the first record with that id, and changes nothing when no record has it |
| `FavoriteLists.WithFavoriteIdempotent` | MovieListToMVVM/ViewModel/DefaultMovieListViewModel.swift:52-62 | repeating a set by id gives the same list as doing it once |
| `FavoriteLists.MarkOneMore` | MovieListToMVVM/ViewModel/DefaultMovieListViewModel.swift:103-104 | one more merge step is the record-by-record merge with that id added |
| `FavoriteLists.MergeMatchesRecordView` | MovieListToMVVM/ViewModel/DefaultMovieListViewModel.swift:100-107 | the merge loop equals the record-by-record rule: first record with a saved id becomes favourite, the rest stay |
| `FavoriteLists.MergeKeepsRecords` | MovieListToMVVM/ViewModel/DefaultMovieListViewModel.swift:100-107 | the merge keeps length, order, ids and other fields; a flag ends true exactly when it was true or its record is the first with a saved id |
| `FavoriteLists.MergeIgnoresAbsentIds` | MovieListToMVVM/ViewModel/DefaultMovieListViewModel.swift:102-106 | saved ids absent from the list, and the order of the saved list, do not affect the merge |
| `FavoriteLists.MergeIdempotent` | MovieListToMVVM/ViewModel/DefaultMovieListViewModel.swift:100-107 | merging the same favourites twice equals merging once |
| `FavoriteLists.MergeIntoEmpty` | MovieListToMVVM/ViewModel/DefaultMovieListViewModel.swift:17-20 | the merge done by the initializer, on the empty list, gives the empty list |
| `FavoriteLists.MergeExample` | MovieListToMVVM/ViewModel/DefaultMovieListViewModel.swift:100-107 | fetched A, B, C with favourites B, D saved: only B becomes favourite, and D is dropped |
| `MovieListViewModels.DefaultMovieListViewModel.constructor` | MovieListToMVVM/ViewModel/DefaultMovieListViewModel.swift:7-20 | initial state: empty list and cells, not loading, no error, favourite pair ("", false), no listeners, no service call |
| `MovieListViewModels.DefaultMovieListViewModel.Dispose` | MovieListToMVVM/ViewModel/DefaultMovieListViewModel.swift:22-24 | after deinit the view model is marked disposed |
| `MovieListViewModels.DefaultMovieListViewModel.ToggleFavorite` | MovieListToMVVM/ViewModel/DefaultMovieListViewModel.swift:35-49 | an index past the end changes nothing; otherwise flip, save-or-delete the updated record, publish (id, flag), republish cells |
| `MovieListViewModels.DefaultMovieListViewModel.UpdateFavoriteStatus` | MovieListToMVVM/ViewModel/DefaultMovieListViewModel.swift:51-66 | an unknown id changes nothing; otherwise set the first match's flag, save-or-delete it, republish cells, publish (id, flag) |
| `MovieListViewModels.DefaultMovieListViewModel.ClearCache` | MovieListToMVVM/ViewModel/DefaultMovieListViewModel.swift:68-71 | the list is emptied and empty cells republished, with no service call |
| `MovieListViewModels.DefaultMovieListViewModel.ViewDidLoad` | MovieListToMVVM/ViewModel/DefaultMovieListViewModel.swift:27-29 | starts a fetch as `FetchMovies` does |
| `MovieListViewModels.DefaultMovieListViewModel.ViewWillAppear` | MovieListToMVVM/ViewModel/DefaultMovieListViewModel.swift:31-33 | starts a fetch as `FetchMovies` does |
| `MovieListViewModels.DefaultMovieListViewModel.RefreshData` | MovieListToMVVM/ViewModel/DefaultMovieListViewModel.swift:73-75 | starts a fetch as `FetchMovies` does |
| `MovieListViewModels.DefaultMovieListViewModel.FetchMovies` | MovieListToMVVM/ViewModel/DefaultMovieListViewModel.swift:78-82 | a disposed view model starts nothing; otherwise loading is published as true, then the fetch is requested |
| `MovieListViewModels.DefaultMovieListViewModel.CompleteFetch` | MovieListToMVVM/ViewModel/DefaultMovieListViewModel.swift:82-97 | loading goes false first on both paths; success merges and republishes cells in list order; failure keeps the list and publishes the message |
| `MovieListViewModels.DefaultMovieListViewModel.LoadSavedMovies` | MovieListToMVVM/ViewModel/DefaultMovieListViewModel.swift:100-107 | the loop leaves the list equal to the merge of the old list with the saved favourites |
| `MovieListViewModels.DefaultMovieListViewModel.UpdateMoviesViewModel` | MovieListToMVVM/ViewModel/DefaultMovieListViewModel.swift:109-114 | unless disposed, the cells of the current list are published, so the published cells match the list |
| `MovieData.ById` | MovieListToMVVM/Data/MovieDataManager.swift:36 | the map built from a list with unique ids has exactly its ids as keys, each mapped to its record |
| `MovieData.ByIdKeyedById` | MovieListToMVVM/Data/MovieDataManager.swift:36 | a loaded cache stores every movie under its own id |
| `MovieData.ValuesOf` | MovieListToMVVM/Data/MovieDataManager.swift:23 | the array holds each cache value once, one per key, in some order |
| `MovieData.LoadAfterSave` | MovieListToMVVM/Data/MovieDataManager.swift:23-37 | any snapshot of the cache, the list a save stores, rebuilds exactly the cache when loaded |
| `MovieData.MovieDataManager.constructor` | MovieListToMVVM/Data/MovieDataManager.swift:4-9 | the shared manager starts with an empty cache over whatever is stored |
| `MovieData.MovieDataManager.AddToCache` | MovieListToMVVM/Data/MovieDataManager.swift:11-14 | the entry for the movie's id becomes the movie, others unchanged, size grows by at most one; the store is the new snapshot |
| `MovieData.MovieDataManager.RemoveFromCache` | MovieListToMVVM/Data/MovieDataManager.swift:16-19 | the id is removed, others unchanged, an absent id changes nothing; the store is the new snapshot |
| `MovieData.MovieDataManager.SaveToUserDefaults` | MovieListToMVVM/Data/MovieDataManager.swift:21-28 | the store holds exactly the cache's values, each once, in unspecified order |
| `MovieData.MovieDataManager.LoadFromUserDefaults` | MovieListToMVVM/Data/MovieDataManager.swift:30-38 | nothing stored or undecodable data gives [] and leaves the cache; otherwise the cache becomes the stored list's id map |

## Left out

- Cell republish timing: the model republishes the cells at once, where `updateMoviesViewModel` is called. In the program it is queued on the main queue. So for `UpdateFavoriteStatus` the model's `published` log has the cells before the `(id, flag)` pair, where listeners get the pair first. The model also publishes a cell list for each call, where several queued blocks show the list as it is when they run.
- Id comparison: ids are compared as sequences of code points. Swift compares `String`s, and hashes `Dictionary` keys, by Unicode canonical equivalence. So ids such as "\u00e9" and "e\u0301" are one id to `firstIndex(where:)` and to `Dictionary(uniqueKeysWithValues:)`, but two ids to `FirstIndex`, `Merge`, `UniqueIds` and `ById`.
- Threading: the `DispatchQueue.main.async` hops and the service's background fetch. Completion and republish run at once, and a fetch's result is a parameter of `CompleteFetch`. So the race between two fetches in flight is not modelled.
- `weak self` and `deinit`: disposal is the `isDisposed` flag, set by `Dispose`.
- Listener closures: a listener is an id, and calling it is a recorded delivery. What a listener does in the view is not modelled.
- The mock `MovieService` and its two-movie fixture: the service is a boundary with a ghost call log. Its `saveMovie`/`deleteMovie` are not wired to `MovieDataManager`, as in the source.
- `JSONEncoder`/`JSONDecoder` and `UserDefaults`: the stored blob is the abstract `Persisted`. Encoding a list of movies is taken to succeed, so the "Save failed" path is not modelled.
- `MovieData.MovieDataManager.LoadFromUserDefaults`: requires unique ids in stored data, because `Dictionary(uniqueKeysWithValues:)` traps on a repeated id. The trap is not modelled as an outcome.
- `MovieListViewModels.DefaultMovieListViewModel.ToggleFavorite`: requires `0 <= index`. The source's guard checks only the upper bound, so a negative index traps.
- `Movie.formattedDate` and the `"%.1f"` rating text: date and float formatting. `rating` is carried as a number, and a cell keeps the number its text is formatted from.
- The UI layer (view controllers, table cell), `AppDelegate`, and the protocol declarations, which the class signatures replace.
- The commented-out earlier versions in `MovieDataManager.swift` after line 40.
