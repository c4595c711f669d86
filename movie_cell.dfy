/**
  `MovieCellViewModel` (MovieListToMVVM/ViewModel/MovieCellViewModel.swift):
  the display projection of one movie. The source formats the rating with
  `"%.1f"`; the model keeps the number the text is formatted from.
 */
module MovieCells {
  import opened Movies

  datatype MovieCell = MovieCell(
    title: string,
    overview: string,
    rating: real,
    isFavorite: bool,
    movie: Movie)

  /** `MovieCellViewModel.init(movie:)`. */
  function CellOf(m: Movie): (c: MovieCell)
    ensures c.title == m.title && c.overview == m.overview
    ensures c.isFavorite == m.isFavorite
    ensures c.movie == m
  {
    MovieCell(m.title, m.overview, m.rating, m.isFavorite, m)
  }

  /** `movieList.map { MovieCellViewModel(movie: $0) }`. */
  function Cells(list: seq<Movie>): seq<MovieCell>
  {
    seq(|list|, i requires 0 <= i < |list| => CellOf(list[i]))
  }

  /** The movies behind a list of cells, read through each cell's `movie` back-reference. */
  function MoviesOf(cells: seq<MovieCell>): seq<Movie>
  {
    seq(|cells|, i requires 0 <= i < |cells| => cells[i].movie)
  }

  /**
    The cell list has one cell per movie, in the same order, each showing that
    movie's flag; reading the back-references gives the movie list back.
   */
  lemma CellsMirrorList(list: seq<Movie>)
    ensures |Cells(list)| == |list|
    ensures forall i | 0 <= i < |list| ::
      Cells(list)[i].movie == list[i] && Cells(list)[i].isFavorite == list[i].isFavorite
    ensures MoviesOf(Cells(list)) == list
  {
  }
}
