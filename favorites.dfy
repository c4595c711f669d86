/**
  The updates the view model makes to its movie list, as functions of the
  list before (MovieListToMVVM/ViewModel/DefaultMovieListViewModel.swift):
  toggling one record's flag by index, setting it by id, and merging a
  fetched list with the saved favourites.
 */
module FavoriteLists {
  import opened Wrappers
  import opened Movies

  /** `movieList[index].isFavorite.toggle()`. */
  function Toggled(list: seq<Movie>, index: nat): seq<Movie>
    requires index < |list|
  {
    list[index := list[index].(isFavorite := !list[index].isFavorite)]
  }

  /**
    Set the flag of the first record carrying `id` to `flag`; the list is
    returned as it is when no record carries `id`.
   */
  function WithFavorite(list: seq<Movie>, id: string, flag: bool): seq<Movie>
  {
    match FirstIndex(list, id)
    case None => list
    case Some(i) => list[i := list[i].(isFavorite := flag)]
  }

  /**
    `loadSavedMovies`: for each saved movie in order, mark the first record
    of the list with its id as favourite.
   */
  function Merge(list: seq<Movie>, saved: seq<Movie>): seq<Movie>
    decreases |saved|
  {
    if saved == [] then list
    else WithFavorite(Merge(list, saved[..|saved| - 1]), saved[|saved| - 1].id, true)
  }

  /**
    The merge described record by record: a record becomes favourite when it
    is the first record carrying one of the saved ids; every other record is
    left as it is.
   */
  function MergeByRecord(list: seq<Movie>, savedIds: set<string>): seq<Movie>
  {
    seq(|list|, i requires 0 <= i < |list| =>
      if list[i].id in savedIds && FirstIndex(list, list[i].id) == Some(i)
      then list[i].(isFavorite := true)
      else list[i])
  }

  /** Toggling changes only the flag of the record at `index`. */
  lemma ToggleFlipsOneFlag(list: seq<Movie>, index: nat)
    requires index < |list|
    ensures |Toggled(list, index)| == |list| && SameIds(Toggled(list, index), list)
    ensures Toggled(list, index)[index].isFavorite == !list[index].isFavorite
    ensures Toggled(list, index)[index].(isFavorite := list[index].isFavorite) == list[index]
    ensures forall j | 0 <= j < |list| && j != index :: Toggled(list, index)[j] == list[j]
  {
  }

  /** Toggling the same index twice restores the list. */
  lemma ToggleTwiceRestores(list: seq<Movie>, index: nat)
    requires index < |list|
    ensures Toggled(Toggled(list, index), index) == list
  {
  }

  /**
    Setting by id: nothing changes when no record carries `id`; otherwise the
    first such record gets `flag` and nothing else changes.
   */
  lemma WithFavoriteChangesFirstMatch(list: seq<Movie>, id: string, flag: bool)
    ensures SameIds(WithFavorite(list, id, flag), list)
    ensures id !in IdSet(list) ==> WithFavorite(list, id, flag) == list
    ensures forall i | 0 <= i < |list| ::
      WithFavorite(list, id, flag)[i] ==
        if FirstIndex(list, id) == Some(i) then list[i].(isFavorite := flag) else list[i]
  {
  }

  /** Setting the same flag by the same id twice gives the list of doing it once. */
  lemma WithFavoriteIdempotent(list: seq<Movie>, id: string, flag: bool)
    ensures WithFavorite(WithFavorite(list, id, flag), id, flag) == WithFavorite(list, id, flag)
  {
  }

  /** Marking one more id is the record-by-record merge with that id added. */
  lemma {:induction false} MarkOneMore(list: seq<Movie>, savedIds: set<string>, id: string)
    ensures WithFavorite(MergeByRecord(list, savedIds), id, true)
         == MergeByRecord(list, savedIds + {id})
  {
    var before := MergeByRecord(list, savedIds);
    assert SameIds(before, list);
    FirstIndexSameIds(before, list, id);
    var after := WithFavorite(before, id, true);
    var expected := MergeByRecord(list, savedIds + {id});
    WithFavoriteChangesFirstMatch(before, id, true);
    assert |after| == |expected|;
    forall i | 0 <= i < |list| ensures after[i] == expected[i] {
      if FirstIndex(list, id) == Some(i) {
        assert list[i].id == id;
      }
    }
  }

  /** The merge as the source runs it agrees with the record-by-record description. */
  lemma {:induction false} MergeMatchesRecordView(list: seq<Movie>, saved: seq<Movie>)
    ensures Merge(list, saved) == MergeByRecord(list, IdSet(saved))
    decreases |saved|
  {
    if saved == [] {
      assert MergeByRecord(list, {}) == list;
    } else {
      var init := saved[..|saved| - 1];
      var last := saved[|saved| - 1];
      MergeMatchesRecordView(list, init);
      MarkOneMore(list, IdSet(init), last.id);
      assert IdSet(saved) == IdSet(init) + {last.id} by {
        assert saved == init + [last];
      }
    }
  }

  /**
    What the merge does, record by record: length, order, ids and every other
    field are kept; a flag is true afterwards exactly when it was true before
    or the record is the first carrying a saved id. So no flag is ever
    cleared, and saved ids that no record carries have no effect.
   */
  lemma {:induction false} MergeKeepsRecords(list: seq<Movie>, saved: seq<Movie>)
    ensures |Merge(list, saved)| == |list| && SameIds(Merge(list, saved), list)
    ensures forall i | 0 <= i < |list| ::
      Merge(list, saved)[i].(isFavorite := list[i].isFavorite) == list[i]
    ensures forall i | 0 <= i < |list| ::
      Merge(list, saved)[i].isFavorite ==
        (list[i].isFavorite || (list[i].id in IdSet(saved) && FirstIndex(list, list[i].id) == Some(i)))
  {
    MergeMatchesRecordView(list, saved);
  }

  /** Only the saved ids that occur in the list matter; the order of `saved` does not. */
  lemma {:induction false} MergeIgnoresAbsentIds(list: seq<Movie>, saved1: seq<Movie>, saved2: seq<Movie>)
    requires IdSet(saved1) * IdSet(list) == IdSet(saved2) * IdSet(list)
    ensures Merge(list, saved1) == Merge(list, saved2)
  {
    MergeMatchesRecordView(list, saved1);
    MergeMatchesRecordView(list, saved2);
    var a := MergeByRecord(list, IdSet(saved1));
    var b := MergeByRecord(list, IdSet(saved2));
    assert |a| == |b|;
    forall i | 0 <= i < |list| ensures a[i] == b[i] {
      var id := list[i].id;
      assert id in IdSet(list);
      assert id in IdSet(saved1) <==> id in IdSet(saved1) * IdSet(list);
      assert id in IdSet(saved2) <==> id in IdSet(saved2) * IdSet(list);
    }
  }

  /** Merging the same favourites again changes nothing. */
  lemma {:induction false} MergeIdempotent(list: seq<Movie>, saved: seq<Movie>)
    ensures Merge(Merge(list, saved), saved) == Merge(list, saved)
  {
    var once := Merge(list, saved);
    MergeKeepsRecords(list, saved);
    MergeKeepsRecords(once, saved);
    forall i | 0 <= i < |list| ensures FirstIndex(once, once[i].id) == FirstIndex(list, list[i].id) {
      FirstIndexSameIds(once, list, once[i].id);
    }
  }

  /** Merging into an empty list gives the empty list, whatever is saved. */
  lemma {:induction false} MergeIntoEmpty(saved: seq<Movie>)
    ensures Merge([], saved) == []
    decreases |saved|
  {
    if saved != [] {
      MergeIntoEmpty(saved[..|saved| - 1]);
    }
  }
  /**
    Fetched A, B, C with no favourites and saved favourites B and D: only B
    ends up favourite, and D, which the fetch did not return, is dropped.
   */
  lemma MergeExample(a: Movie, b: Movie, c: Movie, d: Movie)
    requires a.id == "A" && b.id == "B" && c.id == "C" && d.id == "D"
    requires !a.isFavorite && !b.isFavorite && !c.isFavorite
    ensures var r := Merge([a, b, c], [b, d]);
      |r| == 3 && !r[0].isFavorite && r[1].isFavorite && !r[2].isFavorite
  {
    var list := [a, b, c];
    MergeKeepsRecords(list, [b, d]);
    assert IdSet([b, d]) == {"B", "D"} by {
      assert [b, d][0].id == "B" && [b, d][1].id == "D";
    }
    assert FirstIndex(list, "B") == Some(1) by {
      assert list[1].id == "B";
    }
  }
}
