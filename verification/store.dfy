/** The in-memory movie store: a module-level array of movie objects and the
    operations the model class offers over it. The array operations the
    store uses (`findIndex`, `find`, `filter` by genre, object spread and
    `splice`) are defined here once and reused by the application's inline
    handlers. */
module Store {
  import opened JsValues

  /** A stored movie is a plain object; nothing forces its shape. */
  type Movie = Obj

  /** `movie.id === id` for a string `id`. */
  predicate HasId(m: Movie, id: string)
  {
    "id" in m && m["id"] == JStr(id)
  }

  /** No movie of `ms` carries the id. */
  predicate IdAbsent(ms: seq<Movie>, id: string)
  {
    forall i :: 0 <= i < |ms| ==> !HasId(ms[i], id)
  }

  /** No string id is carried by two movies. */
  ghost predicate UniqueIds(ms: seq<Movie>)
  {
    forall i, j, id :: 0 <= i < j < |ms| && HasId(ms[i], id) ==> !HasId(ms[j], id)
  }

  /** `movies.findIndex((movie) => movie.id === id)`: the first index whose
      movie has the id, or -1. */
  function FindIndex(ms: seq<Movie>, id: string): (r: int)
    ensures -1 <= r < |ms|
    ensures r == -1 <==> IdAbsent(ms, id)
    ensures r != -1 ==> HasId(ms[r], id) && forall j :: 0 <= j < r ==> !HasId(ms[j], id)
  {
    if ms == [] then -1
    else if HasId(ms[0], id) then 0
    else
      var r := FindIndex(ms[1..], id);
      if r == -1 then -1 else r + 1
  }

  /** `movies.find((movie) => movie.id === id)`: the first movie with the id. */
  function Find(ms: seq<Movie>, id: string): (r: Option<Movie>)
    ensures r.None? <==> IdAbsent(ms, id)
    ensures r.Some? ==> r.value == ms[FindIndex(ms, id)]
  {
    if ms == [] then None
    else if HasId(ms[0], id) then Some(ms[0])
    else Find(ms[1..], id)
  }

  /** Object spread `{ ...base, ...patch }`. */
  function Merge(base: Obj, patch: Obj): (r: Obj)
    ensures forall k :: k in r <==> k in base || k in patch
    ensures forall k :: k in patch ==> r[k] == patch[k]
    ensures forall k :: k in base && k !in patch ==> r[k] == base[k]
  {
    base + patch
  }

  /** `{ id: newId, ...data }`: a movie with the generated id `newId` and the payload. */
  function NewRecord(newId: string, data: Obj): (r: Movie)
    ensures "id" !in data ==> HasId(r, newId)
    ensures forall k :: k in r <==> k == "id" || k in data
    ensures forall k :: k in data ==> r[k] == data[k]
  {
    Merge(map["id" := JStr(newId)], data)
  }

  /** `genres.some((g) => g.toLowerCase() === genre.toLowerCase())`: stops at
      the first match; a non-string element reached before it throws. */
  function SomeGenre(items: seq<Json>, genre: string): (r: Result<bool>)
    ensures r == Ok(true) ==> exists s :: JStr(s) in items && EqualsIgnoringCase(s, genre)
    ensures r == Ok(false) <==> forall x :: x in items ==> x.JStr? && !EqualsIgnoringCase(x.s, genre)
    ensures r == TypeError ==> exists x :: x in items && !x.JStr?
    ensures r == TypeError <==> NonStringBeforeMatch(items, genre)
  {
    if items == [] then Ok(false)
    else
      assert items[0] in items;
      assert forall x :: x in items[1..] ==> x in items;
      assert forall x :: x in items ==> x == items[0] || x in items[1..];
      if !items[0].JStr? then TypeError
      else if EqualsIgnoringCase(items[0].s, genre) then Ok(true)
      else
        NonStringBeforeMatchTail(items, genre);
        SomeGenre(items[1..], genre)
  }

  /** The answer depends on order: a match before a non-string element
      wins, a non-string element before the match throws. */
  lemma SomeGenreOrderMatters()
    ensures SomeGenre([JStr("Drama"), JNum(1.0)], "drama") == Ok(true)
    ensures SomeGenre([JNum(1.0), JStr("Drama")], "drama") == TypeError
  {
  }

  /** Some element that is not a string comes before any element matching
      `genre`: the element at which `some` throws. */
  ghost predicate NonStringBeforeMatch(items: seq<Json>, genre: string)
  {
    exists i :: 0 <= i < |items| && !items[i].JStr? &&
      forall j :: 0 <= j < i ==> items[j].JStr? && !EqualsIgnoringCase(items[j].s, genre)
  }

  /** Past a first string that does not match, the search throws exactly
      when it throws on the tail. */
  lemma NonStringBeforeMatchTail(items: seq<Json>, genre: string)
    requires items != [] && items[0].JStr? && !EqualsIgnoringCase(items[0].s, genre)
    ensures NonStringBeforeMatch(items, genre) <==> NonStringBeforeMatch(items[1..], genre)
  {
    var tail := items[1..];
    if NonStringBeforeMatch(items, genre) {
      var i :| 0 <= i < |items| && !items[i].JStr? &&
        forall j :: 0 <= j < i ==> items[j].JStr? && !EqualsIgnoringCase(items[j].s, genre);
      assert i > 0 && !tail[i - 1].JStr?;
      assert forall j :: 0 <= j < i - 1 ==> tail[j] == items[j + 1];
    }
    if NonStringBeforeMatch(tail, genre) {
      var i :| 0 <= i < |tail| && !tail[i].JStr? &&
        forall j :: 0 <= j < i ==> tail[j].JStr? && !EqualsIgnoringCase(tail[j].s, genre);
      assert !items[i + 1].JStr?;
      assert forall j :: 1 <= j < i + 1 ==> items[j] == tail[j - 1];
    }
  }

  /** A movie whose `genre` is an array of strings, the shape a valid payload has. */
  predicate GenreListed(m: Movie)
  {
    "genre" in m && m["genre"].JArr? && forall x :: x in m["genre"].items ==> x.JStr?
  }

  /** The genre test of one movie, `movie.genre.some(...)`: it throws when
      `genre` is missing or is not an array. */
  function GenreMatch(m: Movie, genre: string): (r: Result<bool>)
    ensures !("genre" in m && m["genre"].JArr?) ==> r == TypeError
    ensures GenreListed(m) ==>
      r.Ok? && (r.value <==> exists s :: JStr(s) in m["genre"].items && EqualsIgnoringCase(s, genre))
    ensures r == Ok(true) ==>
      "genre" in m && m["genre"].JArr? && exists s :: JStr(s) in m["genre"].items && EqualsIgnoringCase(s, genre)
    ensures "genre" in m && m["genre"].JArr? ==> r == SomeGenre(m["genre"].items, genre)
  {
    if "genre" in m && m["genre"].JArr? then
      var items := m["genre"].items;
      var r := SomeGenre(items, genre);
      assert r == Ok(false) ==> forall s :: JStr(s) in items ==> !EqualsIgnoringCase(s, genre);
      assert GenreListed(m) ==> r.Ok?;
      r
    else TypeError
  }

  /** The movie is selected by the genre. */
  predicate Keeps(m: Movie, genre: string)
  {
    GenreMatch(m, genre) == Ok(true)
  }

  /** The movie is evaluated without error and not selected. */
  predicate Skips(m: Movie, genre: string)
  {
    GenreMatch(m, genre) == Ok(false)
  }

  /** `movies.filter(...)` with the genre test: every movie is tested, and
      any test that throws makes the whole call throw. */
  function FilterByGenre(ms: seq<Movie>, genre: string): (r: Result<seq<Movie>>)
    ensures r.Ok? <==> forall i :: 0 <= i < |ms| ==> GenreMatch(ms[i], genre).Ok?
    ensures r.Ok? ==> |r.value| <= |ms| && forall m :: m in r.value <==> m in ms && Keeps(m, genre)
  {
    if ms == [] then Ok([])
    else
      assert forall m :: m in ms <==> m == ms[0] || m in ms[1..];
      match GenreMatch(ms[0], genre)
      case TypeError => TypeError
      case Ok(keep) =>
        match FilterByGenre(ms[1..], genre)
        case TypeError =>
          assert !GenreMatch(ms[1..][0], genre).Ok? || exists i :: 0 <= i < |ms[1..]| && !GenreMatch(ms[1..][i], genre).Ok?;
          TypeError
        case Ok(rest) => Ok(if keep then [ms[0]] + rest else rest)
  }

  /** The position of the first movie that the genre test does not skip
      (it is selected, or its test throws), or `|ms|` when all are skipped. */
  function FirstDecided(ms: seq<Movie>, genre: string): (i: nat)
    ensures i <= |ms|
    ensures forall j :: 0 <= j < i ==> Skips(ms[j], genre)
    ensures i < |ms| ==> !Skips(ms[i], genre)
  {
    if ms == [] || !Skips(ms[0], genre) then 0 else FirstDecided(ms[1..], genre) + 1
  }

  /** `movies.find(...)` with the genre test: stops at the first selected
      movie; a test that throws before it makes the call throw. */
  function FindByGenre(ms: seq<Movie>, genre: string): (r: Result<Option<Movie>>)
    ensures var i := FirstDecided(ms, genre);
      r == if i == |ms| then Ok(None)
           else if Keeps(ms[i], genre) then Ok(Some(ms[i]))
           else TypeError
  {
    if ms == [] then Ok(None)
    else
      match GenreMatch(ms[0], genre)
      case TypeError => TypeError
      case Ok(found) => if found then Ok(Some(ms[0])) else FindByGenre(ms[1..], genre)
  }

  /** `idx` lists, in increasing order, exactly the positions of `ms` whose
      movies the genre selects, and `r` holds those movies in that order. */
  ghost predicate IsSelection(idx: seq<int>, r: seq<Movie>, ms: seq<Movie>, genre: string)
  {
    && |idx| == |r|
    && (forall k :: 0 <= k < |idx| ==> 0 <= idx[k] < |ms| && r[k] == ms[idx[k]] && Keeps(ms[idx[k]], genre))
    && Increasing(idx)
    && (forall i :: 0 <= i < |ms| && Keeps(ms[i], genre) ==> i in idx)
  }

  /** Every position moved one place to the right. */
  function Shift(idx: seq<int>): (r: seq<int>)
    ensures |r| == |idx| && forall k :: 0 <= k < |idx| ==> r[k] == idx[k] + 1
  {
    seq(|idx|, k requires 0 <= k < |idx| => idx[k] + 1)
  }

  /** Every selected position after the first of `ms` is in the shifted
      selection from its tail. */
  lemma ShiftCoversTail(ms: seq<Movie>, genre: string, idx: seq<int>, rest: seq<Movie>)
    requires ms != [] && IsSelection(idx, rest, ms[1..], genre)
    ensures forall i :: 1 <= i < |ms| && Keeps(ms[i], genre) ==> i in Shift(idx)
  {
    var shifted := Shift(idx);
    forall i | 1 <= i < |ms| && Keeps(ms[i], genre) ensures i in shifted {
      assert ms[1..][i - 1] == ms[i];
      var k :| 0 <= k < |idx| && idx[k] == i - 1;
      assert shifted[k] == i;
    }
  }

  /** Positions listed in strictly increasing order. */
  ghost predicate Increasing(idx: seq<int>)
  {
    forall k, l :: 0 <= k < l < |idx| ==> idx[k] < idx[l]
  }

  /** Putting position 0 in front of shifted non-negative positions keeps
      them increasing. */
  lemma ConsZeroIncreasing(idx: seq<int>)
    requires Increasing(idx) && forall k :: 0 <= k < |idx| ==> 0 <= idx[k]
    ensures Increasing([0] + Shift(idx))
  {
  }

  /** A selection from the tail of `ms` is one from `ms` when the first movie
      is not selected. */
  lemma SelectionSkip(ms: seq<Movie>, genre: string, idx: seq<int>, rest: seq<Movie>)
    requires ms != [] && IsSelection(idx, rest, ms[1..], genre) && !Keeps(ms[0], genre)
    ensures IsSelection(Shift(idx), rest, ms, genre)
  {
    ShiftCoversTail(ms, genre, idx, rest);
    var shifted := Shift(idx);
    forall k | 0 <= k < |shifted|
      ensures 0 <= shifted[k] < |ms| && rest[k] == ms[shifted[k]] && Keeps(ms[shifted[k]], genre)
    {
      assert ms[1..][idx[k]] == ms[shifted[k]];
    }
  }

  /** Position 0 in front of a shifted selection from the tail of `ms`
      lists selected movies of `ms`, in order. */
  lemma KeepListsSelected(ms: seq<Movie>, genre: string, idx: seq<int>, rest: seq<Movie>)
    requires ms != [] && IsSelection(idx, rest, ms[1..], genre) && Keeps(ms[0], genre)
    ensures var idx0, r0 := [0] + Shift(idx), [ms[0]] + rest;
      forall k :: 0 <= k < |idx0| ==> 0 <= idx0[k] < |ms| && r0[k] == ms[idx0[k]] && Keeps(ms[idx0[k]], genre)
  {
    var shifted := Shift(idx);
    var idx0 := [0] + shifted;
    var r0 := [ms[0]] + rest;
    forall k | 0 <= k < |idx0|
      ensures 0 <= idx0[k] < |ms| && r0[k] == ms[idx0[k]] && Keeps(ms[idx0[k]], genre)
    {
      if k > 0 {
        assert idx0[k] == shifted[k - 1] && r0[k] == rest[k - 1];
        assert ms[1..][idx[k - 1]] == ms[shifted[k - 1]];
      }
    }
  }

  /** A selection from the tail of `ms` extends, by position 0, to one from
      `ms` when the first movie is selected. */
  lemma SelectionKeep(ms: seq<Movie>, genre: string, idx: seq<int>, rest: seq<Movie>)
    requires ms != [] && IsSelection(idx, rest, ms[1..], genre) && Keeps(ms[0], genre)
    ensures IsSelection([0] + Shift(idx), [ms[0]] + rest, ms, genre)
  {
    ShiftCoversTail(ms, genre, idx, rest);
    KeepListsSelected(ms, genre, idx, rest);
    var shifted := Shift(idx);
    var idx0 := [0] + shifted;
    assert forall k :: 0 <= k < |idx| ==> 0 <= idx[k];
    ConsZeroIncreasing(idx);
    forall i | 0 <= i < |ms| && Keeps(ms[i], genre) ensures i in idx0 {
      if i > 0 {
        assert i in shifted;
        var k :| 0 <= k < |shifted| && shifted[k] == i;
        assert idx0[k + 1] == i;
      }
    }
  }

  /** Filtering by genre keeps the selected movies in their original order
      and drops nothing that is selected. */
  lemma {:induction false} FilterPreservesOrder(ms: seq<Movie>, genre: string)
    requires FilterByGenre(ms, genre).Ok?
    ensures exists idx :: IsSelection(idx, FilterByGenre(ms, genre).value, ms, genre)
  {
    if ms == [] {
      assert IsSelection([], [], ms, genre);
    } else {
      var tail := ms[1..];
      assert GenreMatch(ms[0], genre).Ok?;
      assert forall i :: 0 <= i < |tail| ==> tail[i] == ms[i + 1];
      FilterPreservesOrder(tail, genre);
      var rest := FilterByGenre(tail, genre).value;
      var idx :| IsSelection(idx, rest, tail, genre);
      if Keeps(ms[0], genre) {
        SelectionKeep(ms, genre, idx, rest);
        assert IsSelection([0] + Shift(idx), FilterByGenre(ms, genre).value, ms, genre);
      } else {
        SelectionSkip(ms, genre, idx, rest);
        assert IsSelection(Shift(idx), FilterByGenre(ms, genre).value, ms, genre);
      }
    }
  }

  /** When filtering succeeds, `find` with the same test answers the first
      movie of the filtered list, or nothing when the list is empty. */
  lemma {:induction false} FindIsHeadOfFilter(ms: seq<Movie>, genre: string)
    requires FilterByGenre(ms, genre).Ok?
    ensures var r := FilterByGenre(ms, genre).value;
      FindByGenre(ms, genre) == if r == [] then Ok(None) else Ok(Some(r[0]))
  {
    if ms != [] {
      assert GenreMatch(ms[0], genre).Ok?;
      if !Keeps(ms[0], genre) {
        assert forall i :: 0 <= i < |ms[1..]| ==> GenreMatch(ms[1..][i], genre) == GenreMatch(ms[i + 1], genre);
        FindIsHeadOfFilter(ms[1..], genre);
      }
    }
  }

  /** When every movie has a genre array of strings, neither `filter` nor
      `find` by genre throws. */
  lemma GenreListedNeverThrows(ms: seq<Movie>, genre: string)
    requires forall i :: 0 <= i < |ms| ==> GenreListed(ms[i])
    ensures FilterByGenre(ms, genre).Ok?
    ensures FindByGenre(ms, genre).Ok?
  {
  }

  /** After appending a movie with a fresh id, looking that id up finds it,
      at the end of the array. */
  lemma CreateThenFind(ms: seq<Movie>, newId: string, data: Obj)
    requires IdAbsent(ms, newId) && "id" !in data
    ensures FindIndex(ms + [NewRecord(newId, data)], newId) == |ms|
    ensures Find(ms + [NewRecord(newId, data)], newId) == Some(NewRecord(newId, data))
  {
    var ms' := ms + [NewRecord(newId, data)];
    assert HasId(ms'[|ms|], newId);
    assert forall j :: 0 <= j < |ms| ==> ms'[j] == ms[j];
  }

  /** Appending a movie with a fresh id keeps ids unique. */
  lemma CreateKeepsIdsUnique(ms: seq<Movie>, newId: string, data: Obj)
    requires UniqueIds(ms) && IdAbsent(ms, newId) && "id" !in data
    ensures UniqueIds(ms + [NewRecord(newId, data)])
  {
  }

  /** Removing the first movie with an id, when ids are unique, leaves no
      movie with that id: a second removal finds nothing. */
  lemma DeleteRemovesId(ms: seq<Movie>, id: string)
    requires UniqueIds(ms) && FindIndex(ms, id) != -1
    ensures var i := FindIndex(ms, id); FindIndex(ms[..i] + ms[i + 1..], id) == -1
  {
  }

  /** Removing one movie keeps ids unique. */
  lemma DeleteKeepsIdsUnique(ms: seq<Movie>, i: int)
    requires UniqueIds(ms) && 0 <= i < |ms|
    ensures UniqueIds(ms[..i] + ms[i + 1..])
  {
  }

  /** The model's `update` returns the merged movie but stores nothing: a
      later lookup still answers the old movie, so a patch that changes any
      field is lost. */
  lemma UpdateIsNotStored(ms: seq<Movie>, id: string, patch: Obj, k: string)
    requires FindIndex(ms, id) != -1
    requires k in patch && (k !in ms[FindIndex(ms, id)] || ms[FindIndex(ms, id)][k] != patch[k])
    ensures Find(ms, id).Some?
    ensures Find(ms, id) != Some(Merge(ms[FindIndex(ms, id)], patch))
  {
  }

  /** Writing the merged movie back at its index makes a later lookup answer
      it (the patch cannot carry an `id`). */
  lemma StoredUpdateThenFind(ms: seq<Movie>, id: string, patch: Obj)
    requires FindIndex(ms, id) != -1 && "id" !in patch
    ensures var i := FindIndex(ms, id);
      Find(ms[i := Merge(ms[i], patch)], id) == Some(Merge(ms[i], patch))
  {
  }

  /** The movie model: the module-level `movies` array and the operations on it. */
  class MovieModel {
    var movies: seq<Movie>

    /** The array read from the JSON file at start-up; any contents. */
    constructor (initial: seq<Movie>)
      ensures movies == initial
    {
      movies := initial;
    }

    /** `getAll({ genre })`: every movie without a genre, else the movies
        whose genre list holds the genre ignoring case. */
    function GetAll(genre: Option<string>): (r: Result<seq<Movie>>)
      reads this
      ensures !Truthy(genre) ==> r == Ok(movies)
      ensures Truthy(genre) ==> r == FilterByGenre(movies, genre.value)
      ensures Truthy(genre) ==>
        (r.Ok? <==> forall i :: 0 <= i < |movies| ==> GenreMatch(movies[i], genre.value).Ok?)
      ensures Truthy(genre) && r.Ok? ==>
        forall m :: m in r.value <==> m in movies && Keeps(m, genre.value)
    {
      if Truthy(genre) then FilterByGenre(movies, genre.value) else Ok(movies)
    }

    /** `getById({ id })`: the first movie with the id, or `undefined`. */
    function GetById(id: string): (r: Option<Movie>)
      reads this
      ensures r.None? <==> IdAbsent(movies, id)
      ensures r.Some? ==>
        var i := FindIndex(movies, id);
        r.value == movies[i] && HasId(r.value, id) && forall j :: 0 <= j < i ==> !HasId(movies[j], id)
    {
      Find(movies, id)
    }

    /** `create({ dataMovie })`: appends `{ id, ...dataMovie }` and returns it. */
    method Create(newId: string, dataMovie: Obj) returns (newMovie: Movie)
      requires IdAbsent(movies, newId)
      modifies this
      ensures movies == old(movies) + [newMovie]
      ensures newMovie == NewRecord(newId, dataMovie)
      ensures "id" !in dataMovie ==> HasId(newMovie, newId)
    {
      newMovie := NewRecord(newId, dataMovie);
      movies := movies + [newMovie];
    }

    /** `update({ id, dataMovie })`: `false` (here `None`) for an unknown id,
        else the stored movie with the patch spread over it. The result is
        not written back. */
    function Update(id: string, dataMovie: Obj): (r: Option<Movie>)
      reads this
      ensures r.None? <==> IdAbsent(movies, id)
      ensures r.Some? ==>
        var base := movies[FindIndex(movies, id)];
        && HasId(base, id)
        && (forall k :: k in r.value <==> k in base || k in dataMovie)
        && (forall k :: k in dataMovie ==> r.value[k] == dataMovie[k])
        && (forall k :: k in base && k !in dataMovie ==> r.value[k] == base[k])
    {
      var movieIndex := FindIndex(movies, id);
      if movieIndex == -1 then None else Some(Merge(movies[movieIndex], dataMovie))
    }

    /** `update` with the write-back added: the merged movie replaces the
        stored one in place. */
    method UpdateStored(id: string, dataMovie: Obj) returns (r: Option<Movie>)
      modifies this
      ensures r == old(Update(id, dataMovie))
      ensures r.None? ==> movies == old(movies)
      ensures r.Some? ==> movies == old(movies)[FindIndex(old(movies), id) := r.value]
    {
      var movieIndex := FindIndex(movies, id);
      if movieIndex == -1 {
        return None;
      }
      var updated := Merge(movies[movieIndex], dataMovie);
      movies := movies[movieIndex := updated];
      return Some(updated);
    }

    /** `delete({ id })`: `false` for an unknown id, else removes the movie
        at the first matching index (`splice(index, 1)`) and answers `true`. */
    method Delete(id: string) returns (deleted: bool)
      modifies this
      ensures deleted <==> !IdAbsent(old(movies), id)
      ensures !deleted ==> movies == old(movies)
      ensures deleted ==>
        var i := FindIndex(old(movies), id);
        movies == old(movies)[..i] + old(movies)[i + 1..] && |movies| == |old(movies)| - 1
    {
      var movieIndex := FindIndex(movies, id);
      if movieIndex == -1 {
        return false;
      }
      movies := movies[..movieIndex] + movies[movieIndex + 1..];
      return true;
    }
  }
}
