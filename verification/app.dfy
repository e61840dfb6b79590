/** The stand-alone application: its inline CORS callback and the route
    handlers that work directly on their own `movies` array. Each handler is
    modelled by the response the client receives. */
module App {
  import opened JsValues
  import opened Store
  import Schema
  import Cors

  /** The allow-list declared inside the application's origin callback. */
  const ACCEPTED_ORIGINS: seq<string> := [
    "http://localhost:3000",
    "http://localhost:3001",
    "http://localhost:5000",
    "http://localhost:8080"
  ]

  /** The application's own `origin` callback: it decides exactly as the
      reusable middleware does, whatever list that middleware is given. */
  function OriginCallback(origin: Option<string>): (v: Cors.Verdict)
    ensures v == Cors.Allow <==> !Truthy(origin) || origin.value in Cors.ACCEPTED_ORIGINS
    ensures forall accepted :: v == Cors.CorsOrigin(accepted, origin)
  {
    Cors.Decide(ACCEPTED_ORIGINS, origin)
  }

  /** The JSON a handler sends. `NoBody` is `res.json(undefined)`, an empty
      body; `ServerError` is what the framework sends when a handler throws. */
  datatype Body =
    | MovieList(movies: seq<Movie>)
    | OneMovie(movie: Movie)
    | NoBody
    | Error(message: string)
    | Issues(issues: seq<Schema.Issue>)
    | Message(text: string)
    | ServerError

  datatype Response = Response(status: int, body: Body)

  const NOT_FOUND: Response := Response(404, Error("Movie not found"))

  /** The application with its module-level `movies` array. */
  class MoviesApp {
    var movies: seq<Movie>

    /** The array read from the JSON file at start-up; any contents. */
    constructor (initial: seq<Movie>)
      ensures movies == initial
    {
      movies := initial;
    }

    /** GET /movies: the whole array without a genre; with one, only the
        first movie whose genre list holds it ignoring case (`find`), an
        empty body when none does, and a server error when a genre test
        throws before a match is reached. */
    function GetMovies(genre: Option<string>): (r: Response)
      reads this
      ensures !Truthy(genre) ==> r == Response(200, MovieList(movies))
      ensures Truthy(genre) ==>
        var i := FirstDecided(movies, genre.value);
        r == if i == |movies| then Response(200, NoBody)
             else if Keeps(movies[i], genre.value) then Response(200, OneMovie(movies[i]))
             else Response(500, ServerError)
      ensures Truthy(genre) && r.body.OneMovie? ==> r.body.movie in movies && Keeps(r.body.movie, genre.value)
    {
      if Truthy(genre) then
        match FindByGenre(movies, genre.value)
        case TypeError => Response(500, ServerError)
        case Ok(None) => Response(200, NoBody)
        case Ok(Some(m)) => Response(200, OneMovie(m))
      else
        Response(200, MovieList(movies))
    }

    /** GET /movies/:id: the first movie with the id, else 404. */
    function GetMovie(id: string): (r: Response)
      reads this
      ensures IdAbsent(movies, id) ==> r == NOT_FOUND
      ensures !IdAbsent(movies, id) ==>
        var i := FindIndex(movies, id);
        r == Response(200, OneMovie(movies[i])) && HasId(movies[i], id)
    {
      match Find(movies, id)
      case Some(movie) => Response(200, OneMovie(movie))
      case None => NOT_FOUND
    }

    /** PATCH /movies/:id: 400 with the issues for an invalid patch (before
        any lookup), 404 for an unknown id, else the stored movie with the
        patch's schema fields spread over it. Nothing is stored. */
    function Patch(id: string, body: Json, isUrl: string -> bool): (r: Response)
      reads this
      ensures !(body.JObj? && Schema.PartialPayload(body.fields, isUrl)) ==>
        r == Response(400, Issues(Schema.ValidatePartialMovie(body, isUrl).issues)) && r.body.issues != []
      ensures body.JObj? && Schema.PartialPayload(body.fields, isUrl) && IdAbsent(movies, id) ==> r == NOT_FOUND
      ensures body.JObj? && Schema.PartialPayload(body.fields, isUrl) && !IdAbsent(movies, id) ==>
        var base := movies[FindIndex(movies, id)];
        && HasId(base, id)
        && r.status == 200 && r.body.OneMovie?
        && (forall k :: k in r.body.movie <==> k in base || (k in body.fields && k in Schema.SHAPE))
        && (forall k :: k in body.fields && k in Schema.SHAPE ==> r.body.movie[k] == body.fields[k])
        && (forall k :: k in base && !(k in body.fields && k in Schema.SHAPE) ==> r.body.movie[k] == base[k])
    {
      match Schema.ValidatePartialMovie(body, isUrl)
      case Failure(issues) => Response(400, Issues(issues))
      case Success(data) =>
        var movieIndex := FindIndex(movies, id);
        if movieIndex == -1 then NOT_FOUND
        else Response(200, OneMovie(Merge(movies[movieIndex], data)))
    }

    /** POST /movies as written: an invalid body gets 422, but the handler
        does not return, so `{ id, ...undefined }` (the id alone) is still
        pushed; the later 201 never reaches the client. */
    method Post(body: Json, newId: string, isUrl: string -> bool) returns (r: Response)
      requires IdAbsent(movies, newId)
      modifies this
      ensures var parsed := Schema.ValidateMovie(body, isUrl);
        movies == old(movies) + [NewRecord(newId, if parsed.Success? then parsed.data else map[])]
      ensures Schema.ValidateMovie(body, isUrl).Success? ==>
        r == Response(201, OneMovie(movies[|movies| - 1])) && HasId(movies[|movies| - 1], newId)
      ensures Schema.ValidateMovie(body, isUrl).Failure? ==>
        && r == Response(422, Issues(Schema.ValidateMovie(body, isUrl).issues))
        && r.body.issues != []
        && movies[|movies| - 1] == map["id" := JStr(newId)]
    {
      var result := Schema.ValidateMovie(body, isUrl);
      var sent: Option<Response> := None;
      if result.Failure? {
        sent := Some(Response(422, Issues(result.issues)));
      }
      var newMovie := NewRecord(newId, if result.Success? then result.data else map[]);
      movies := movies + [newMovie];
      // Only the first response reaches the client; a second one throws.
      r := if sent.Some? then sent.value else Response(201, OneMovie(newMovie));
      if result.Failure? {
        assert newMovie.Keys == {"id"};
      } else {
        Schema.ParsedDataHasNoId(Schema.Full, body, isUrl);
      }
    }

    /** POST /movies with the missing `return` added: an invalid body gets 422
        and changes nothing. */
    method PostChecked(body: Json, newId: string, isUrl: string -> bool) returns (r: Response)
      requires IdAbsent(movies, newId)
      modifies this
      ensures Schema.ValidateMovie(body, isUrl).Failure? ==>
        && r == Response(422, Issues(Schema.ValidateMovie(body, isUrl).issues))
        && r.body.issues != []
        && movies == old(movies)
      ensures Schema.ValidateMovie(body, isUrl).Success? ==>
        && movies == old(movies) + [NewRecord(newId, Schema.ValidateMovie(body, isUrl).data)]
        && r == Response(201, OneMovie(movies[|movies| - 1]))
        && HasId(movies[|movies| - 1], newId) && GenreListed(movies[|movies| - 1])
        && Schema.FullPayload(movies[|movies| - 1], isUrl)
    {
      var result := Schema.ValidateMovie(body, isUrl);
      if result.Failure? {
        return Response(422, Issues(result.issues));
      }
      var newMovie := NewRecord(newId, result.data);
      ValidPostIsGenreListed(body, newId, isUrl);
      Schema.ParsedDataHasNoId(Schema.Full, body, isUrl);
      assert "title" in Schema.SHAPE && "year" in Schema.SHAPE && "director" in Schema.SHAPE;
      assert "duration" in Schema.SHAPE && "poster" in Schema.SHAPE && "genre" in Schema.SHAPE;
      movies := movies + [newMovie];
      r := Response(201, OneMovie(newMovie));
    }

    /** DELETE /movies/:id: 404 for an unknown id and nothing changes, else
        the movie at the first matching index is spliced out. */
    method Delete(id: string) returns (r: Response)
      modifies this
      ensures IdAbsent(old(movies), id) ==> r == NOT_FOUND && movies == old(movies)
      ensures !IdAbsent(old(movies), id) ==>
        var i := FindIndex(old(movies), id);
        && r == Response(200, Message("Movie deleted"))
        && movies == old(movies)[..i] + old(movies)[i + 1..]
        && |movies| == |old(movies)| - 1
    {
      var movieIndex := FindIndex(movies, id);
      if movieIndex == -1 {
        return NOT_FOUND;
      }
      movies := movies[..movieIndex] + movies[movieIndex + 1..];
      return Response(200, Message("Movie deleted"));
    }
  }

  /** A movie created from a valid body has a genre array of strings, so
      later genre searches cannot throw on it. */
  lemma ValidPostIsGenreListed(body: Json, newId: string, isUrl: string -> bool)
    requires body.JObj? && Schema.FullPayload(body.fields, isUrl)
    ensures GenreListed(NewRecord(newId, Schema.ValidateMovie(body, isUrl).data))
  {
    var data := Schema.ValidateMovie(body, isUrl).data;
    assert "genre" in Schema.SHAPE;
    assert data["genre"] == body.fields["genre"];
  }

  /** A stored movie that satisfies the full schema still satisfies it once
      a patch accepted by the partial schema is spread over it. */
  lemma PatchKeepsFullPayload(base: Obj, body: Json, isUrl: string -> bool)
    requires Schema.FullPayload(base, isUrl)
    requires Schema.ValidatePartialMovie(body, isUrl).Success?
    ensures Schema.FullPayload(Merge(base, Schema.ValidatePartialMovie(body, isUrl).data), isUrl)
  {
  }

  /** Once a failed POST has pushed a movie without `genre` behind movies
      that do not match a genre, a search for that genre throws (the client
      gets a server error) instead of answering an empty body. */
  lemma {:induction false} FailedPostBreaksGenreSearch(ms: seq<Movie>, newId: string, genre: string)
    requires forall i :: 0 <= i < |ms| ==> Skips(ms[i], genre)
    ensures FindByGenre(ms + [NewRecord(newId, map[])], genre) == TypeError
  {
    var ms' := ms + [NewRecord(newId, map[])];
    if ms == [] {
      assert ms' == [NewRecord(newId, map[])];
    } else {
      assert ms'[1..] == ms[1..] + [NewRecord(newId, map[])];
      assert ms'[0] == ms[0];
      FailedPostBreaksGenreSearch(ms[1..], newId, genre);
    }
  }
}
