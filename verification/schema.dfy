/** The movie payload schema: one rule per field, checked in full form (for
    creation) and in partial form (for patches). */
module Schema {
  import opened JsValues

  /** The closed genre enumeration, compared exactly (case-sensitive). */
  const GENRES: seq<string> := [
    "Action", "Drama", "Crime", "Sci-Fi", "Thriller", "Comedy",
    "Romance", "Horror", "Animation", "Adventure", "Fantasy", "Mystery"
  ]

  /** The keys of the schema's shape, in declaration order. */
  const SHAPE: seq<string> := ["title", "year", "director", "duration", "poster", "genre", "rate"]

  /** A problem reported by a failed parse: the body is not an object at all,
      or the named field is missing or breaks its rule. */
  datatype Issue = NotAnObject | Invalid(field: string)

  /** What `safeParse` answers: the parsed data, or the list of issues. */
  datatype Parsed = Success(data: Obj) | Failure(issues: seq<Issue>)

  /** Full schema, or the schema with every field made optional. */
  datatype Mode = Full | Partial

  /** `Number.isInteger` on a finite number. */
  predicate IsInteger(n: real)
  {
    n.Floor as real == n
  }

  predicate ValidTitle(v: Json) { v.JStr? }

  predicate ValidYear(v: Json) { v.JNum? && IsInteger(v.n) && 1900.0 <= v.n <= 2025.0 }

  predicate ValidDirector(v: Json) { v.JStr? }

  predicate ValidDuration(v: Json) { v.JNum? && IsInteger(v.n) && v.n > 0.0 }

  /** A string accepted by the URL check, which is a parameter of the model. */
  predicate ValidPoster(v: Json, isUrl: string -> bool) { v.JStr? && isUrl(v.s) }

  /** An array whose every element is one of the listed labels; it may be empty. */
  predicate ValidGenre(v: Json)
  {
    v.JArr? && forall x :: x in v.items ==> x.JStr? && x.s in GENRES
  }

  predicate ValidRate(v: Json) { v.JNum? && 0.0 <= v.n <= 10.0 }

  /** The rule the shape attaches to `key`; keys outside the shape are not checked. */
  predicate FieldOk(key: string, v: Json, isUrl: string -> bool)
  {
    if key == "title" then ValidTitle(v)
    else if key == "year" then ValidYear(v)
    else if key == "director" then ValidDirector(v)
    else if key == "duration" then ValidDuration(v)
    else if key == "poster" then ValidPoster(v, isUrl)
    else if key == "genre" then ValidGenre(v)
    else key == "rate" ==> ValidRate(v)
  }

  /** Whether a field must be present: every field of the full schema except
      `rate`, which has a default. */
  predicate Required(mode: Mode, key: string)
  {
    mode == Full && key != "rate"
  }

  /** Whether `key` yields an issue when `o` is parsed. */
  predicate FieldFails(mode: Mode, o: Obj, key: string, isUrl: string -> bool)
  {
    if key in o then !FieldOk(key, o[key], isUrl) else Required(mode, key)
  }

  /** The issues of the keys in `keys`, one per failing key, in key order. */
  function IssuesIn(keys: seq<string>, mode: Mode, o: Obj, isUrl: string -> bool): (r: seq<Issue>)
    ensures forall issue :: issue in r ==> issue.Invalid? && issue.field in keys && FieldFails(mode, o, issue.field, isUrl)
    ensures forall k :: k in keys && FieldFails(mode, o, k, isUrl) ==> Invalid(k) in r
  {
    if keys == [] then []
    else
      (if FieldFails(mode, o, keys[0], isUrl) then [Invalid(keys[0])] else [])
      + IssuesIn(keys[1..], mode, o, isUrl)
  }

  /** The parsed data: the shape's fields of `o` (other keys are stripped),
      with `rate` defaulted to 0 by the full schema. */
  function Output(mode: Mode, o: Obj): Obj
  {
    (map k | k in o && k in SHAPE :: o[k])
    + (if mode == Full && "rate" !in o then map["rate" := JNum(0.0)] else map[])
  }

  /** `schema.safeParse(body)`, for the full or the partial schema. */
  function Parse(mode: Mode, body: Json, isUrl: string -> bool): Parsed
  {
    match body
    case JObj(o) =>
      var issues := IssuesIn(SHAPE, mode, o, isUrl);
      if issues == [] then Success(Output(mode, o)) else Failure(issues)
    case _ => Failure([NotAnObject])
  }

  /** Every field of the full schema, rule by rule. */
  predicate FullPayload(o: Obj, isUrl: string -> bool)
  {
    && "title" in o && ValidTitle(o["title"])
    && "year" in o && ValidYear(o["year"])
    && "director" in o && ValidDirector(o["director"])
    && "duration" in o && ValidDuration(o["duration"])
    && "poster" in o && ValidPoster(o["poster"], isUrl)
    && "genre" in o && ValidGenre(o["genre"])
    && ("rate" in o ==> ValidRate(o["rate"]))
  }

  /** The partial schema: no field is required, a present field obeys its rule. */
  predicate PartialPayload(o: Obj, isUrl: string -> bool)
  {
    && ("title" in o ==> ValidTitle(o["title"]))
    && ("year" in o ==> ValidYear(o["year"]))
    && ("director" in o ==> ValidDirector(o["director"]))
    && ("duration" in o ==> ValidDuration(o["duration"]))
    && ("poster" in o ==> ValidPoster(o["poster"], isUrl))
    && ("genre" in o ==> ValidGenre(o["genre"]))
    && ("rate" in o ==> ValidRate(o["rate"]))
  }

  /** The shape's keys are exactly the seven declared fields. */
  lemma InShape(k: string)
    ensures k in SHAPE <==>
      k == "title" || k == "year" || k == "director" || k == "duration" ||
      k == "poster" || k == "genre" || k == "rate"
  {
  }

  /** No key of the shape fails exactly when the object satisfies the schema
      written out field by field. */
  lemma FieldsOkIff(mode: Mode, o: Obj, isUrl: string -> bool)
    ensures (forall k :: k in SHAPE ==> !FieldFails(mode, o, k, isUrl)) <==>
      (if mode == Full then FullPayload(o, isUrl) else PartialPayload(o, isUrl))
  {
    var payload := if mode == Full then FullPayload(o, isUrl) else PartialPayload(o, isUrl);
    if forall k :: k in SHAPE ==> !FieldFails(mode, o, k, isUrl) {
      assert "title" in SHAPE && "year" in SHAPE && "director" in SHAPE && "duration" in SHAPE;
      assert "poster" in SHAPE && "genre" in SHAPE && "rate" in SHAPE;
      assert payload;
    }
    if payload {
      forall k | k in SHAPE ensures !FieldFails(mode, o, k, isUrl) {
        InShape(k);
      }
    }
  }

  /** Parsing an object yields no issue exactly when it satisfies the schema
      written out field by field. */
  lemma NoIssuesIff(mode: Mode, o: Obj, isUrl: string -> bool)
    ensures IssuesIn(SHAPE, mode, o, isUrl) == [] <==>
      (if mode == Full then FullPayload(o, isUrl) else PartialPayload(o, isUrl))
  {
    var r := IssuesIn(SHAPE, mode, o, isUrl);
    if r != [] {
      assert r[0] in r;
    }
    FieldsOkIff(mode, o, isUrl);
  }

  /** `validateMovie`: full validation of a request body. */
  function ValidateMovie(body: Json, isUrl: string -> bool): (r: Parsed)
    ensures r.Success? <==> body.JObj? && FullPayload(body.fields, isUrl)
    ensures r.Success? ==>
      && (forall k :: k in r.data <==> k in SHAPE)
      && (forall k :: k in r.data && k != "rate" ==> r.data[k] == body.fields[k])
      && r.data["rate"] == (if "rate" in body.fields then body.fields["rate"] else JNum(0.0))
      && ValidRate(r.data["rate"])
    ensures !body.JObj? ==> r == Failure([NotAnObject])
    ensures r.Failure? && body.JObj? ==>
      r.issues != [] && forall i :: i in r.issues <==> i.Invalid? && i.field in SHAPE && FieldFails(Full, body.fields, i.field, isUrl)
  {
    if body.JObj? then
      NoIssuesIff(Full, body.fields, isUrl);
      Parse(Full, body, isUrl)
    else
      Parse(Full, body, isUrl)
  }

  /** `validatePartialMovie`: partial validation of a request body. */
  function ValidatePartialMovie(body: Json, isUrl: string -> bool): (r: Parsed)
    ensures r.Success? <==> body.JObj? && PartialPayload(body.fields, isUrl)
    ensures r.Success? ==>
      && (forall k :: k in r.data <==> k in body.fields && k in SHAPE)
      && (forall k :: k in r.data ==> r.data[k] == body.fields[k])
    ensures !body.JObj? ==> r == Failure([NotAnObject])
    ensures r.Failure? && body.JObj? ==>
      r.issues != [] && forall i :: i in r.issues <==> i.Invalid? && i.field in SHAPE && FieldFails(Partial, body.fields, i.field, isUrl)
  {
    if body.JObj? then
      NoIssuesIff(Partial, body.fields, isUrl);
      Parse(Partial, body, isUrl)
    else
      Parse(Partial, body, isUrl)
  }

  /** A payload the full schema accepts is accepted by the partial schema too. */
  lemma FullImpliesPartial(body: Json, isUrl: string -> bool)
    requires body.JObj? && FullPayload(body.fields, isUrl)
    ensures ValidateMovie(body, isUrl).Success?
    ensures ValidatePartialMovie(body, isUrl).Success?
  {
  }

  /** The empty object is a valid patch and yields the empty patch. */
  lemma EmptyPatchAccepted(isUrl: string -> bool)
    ensures ValidatePartialMovie(JObj(map[]), isUrl) == Success(map[])
  {
  }

  /** A body that is complete and well-typed except that `title` is missing
      fails with exactly one kind of issue, and it names `title`. */
  lemma MissingTitleIsTheOnlyIssue(o: Obj, isUrl: string -> bool)
    requires "title" !in o
    requires PartialPayload(o, isUrl)
    requires "year" in o && "director" in o && "duration" in o && "poster" in o && "genre" in o
    ensures ValidateMovie(JObj(o), isUrl).Failure?
    ensures forall i :: i in ValidateMovie(JObj(o), isUrl).issues <==> i == Invalid("title")
  {
  }

  /** The edges of the field rules: inclusive year bounds, strictly positive
      whole durations, an empty genre list, inclusive rate bounds, and a
      genre label compared case-sensitively. */
  lemma RuleBoundaries(isUrl: string -> bool)
    ensures ValidYear(JNum(1900.0)) && ValidYear(JNum(2025.0))
    ensures !ValidYear(JNum(1899.0)) && !ValidYear(JNum(2026.0)) && !ValidYear(JNum(1999.5))
    ensures ValidDuration(JNum(1.0)) && !ValidDuration(JNum(0.0)) && !ValidDuration(JNum(90.5))
    ensures ValidGenre(JArr([])) && ValidGenre(JArr([JStr("Horror")])) && !ValidGenre(JArr([JStr("horror")]))
    ensures ValidRate(JNum(0.0)) && ValidRate(JNum(10.0)) && !ValidRate(JNum(10.5)) && !ValidRate(JNum(-0.5))
    ensures !ValidTitle(JNull) && !ValidTitle(JNum(1.0))
  {
  }

  /** No parse result carries an `id`: a client cannot choose a movie's id. */
  lemma ParsedDataHasNoId(mode: Mode, body: Json, isUrl: string -> bool)
    requires Parse(mode, body, isUrl).Success?
    ensures "id" !in Parse(mode, body, isUrl).data
  {
  }
}
