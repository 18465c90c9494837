/**
 * The shared data model: the `games` table and its insert payload, the
 * playlist response types, and the validation of an insert request body by
 * the insert schema (which omits the server-assigned `id` and `createdAt`).
 */
module Schema {
  import opened Common

  /** A server clock reading, as stored in `created_at`. */
  type Timestamp = int

  /**
   * A row of `games`: a serial primary key, the three required text/integer
   * columns, `score` (not null, default 0) and `created_at` (default now, nullable).
   */
  datatype Game = Game(
    id: nat,
    playerName: string,
    playlistId: string,
    score: int,
    totalQuestions: int,
    createdAt: Option<Timestamp>)

  /** The insert payload: no `id` and no `createdAt`; `score` may be left out. */
  datatype InsertGame = InsertGame(
    playerName: string,
    playlistId: string,
    score: Option<int>,
    totalQuestions: int)

  datatype PlaylistSong = PlaylistSong(id: string, title: string, thumbnail: string)

  datatype PlaylistResponse = PlaylistResponse(id: string, title: string, songs: seq<PlaylistSong>)

  /** The stored row for an insert: the given id and clock reading, and score 0 when none was given. */
  function NewRow(id: nat, g: InsertGame, now: Timestamp): Game {
    Game(id, g.playerName, g.playlistId, match g.score case Some(s) => s case None => 0,
         g.totalQuestions, Some(now))
  }

  // ---------------------------------------------------------------------------
  // Validation of a request body against the insert schema
  // ---------------------------------------------------------------------------

  /** A JSON value of a request body (numbers are integers in this model). */
  datatype Json = JNull | JBool(b: bool) | JNumber(n: int) | JString(s: string) | JArray | JObject

  /** An object body: its keys and values. */
  type Body = map<string, Json>

  /** A body value that is not an object. */
  type NonObject = v: Json | !v.JObject? witness JNull

  /** A request body as the JSON parser hands it on: an object, or another JSON value such as an array. */
  datatype RequestBody = ObjectBody(fields: Body) | OtherBody(value: NonObject)

  /** A step of an issue's path: an object key or an array index. */
  datatype PathSegment = Key(name: string) | Index(i: nat)

  /** One validation issue: where it is and its message. */
  datatype Issue = Issue(path: seq<PathSegment>, message: string)

  /** The type names the validator reports as "received". */
  function TypeName(v: Json): string {
    match v
    case JNull => "null"
    case JBool(_) => "boolean"
    case JNumber(_) => "number"
    case JString(_) => "string"
    case JArray => "array"
    case JObject => "object"
  }

  function Mistyped(key: string, expected: string, v: Json): Issue {
    Issue([Key(key)], "Expected " + expected + ", received " + TypeName(v))
  }

  /** A required text column. */
  function TextField(body: Body, key: string): Result<string, Issue> {
    if key !in body then Failure(Issue([Key(key)], "Required"))
    else match body[key]
      case JString(s) => Success(s)
      case v => Failure(Mistyped(key, "string", v))
  }

  /** An integer column; one with a default may be left out. */
  function IntField(body: Body, key: string, hasDefault: bool): Result<Option<int>, Issue> {
    if key !in body then (if hasDefault then Success(None) else Failure(Issue([Key(key)], "Required")))
    else match body[key]
      case JNumber(n) => Success(Some(n))
      case v => Failure(Mistyped(key, "number", v))
  }

  /** The issue of one field, if any; `ParseInsertGame` concatenates them in column order. */
  function IssuesOf<T>(r: Result<T, Issue>): seq<Issue> {
    if r.Failure? then [r.error] else []
  }

  /** The fields the insert schema checks. */
  const InsertFields: set<string> := {"playerName", "playlistId", "score", "totalQuestions"}

  /** One insert field passes: the text columns need a string, the integer columns a number, and `score` may be absent. */
  ghost predicate FieldOk(body: Body, key: string) {
    if key == "score" then key in body ==> body[key].JNumber?
    else if key == "totalQuestions" then key in body && body[key].JNumber?
    else key in body && body[key].JString?
  }

  /** The body has every field the insert schema requires, each of the right type. */
  ghost predicate WellFormed(body: Body) {
    && FieldOk(body, "playerName") && FieldOk(body, "playlistId")
    && FieldOk(body, "score") && FieldOk(body, "totalQuestions")
  }

  /**
   * `insertGameSchema.parse(body)`: the payload when the body is well formed,
   * else every issue found, in column order. Keys outside the schema are dropped.
   */
  function ParseInsertGame(body: Body): (r: Result<InsertGame, seq<Issue>>)
    ensures r.Success? <==> WellFormed(body)
    ensures r.Success? ==> && JString(r.value.playerName) == body["playerName"]
                           && JString(r.value.playlistId) == body["playlistId"]
                           && JNumber(r.value.totalQuestions) == body["totalQuestions"]
                           && (r.value.score.Some? <==> "score" in body)
                           && (r.value.score.Some? ==> JNumber(r.value.score.value) == body["score"])
    ensures r.Failure? ==> |r.error| > 0
    ensures r.Failure? ==> forall k :: 0 <= k < |r.error| ==>
              exists f :: f in InsertFields && r.error[k].path == [Key(f)]
    // The first issue, which the 400 reply reports, is the first failing column in table order.
    ensures r.Failure? && !FieldOk(body, "playerName") ==> r.error[0].path == [Key("playerName")]
    ensures (r.Failure? && FieldOk(body, "playerName") && !FieldOk(body, "playlistId"))
            ==> r.error[0].path == [Key("playlistId")]
    ensures (r.Failure? && FieldOk(body, "playerName") && FieldOk(body, "playlistId") && !FieldOk(body, "score"))
            ==> r.error[0].path == [Key("score")]
    ensures (r.Failure? && FieldOk(body, "playerName") && FieldOk(body, "playlistId") && FieldOk(body, "score"))
            ==> r.error[0].path == [Key("totalQuestions")]
  {
    var name := TextField(body, "playerName");
    var list := TextField(body, "playlistId");
    var score := IntField(body, "score", true);
    var total := IntField(body, "totalQuestions", false);
    if name.Success? && list.Success? && score.Success? && total.Success? && total.value.Some? then
      Success(InsertGame(name.value, list.value, score.value, total.value.value))
    else
      Failure(IssuesOf(name) + IssuesOf(list) + IssuesOf(score) + IssuesOf(total))
  }

  /** Keys the schema does not know, among them `id` and `createdAt`, do not affect the result. */
  lemma ParseIgnoresOtherKeys(body: Body, key: string, v: Json)
    requires key !in InsertFields
    ensures ParseInsertGame(body[key := v]) == ParseInsertGame(body)
  {
    var b := body[key := v];
    assert forall f :: f in InsertFields ==> (f in b <==> f in body) && (f in body ==> b[f] == body[f]);
    assert TextField(b, "playerName") == TextField(body, "playerName");
    assert TextField(b, "playlistId") == TextField(body, "playlistId");
    assert IntField(b, "score", true) == IntField(body, "score", true);
    assert IntField(b, "totalQuestions", false) == IntField(body, "totalQuestions", false);
  }

  /** Sending an `id` or a `createdAt` cannot set either column. */
  lemma ServerAssignedFieldsIgnored(body: Body, id: Json, createdAt: Json)
    ensures ParseInsertGame(body["id" := id]["createdAt" := createdAt]) == ParseInsertGame(body)
  {
    ParseIgnoresOtherKeys(body["id" := id], "createdAt", createdAt);
    ParseIgnoresOtherKeys(body, "id", id);
  }

  /**
   * `insertGameSchema.parse` on any body: an object is checked field by field;
   * anything else fails at once with one issue at the root path.
   */
  function ParseRequestBody(b: RequestBody): (r: Result<InsertGame, seq<Issue>>)
    ensures b.ObjectBody? ==> r == ParseInsertGame(b.fields)
    ensures b.OtherBody? ==> r.Failure? && |r.error| == 1 && r.error[0].path == []
                             && r.error[0].message == "Expected object, received " + TypeName(b.value)
  {
    match b
    case ObjectBody(fields) => ParseInsertGame(fields)
    case OtherBody(v) => Failure([Issue([], "Expected object, received " + TypeName(v))])
  }
}
