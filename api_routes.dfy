/**
 * The shared API contract: the three routes, the shapes of their replies and
 * error bodies, and `buildUrl`, which fills `:key` placeholders of a route path.
 */
module ApiRoutes {
  import opened Common
  import opened Strings
  import opened Schema

  // ---------------------------------------------------------------------------
  // Routes and reply shapes
  // ---------------------------------------------------------------------------

  datatype HttpMethod = Get | Post

  datatype Route = Route(verb: HttpMethod, path: string)

  const PlaylistGet: Route := Route(Get, "/api/playlist/:id")
  const GamesCreate: Route := Route(Post, "/api/games")
  const LeaderboardPrefix: string := "/api/games/leaderboard/"
  /** `/api/games/leaderboard/:playlistId`. */
  const GamesLeaderboard: Route := Route(Get, LeaderboardPrefix + Placeholder("playlistId"))

  /**
   * An error body: `message`, and for validation errors an optional `field`.
   * The not-found and internal error schemas carry no `field`.
   */
  datatype ErrorBody = ErrorBody(message: string, field: Option<string>)

  /** The replies of `GET /api/playlist/:id`: 200, 404 or 500. */
  datatype PlaylistReply =
    | PlaylistFound(playlist: PlaylistResponse)
    | PlaylistNotFound(error: ErrorBody)
    | PlaylistFailed(error: ErrorBody)

  /** The replies of `POST /api/games`: 201 with the stored row, or 400. */
  datatype CreateReply =
    | GameCreated(game: Game)
    | GameRejected(error: ErrorBody)

  /** A playlist reply matches its status's schema: the 404 and 500 bodies hold only a message. */
  predicate PlaylistReplyConforms(r: PlaylistReply) {
    !r.PlaylistFound? ==> r.error.field.None?
  }

  // ---------------------------------------------------------------------------
  // buildUrl
  // ---------------------------------------------------------------------------

  /** A parameter value: `string | number` (numbers are integers in this model). */
  datatype ParamValue = Text(text: string) | Number(n: int)

  /** `String(value)`. */
  function ParamString(v: ParamValue): string {
    match v
    case Text(t) => t
    case Number(n) => IntToString(n)
  }

  function Placeholder(key: string): string {
    ":" + key
  }

  /**
   * One step of the `forEach`: when `:key` occurs in `url`, its first
   * occurrence is replaced by `String(value)` (with `String.prototype.replace`'s
   * `$` patterns applied to the replacement); otherwise `url` is kept.
   */
  function Substitute(url: string, key: string, value: ParamValue): (r: string)
    ensures !Contains(url, Placeholder(key)) ==> r == url
    ensures forall i: nat :: FirstMatch(url, Placeholder(key), i) ==>
              r == url[..i] + Expand(ParamString(value), Placeholder(key), url[..i], url[i + |key| + 1..])
                   + url[i + |key| + 1..]
    ensures forall i: nat :: FirstMatch(url, Placeholder(key), i) && '$' !in ParamString(value) ==>
              r == url[..i] + ParamString(value) + url[i + |key| + 1..]
  {
    var p := Placeholder(key);
    assert |p| == |key| + 1;
    if Contains(url, p) then
      if '$' !in ParamString(value) then
        ReplaceFirstLiteral(url, p, ParamString(value));
        ReplaceFirst(url, p, ParamString(value))
      else ReplaceFirst(url, p, ParamString(value))
    else url
  }

  /** The entries applied left to right, each to the string the previous ones produced. */
  function SubstituteAll(url: string, entries: seq<(string, ParamValue)>): string
    decreases |entries|
  {
    if entries == [] then url
    else SubstituteAll(Substitute(url, entries[0].0, entries[0].1), entries[1..])
  }

  /**
   * `buildUrl(path, params)`: without params the path itself; with params,
   * every entry substituted in `Object.entries` order.
   */
  method BuildUrl(path: string, params: Option<seq<(string, ParamValue)>>) returns (url: string)
    ensures params.None? ==> url == path
    ensures params.Some? ==> url == SubstituteAll(path, params.value)
  {
    url := path;
    if params.Some? {
      var entries := params.value;
      var i := 0;
      while i < |entries|
        invariant 0 <= i <= |entries|
        invariant SubstituteAll(url, entries[i..]) == SubstituteAll(path, entries)
      {
        var (key, value) := entries[i];
        assert entries[i..][1..] == entries[i + 1..];
        if Contains(url, Placeholder(key)) {
          url := ReplaceFirst(url, Placeholder(key), ParamString(value));
        }
        i := i + 1;
      }
    }
  }

  // ---------------------------------------------------------------------------
  // Properties of the substitution
  // ---------------------------------------------------------------------------

  /** The first `:` of the url starts the first occurrence of any placeholder. */
  lemma PlaceholderFirstMatch(prefix: string, key: string, suffix: string)
    requires ':' !in prefix
    ensures FirstMatch(prefix + Placeholder(key) + suffix, Placeholder(key), |prefix|)
  {
    var s := prefix + Placeholder(key) + suffix;
    var p := Placeholder(key);
    assert s[|prefix|..|prefix| + |p|] == p;
    forall j: nat | j < |prefix| ensures !MatchAt(s, p, j) {
      assert s[j] == prefix[j];
    }
  }

  /**
   * A path whose first `:` opens `:key` gets `String(value)` in its place,
   * run through the replacement patterns; what follows the key, even further
   * letters of a longer name, stays.
   */
  lemma {:induction false} SubstitutePlaceholder(prefix: string, key: string, suffix: string, value: ParamValue)
    requires ':' !in prefix
    ensures Substitute(prefix + Placeholder(key) + suffix, key, value)
            == prefix + Expand(ParamString(value), Placeholder(key), prefix, suffix) + suffix
  {
    var s := prefix + Placeholder(key) + suffix;
    PlaceholderFirstMatch(prefix, key, suffix);
    assert s[..|prefix|] == prefix;
    assert s[|prefix| + |key| + 1..] == suffix;
  }

  /** For a value without `$`, the placeholder is replaced by the value verbatim. */
  lemma SubstitutePlainValue(prefix: string, key: string, suffix: string, value: ParamValue)
    requires ':' !in prefix && '$' !in ParamString(value)
    ensures Substitute(prefix + Placeholder(key) + suffix, key, value) == prefix + ParamString(value) + suffix
  {
    SubstitutePlaceholder(prefix, key, suffix, value);
    ExpandLiteral(ParamString(value), Placeholder(key), prefix, suffix);
  }

  /** A path without `:` has no placeholder, so no entry changes it. */
  lemma {:induction false} SubstituteAllNoPlaceholder(path: string, entries: seq<(string, ParamValue)>)
    requires ':' !in path
    ensures SubstituteAll(path, entries) == path
    decreases |entries|
  {
    if entries != [] {
      var p := Placeholder(entries[0].0);
      forall i: nat ensures !MatchAt(path, p, i) {
        if i + |p| <= |path| {
          assert path[i..i + |p|][0] == path[i];
        }
      }
      SubstituteAllNoPlaceholder(path, entries[1..]);
    }
  }

  lemma SubstituteAllOne(url: string, key: string, value: ParamValue)
    ensures SubstituteAll(url, [(key, value)]) == Substitute(url, key, value)
  {
    assert [(key, value)][1..] == [];
  }

  /** `buildUrl(api.playlist.get.path, { id })` for an id without `$`. */
  lemma PlaylistUrl(id: string)
    requires '$' !in id
    ensures SubstituteAll(PlaylistGet.path, [("id", Text(id))]) == "/api/playlist/" + id
  {
    SubstituteAllOne(PlaylistGet.path, "id", Text(id));
    assert PlaylistGet.path == "/api/playlist/" + Placeholder("id") + "";
    SubstitutePlainValue("/api/playlist/", "id", "", Text(id));
    assert "/api/playlist/" + id + "" == "/api/playlist/" + id;
  }

  /** `buildUrl(api.games.leaderboard.path, { playlistId })` for an id without `$`. */
  lemma LeaderboardUrl(playlistId: string)
    requires '$' !in playlistId
    ensures SubstituteAll(GamesLeaderboard.path, [("playlistId", Text(playlistId))])
            == LeaderboardPrefix + playlistId
  {
    SubstituteAllOne(GamesLeaderboard.path, "playlistId", Text(playlistId));
    SubstituteAtEnd(LeaderboardPrefix, "playlistId", playlistId);
  }

  /** `POST /api/games` has no placeholder: any params leave its path as it is. */
  lemma CreatePathFixed(entries: seq<(string, ParamValue)>)
    ensures SubstituteAll(GamesCreate.path, entries) == "/api/games"
  {
    SubstituteAllNoPlaceholder(GamesCreate.path, entries);
  }

  /** Matching is by substring: `:id` is also found inside `:idx`, which leaves an `x` behind. */
  lemma KeyMatchesInsideLongerName()
    ensures Substitute("/a/:idx", "id", Text("7")) == "/a/7x"
  {
    assert "/a/:idx" == "/a/" + Placeholder("id") + "x";
    SubstitutePlainValue("/a/", "id", "x", Text("7"));
  }

  /** Later keys see earlier substitutions: a value that is itself `:b` is filled by the key `b`. */
  lemma LaterKeysSeeEarlierValues(prefix: string, a: string, b: string, value: string)
    requires ':' !in prefix && '$' !in b && '$' !in value
    ensures SubstituteAll(prefix + Placeholder(a), [(a, Text(Placeholder(b))), (b, Text(value))]) == prefix + value
  {
    var entries := [(a, Text(Placeholder(b))), (b, Text(value))];
    assert '$' !in Placeholder(b);
    SubstituteAtEnd(prefix, a, Placeholder(b));
    SubstituteAtEnd(prefix, b, value);
    SubstituteAllOne(prefix + Placeholder(b), b, Text(value));
    assert entries[1..] == [(b, Text(value))];
  }

  /** A placeholder at the end of the path, with a `$`-free text value. */
  lemma SubstituteAtEnd(prefix: string, key: string, value: string)
    requires ':' !in prefix && '$' !in value
    ensures Substitute(prefix + Placeholder(key), key, Text(value)) == prefix + value
  {
    assert prefix + Placeholder(key) == prefix + Placeholder(key) + "";
    SubstitutePlainValue(prefix, key, "", Text(value));
    assert prefix + value + "" == prefix + value;
  }

  /** The replacement is not literal: a value `$&` puts the matched `:id` back. */
  lemma DollarAmpersandKeepsPlaceholder()
    ensures Substitute("/p/:id", "id", Text("$&")) == "/p/:id"
  {
    assert "/p/:id" == "/p/" + Placeholder("id") + "";
    SubstitutePlaceholder("/p/", "id", "", Text("$&"));
    assert Expand("$&", ":id", "/p/", "") == ":id" + Expand("", ":id", "/p/", "");
  }

  /** Numbers are substituted as their decimal text. */
  lemma NumberValue(prefix: string, key: string, suffix: string, n: nat)
    requires ':' !in prefix
    ensures Substitute(prefix + Placeholder(key) + suffix, key, Number(n)) == prefix + NatToString(n) + suffix
  {
    assert '$' !in NatToString(n);
    SubstitutePlainValue(prefix, key, suffix, Number(n));
  }
}
