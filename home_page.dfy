/**
 * The start page: a playlist field, a time-limit and a song-count choice,
 * and `handleStart`, which takes the playlist id from the field (the `list`
 * parameter when the text is a URL that has one) and navigates to the game.
 *
 * URL parsing is a parameter: a function from the text to the URL's query
 * pairs in order, or `None` where `new URL` would throw.
 */
module HomePage {
  import opened Common
  import opened Strings

  /** `TIME_OPTIONS`: label and seconds (0 for no limit). */
  const TimeOptions: seq<(string, nat)> := [("15 seconds", 15), ("30 seconds", 30), ("1 minute", 60), ("∞", 0)]

  /** `COUNT_OPTIONS`: label and number of songs (9999 for all). */
  const CountOptions: seq<(string, nat)> := [("15", 15), ("30", 30), ("60", 60), ("∞", 9999)]

  /** The quick-pick buttons: label and playlist id. */
  const Presets: seq<(string, string)> := [("💖 Rakell's Favorite", "PLhXBj2Th3Eq4xDKmZWTLnCtCJY-iRIWT5")]

  const DefaultTimeLimit: nat := 30
  const DefaultSongCount: nat := 15

  /** A URL's query as `URLSearchParams` holds it: decoded name-value pairs in order. */
  type QueryPairs = seq<(string, string)>

  /** `searchParams.get(name)`: the value of the first pair with that name. */
  function GetParam(q: QueryPairs, name: string): (v: Option<string>)
    ensures v.None? <==> forall k :: 0 <= k < |q| ==> q[k].0 != name
    ensures v.Some? ==> exists k :: 0 <= k < |q| && q[k] == (name, v.value) && forall j :: 0 <= j < k ==> q[j].0 != name
  {
    if q == [] then None
    else if q[0].0 == name then Some(q[0].1)
    else
      var v := GetParam(q[1..], name);
      assert forall k :: 1 <= k < |q| ==> q[k] == q[1..][k - 1];
      v
  }

  /**
   * The id `handleStart` settles on: a non-empty `list` parameter of the
   * text read as a URL, else the trimmed text.
   */
  function PlaylistIdFrom(input: string, parsed: Option<QueryPairs>): (id: string)
    ensures parsed.None? ==> id == Trim(input)
    ensures parsed.Some? && !Truthy(GetParam(parsed.value, "list")) ==> id == Trim(input)
    ensures parsed.Some? && Truthy(GetParam(parsed.value, "list")) ==> id == GetParam(parsed.value, "list").value
  {
    if parsed.Some? && Truthy(GetParam(parsed.value, "list")) then GetParam(parsed.value, "list").value
    else Trim(input)
  }

  /** `/game/<id>?time=<t>&count=<c>`. */
  function GameTarget(id: string, time: nat, count: nat): string {
    "/game/" + id + "?time=" + NatToString(time) + "&count=" + NatToString(count)
  }

  /** Two parts without the separator, joined by it, split back into those two. */
  lemma SplitTwo(a: string, b: string, sep: char)
    requires sep !in a && sep !in b
    ensures Split(a + [sep] + b, sep) == [a, b]
  {
    assert [a, b][1..] == [b];
    assert Join([a, b], sep) == a + [sep] + b;
    SplitJoin([a, b], sep);
  }

  /** The query of a game target: `time=<t>&count=<c>`. */
  function TargetQuery(time: nat, count: nat): string {
    "time=" + NatToString(time) + "&count=" + NatToString(count)
  }

  lemma TargetQueryFields(time: nat, count: nat)
    ensures '?' !in TargetQuery(time, count)
    ensures Split(TargetQuery(time, count), '&') == ["time=" + NatToString(time), "count=" + NatToString(count)]
  {
    var t, c := NatToString(time), NatToString(count);
    assert "time=" + t + "&count=" + c == ("time=" + t) + ['&'] + ("count=" + c);
    assert '&' !in "time=" + t;
    assert '&' !in "count=" + c;
    SplitTwo("time=" + t, "count=" + c, '&');
  }

  /** For an id without `?`, the target splits back into the route and the two query fields. */
  lemma GameTargetFields(id: string, time: nat, count: nat)
    requires '?' !in id
    ensures Split(GameTarget(id, time, count), '?') == ["/game/" + id, TargetQuery(time, count)]
    ensures Split(TargetQuery(time, count), '&') == ["time=" + NatToString(time), "count=" + NatToString(count)]
  {
    var q := TargetQuery(time, count);
    TargetQueryFields(time, count);
    assert GameTarget(id, time, count) == ("/game/" + id) + ['?'] + q;
    assert '?' !in "/game/" + id;
    SplitTwo("/game/" + id, q, '?');
  }

  /** The time limit and song count the form can hold. */
  predicate IsTimeOption(t: nat) {
    exists k :: 0 <= k < |TimeOptions| && TimeOptions[k].1 == t
  }

  predicate IsCountOption(c: nat) {
    exists k :: 0 <= k < |CountOptions| && CountOptions[k].1 == c
  }

  /** The option values are exactly these. */
  lemma OptionValues(t: nat, c: nat)
    ensures IsTimeOption(t) <==> t in {15, 30, 60, 0}
    ensures IsCountOption(c) <==> c in {15, 30, 60, 9999}
  {
    if t in {15, 30, 60, 0} {
      var k := if t == 15 then 0 else if t == 30 then 1 else if t == 60 then 2 else 3;
      assert TimeOptions[k].1 == t;
    }
    if c in {15, 30, 60, 9999} {
      var k := if c == 15 then 0 else if c == 30 then 1 else if c == 60 then 2 else 3;
      assert CountOptions[k].1 == c;
    }
  }

  /** The form's state. */
  class Home {
    var playlistInput: string
    var timeLimit: nat
    var songCount: nat

    /** The two choices only ever hold values of their option tables. */
    ghost predicate Valid()
      reads this
    {
      IsTimeOption(timeLimit) && IsCountOption(songCount)
    }

    constructor ()
      ensures Valid()
      ensures playlistInput == "" && timeLimit == DefaultTimeLimit && songCount == DefaultSongCount
    {
      playlistInput := "";
      timeLimit := DefaultTimeLimit;
      songCount := DefaultSongCount;
      assert TimeOptions[1].1 == DefaultTimeLimit;
      assert CountOptions[0].1 == DefaultSongCount;
    }

    /** Typing in the playlist field. */
    method SetInput(text: string)
      requires Valid()
      modifies this
      ensures Valid() && playlistInput == text && timeLimit == old(timeLimit) && songCount == old(songCount)
    {
      playlistInput := text;
    }

    /** A quick-pick button fills the field with its id. */
    method ChoosePreset(k: nat)
      requires Valid() && k < |Presets|
      modifies this
      ensures Valid() && playlistInput == Presets[k].1 && timeLimit == old(timeLimit) && songCount == old(songCount)
    {
      playlistInput := Presets[k].1;
    }

    /** A time-limit button. */
    method ChooseTime(k: nat)
      requires Valid() && k < |TimeOptions|
      modifies this
      ensures Valid() && timeLimit == TimeOptions[k].1
      ensures playlistInput == old(playlistInput) && songCount == old(songCount)
    {
      timeLimit := TimeOptions[k].1;
    }

    /** A song-count button. */
    method ChooseCount(k: nat)
      requires Valid() && k < |CountOptions|
      modifies this
      ensures Valid() && songCount == CountOptions[k].1
      ensures playlistInput == old(playlistInput) && timeLimit == old(timeLimit)
    {
      songCount := CountOptions[k].1;
    }

    /**
     * `handleStart`: no navigation for a blank field; otherwise the game
     * target for the id found. The URL parser sees the untrimmed text.
     */
    method HandleStart(parseUrl: string -> Option<QueryPairs>) returns (target: Option<string>)
      ensures target.None? <==> Trim(playlistInput) == ""
      ensures target.Some? ==>
                target.value == GameTarget(PlaylistIdFrom(playlistInput, parseUrl(playlistInput)), timeLimit, songCount)
    {
      if Trim(playlistInput) == "" {
        return None;
      }
      var playlistId := Trim(playlistInput);
      var url := parseUrl(playlistInput);
      if url.Some? {
        var listParam := GetParam(url.value, "list");
        if Truthy(listParam) {
          playlistId := listParam.value;
        }
      }
      target := Some(GameTarget(playlistId, timeLimit, songCount));
    }
  }

  /** A playlist link with a `list` value, such as the one the field's placeholder shows, yields exactly that value. */
  lemma ListParameterWins(input: string, before: QueryPairs, value: string, after: QueryPairs)
    requires value != ""
    requires forall k :: 0 <= k < |before| ==> before[k].0 != "list"
    ensures PlaylistIdFrom(input, Some(before + [("list", value)] + after)) == value
  {
    var q := before + [("list", value)] + after;
    assert q[|before|] == ("list", value);
    assert forall k :: 0 <= k < |before| ==> q[k] == before[k];
    var v := GetParam(q, "list");
    var k :| 0 <= k < |q| && q[k] == ("list", v.value) && forall j :: 0 <= j < k ==> q[j].0 != "list";
    assert k == |before|;
  }
}
