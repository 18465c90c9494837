/**
 * The quiz page: the fuzzy title matcher, the round state machine of one
 * five-round game, and the end-of-game summary (accuracy and rank).
 *
 * `Math.random()` is replaced by an oracle: a sequence of draws, each the
 * value `Math.floor(Math.random() * n)` would have had for the song count `n`.
 * Buttons and inputs the page renders only in some state become
 * preconditions on the operations they trigger.
 */
module GamePage {
  import opened Common
  import opened Strings
  import Schema

  // ---------------------------------------------------------------------------
  // The guess matcher
  // ---------------------------------------------------------------------------

  /**
   * `normalize`: lower-case, keep `[a-z0-9]`, then delete `officialvideo`,
   * `lyrics` and `mv`, one global pass each, in that order.
   */
  function Normalize(s: string): (r: string)
    ensures |r| <= |s|
    ensures forall c :: c in r ==> IsLowerAlnum(c)
  {
    RemoveAll(RemoveAll(RemoveAll(KeepLowerAlnum(ToLowerAscii(s)), "officialvideo"), "lyrics"), "mv")
  }

  /** `isCorrectGuess`: a normalized guess of at least three characters that occurs in the normalized title. */
  function IsCorrectGuess(guess: string, answer: string): (ok: bool)
    ensures ok <==> |Normalize(guess)| >= 3 && exists i: nat :: MatchAt(Normalize(answer), Normalize(guess), i)
  {
    var g := Normalize(guess);
    if |g| < 3 then false else Contains(Normalize(answer), g)
  }

  /** A title whose normalized form has at least three characters is matched by itself. */
  lemma TitleMatchesItself(title: string)
    requires |Normalize(title)| >= 3
    ensures IsCorrectGuess(title, title)
  {
    ContainsItself(Normalize(title));
  }

  /** A guess that normalizes to fewer than three characters is wrong for every title. */
  lemma ShortGuessNeverCorrect(guess: string, answer: string)
    requires |Normalize(guess)| < 3
    ensures !IsCorrectGuess(guess, answer)
  {
  }

  /** Any guess shorter than three characters normalizes to fewer than three. */
  lemma ShortTextNeverCorrect(guess: string, answer: string)
    requires |guess| < 3
    ensures !IsCorrectGuess(guess, answer)
  {
  }

  /** The text `normalize` starts from: the lower-cased letters and digits. */
  function Folded(s: string): string {
    KeepLowerAlnum(ToLowerAscii(s))
  }

  /** A character other than an ASCII letter or digit vanishes when folding, wherever it stands. */
  lemma FoldedIgnoresPunctuation(a: string, c: char, b: string)
    requires !IsLowerAlnum(LowerChar(c))
    ensures Folded(a + [c] + b) == Folded(a + b)
  {
    ToLowerAsciiAround(a, c, b);
    ToLowerAsciiAppend(a, b);
    KeepLowerAlnumDrops(ToLowerAscii(a), LowerChar(c), ToLowerAscii(b));
  }

  /** Inserting punctuation or spaces anywhere does not change a verdict. */
  lemma PunctuationIrrelevant(a: string, c: char, b: string, answer: string)
    requires !IsLowerAlnum(LowerChar(c))
    ensures Normalize(a + [c] + b) == Normalize(a + b)
    ensures IsCorrectGuess(a + [c] + b, answer) == IsCorrectGuess(a + b, answer)
    ensures IsCorrectGuess(answer, a + [c] + b) == IsCorrectGuess(answer, a + b)
  {
    FoldedIgnoresPunctuation(a, c, b);
  }

  /** An upper-case letter counts as its lower-case form. */
  lemma CaseIrrelevant(a: string, c: char, b: string)
    ensures Normalize(a + [c] + b) == Normalize(a + [LowerChar(c)] + b)
  {
    ToLowerAsciiAppend(a + [c], b);
    ToLowerAsciiAppend(a, [c]);
    ToLowerAsciiAppend(a + [LowerChar(c)], b);
    ToLowerAsciiAppend(a, [LowerChar(c)]);
    assert ToLowerAscii([c]) == ToLowerAscii([LowerChar(c)]);
  }

  /** Text that is already folded reaches the noise-word passes as it is. */
  lemma FoldedKeepsFoldedText(s: string)
    requires forall k :: 0 <= k < |s| ==> IsLowerAlnum(s[k])
    ensures Folded(s) == s
  {
    assert ToLowerAscii(s) == s;
    KeepLowerAlnumKeeps(s);
  }

  /** One pass can leave a fresh noise word behind: normalizing twice is not normalizing once. */
  lemma NormalizeNotIdempotent()
    ensures Normalize("mmvv") == "mv"
    ensures Normalize("mv") == ""
  {
    NormalizeFolded("mmvv");
    NormalizeFolded("mv");
    assert RemoveAll("mmvv", "officialvideo") == "mmvv";
    assert RemoveAll("mmvv", "lyrics") == "mmvv";
    MvPassOnMmvv();
    assert RemoveAll("mv", "officialvideo") == "mv";
    assert RemoveAll("mv", "lyrics") == "mv";
    MvPassOnNoise();
  }

  lemma MvPassOnMmvv()
    ensures RemoveAll("mmvv", "mv") == "mv"
  {
    assert "mmvv"[..2][1] == 'm' && "mv"[1] == 'v';
    assert "mmvv"[1..] == "mvv";
    assert "mvv"[..2] == "mv" && "mvv"[2..] == "v";
    assert RemoveAll("v", "mv") == "v";
    assert RemoveAll("mvv", "mv") == "v";
  }

  /** `lyrics` goes before `mv`, so removing it can join an `m` and a `v` into a noise word. */
  lemma NoiseWordOrderMatters()
    ensures Normalize("mlyricsv") == ""
  {
    OfficialVideoPassKeepsExample();
    LyricsPassJoinsNoise();
    MvPassOnNoise();
  }

  lemma OfficialVideoPassKeepsExample()
    ensures Normalize("mlyricsv") == RemoveAll(RemoveAll("mlyricsv", "lyrics"), "mv")
  {
    NormalizeFolded("mlyricsv");
    assert RemoveAll("mlyricsv", "officialvideo") == "mlyricsv";
  }

  lemma MvPassOnNoise()
    ensures RemoveAll("mv", "mv") == ""
  {
    assert "mv"[..2] == "mv" && "mv"[2..] == "";
  }

  /** On folded text `normalize` is the three noise-word passes alone. */
  lemma NormalizeFolded(s: string)
    requires forall k :: 0 <= k < |s| ==> IsLowerAlnum(s[k])
    ensures Normalize(s) == RemoveAll(RemoveAll(RemoveAll(s, "officialvideo"), "lyrics"), "mv")
  {
    FoldedKeepsFoldedText(s);
  }

  lemma LyricsPassJoinsNoise()
    ensures RemoveAll("mlyricsv", "lyrics") == "mv"
  {
    var s := "mlyricsv";
    assert s[..6][0] == 'm' && "lyrics"[0] == 'l';
    assert s[1..] == "lyricsv";
    assert "lyricsv"[..6] == "lyrics" && "lyricsv"[6..] == "v";
    assert RemoveAll("v", "lyrics") == "v";
    assert RemoveAll("lyricsv", "lyrics") == "v";
  }

  // ---------------------------------------------------------------------------
  // The end-of-game summary
  // ---------------------------------------------------------------------------

  const TotalRounds: nat := 5
  const PointsPerGuess: nat := 100

  /**
   * `pct = Math.round(score / (totalRounds * 100) * 100)`: `score / totalRounds`
   * rounded half up, in exact arithmetic.
   */
  function Accuracy(score: int, totalRounds: nat): (pct: int)
    requires totalRounds > 0
    ensures 2 * totalRounds * pct <= 2 * score + totalRounds < 2 * totalRounds * pct + 2 * totalRounds
  {
    (2 * score + totalRounds) / (2 * totalRounds)
  }

  /** The rounded value is the only integer within half a unit of `score / totalRounds`. */
  lemma AccuracyUnique(score: int, totalRounds: nat, p: int)
    requires totalRounds > 0
    requires 2 * totalRounds * p <= 2 * score + totalRounds < 2 * totalRounds * p + 2 * totalRounds
    ensures p == Accuracy(score, totalRounds)
  {
    var d, q := 2 * totalRounds, Accuracy(score, totalRounds);
    assert d * p < d * (q + 1);
    assert d * q < d * (p + 1);
    CancelFactor(d, p, q + 1);
    CancelFactor(d, q, p + 1);
  }

  /** A positive factor can be cancelled from a strict inequality. */
  lemma CancelFactor(d: int, a: int, b: int)
    requires d > 0 && d * a < d * b
    ensures a < b
  {
  }

  /** With five rounds of 100 points, each correct guess is worth exactly 20 percent. */
  lemma AccuracyOfCorrectGuesses(correct: nat)
    ensures Accuracy(PointsPerGuess * correct, TotalRounds) == 20 * correct
  {
    AccuracyUnique(PointsPerGuess * correct, TotalRounds, 20 * correct);
  }

  /** A higher score never gives a lower accuracy. */
  lemma AccuracyMonotone(s: int, t: int, totalRounds: nat)
    requires totalRounds > 0 && s <= t
    ensures Accuracy(s, totalRounds) <= Accuracy(t, totalRounds)
  {
    var d, p, q := 2 * totalRounds, Accuracy(s, totalRounds), Accuracy(t, totalRounds);
    assert d * p < d * (q + 1);
    CancelFactor(d, p, q + 1);
  }

  /** The message `getMessage` picks. */
  datatype Rank = MusicMaestro | PlaylistPro | GettingThere | KeepDiscovering

  function RankFor(pct: int): (r: Rank)
    ensures r == MusicMaestro <==> pct >= 80
    ensures r == PlaylistPro <==> 60 <= pct < 80
    ensures r == GettingThere <==> 40 <= pct < 60
    ensures r == KeepDiscovering <==> pct < 40
  {
    if pct >= 80 then MusicMaestro
    else if pct >= 60 then PlaylistPro
    else if pct >= 40 then GettingThere
    else KeepDiscovering
  }

  /** Higher ranks first. */
  function RankLevel(r: Rank): nat {
    match r
    case MusicMaestro => 3
    case PlaylistPro => 2
    case GettingThere => 1
    case KeepDiscovering => 0
  }

  /** A higher accuracy never gives a lower rank. */
  lemma RankMonotone(p: int, q: int)
    requires p <= q
    ensures RankLevel(RankFor(p)) <= RankLevel(RankFor(q))
  {
  }

  /** The rank after a five-round game, by the number of correct guesses. */
  lemma RankOfCorrectGuesses(correct: nat)
    requires correct <= TotalRounds
    ensures var r := RankFor(Accuracy(PointsPerGuess * correct, TotalRounds));
            && (correct >= 4 <==> r == MusicMaestro)
            && (correct == 3 <==> r == PlaylistPro)
            && (correct == 2 <==> r == GettingThere)
            && (correct <= 1 <==> r == KeepDiscovering)
  {
    AccuracyOfCorrectGuesses(correct);
  }

  // ---------------------------------------------------------------------------
  // Drawing the next song
  // ---------------------------------------------------------------------------

  /** The `attempts < 100` bound of the drawing loop. */
  const MaxAttempts: nat := 100

  /**
   * The oracle for one call of `startRound` with `n` songs: enough draws for
   * the loop, each the value of `Math.floor(Math.random() * n)`.
   */
  predicate DrawsFor(draws: seq<nat>, n: nat) {
    |draws| >= MaxAttempts && forall k :: 0 <= k < |draws| ==> (if n == 0 then draws[k] == 0 else draws[k] < n)
  }

  /**
   * The do-while loop of `startRound`: draw until the index is unplayed or
   * 100 draws were made. The result is the first unplayed draw among the first
   * 100, else the 100th draw.
   */
  method DrawIndex(draws: seq<nat>, played: set<nat>) returns (index: nat, attempts: nat)
    requires |draws| >= MaxAttempts
    ensures 1 <= attempts <= MaxAttempts
    ensures index == draws[attempts - 1]
    ensures forall j :: 0 <= j < attempts - 1 ==> draws[j] in played
    ensures attempts < MaxAttempts ==> index !in played
    ensures (exists j :: 0 <= j < MaxAttempts && draws[j] !in played) ==> index !in played
  {
    index := draws[0];
    attempts := 1;
    while index in played && attempts < MaxAttempts
      invariant 1 <= attempts <= MaxAttempts
      invariant index == draws[attempts - 1]
      invariant forall j :: 0 <= j < attempts - 1 ==> draws[j] in played
      decreases MaxAttempts - attempts
    {
      index := draws[attempts];
      attempts := attempts + 1;
    }
  }

  // ---------------------------------------------------------------------------
  // The round state machine
  // ---------------------------------------------------------------------------

  datatype GameState = Loading | Playing | RoundEnd | GameOver

  /** The name input's `maxLength`. */
  const MaxNameLength: nat := 15

  /** The state of one game page. */
  class Game {
    /** The `:id` of the page's route; `None` when it is missing or empty. */
    const playlistId: Option<string>
    var playlist: Option<Schema.PlaylistResponse>
    var gameState: GameState
    var currentRound: nat
    var score: int
    var currentSongIndex: Option<nat>
    var userGuess: string
    var playerName: string
    var playedSongIndices: set<nat>

    /** Rounds whose guess was submitted or skipped. */
    ghost function RoundsJudged(): int
      reads this
    {
      if gameState == Loading || gameState == Playing then currentRound - 1 else currentRound
    }

    ghost predicate Valid()
      reads this
    {
      && 1 <= currentRound <= TotalRounds
      && 0 <= score <= PointsPerGuess * RoundsJudged()
      && score % PointsPerGuess == 0
      && |playerName| <= MaxNameLength
      && playlistId != Some("")
      && (gameState == Loading ==> currentRound == 1 && score == 0 && playedSongIndices == {})
      && (gameState != Loading ==> playlist.Some? && currentSongIndex.Some?
                                   && currentSongIndex.value in playedSongIndices
                                   && |playedSongIndices| <= currentRound)
      && (gameState == GameOver ==> currentRound == TotalRounds)
    }

    /** The round-end banner: whether the guess on record matches the current song. */
    function Banner(): bool
      reads this
      requires playlist.Some? && currentSongIndex.Some? && currentSongIndex.value < |playlist.value.songs|
    {
      IsCorrectGuess(userGuess, playlist.value.songs[currentSongIndex.value].title)
    }

    /**
     * What `startRound` promises of the index it drew from `draws`, given the
     * played set `before` it started with: one of the first 100 draws, within
     * the songs when there are any, unplayed whenever an unplayed one was drawn,
     * and now marked played.
     */
    ghost predicate DrawnFrom(draws: seq<nat>, before: set<nat>)
      reads this
    {
      && |draws| >= MaxAttempts && playlist.Some? && currentSongIndex.Some?
      && (exists k :: 0 <= k < MaxAttempts && currentSongIndex.value == draws[k])
      && ((exists k :: 0 <= k < MaxAttempts && draws[k] !in before) ==> currentSongIndex.value !in before)
      && (|playlist.value.songs| > 0 ==> currentSongIndex.value < |playlist.value.songs|)
      && (|playlist.value.songs| == 0 ==> currentSongIndex.value == 0)
      && playedSongIndices == before + {currentSongIndex.value}
    }

    /** The song on screen exists: the page renders the round views only then. */
    predicate HasCurrentSong()
      reads this
    {
      playlist.Some? && currentSongIndex.Some? && currentSongIndex.value < |playlist.value.songs|
    }

    /** `params?.id || null`: a missing or empty route id is no id. */
    constructor (routeId: Option<string>)
      ensures Valid()
      ensures playlistId == (if Truthy(routeId) then routeId else None)
      ensures playlist.None? && gameState == Loading
      ensures currentRound == 1 && score == 0 && currentSongIndex.None?
      ensures userGuess == "" && playerName == "" && playedSongIndices == {}
    {
      playlistId := if Truthy(routeId) then routeId else None;
      playlist := None;
      gameState := Loading;
      currentRound := 1;
      score := 0;
      currentSongIndex := None;
      userGuess := "";
      playerName := "";
      playedSongIndices := {};
    }

    /**
     * `startRound`: without a playlist nothing happens; otherwise draw an
     * index, mark it played, clear the guess and start playing.
     */
    method StartRound(draws: seq<nat>)
      requires |draws| >= MaxAttempts
      requires playlist.Some? ==> DrawsFor(draws, |playlist.value.songs|)
      modifies this
      ensures playlist.None? ==> unchanged(this)
      ensures playlist.Some? ==>
                && DrawnFrom(draws, old(playedSongIndices))
                && (HasCurrentSong() <==> |playlist.value.songs| > 0)
                && gameState == Playing && userGuess == ""
      ensures playlist == old(playlist) && currentRound == old(currentRound) && score == old(score)
      ensures playerName == old(playerName)
    {
      if playlist.None? {
        return;
      }
      var index, attempts := DrawIndex(draws, playedSongIndices);
      currentSongIndex := Some(index);
      playedSongIndices := playedSongIndices + {index};
      gameState := Playing;
      userGuess := "";
    }

    /**
     * The effect on the playlist's arrival: it starts the first round while
     * loading. The playlist query is enabled only with a route id, so nothing
     * arrives without one.
     */
    method ReceivePlaylist(p: Schema.PlaylistResponse, draws: seq<nat>)
      requires Valid() && playlistId.Some?
      requires DrawsFor(draws, |p.songs|)
      modifies this
      ensures Valid()
      ensures playlist == Some(p)
      ensures old(gameState) == Loading ==>
                && gameState == Playing && currentRound == 1 && score == 0 && userGuess == ""
                && DrawnFrom(draws, {}) && |playedSongIndices| == 1
                && (HasCurrentSong() <==> |p.songs| > 0)
      ensures old(gameState) != Loading ==>
                && gameState == old(gameState) && currentSongIndex == old(currentSongIndex)
                && userGuess == old(userGuess) && playedSongIndices == old(playedSongIndices)
      ensures currentRound == old(currentRound) && score == old(score) && playerName == old(playerName)
    {
      playlist := Some(p);
      if gameState == Loading {
        StartRound(draws);
      }
    }

    /** Typing in the guess field, shown while playing. */
    method SetGuess(text: string)
      requires Valid() && gameState == Playing
      modifies this
      ensures Valid()
      ensures userGuess == text
      ensures gameState == old(gameState) && score == old(score) && currentRound == old(currentRound)
      ensures currentSongIndex == old(currentSongIndex) && playedSongIndices == old(playedSongIndices)
      ensures playlist == old(playlist) && playerName == old(playerName)
    {
      userGuess := text;
    }

    /**
     * `submitGuess`: 100 points for a correct guess, none otherwise; the round
     * ends. The submit button, the form's default button, is disabled while the
     * guess is blank, so neither a click nor Enter submits a blank guess.
     */
    method SubmitGuess()
      requires Valid() && gameState == Playing && HasCurrentSong()
      requires !AllSpace(userGuess)
      modifies this
      ensures Valid() && gameState == RoundEnd && HasCurrentSong()
      ensures score == old(score) + (if IsCorrectGuess(userGuess, playlist.value.songs[currentSongIndex.value].title)
                                     then PointsPerGuess else 0)
      ensures Banner() <==> score == old(score) + PointsPerGuess
      ensures userGuess == old(userGuess) && currentRound == old(currentRound)
      ensures currentSongIndex == old(currentSongIndex) && playedSongIndices == old(playedSongIndices)
      ensures playlist == old(playlist) && playerName == old(playerName)
    {
      var song := playlist.value.songs[currentSongIndex.value];
      if IsCorrectGuess(userGuess, song.title) {
        score := score + PointsPerGuess;
      }
      gameState := RoundEnd;
    }

    /** The Skip button as written: the round ends with the score unchanged and the typed guess kept. */
    method Skip()
      requires Valid() && gameState == Playing && HasCurrentSong()
      modifies this
      ensures Valid() && gameState == RoundEnd && HasCurrentSong()
      ensures score == old(score) && userGuess == old(userGuess)
      ensures Banner() == IsCorrectGuess(old(userGuess), playlist.value.songs[currentSongIndex.value].title)
      ensures currentRound == old(currentRound) && currentSongIndex == old(currentSongIndex)
      ensures playedSongIndices == old(playedSongIndices) && playlist == old(playlist) && playerName == old(playerName)
    {
      gameState := RoundEnd;
    }

    /** Skip as evidently intended: clearing the guess, so the banner agrees with the points awarded. */
    method SkipClearingGuess()
      requires Valid() && gameState == Playing && HasCurrentSong()
      modifies this
      ensures Valid() && gameState == RoundEnd && HasCurrentSong()
      ensures score == old(score) && userGuess == ""
      ensures Banner() <==> score == old(score) + PointsPerGuess
      ensures currentRound == old(currentRound) && currentSongIndex == old(currentSongIndex)
      ensures playedSongIndices == old(playedSongIndices) && playlist == old(playlist) && playerName == old(playerName)
    {
      userGuess := "";
      gameState := RoundEnd;
      ShortTextNeverCorrect("", playlist.value.songs[currentSongIndex.value].title);
    }

    /** `nextRound`: after the fifth round the game is over; before it, the next round starts. */
    method NextRound(draws: seq<nat>)
      requires Valid() && gameState == RoundEnd
      requires DrawsFor(draws, |playlist.value.songs|)
      modifies this
      ensures Valid()
      ensures old(currentRound) >= TotalRounds ==>
                && gameState == GameOver && currentRound == old(currentRound) && currentSongIndex == old(currentSongIndex)
                && playedSongIndices == old(playedSongIndices) && userGuess == old(userGuess)
      ensures old(currentRound) < TotalRounds ==>
                && gameState == Playing && currentRound == old(currentRound) + 1 && userGuess == ""
                && DrawnFrom(draws, old(playedSongIndices))
                && (HasCurrentSong() <==> |playlist.value.songs| > 0)
      ensures score == old(score) && playlist == old(playlist) && playerName == old(playerName)
    {
      if currentRound >= TotalRounds {
        gameState := GameOver;
      } else {
        currentRound := currentRound + 1;
        StartRound(draws);
      }
    }

    /** Typing in the name field of the game-over view; the field holds at most 15 characters. */
    method SetPlayerName(text: string)
      requires Valid() && gameState == GameOver
      requires |text| <= MaxNameLength
      modifies this
      ensures Valid()
      ensures playerName == text
      ensures gameState == old(gameState) && score == old(score) && currentRound == old(currentRound)
      ensures userGuess == old(userGuess) && currentSongIndex == old(currentSongIndex)
      ensures playedSongIndices == old(playedSongIndices) && playlist == old(playlist)
    {
      playerName := text;
    }

    /**
     * `handleGameOverSubmit`: nothing without a playlist id or with a blank
     * name; otherwise the trimmed name, the score and five questions.
     */
    method GameOverSubmit() returns (sent: Option<Schema.InsertGame>)
      requires Valid()
      ensures sent.None? <==> playlistId.None? || Trim(playerName) == ""
      ensures sent.Some? ==> sent.value.playlistId != "" && sent.value.playerName != ""
      ensures sent.Some? ==> sent.value == Schema.InsertGame(Trim(playerName), playlistId.value, Some(score), TotalRounds)
    {
      if playlistId.None? || Trim(playerName) == "" {
        return None;
      }
      sent := Some(Schema.InsertGame(Trim(playerName), playlistId.value, Some(score), TotalRounds));
    }
  }

  // ---------------------------------------------------------------------------
  // Properties of a game
  // ---------------------------------------------------------------------------

  /** The round counter stays within 1..5 and the score within 100 per played round. */
  lemma ScoreBounded(g: Game)
    requires g.Valid()
    ensures 1 <= g.currentRound <= TotalRounds
    ensures 0 <= g.score <= PointsPerGuess * g.currentRound
  {
  }

  /** At game over the score is a number of correct guesses out of five, and the accuracy follows from it. */
  lemma GameOverSummary(g: Game)
    requires g.Valid() && g.gameState == GameOver
    ensures 0 <= g.score / PointsPerGuess <= TotalRounds
    ensures Accuracy(g.score, TotalRounds) == 20 * (g.score / PointsPerGuess)
    ensures 0 <= Accuracy(g.score, TotalRounds) <= 100
  {
    var correct := g.score / PointsPerGuess;
    assert g.score == PointsPerGuess * correct;
    AccuracyOfCorrectGuesses(correct);
  }

  /** With Skip as written, a typed correct title makes the banner say "Correct!" while no points are given. */
  lemma SkipBannerWithoutPoints()
    ensures IsCorrectGuess("abc", "abc")
  {
    FoldedKeepsFoldedText("abc");
    assert RemoveAll("abc", "officialvideo") == "abc";
    assert RemoveAll("abc", "lyrics") == "abc";
    assert "abc"[..2][0] == 'a' && "abc"[1..] == "bc";
    assert "bc"[..2][0] == 'b' && "bc"[1..] == "c";
    assert RemoveAll("abc", "mv") == "abc";
    TitleMatchesItself("abc");
  }

  /**
   * A whole round with Skip as written: one song titled `abc`, the guess
   * `abc` typed, then Skip. The banner shows "Correct!" and no points were given.
   */
  method SkipShowsCorrectWithoutPoints() returns (banner: bool, gained: int)
    ensures banner && gained == 0
  {
    var g := new Game(Some("PL1"));
    g.ReceivePlaylist(Schema.PlaylistResponse("PL1", "mix", [Schema.PlaylistSong("v1", "abc", "")]), seq(MaxAttempts, k => 0));
    g.SetGuess("abc");
    g.Skip();
    SkipBannerWithoutPoints();
    banner := g.Banner();
    gained := g.score;
  }
}
