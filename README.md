# A verified model of the playlist quiz

These files model the logic of a small music quiz. A player pastes a YouTube playlist link or id on the home page. The server resolves the playlist into a list of songs. The game page then plays five rounds: in each round it draws a song, usually one not yet played, and checks the typed title with a fuzzy matcher. At the end it shows an accuracy and a rank message, and the player can post the score to a per-playlist leaderboard.

Modules, in the order they build on each other:

- `Common`: `Option`, `Result` and `Min`.
- `Strings`: the JavaScript string operations the code relies on, with ECMAScript's meaning:
  - `includes` and `indexOf`;
  - `replace` with a string pattern, including the `$&`, `$$`, `` $` `` and `$'` replacement patterns;
  - a global `replace` of a literal regular expression;
  - ASCII lower-casing and the `[^a-z0-9]` filter;
  - `trim`, with the full JavaScript white-space set;
  - `String(n)` and `join`, with `split` as the inverse used to prove that `join` round-trips;
  - the `||` fallback.
- `Seqs`: `filter`, `filter`-then-`map` and counting.
- `Schema`: the `games` row, the insert payload, the playlist types, and validation of a request body by the insert schema.
- `Storage`: the `games` table as a class with `createGame`, and the leaderboard query (filter, order by score descending, limit 10).
- `ApiRoutes`: the three routes, the reply and error shapes, and `buildUrl`.
- `Server`: the route handlers. The playlist handler is a three-strategy fallback chain plus 404. The create handler validates, stores, and maps errors to a 400. The leaderboard handler returns the query.
- `GamePage`: the guess matcher, the round state machine as a class, the song-drawing loop, and the accuracy and rank summary.
- `HomePage`: the start form as a class. It holds the option tables, their defaults and `handleStart`.

Inputs from outside the program become parameters:

- Each upstream source is a value of `Fetch<T>`: the call threw, or it returned a value. The sources are the official API's items and title calls, the ytpl library, and the playlist page's embedded data.
- `Math.random()` is a sequence of draws. Each draw is the value `Math.floor(Math.random() * n)` would take.
- `new URL(...)` is a function from text to the URL's query pairs. It gives `None` where the constructor throws.
- The database clock is a `now` argument.

A button or input the page renders only in a certain state becomes a precondition on the operation it triggers.

## Model

| member | source | states |
|---|---|---|
| Strings.IndexOf | shared/routes.ts:61 | the result is the leftmost occurrence of the pattern, or none when it occurs nowhere |
| Strings.Contains | shared/routes.ts:61 | `includes` holds exactly when the pattern occurs at some offset |
| Strings.ReplaceFirst | shared/routes.ts:62 | with no occurrence the string is unchanged; otherwise only the leftmost occurrence is replaced by the expanded replacement, and the text around it is kept |
| Strings.ExpandLiteral | shared/routes.ts:62 | a replacement containing no `$` is inserted literally |
| Strings.ReplaceFirstLiteral | shared/routes.ts:62 | with a `$`-free replacement, `replace` splices the replacement in verbatim at the first occurrence |
| Strings.RemoveAll | client/src/pages/Game.tsx:19-22 | a global removal never lengthens the text and only keeps characters of the input |
| Strings.RemoveAllNoMatch | client/src/pages/Game.tsx:20-22 | text without the word passes through unchanged |
| Strings.RemoveAllAtFirstMatch | client/src/pages/Game.tsx:20-22 | the pass keeps what precedes the leftmost occurrence, deletes it, and resumes after it |
| Strings.KeepLowerAlnum | client/src/pages/Game.tsx:19 | the filter keeps exactly the lower-case letters and digits: everything kept is one, and every one present is kept |
| Strings.KeepLowerAlnumKeeps | client/src/pages/Game.tsx:19 | text made only of letters and digits is not changed by the filter |
| Strings.KeepLowerAlnumDrops | client/src/pages/Game.tsx:19 | a rejected character leaves no trace, wherever it stands |
| Strings.ToLowerAscii | client/src/pages/Game.tsx:18 | same length, each character lower-cased |
| Strings.Trim | client/src/pages/Home.tsx:30-31 | the result is a slice of the input with only white space cut off at either end, and it is empty exactly when the input is blank |
| Strings.NatToString | client/src/pages/Home.tsx:37 | a non-empty run of digits with no leading zero |
| Strings.NatToStringRoundTrip | client/src/pages/Home.tsx:37 | reading the decimal text back gives the number |
| Strings.NatToStringInjective | client/src/pages/Home.tsx:37 | distinct numbers give distinct texts |
| Strings.Split | server/routes.ts:164 | splitting yields at least one part |
| Strings.SplitJoin | server/routes.ts:164 | splitting a join recovers the parts when no part contains the separator |
| Strings.Coalesce | server/routes.ts:40-43 | `a \|\| b \|\| c`: the first non-empty operand, else the last |
| Seqs.FilterMap | server/routes.ts:35-44 | filter-then-map keeps at most as many elements, and yields exactly the images of the kept elements |
| Seqs.FilterMapAppend | server/routes.ts:35-44 | filtering and mapping distribute over concatenation |
| Seqs.FilterMapAround | server/routes.ts:115-127 | each element contributes its image, if kept, at its own place |
| Seqs.Filter | server/storage.ts:20 | the kept elements are exactly those satisfying the condition, each as often as in the input, so as many as satisfy it; they form a sub-multiset of the input |
| Schema.ParseInsertGame | shared/schema.ts:12-29 | succeeds exactly when the three required columns are present with the right type and `score` has the right type when present; the payload carries those values; otherwise there is at least one issue, every issue names an insert field, and the first issue names the first failing column in the order playerName, playlistId, score, totalQuestions |
| Schema.ParseRequestBody | shared/schema.ts:26-29 | an object body is checked field by field; any other value fails with one "Expected object, received …" issue at the root path |
| Schema.ParseIgnoresOtherKeys | shared/schema.ts:26-29 | keys outside the insert schema do not affect validation |
| Schema.ServerAssignedFieldsIgnored | shared/schema.ts:26-29 | a client-sent `id` or `createdAt` cannot reach the payload |
| Storage.Matching | server/storage.ts:20 | exactly the rows of that playlist, a sub-multiset of the table |
| Storage.InsertByScore | server/storage.ts:21 | insertion adds exactly one element and nothing else |
| Storage.InsertByScoreSorted | server/storage.ts:21 | inserting into a score-descending sequence keeps it score-descending |
| Storage.SortByScore | server/storage.ts:21 | the result is a permutation of the input ordered by score, highest first |
| Storage.SortByScoreCount | server/storage.ts:21 | ordering does not change how many rows satisfy a condition |
| Storage.Leaderboard | server/storage.ts:16-23 | only that playlist's rows, score non-increasing, as many as exist up to ten, drawn from the table, and no left-out row of the playlist scores above a returned one |
| Storage.SortedCountHigher | server/storage.ts:21 | in a sorted result, only rows before a position can outscore the row at it |
| Storage.OnLeaderboardUnlessOutnumbered | server/storage.ts:16-23 | a row appears when fewer than ten other rows of its playlist score at least as high |
| Storage.OffLeaderboardWhenOutscored | server/storage.ts:16-23 | a row outscored by ten or more rows of its playlist does not appear |
| Storage.GameTable.constructor | server/storage.ts:10 | an empty table whose serial starts at 1 |
| Storage.GameTable.CreateGame | server/storage.ts:11-14 | appends one row with a fresh id, the payload's fields, score 0 when omitted and the insert time, returns it, keeps the other rows and the unique-id invariant, and the row is among its playlist's rows |
| Storage.GameTable.GetLeaderboard | server/storage.ts:16-23 | the leaderboard of the current rows |
| ApiRoutes.Substitute | shared/routes.ts:60-64 | a key whose placeholder is absent leaves the url unchanged; otherwise the first placeholder is replaced by `String(value)` run through the replacement patterns, verbatim when it has no `$` |
| ApiRoutes.BuildUrl | shared/routes.ts:57-67 | with no params the path itself; with params, the entries applied in order, each to the url the previous ones produced |
| ApiRoutes.SubstitutePlaceholder | shared/routes.ts:61-62 | when the first `:` opens the placeholder, the value replaces it and everything after the key is kept |
| ApiRoutes.SubstitutePlainValue | shared/routes.ts:61-62 | a `$`-free value takes the placeholder's place verbatim |
| ApiRoutes.SubstituteAllNoPlaceholder | shared/routes.ts:57-67 | a path without `:` is returned unchanged whatever the params |
| ApiRoutes.SubstituteAllOne | shared/routes.ts:60-64 | one entry is one substitution step |
| ApiRoutes.PlaylistUrl | shared/routes.ts:21 | the playlist path filled with an id is `/api/playlist/<id>` |
| ApiRoutes.LeaderboardUrl | shared/routes.ts:49 | the leaderboard path filled with an id is `/api/games/leaderboard/<id>` |
| ApiRoutes.CreatePathFixed | shared/routes.ts:40 | the create path is unchanged by any params |
| ApiRoutes.KeyMatchesInsideLongerName | shared/routes.ts:61-62 | matching is by substring: key `id` fills the front of `:idx` and leaves the `x` |
| ApiRoutes.LaterKeysSeeEarlierValues | shared/routes.ts:60-64 | a later key fills a placeholder that an earlier value introduced: `:a` with `a` set to `:b` and `b` set to a value ends up holding that value |
| ApiRoutes.SubstituteAtEnd | shared/routes.ts:61-62 | a placeholder ending the path is replaced by a `$`-free value verbatim |
| ApiRoutes.DollarAmpersandKeepsPlaceholder | shared/routes.ts:62 | the value `$&` puts the matched placeholder back |
| ApiRoutes.NumberValue | shared/routes.ts:62 | a number is substituted as its decimal text |
| Server.ApiThumbnail | server/routes.ts:40-43 | the medium url, else the default url, else `""` |
| Server.ApiSongsInOrder | server/routes.ts:35-44 | the songs are exactly the items with a video id, in their original order |
| Server.ApiTitle | server/routes.ts:53-54 | the fetched title, else "YouTube Playlist" |
| Server.OfficialStrategy | server/routes.ts:21-58 | with a key the strategy answers exactly when `items` came back non-empty and the title call did not throw; the answer carries the requested id, the title call's title or the fallback, and the items that have a video id |
| Server.OfficialStrategyNonEmpty | server/routes.ts:34-56 | the corrected first strategy: any answer has at least one song and equals the strategy as written; it declines only where the strategy as written would answer with no songs |
| Server.YtplSongs | server/routes.ts:68-72 | every ytpl item becomes a song with its id and title, in order, with the best thumbnail or `""` |
| Server.ScrapeTitle | server/routes.ts:121-124 | the `runs[0].text`, else the accessibility label, else "Unknown Title" |
| Server.ScrapeSongsInOrder | server/routes.ts:115-127 | the songs are exactly the entries with a renderer, in order |
| Server.ScrapeSongOfRenderer | server/routes.ts:114-129 | an entry holding a renderer makes the song list non-empty |
| Server.ScrapeSongHasRenderer | server/routes.ts:114-129 | a non-empty song list has an entry holding a renderer |
| Server.ScrapeSongsNonEmpty | server/routes.ts:114-129 | the page gives at least one song exactly when some entry holds a renderer |
| Server.ScrapeStrategy | server/routes.ts:100-136 | a page answer comes from a parsed page with a video list; it carries the requested id, the sidebar title or "YouTube Playlist", and that list's songs, of which there is at least one |
| Server.FirstSuccess | server/routes.ts:19-145 | the first strategy that produced a playlist, or none exactly when all failed |
| Server.ReplyFor | server/routes.ts:143-145 | a found playlist is a 200 with it; otherwise the 404 with the fixed message and no `field` |
| Server.FirstOfThree | server/routes.ts:19-145 | the chain of three picks the first present result |
| Server.TryOfficial | server/routes.ts:20-61 | the first strategy's result; no call without a key, the title call only after non-empty items |
| Server.YtplStrategy | server/routes.ts:64-77 | accepted exactly when the call returned a playlist with at least one item (a thrown call, `null` or no items pass); an answer carries the library's id and title and `YtplSongs` of its items, at least one song |
| Server.TryYtpl | server/routes.ts:64-81 | the ytpl strategy's result, whose meaning `YtplStrategy`, `YtplAnswerIdentity` and `YtplDeclinesWithoutItems` state |
| Server.TryScrape | server/routes.ts:84-140 | the page strategy's result, whose meaning `ScrapeStrategy` and `ScrapeAnswerIdentity` state |
| Server.GetPlaylist | server/routes.ts:14-152 | the reply is the first successful strategy's, else 404; the official calls happen only with a key, the title call only after non-empty items; ytpl is asked only when strategy 1 gave nothing, and the page only when ytpl also gave nothing; the calls come in the fixed order |
| Server.NoKeySkipsOfficial | server/routes.ts:17-20 | without a key the reply depends on ytpl and the page alone |
| Server.OfficialAnswerWins | server/routes.ts:34-57 | an official answer is the reply, whatever ytpl and the page would give |
| Server.NotFoundIffAllFail | server/routes.ts:142-151 | 404 exactly when all three strategies fail; no 500 arises from the modelled inputs; the 404 body has no `field` |
| Server.YtplAnswerIdentity | server/routes.ts:66-77 | when strategy 1 fails and ytpl returns at least one item, the reply is 200 with the library's playlist id and title and exactly `YtplSongs` of the items |
| Server.YtplDeclinesWithoutItems | server/routes.ts:64-81 | when strategy 1 fails and ytpl throws, returns `null` or returns no items, the reply is the page strategy's |
| Server.ScrapeAnswerIdentity | server/routes.ts:100-136 | when strategies 1 and 2 fail and the page holds a video list, the reply is 200 exactly when some entry holds a renderer, with the requested id, the sidebar title or "YouTube Playlist", and the entries' songs |
| Server.OfficialAnswerIdentity | server/routes.ts:34-56 | an answer from strategy 1 is the reply, with the requested id, the title call's title or the fallback, and the items that have a video id |
| Server.OfficialAnswersWithNoSongs | server/routes.ts:34-56 | as written, a key and one item without a video id give a 200 with an empty song list |
| Server.ResolveNeverEmpty | server/routes.ts:14-145 | with the corrected first strategy, every 200 carries at least one song |
| Server.ResolveAgreesUnlessEmpty | server/routes.ts:14-145 | the correction changes no reply except the empty-songs one |
| Server.ValidationErrorBody | server/routes.ts:161-165 | the 400 body is the first issue's message and its path joined by "." |
| Server.FieldSplitsIntoPath | server/routes.ts:164 | when no key contains a dot, the joined `field` splits back into the path |
| Server.RejectionNamesAField | server/routes.ts:157-165 | every 400 for an object body names one of the insert schema's fields |
| Server.RejectionFieldOrRoot | server/routes.ts:157-165 | a 400 names an insert field for an object body, and has the empty `field` for a body that is not an object |
| Server.PostGame | server/routes.ts:155-169 | any JSON body, object or not: a body that fails validation gives the 400 and leaves the table unchanged; a valid one appends the new row and returns it as the 201 |
| Server.LeaderboardRoute | server/routes.ts:172-176 | always 200 with the playlist's leaderboard |
| GamePage.Normalize | client/src/pages/Game.tsx:17-22 | never longer than its input, only lower-case letters and digits |
| GamePage.IsCorrectGuess | client/src/pages/Game.tsx:16-27 | correct exactly when the normalized guess has at least three characters and occurs in the normalized title |
| GamePage.TitleMatchesItself | client/src/pages/Game.tsx:16-27 | a title whose normalized form has three or more characters is a correct guess for itself |
| GamePage.ShortGuessNeverCorrect | client/src/pages/Game.tsx:25 | a guess that normalizes to under three characters is wrong for every title |
| GamePage.ShortTextNeverCorrect | client/src/pages/Game.tsx:17-25 | a guess of under three characters is wrong for every title |
| GamePage.FoldedIgnoresPunctuation | client/src/pages/Game.tsx:18-19 | a character that is not an ASCII letter or digit vanishes in folding, wherever it stands |
| GamePage.PunctuationIrrelevant | client/src/pages/Game.tsx:17-26 | inserting such a character anywhere changes neither the normalized text nor any verdict, on either side |
| GamePage.CaseIrrelevant | client/src/pages/Game.tsx:18 | an upper-case letter counts as its lower-case form |
| GamePage.FoldedKeepsFoldedText | client/src/pages/Game.tsx:18-19 | text already folded is not changed by folding |
| GamePage.NormalizeFolded | client/src/pages/Game.tsx:20-22 | on folded text, `normalize` is the three removal passes in order |
| GamePage.NormalizeNotIdempotent | client/src/pages/Game.tsx:20-22 | `mmvv` normalizes to `mv`, and `mv` to the empty string |
| GamePage.MvPassOnMmvv | client/src/pages/Game.tsx:22 | one `mv` pass on `mmvv` leaves `mv` |
| GamePage.NoiseWordOrderMatters | client/src/pages/Game.tsx:20-22 | removing `lyrics` can join an `m` and a `v` that the next pass deletes: `mlyricsv` normalizes to the empty string |
| GamePage.OfficialVideoPassKeepsExample | client/src/pages/Game.tsx:20 | the first pass leaves `mlyricsv` alone |
| GamePage.LyricsPassJoinsNoise | client/src/pages/Game.tsx:21 | the `lyrics` pass turns `mlyricsv` into `mv` |
| GamePage.MvPassOnNoise | client/src/pages/Game.tsx:22 | the `mv` pass deletes `mv` |
| GamePage.Accuracy | client/src/pages/Game.tsx:391 | the result is `score / totalRounds` rounded half up: within half a unit, on the lower side at the half |
| GamePage.AccuracyUnique | client/src/pages/Game.tsx:391 | that rounding has exactly one result |
| GamePage.AccuracyOfCorrectGuesses | client/src/pages/Game.tsx:391 | with five rounds of 100 points, each correct guess is worth exactly 20 percent |
| GamePage.AccuracyMonotone | client/src/pages/Game.tsx:391 | a higher score never gives a lower accuracy |
| GamePage.RankFor | client/src/pages/Game.tsx:393-398 | Maestro exactly at 80 and above, Pro in 60..79, Getting There in 40..59, Keep Discovering below 40 |
| GamePage.RankMonotone | client/src/pages/Game.tsx:393-398 | a higher accuracy never gives a lower rank |
| GamePage.RankOfCorrectGuesses | client/src/pages/Game.tsx:391-398 | four or five correct is Maestro, three Pro, two Getting There, at most one Keep Discovering |
| GamePage.DrawIndex | client/src/pages/Game.tsx:62-65 | between 1 and 100 draws; every draw before the last was played; stopping early means the index is unplayed; if any of the first 100 draws is unplayed, so is the index |
| GamePage.Game.constructor | client/src/pages/Game.tsx:33-47 | the initial state: loading, round 1, score 0, no song, empty guess, name and played set; a missing or empty route id is no id |
| GamePage.Game.StartRound | client/src/pages/Game.tsx:58-73 | without a playlist nothing changes; otherwise the index is one of the first 100 draws, below the song count when there are songs, unplayed whenever an unplayed one was drawn, and added to the played set; the state is playing and the guess cleared |
| GamePage.Game.ReceivePlaylist | client/src/pages/Game.tsx:52-56 | the playlist arrives only for a page with a route id; while loading, the playlist's arrival starts round 1 with a cleared guess and an index drawn as in `startRound`, and a song is on screen exactly when the list is non-empty; otherwise the state, the guess and the played set are kept |
| GamePage.Game.SetGuess | client/src/pages/Game.tsx:268-269 | the guess field holds the typed text; nothing else changes |
| GamePage.Game.SubmitGuess | client/src/pages/Game.tsx:85-100 | for a non-blank guess, the only kind the disabled default button lets through: exactly 100 points for a correct guess and 0 otherwise, then the round ends; the banner says correct exactly when the points were given |
| GamePage.Game.Skip | client/src/pages/Game.tsx:278 | as written: the round ends, the score and the typed guess are kept, and the banner shows the verdict on that guess |
| GamePage.Game.SkipClearingGuess | client/src/pages/Game.tsx:278 | the corrected skip: the round ends with the score kept, and the banner says correct exactly when points were given, which is never |
| GamePage.Game.NextRound | client/src/pages/Game.tsx:102-109 | from round 5 the game is over with everything else kept; before it, the round is incremented and the new round's index is drawn as in `startRound`: one of the first 100 draws, unplayed whenever one was drawn, and a song on screen exactly when there are songs; the class invariant keeps the round in 1..5 and the score within 100 per judged round |
| GamePage.Game.SetPlayerName | client/src/pages/Game.tsx:443-445 | the name field holds at most 15 characters, and nothing else changes |
| GamePage.Game.GameOverSubmit | client/src/pages/Game.tsx:111-119 | nothing is sent without a playlist id or with a blank name; otherwise the trimmed name, the non-empty id, the score and five questions |
| GamePage.ScoreBounded | client/src/pages/Game.tsx:29-109 | in every reachable state the round is in 1..5 and the score at most 100 times the round |
| GamePage.GameOverSummary | client/src/pages/Game.tsx:391 | at game over the score counts correct guesses out of five and the accuracy is 20 percent per correct guess, within 0..100 |
| GamePage.SkipBannerWithoutPoints | client/src/pages/Game.tsx:322-336 | the guess `abc` is a correct guess for the title `abc`, so the banner for it reads "Correct!" and "+100 Points" |
| GamePage.SkipShowsCorrectWithoutPoints | client/src/pages/Game.tsx:278 | a concrete game as written: one song titled `abc`, the guess `abc`, then Skip; the banner shows correct and the score gained nothing |
| HomePage.GetParam | client/src/pages/Home.tsx:34 | `searchParams.get`: none exactly when no pair has the name; otherwise the value of the first pair that has it |
| HomePage.PlaylistIdFrom | client/src/pages/Home.tsx:30-36 | a non-empty `list` value of the parsed link, else the trimmed input |
| HomePage.ListParameterWins | client/src/pages/Home.tsx:33-35 | a link whose first `list` pair is non-empty yields exactly that value |
| HomePage.SplitTwo | client/src/pages/Home.tsx:37 | two separator-free parts joined by the separator split back into those two |
| HomePage.TargetQueryFields | client/src/pages/Home.tsx:37 | the query has no `?` and splits at `&` into the `time` and `count` fields |
| HomePage.GameTargetFields | client/src/pages/Home.tsx:37 | for an id without `?`, the target splits into `/game/<id>` and that query |
| HomePage.OptionValues | client/src/pages/Home.tsx:7-19 | the time values are exactly 15, 30, 60 and 0, and the count values exactly 15, 30, 60 and 9999 |
| HomePage.Home.constructor | client/src/pages/Home.tsx:22-24 | empty input, time limit 30 and song count 15, all within the option tables |
| HomePage.Home.SetInput | client/src/pages/Home.tsx:81 | the field holds the typed text and the choices are kept |
| HomePage.Home.ChoosePreset | client/src/pages/Home.tsx:87-89 | a quick pick fills the field with its playlist id |
| HomePage.Home.ChooseTime | client/src/pages/Home.tsx:101 | the time limit becomes the chosen option's value, so it stays in the table |
| HomePage.Home.ChooseCount | client/src/pages/Home.tsx:117 | the song count becomes the chosen option's value, so it stays in the table |
| HomePage.Home.HandleStart | client/src/pages/Home.tsx:28-38 | no navigation exactly when the input is blank; otherwise `/game/<id>?time=<t>&count=<c>` for the id the link yields, parsed from the untrimmed input |

## Left out

- Network I/O: the axios calls, the ytpl import, the page request and its User-Agent header. Their outcomes are inputs of type `Fetch`.
- The regular expression and `JSON.parse` that extract the page's embedded data. The data arrives already parsed as a `PageData`.
- Server.GetPlaylist: the 500 reply comes only from an exception thrown outside the three per-strategy try blocks. The model has no input that reaches that outer catch, so it never answers 500.
- Server.ApiItem: an item's title is always present; an item with a video id but no `snippet.title` is not modelled.
- Server.Renderer: the renderer's `videoId` is always a string; a missing one is not modelled.
- Server.YtplStrategy: the library's `limit: 100` option is not modelled; the items given are the items returned.
- Schema.RequestBody: the body arrives already parsed as JSON. How the JSON body parser treats a missing, malformed or non-JSON body is not modelled.
- Server.PostGame: database failures and the `throw err` branch for non-validation errors are left out.
- The insert schema's validator is modelled as checking only the fields' presence and JSON type. Its exact message texts beyond "Required" and "Expected …, received …" are not modelled.
- Schema.Json: a body's numbers are unbounded integers; fractional and non-finite numbers cannot be expressed. An integer outside the 32-bit range of the `integer` columns can be: the model accepts it and stores it, while the source rejects it (with a 400 from the column validator or a 500 from the database). The columns' 32-bit bound is not modelled.
- ApiRoutes.ParamValue: numbers are integers, rendered as plain decimal digits. That is `String(n)` only below 10^21 in magnitude: from 10^21 on JavaScript writes exponent form (`1e+21`), and above 2^53 the number it holds may already differ from the integer. Those magnitudes, and fractional or non-finite numbers, are not modelled.
- ApiRoutes.BuildUrl: the params arrive as a sequence in `Object.entries` order. JavaScript's ordering of integer-like keys first is not modelled.
- GamePage.Accuracy: `Math.round` of a floating-point quotient is modelled as exact round-half-up. Ties and float error could differ only for scores that are not multiples of 100, and the game never produces those.
- GamePage.Normalize: `toLowerCase` is modelled on ASCII. Non-ASCII characters that lower-case to ASCII letters (such as the Kelvin sign) are out of scope.
- The YouTube player (play, pause, volume, `isPlaying`), confetti, focus timers, animation and all rendering.
- The game-over view's `isSubmitted` and `isSubmitting` flags, and the submit mutation itself, live in a data-fetching library that is not part of this model.
- The replay and home buttons reload or navigate away; they are not modelled.
- Data refetching: a later arrival of the playlist replaces only the playlist; the round in progress, the guess and the played set are kept, as `ReceivePlaylist` states. The fetch library's refetch timing is not modelled.
- The `time` and `count` query values the home page sends are not read by the game page, which always plays five rounds.
- HomePage.Home.HandleStart: the URL parser is a parameter. The WHATWG URL Standard's parsing and the form-urlencoded decoding of the query are not modelled.
- Storage.SortByScore: SQL leaves the order of equal scores open. The model keeps them in table order, but no contract depends on that choice.
- Storage.GameTable.GetLeaderboard: the network round trip to the database is not modelled.
- The unused `users` table, and the serverless copies of the handlers outside `server/`, are not part of this model.

## Findings

| source | as written | input that shows it | evidently intended | confidence | as-written member | corrected member |
|---|---|---|---|---|---|---|
| server/routes.ts:34-56 | strategy 1 answers 200 as soon as `items` is non-empty, even when no item has a video id, so no song survives the filter | a configured key, and `items` holding one entry without `resourceId.videoId`: the reply is a 200 with `songs: []`, and ytpl and the page are never tried; the game page then starts a round with no song on screen | like strategies 2 and 3, accept only a non-empty song list and otherwise fall through to the next strategy | not executed | Server.OfficialAnswersWithNoSongs | Server.ResolveNeverEmpty |
| client/src/pages/Game.tsx:278 | Skip sets `roundEnd` but keeps the typed guess, while the round-end banner (lines 322-336) recomputes `isCorrectGuess` from it | type the exact title (for example `abc` for a song titled `abc`) and press Skip: the banner says "Correct!" and "+100 Points" while the score is unchanged | clear the guess on skip, or show the banner from the awarded points, so the banner agrees with the score | not executed | GamePage.SkipShowsCorrectWithoutPoints | GamePage.Game.SkipClearingGuess |
