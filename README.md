# AI DJ: request interpretation and playlist assembly, in Dafny

AI DJ turns a free-text playlist request ("45 minute workout", "cinematic
20 minute soundtrack playlist") into a playlist. This project models the
deterministic part of that pipeline and proves what it promises:

- **Request interpretation** (`interpret_user_query`). The duration comes
  from the leftmost `<number><ws><unit>` match of a case-insensitive regular
  expression, or else from the scenario keywords (car ride, workout, study
  session), or else defaults to 60. The genres and moods come from the theme
  keywords. The tempo and year ranges are fixed. The "only my songs" flag is
  set by four phrases.
- **Playlist assembly** (`generate_constrained_playlist`). This covers:
  - the song count, with Python's round-half-to-even;
  - the choice of the user's own songs;
  - the only-my-songs error;
  - the post-processing of a generated list: the optional stable sort by
    tempo, the `liked` flag recomputed in place, and the cut to the song count.
- **The page state of the Streamlit front end**:
  - the session defaults;
  - the login with the authorisation code taken from the redirected URL;
  - the album covers and track URIs stored for a generated playlist;
  - the total duration shown;
  - the "new request" reset.

Modules:

- `Wrappers` — `Option`, `Min`, `Max`.
- `Text` — Python's `in`, `str.split` / `sep.join` and `str.lower()`, as far as
  finding lower-case ASCII phrases in a request needs it.
- `DurationPattern` — the regular expression
  `(\d+(\.\d+)?)\s*(hour|hr|min|minutes)` as a greedy left-to-right scanner. The
  scanner is proved sound and complete against a declarative description of
  what the pattern matches. The minutes are computed in exact decimal
  arithmetic.
- `QueryInterpretation` — `interpret_user_query`.
- `PlaylistGeneration` — `generate_constrained_playlist`:
  - a specification function `Assembled`;
  - the method `Assemble`, proved equal to it, whose `liked` loop updates an
    array in place.
- `AuthCode` — the code extraction of the login form.
- `UiSession` — a class `Session` whose field `state` is `st.session_state`,
  with one method per step that changes it.

Three inputs the program fetches over the network are parameters here:

- the user's Spotify library (`UserPreferences`);
- the parsed answer of the language model (`Option<seq<Song>>`, `None` when no
  JSON array was found or the call raised);
- the Spotify track search and token exchange (functions). A search can
  raise, and an exchange can fail; both outcomes are part of their results.

Song titles, artists and the names of liked songs can hold any Unicode text,
so the `liked` comparison uses Python's full `str.lower()`. That function is
a parameter `lower` of the playlist members; nothing about it is assumed, so
every property stated about `liked` holds for the real case mapping.

As written, the source counts only the unit word `hour` as hours. So "1.5hr"
gives 1 minute, not 90 (`DurationPattern.HrExample`). And "only my favourite
songs" asks for only-user mode but, unlike the other three only-my-songs
phrases, contains none of the phrases that select the user's songs. Such a
request ends in the only-my-songs error unless it also contains "liked songs",
"my favorites", "favorite", "favourites" or "top tracks" and the library list
that phrase selects is non-empty (`PlaylistGeneration.GeneratePlaylist`). The
model keeps both behaviours.

## Model

| member | source | states |
|---|---|---|
| `Text.FindFrom` | music_utils.py:71 | the result is the first index at or after the start where the phrase occurs, and `None` exactly when it occurs nowhere from there on |
| `Text.Contains` | music_utils.py:71-75 | Python's `p in s` holds exactly when `p` occurs at some index of `s` |
| `Text.ContainsAny` | music_utils.py:87-89 | `any(p in s for p in ps)` holds exactly when some phrase of the list occurs |
| `Text.Split` | ui.py:49 | there is at least one piece; splitting loses nothing, since joining the pieces with the separator gives back the string; no piece contains the separator |
| `Text.Join` | ui.py:49 | `sep.join`, the inverse that states what the split keeps: the joined text starts with the first piece, followed by the separator when more pieces follow, and ends with the last piece |
| `Text.SplitLastPiece` | ui.py:49 | the last piece of `split(sep)` is the text after an occurrence of `sep` after whose end no occurrence starts |
| `Text.SplitFirstPiece` | ui.py:49 | the first piece is the text before the first occurrence, or the whole string when there is none |
| `Text.Lower` | music_utils.py:71 | the lowered request is at least as long as the request and holds no character that lowering maps |
| `Text.LowerIdempotent` | music_utils.py:71-89 | lowering an already lowered request changes nothing |
| `Text.LowerOfPlain` | music_utils.py:71 | lowering leaves unchanged a string of characters it does not map |
| `Text.LowerAppend` | music_utils.py:71 | lowering distributes over concatenation |
| `Text.LowerHasLetter` | music_utils.py:71 | the lowered text has a letter other than `i`/`k` exactly when the text has it in either case |
| `DurationPattern.IsSpace` | music_utils.py:64 | `\s` is the set `str.isspace` accepts: among ASCII exactly tab to carriage return, the four separators 0x1C-0x1F and space; it holds no digit or letter |
| `DurationPattern.LetterMatches` | music_utils.py:64 | ignoring case, a pattern letter matches itself and its capital, and `i` also matches dotless i and capital I with dot above; no other letter is matched by a character beyond ASCII here (see "## Left out") |
| `DurationPattern.UnitAt` | music_utils.py:64 | there is a unit exactly when one of the four words occurs there, ignoring case |
| `DurationPattern.UnitAtFirstAlternative` | music_utils.py:64 | the unit is the first alternative in pattern order (`hour`, `hr`, `min`, `minutes`) whose word occurs there, ignoring case |
| `DurationPattern.UnitWord` | music_utils.py:64 | every alternative of the unit group is a lower-case word of at least two letters |
| `DurationPattern.UnitAtSound` | music_utils.py:64 | the unit alternative the scanner reports is present at that index, ignoring case |
| `DurationPattern.UnitNeverMinutes` | music_utils.py:64 | since `min` is tried first, the unit group never captures `minutes` |
| `DurationPattern.DigitRun` | music_utils.py:64 | `\d+` consumes exactly the longest run of digits |
| `DurationPattern.SpaceRun` | music_utils.py:64 | `\s*` consumes exactly the longest run of whitespace |
| `DurationPattern.FractionEnd` | music_utils.py:64 | `(\.\d+)?` consumes something exactly when a dot and a digit follow, and then the dot and the whole run of digits after it |
| `DurationPattern.MatchAt` | music_utils.py:64 | a match the scanner reports at an index starts with a digit there, and its whole part is a non-empty prefix of the text from there |
| `DurationPattern.MatchAtSound` | music_utils.py:64 | every match the scanner reports is a match of the pattern |
| `DurationPattern.MatchAtComplete` | music_utils.py:64 | every match of the pattern at an index is the one the scanner reports there, up to the `min`/`minutes` choice |
| `DurationPattern.WholeIsMaximal` | music_utils.py:64 | in any match the digits before the dot are the whole run of digits |
| `DurationPattern.FractionIsMaximal` | music_utils.py:64 | in any match the fraction is the whole run of digits after the dot |
| `DurationPattern.GapIsMaximal` | music_utils.py:64 | in any match the gap is the whole run of whitespace |
| `DurationPattern.FirstMatchIndex` | music_utils.py:64 | the search reports the leftmost index with a match, and none when no index has one |
| `DurationPattern.Search` | music_utils.py:64 | `re.search` finds nothing exactly when the pattern matches at no index |
| `DurationPattern.SearchIsLeftmost` | music_utils.py:64 | what `re.search` returns is a match of the pattern |
| `DurationPattern.SearchFindsFirstDigit` | music_utils.py:64 | a match at the first digit of the text is the match `re.search` returns |
| `DurationPattern.NoMatchAtNonDigit` | music_utils.py:64 | no match starts at a character that is not a digit |
| `DurationPattern.MinutesOf` | music_utils.py:67-68 | the minutes a match gives are never negative |
| `DurationPattern.HourMinutesAreFloor` | music_utils.py:67-68 | minutes from an hour count are the floor of 60 times the exact decimal value of group 1 |
| `DurationPattern.NonHourIsFloor` | music_utils.py:67-68 | minutes from an `hr`, `min` or `minutes` count are the floor of the exact decimal value of group 1 |
| `DurationPattern.MinutesExample` | music_utils.py:64-68 | "45 min workout" is matched as 45, one space, `min`, giving 45 minutes |
| `DurationPattern.HoursExample` | music_utils.py:64-68 | in "2 hours", `hour` matches inside `hours`, giving 120 minutes |
| `DurationPattern.HrExample` | music_utils.py:64-68 | "1.5hr" is matched with unit `hr`, which is not converted, giving 1 minute |
| `DurationPattern.HalfHourExample` | music_utils.py:64-68 | "0.5 HOUR" matches regardless of case, giving 30 minutes |
| `DurationPattern.MinutesWordExample` | music_utils.py:64 | in "go 3 minutes" the search skips to the first digit and captures `min` |
| `QueryInterpretation.ExtractedDuration` | music_utils.py:64-68 | there is no explicit duration exactly when the pattern matches nowhere, and an explicit one is never negative |
| `QueryInterpretation.ScenarioDuration` | music_utils.py:70-76 | car ride gives 45 whatever else occurs; otherwise workout gives 60; otherwise study session gives 90; without the three keywords there is no duration |
| `QueryInterpretation.Theme` | music_utils.py:78-85 | genres and moods are both set or both empty; they are empty exactly when no theme keyword occurs; a cinematic keyword wins over a calm one; every theme's genres include `ambient` |
| `QueryInterpretation.Interpret` | music_utils.py:62-101 | the duration is always at least 1 minute, the tempo range is always [60, 130], the years are always [2019, 2024], and the genre list is never empty |
| `QueryInterpretation.DurationPrecedence` | music_utils.py:64-92 | a match wins, and one that truncates to 0 gives 60; without a match, car ride gives 45, workout 60 and study session 90, first one wins; otherwise 60 |
| `QueryInterpretation.ExplicitDurationSuppressesScenarios` | music_utils.py:66-76 | two requests with the same explicit duration get the same duration, whatever keywords they have |
| `QueryInterpretation.ThemeSelection` | music_utils.py:78-96 | a movie/soundtrack/cinematic keyword gives the cinematic lists; otherwise a relax/stress keyword gives the calm lists; otherwise `["any"]` and no moods |
| `QueryInterpretation.OnlyUserSongsPhrases` | music_utils.py:87-89 | only-user mode holds exactly when one of the four phrases occurs in the lowered request |
| `QueryInterpretation.NoThemeLetters` | music_utils.py:80-85 | a request without `a`, `v` and `s` in either case gets no theme |
| `QueryInterpretation.NoOnlyUserLetters` | music_utils.py:87-89 | a request without `y` in either case does not ask for only-user mode |
| `QueryInterpretation.DurationOfFirstMatch` | music_utils.py:64-68 | a match at the first digit gives the explicit duration |
| `QueryInterpretation.PlainPrefixKept` | music_utils.py:80 | a request that starts with a phrase without capitals contains that phrase once lowered |
| `QueryInterpretation.WorkoutExample` | music_utils.py:62-101 | "45 minute workout" gives 45 minutes, `["any"]`, no moods and no only-user mode |
| `QueryInterpretation.CinematicExample` | music_utils.py:62-101 | "cinematic 20 minute soundtrack playlist" gives 20 minutes and the cinematic genres and moods |
| `QueryInterpretation.ZeroMinutesExample` | music_utils.py:66-92 | "0.5 min" truncates to 0 and gets the 60-minute default |
| `PlaylistGeneration.RoundQuarter` | music_utils.py:126 | the result is an integer nearest to a quarter of the input, and an even one on a tie |
| `PlaylistGeneration.RoundQuarterUnique` | music_utils.py:126 | those two conditions determine the result, so they are Python's `round` |
| `PlaylistGeneration.NumSongs` | music_utils.py:125-126 | the count is at least 5; above 5 it is within half a song of a quarter of the duration; it is 5 only for at most 22 minutes |
| `PlaylistGeneration.NumSongsExamples` | music_utils.py:125-126 | 20 and 10 minutes give 5 songs; 26 gives 6 and 30 gives 8, both ties rounding to even; 45 gives 11 and 90 gives 22 |
| `PlaylistGeneration.Gradual` | music_utils.py:114-116 | a list tempo range never asks for the sort; a dictionary asks for it exactly when its `gradual_increase` is set |
| `PlaylistGeneration.UserPool` | music_utils.py:132-138 | a favourites phrase gives liked songs then top tracks; otherwise "top tracks" gives the top tracks; otherwise nothing |
| `PlaylistGeneration.GenreFiltered` | music_utils.py:142-144 | the filter keeps the whole pool or nothing; it drops a non-empty pool exactly when a real genre list shares no genre with the user's top genres |
| `PlaylistGeneration.UserEntries` | music_utils.py:146-155 | one entry per song, in order, with its name and artist and `liked` set |
| `PlaylistGeneration.Take` | music_utils.py:197 | the slice is a prefix of length `min(n, len)` |
| `PlaylistGeneration.LikedSet` | music_utils.py:131 | the set holds the `str.lower()`ed (name, artist) pair of every liked song and nothing else, and is empty without liked songs |
| `PlaylistGeneration.Marked` | music_utils.py:195 | the entry's `liked` becomes membership of its `str.lower()`ed (title, artist) pair; every other key is kept |
| `PlaylistGeneration.MarkAll` | music_utils.py:194-195 | the loop fails exactly when some entry lacks a title or an artist; otherwise each entry's `liked` becomes membership of its `str.lower()`ed pair, and nothing else changes |
| `PlaylistGeneration.InsertByBpm` | music_utils.py:192 | inserting keeps every tempo present and adds one entry |
| `PlaylistGeneration.SortByBpm` | music_utils.py:192 | sorting keeps every tempo present and the length |
| `PlaylistGeneration.InsertByBpmPermutes` | music_utils.py:192 | insertion adds exactly the inserted entry to the multiset |
| `PlaylistGeneration.InsertByBpmSorted` | music_utils.py:192 | insertion into a tempo-sorted list keeps it sorted |
| `PlaylistGeneration.InsertByBpmKeepsTies` | music_utils.py:192 | insertion puts the entry before the others of its tempo |
| `PlaylistGeneration.SortByBpmCorrect` | music_utils.py:191-192 | the sort is ordered by tempo, a permutation, and stable: entries of equal tempo keep their order |
| `PlaylistGeneration.PermutationKeepsKeys` | music_utils.py:192-195 | every entry has a title and an artist after a reordering such as the sort exactly when it did before |
| `PlaylistGeneration.ProcessGenerated` | music_utils.py:191-197 | the post-processing fails exactly when a sort meets an entry without tempo or an entry lacks a title or an artist; otherwise it keeps `min(num_songs, len)` entries, each with `liked` set, and without a sort they are the generated entries in order, marked |
| `PlaylistGeneration.Assembled` | music_utils.py:107-208 | an error is one of the two messages, and a playlist never has more than `num_songs` entries |
| `PlaylistGeneration.GeneratePlaylist` | music_utils.py:87-208 | the only-my-songs error comes exactly when the lowered request has an only-my-songs phrase and selects none of the user's songs |
| `PlaylistGeneration.OutcomeErrors` | music_utils.py:140-206 | the only-my-songs error comes exactly when only-user mode meets an empty pool; the generation error comes exactly on the generated path when nothing was parsed or the post-processing raised |
| `PlaylistGeneration.UserPoolPlaylist` | music_utils.py:140-156 | with a non-empty pool the playlist is its first `min(num_songs, len)` songs, all liked; an empty result is a success and happens only when the only-user genre filter drops everything |
| `PlaylistGeneration.GeneratedLiked` | music_utils.py:131-197 | on the generated path an entry is liked exactly when its `str.lower()`ed title and artist are those of a liked song; top tracks do not count |
| `PlaylistGeneration.GradualPlaylistSorted` | music_utils.py:191-197 | when a gradual increase is asked for, the generated playlist is sorted by tempo, and it is the head of the stable sort of the generated list, marked, so entries of one tempo keep the generator's order |
| `PlaylistGeneration.GeneratedOrderKept` | music_utils.py:114-197 | for an interpreted request the tempo range is a list, so no sort happens: the playlist is the generated list in order, marked and cut to `num_songs`, and it fails exactly when an entry lacks a title or an artist |
| `PlaylistGeneration.PlaylistEntriesHaveKeys` | music_utils.py:146-197 | every entry of every playlist has a title and an artist |
| `PlaylistGeneration.PlaylistMinutesNearRequest` | ui.py:134 | the four minutes per track shown exceed the request by at most two minutes, or are at most 20 |
| `PlaylistGeneration.Assemble` | music_utils.py:107-208 | the step-by-step generator returns what `Assembled` specifies |
| `PlaylistGeneration.MarkLiked` | music_utils.py:194-195 | the in-place loop succeeds exactly when `MarkAll` does and then leaves the array equal to its result; when it fails, there is an entry without a title or artist such that the entries before it are marked as `MarkAll` marks them and it and the rest are unchanged |
| `PlaylistGeneration.GenerateConstrainedPlaylist` | music_utils.py:104-208 | the generator returns `GeneratePlaylist` of the request, with at most `num_songs` entries |
| `AuthCode.ExtractCode` | ui.py:47-62 | a URL is rejected exactly when it has no `code=`; an extracted code never contains `&` |
| `AuthCode.CodeAfterLastMarker` | ui.py:49 | the code is a prefix of the text after the last `code=`: all of it when no `&` follows, else up to the first `&` |
| `AuthCode.ExtractCodeExample` | ui.py:49 | `?code=ab&s=1` gives the code `ab` |
| `AuthCode.MissingCodeExample` | ui.py:47-62 | `?state=1` is rejected |
| `UiSession.DefaultValue` | ui.py:33 | `authenticated` and `data_cached` default to `False` and every other key to `None` |
| `UiSession.Truthy` | ui.py:132 | `None` is false, a flag is itself, the token and user dictionaries are true, a playlist is true when non-empty |
| `UiSession.SearchText` | ui.py:119 | the search text is the title, one space, then the artist |
| `UiSession.CoverOf` | ui.py:120-126 | the cover is the hit's first album image when there is one, otherwise the placeholder; without a hit it is the placeholder |
| `UiSession.UriOf` | ui.py:120-127 | a URI is saved exactly when there is a hit, and then it is the hit's |
| `UiSession.Searched` | ui.py:118-127 | the songs searched before the first search that raises: all of them answered, and the next one, if any, raised |
| `UiSession.ListsCompleteUnlessRaised` | ui.py:118-140 | the stored cover and URI lists have one entry per song exactly when no search raises |
| `UiSession.AlbumCovers` | ui.py:116-126 | one cover per song, in playlist order: the hit's first album image, else the placeholder |
| `UiSession.TrackUris` | ui.py:116-127 | one URI per song, in playlist order: the hit's URI, else `None` |
| `UiSession.SearchResultsStep` | ui.py:118-127 | searching one more song appends exactly its cover and its URI |
| `UiSession.Session.InitDefaults` | ui.py:31-33 | every page key is present afterwards; values already present are kept; missing ones get their default; no other key is added |
| `UiSession.Session.Authenticate` | ui.py:46-62 | without `code=` nothing changes and no exchange is attempted; a failed exchange changes nothing; otherwise the token and both flags are stored, and the user and `data_cached` are stored unless the user lookup raises |
| `UiSession.Session.ShowGenerated` | ui.py:111-128 | a failed request or an error answer changes nothing; otherwise the playlist and an empty reasoning list are stored, with the cover and URI lists of the songs searched before the first search that raises, and the method reports whether one raised |
| `UiSession.Session.DisplayedDuration` | ui.py:132-134 | a total is shown exactly when logged in with a non-empty playlist, and it is four minutes per track |
| `UiSession.Session.NewRequest` | ui.py:165-170 | the playlist becomes `None` and the three lists become empty, and no total is shown any more |
| `UiSession.GeneratedPlaylistIsSearchable` | ui.py:118-119 | every song of a generated playlist has the title and artist the search text needs |

## Left out

- The Spotify and AcousticBrainz calls of `get_user_preferences` and `get_song_metadata` are not modelled. Their result is the `UserPreferences` parameter.
- The language-model completion, the regular expression that finds the JSON array in its answer, and `json.loads` are not modelled. They are one optional parsed list, given as a parameter.
- The prompt text and `bpm_start`, `bpm_end` and `bpm_step` are not modelled. They only feed the prompt and the log, and `bpm_step` is a float that is never used.
- `print` logging is not modelled.
- The Streamlit layout is not modelled: titles, buttons, the sidebar of favourites, images, links, the reasoning expander and `st.rerun`.
- Saving a playlist, the data-cache request and the deletion of the token cache directory are not modelled. These are network or disk operations.
- main.py is not part of this model. The playlist endpoint's answer is taken to be the generator's result, which carries no reasoning list.
- `Text.Lower` lowers ASCII capitals, the Kelvin sign and capital I with dot above. Every other character is kept unchanged. It is used only to find ASCII phrases in the request; no other character's lower case contains an ASCII letter, so phrase detection does not depend on the rest of the Unicode case mapping. The song-name comparison uses the `lower` parameter instead.
- `DurationPattern.LetterMatches` leaves out two matches Python's `re.IGNORECASE` makes: long s (U+017F) for `s` and the Kelvin sign (U+212A) for `k`. No result of `UnitAt` or `Search` depends on them. No unit word contains `k`. The only word with an `s` is `minutes`. Its prefix `min` is tried first, so the unit is never `minutes` (`UnitNeverMinutes`). The declarative pattern `IsMatchAt` therefore does not admit a "minutes" spelt with a long s as a `minutes` match; the text still matches `min` there.
- `DurationPattern.IsDigit` accepts ASCII digits only. Python's `\d` also accepts other Unicode decimal digits.
- `DurationPattern.MinutesOf` computes in exact decimal arithmetic. The source goes through a binary float on both branches: `int(float(group1))` for a minute unit and `int(float(group1) * 60)` for `hour`. Their effects are not modelled. A fraction can round down one minute too far: "2.05 hours" gives 122 in Python and 123 in the model. A number with more digits than a double holds is rounded: "99999999999999999999 min" gives 100000000000000000000 in Python, while the model gives the number itself. A number beyond the largest double (about 1.8 × 10^308 minutes, or about 3 × 10^306 hours once multiplied by 60; 309 nines or 307 nines, say) becomes infinite, and `int()` then raises an `OverflowError` that nothing catches; the model returns a duration instead.
- `PlaylistGeneration.Song` holds tempo and year as integers. A generated entry whose `bpm` is a string or a float is not modelled.
- `PlaylistGeneration.Assembled` requires a release-year range of two values. The prompt reads both, and `interpret_user_query` always builds two.
- `UiSession.Session.DisplayedDuration` counts only a stored playlist value as a playlist. Other truthy values the page never stores under that key are not modelled.
- `UiSession.Session.ShowGenerated` takes the search as a function of the query text alone, so two songs with the same title and artist always get the same answer. A song that is both liked and a top track can occur twice in a playlist, and a search that raises on the second lookup of the same text after answering the first is not modelled.
- The fallback to the placeholder for an empty stored cover (ui.py:140) is not modelled. The cover list never holds an empty string unless a hit's first image URL is empty.
- The login's `st.success` message, and the user lookup repeated on every rerun (ui.py:64-66), are not modelled.
