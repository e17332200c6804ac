/**
 * `generate_constrained_playlist` (music_utils.py:104-208): the song count,
 * the choice of the user's own songs, the only-my-songs error and the
 * post-processing of a generated track list.
 *
 * The user-preferences snapshot (music_utils.py:41-46) is a parameter, and
 * the generative step (the completion call, the search for a JSON array in
 * its answer and `json.loads`) is an oracle input: `None` when no JSON array
 * was found or an exception was raised, otherwise the parsed list.
 */
module PlaylistGeneration {
  import opened Wrappers
  import opened Text
  import opened QueryInterpretation

  /** A track of the user's library: `{"name": ..., "artist": ...}` (music_utils.py:36,39). */
  datatype SongRef = SongRef(name: string, artist: string)

  /** What `get_user_preferences` returns (music_utils.py:41-46). */
  datatype UserPreferences = UserPreferences(
    topArtists: seq<string>,
    topGenres: seq<string>,
    topTracks: seq<SongRef>,
    likedSongs: seq<SongRef>)

  /**
   * One playlist entry, a dictionary. `None` stands for a key that is
   * absent; for `title` and `artist` it also stands for a value that is not
   * a string (so that `.lower()` raises).
   */
  datatype Song = Song(
    title: Option<string>,
    artist: Option<string>,
    bpm: Option<int>,
    releaseYear: Option<int>,
    mood: Option<string>,
    liked: Option<bool>)

  /** The returned dictionary: `{"playlist": [...]}` or `{"error": message}`. */
  datatype Outcome = Playlist(songs: seq<Song>) | Failure(message: string)

  const OnlyUserError := "You requested only your songs, but no matching songs were found."
  const GenerationError := "Failed to generate playlist"
  const AvgSongLength := 4
  const MinSongs := 5
  const PoolPhrases := ["liked songs", "my favorites", "favorite", "favourites"]

  /**
   * Python's `round(n / 4)`, the division by `AvgSongLength` of the song
   * count: the nearest integer, ties going to the even neighbour. `/` and `%` on `int` are Euclidean, which for the positive
   * divisor 4 is Python's floor division.
   */
  function RoundQuarter(n: int): (r: int)
    ensures -2 <= n - 4 * r <= 2
    ensures n - 4 * r == 2 || n - 4 * r == -2 ==> r % 2 == 0
  {
    var q, m := n / 4, n % 4;
    if m < 2 then q
    else if m > 2 then q + 1
    else if q % 2 == 0 then q
    else q + 1
  }

  /** The two conditions of `RoundQuarter` leave no choice: they define `round`. */
  lemma RoundQuarterUnique(n: int, r: int)
    requires -2 <= n - 4 * r <= 2
    requires n - 4 * r == 2 || n - 4 * r == -2 ==> r % 2 == 0
    ensures r == RoundQuarter(n)
  {
    var s := RoundQuarter(n);
    assert -4 <= 4 * (s - r) <= 4;
  }

  /** `num_songs = max(5, round(duration / avg_song_length))` (music_utils.py:125-126). */
  function NumSongs(duration: int): (n: int)
    ensures n >= MinSongs
    ensures n == MinSongs ==> duration <= AvgSongLength * MinSongs + 2
    ensures n > MinSongs ==> AvgSongLength * n - 2 <= duration <= AvgSongLength * n + 2
  {
    Max(MinSongs, RoundQuarter(duration))
  }

  /** Worked values of the song count, ties included. */
  lemma NumSongsExamples()
    ensures NumSongs(20) == 5 && NumSongs(10) == 5 && NumSongs(1) == 5
    ensures NumSongs(26) == 6 && NumSongs(30) == 8 && NumSongs(45) == 11
    ensures NumSongs(60) == 15 && NumSongs(90) == 22 && NumSongs(120) == 30
  {
  }

  /** `bpm_range` asks for a gradual increase (music_utils.py:114-116). */
  function Gradual(r: BpmRange): (b: bool)
    ensures r.BpmList? ==> !b
    ensures r.BpmDict? ==> (b <==> r.gradualIncrease)
  {
    r.BpmDict? && r.gradualIncrease
  }

  /**
   * The user's own songs the query selects (music_utils.py:132-138): liked
   * songs then top tracks for a favourites phrase, else the top tracks for
   * "top tracks", else none.
   */
  function UserPool(lowered: string, prefs: UserPreferences): (pool: seq<SongRef>)
    ensures ContainsAny(lowered, PoolPhrases) ==> pool == prefs.likedSongs + prefs.topTracks
    ensures !ContainsAny(lowered, PoolPhrases) && Contains(lowered, "top tracks") ==> pool == prefs.topTracks
    ensures !ContainsAny(lowered, PoolPhrases) && !Contains(lowered, "top tracks") ==> pool == []
  {
    if ContainsAny(lowered, PoolPhrases) then prefs.likedSongs + prefs.topTracks
    else if Contains(lowered, "top tracks") then prefs.topTracks
    else []
  }

  /**
   * The genre filter of the only-user branch (music_utils.py:142-144). Its
   * condition `any(genre in genres for genre in top_genres)` does not look
   * at the song, so it keeps the whole pool or nothing.
   */
  function GenreFiltered(genres: seq<string>, topGenres: seq<string>, pool: seq<SongRef>): (kept: seq<SongRef>)
    ensures kept == pool || kept == []
    ensures kept == [] && pool != [] <==>
              pool != [] && genres != [] && "any" !in genres
              && forall k :: 0 <= k < |topGenres| ==> topGenres[k] !in genres
  {
    if genres != [] && "any" !in genres then
      if exists k :: 0 <= k < |topGenres| && topGenres[k] in genres then pool else []
    else pool
  }

  /** The entry built for a song of the user's own (music_utils.py:146,155). */
  function UserEntry(s: SongRef): Song {
    Song(Some(s.name), Some(s.artist), None, None, None, Some(true))
  }

  /** `[{"title": ..., "artist": ..., "liked": True} for song in songs]`. */
  function UserEntries(songs: seq<SongRef>): (entries: seq<Song>)
    ensures |entries| == |songs|
    ensures forall k :: 0 <= k < |songs| ==> entries[k] == UserEntry(songs[k])
  {
    seq(|songs|, k requires 0 <= k < |songs| => UserEntry(songs[k]))
  }

  /** `songs[:n]` for `n >= 0`. */
  function Take<T>(songs: seq<T>, n: nat): (prefix: seq<T>)
    ensures |prefix| == Min(n, |songs|)
    ensures prefix <= songs
  {
    if n <= |songs| then songs[..n] else songs
  }

  /** The liked-songs set: lowered (name, artist) pairs of the liked songs only (music_utils.py:131). */
  function LikedSet(prefs: UserPreferences, lower: string -> string): (liked: set<(string, string)>)
    ensures forall k :: 0 <= k < |prefs.likedSongs| ==>
              (lower(prefs.likedSongs[k].name), lower(prefs.likedSongs[k].artist)) in liked
    ensures forall p :: p in liked ==>
              exists k :: 0 <= k < |prefs.likedSongs|
                && p == (lower(prefs.likedSongs[k].name), lower(prefs.likedSongs[k].artist))
    ensures prefs.likedSongs == [] ==> liked == {}
  {
    set k | 0 <= k < |prefs.likedSongs| :: (lower(prefs.likedSongs[k].name), lower(prefs.likedSongs[k].artist))
  }

  /** `song["title"].lower()` and `song["artist"].lower()` can be evaluated. */
  predicate HasKeys(s: Song) {
    s.title.Some? && s.artist.Some?
  }

  /** `song["liked"] = (song["title"].lower(), song["artist"].lower()) in liked_songs_set` (music_utils.py:195). */
  function Marked(s: Song, liked: set<(string, string)>, lower: string -> string): (r: Song)
    requires HasKeys(s)
    ensures r.liked == Some((lower(s.title.value), lower(s.artist.value)) in liked)
    ensures r.title == s.title && r.artist == s.artist && r.bpm == s.bpm
    ensures r.releaseYear == s.releaseYear && r.mood == s.mood
  {
    s.(liked := Some((lower(s.title.value), lower(s.artist.value)) in liked))
  }

  /**
   * The loop of music_utils.py:194-195 over the whole list: `None` when
   * some entry makes it raise, otherwise every entry with its `liked` key
   * recomputed and nothing else changed.
   */
  function MarkAll(songs: seq<Song>, liked: set<(string, string)>, lower: string -> string): (r: Option<seq<Song>>)
    ensures r.Some? <==> forall k :: 0 <= k < |songs| ==> HasKeys(songs[k])
    ensures r.Some? ==> |r.value| == |songs|
    ensures r.Some? ==> forall k :: 0 <= k < |songs| ==>
              r.value[k].liked == Some((lower(songs[k].title.value), lower(songs[k].artist.value)) in liked)
              && r.value[k].(liked := songs[k].liked) == songs[k]
  {
    if songs == [] then Some([])
    else if !HasKeys(songs[0]) then None
    else match MarkAll(songs[1..], liked, lower)
      case None => None
      case Some(rest) => Some([Marked(songs[0], liked, lower)] + rest)
  }

  /** Every entry has a `bpm` key, so `sorted(..., key=lambda x: x["bpm"])` does not raise. */
  predicate AllHaveBpm(songs: seq<Song>) {
    forall k :: 0 <= k < |songs| ==> songs[k].bpm.Some?
  }

  predicate SortedByBpm(songs: seq<Song>)
    requires AllHaveBpm(songs)
  {
    forall i, j :: 0 <= i < j < |songs| ==> songs[i].bpm.value <= songs[j].bpm.value
  }

  /** Puts `x` before the first entry whose tempo is not below its own. */
  function InsertByBpm(x: Song, sorted: seq<Song>): (r: seq<Song>)
    requires x.bpm.Some? && AllHaveBpm(sorted)
    ensures AllHaveBpm(r) && |r| == |sorted| + 1
  {
    if sorted == [] || x.bpm.value <= sorted[0].bpm.value then [x] + sorted
    else [sorted[0]] + InsertByBpm(x, sorted[1..])
  }

  /** `sorted(playlist, key=lambda x: x["bpm"])` (music_utils.py:192), a stable sort. */
  function SortByBpm(songs: seq<Song>): (r: seq<Song>)
    requires AllHaveBpm(songs)
    ensures AllHaveBpm(r) && |r| == |songs|
  {
    if songs == [] then [] else InsertByBpm(songs[0], SortByBpm(songs[1..]))
  }

  /** The entries whose tempo is `b`, in list order. */
  function WithBpm(songs: seq<Song>, b: int): seq<Song> {
    if songs == [] then []
    else (if songs[0].bpm == Some(b) then [songs[0]] else []) + WithBpm(songs[1..], b)
  }

  lemma {:induction false} InsertByBpmPermutes(x: Song, sorted: seq<Song>)
    requires x.bpm.Some? && AllHaveBpm(sorted)
    ensures multiset(InsertByBpm(x, sorted)) == multiset(sorted) + multiset{x}
  {
    if sorted != [] && x.bpm.value > sorted[0].bpm.value {
      InsertByBpmPermutes(x, sorted[1..]);
      assert sorted == [sorted[0]] + sorted[1..];
    }
  }

  /** Inserting keeps a lower bound on the tempo that `x` and all of `sorted` respect. */
  lemma {:induction false} InsertByBpmBounded(x: Song, sorted: seq<Song>, low: int)
    requires x.bpm.Some? && AllHaveBpm(sorted)
    requires low <= x.bpm.value && forall k :: 0 <= k < |sorted| ==> low <= sorted[k].bpm.value
    ensures forall k :: 0 <= k < |sorted| + 1 ==> low <= InsertByBpm(x, sorted)[k].bpm.value
  {
    if sorted != [] && x.bpm.value > sorted[0].bpm.value {
      InsertByBpmBounded(x, sorted[1..], low);
    }
  }

  lemma {:induction false} InsertByBpmSorted(x: Song, sorted: seq<Song>)
    requires x.bpm.Some? && AllHaveBpm(sorted) && SortedByBpm(sorted)
    ensures SortedByBpm(InsertByBpm(x, sorted))
  {
    if sorted != [] && x.bpm.value > sorted[0].bpm.value {
      var tail := sorted[1..];
      InsertByBpmSorted(x, tail);
      InsertByBpmBounded(x, tail, sorted[0].bpm.value);
    }
  }

  lemma {:induction false} InsertByBpmKeepsTies(x: Song, sorted: seq<Song>, b: int)
    requires x.bpm.Some? && AllHaveBpm(sorted)
    ensures WithBpm(InsertByBpm(x, sorted), b) == (if x.bpm == Some(b) then [x] else []) + WithBpm(sorted, b)
  {
    if sorted == [] || x.bpm.value <= sorted[0].bpm.value {
      WithBpmCons(x, sorted, b);
    } else {
      var tail := sorted[1..];
      var inserted := InsertByBpm(x, tail);
      InsertByBpmKeepsTies(x, tail, b);
      WithBpmCons(sorted[0], inserted, b);
      WithBpmCons(sorted[0], tail, b);
      assert sorted == [sorted[0]] + tail;
      var head := if sorted[0].bpm == Some(b) then [sorted[0]] else [];
      var mine := if x.bpm == Some(b) then [x] else [];
      assert head == [] || mine == [];
      assert head + (mine + WithBpm(tail, b)) == mine + (head + WithBpm(tail, b));
    }
  }

  lemma WithBpmCons(y: Song, rest: seq<Song>, b: int)
    ensures WithBpm([y] + rest, b) == (if y.bpm == Some(b) then [y] else []) + WithBpm(rest, b)
  {
    assert ([y] + rest)[1..] == rest;
  }

  /**
   * The sort orders by tempo, is a permutation, and is stable: the entries
   * sharing one tempo keep their relative order.
   */
  lemma {:induction false} SortByBpmCorrect(songs: seq<Song>)
    requires AllHaveBpm(songs)
    ensures SortedByBpm(SortByBpm(songs))
    ensures multiset(SortByBpm(songs)) == multiset(songs)
    ensures forall b :: WithBpm(SortByBpm(songs), b) == WithBpm(songs, b)
  {
    if songs != [] {
      var rest := SortByBpm(songs[1..]);
      SortByBpmCorrect(songs[1..]);
      InsertByBpmSorted(songs[0], rest);
      InsertByBpmPermutes(songs[0], rest);
      assert songs == [songs[0]] + songs[1..];
      forall b ensures WithBpm(SortByBpm(songs), b) == WithBpm(songs, b) {
        InsertByBpmKeepsTies(songs[0], rest, b);
      }
    }
  }

  /**
   * A reordering neither adds nor drops an entry, so it keeps "every entry
   * has a title and an artist".
   */
  lemma PermutationKeepsKeys(songs: seq<Song>, ordered: seq<Song>)
    requires multiset(ordered) == multiset(songs)
    ensures (forall k :: 0 <= k < |songs| ==> HasKeys(songs[k])) <==>
            (forall k :: 0 <= k < |ordered| ==> HasKeys(ordered[k]))
  {
    forall k | 0 <= k < |ordered| ensures ordered[k] in songs {
      assert ordered[k] in multiset(ordered);
    }
    forall k | 0 <= k < |songs| ensures songs[k] in ordered {
      assert songs[k] in multiset(songs);
    }
  }

  /**
   * The post-processing of a parsed generated list (music_utils.py:191-197):
   * the optional sort by tempo, the `liked` loop and the cut to `n` entries;
   * `None` when the sort or the loop raises.
   */
  function ProcessGenerated(songs: seq<Song>, gradual: bool, liked: set<(string, string)>, n: nat,
                            lower: string -> string): (r: Option<seq<Song>>)
    ensures r.None? <==> (gradual && !AllHaveBpm(songs)) || exists k :: 0 <= k < |songs| && !HasKeys(songs[k])
    ensures r.Some? ==> |r.value| == Min(n, |songs|)
    ensures r.Some? ==> forall k :: 0 <= k < |r.value| ==> r.value[k].liked.Some?
    ensures r.Some? && !gradual ==> forall k :: 0 <= k < |r.value| ==> r.value[k] == Marked(songs[k], liked, lower)
  {
    if gradual && !AllHaveBpm(songs) then None
    else
      var ordered := if gradual then SortByBpm(songs) else songs;
      assert multiset(ordered) == multiset(songs) by {
        if gradual {
          SortByBpmCorrect(songs);
        }
      }
      PermutationKeepsKeys(songs, ordered);
      match MarkAll(ordered, liked, lower)
      case None => None
      case Some(marked) => Some(Take(marked, n))
  }

  /**
   * The body of `generate_constrained_playlist` once the constraints are
   * known (music_utils.py:107-208). The prompt reads both release-year
   * bounds, so the range has two of them.
   */
  function Assembled(c: Constraints, lowered: string, prefs: UserPreferences, generated: Option<seq<Song>>,
                     lower: string -> string): (r: Outcome)
    requires |c.releaseYearRange| == 2
    ensures r.Failure? ==> r.message == OnlyUserError || r.message == GenerationError
    ensures r.Playlist? ==> |r.songs| <= NumSongs(c.durationMinutes)
  {
    var n := NumSongs(c.durationMinutes);
    var pool := UserPool(lowered, prefs);
    if c.useOnlyUserSongs then
      if pool == [] then Failure(OnlyUserError)
      else Playlist(UserEntries(Take(GenreFiltered(c.genres, prefs.topGenres, pool), n)))
    else if pool != [] then Playlist(UserEntries(Take(pool, n)))
    else match generated
      case None => Failure(GenerationError)
      case Some(songs) =>
        match ProcessGenerated(songs, Gradual(c.bpmRange), LikedSet(prefs, lower), n, lower)
        case None => Failure(GenerationError)
        case Some(playlist) => Playlist(playlist)
  }

  /**
   * `generate_constrained_playlist(user_query)`: the only-my-songs error
   * comes exactly from an only-my-songs phrase in a request that selects
   * none of the user's songs.
   */
  function GeneratePlaylist(query: string, prefs: UserPreferences, generated: Option<seq<Song>>,
                            lower: string -> string): (r: Outcome)
    ensures r.Failure? ==> r.message == OnlyUserError || r.message == GenerationError
    ensures r == Failure(OnlyUserError) <==>
              ContainsAny(Lower(query), OnlyUserPhrases) && UserPool(Lower(query), prefs) == []
  {
    assert OnlyUserError != GenerationError by {
      assert |OnlyUserError| != |GenerationError|;
    }
    Assembled(Interpret(query), Lower(query), prefs, generated, lower)
  }

  /**
   * The two error results and when each occurs: the only-my-songs error
   * exactly when only-user mode meets an empty pool; the generation error
   * only on the generative path, when nothing was parsed or the
   * post-processing raised.
   */
  lemma OutcomeErrors(c: Constraints, lowered: string, prefs: UserPreferences, generated: Option<seq<Song>>,
                      lower: string -> string)
    requires |c.releaseYearRange| == 2
    ensures var r := Assembled(c, lowered, prefs, generated, lower);
            var pool := UserPool(lowered, prefs);
            && (r.Failure? ==> r.message == OnlyUserError || r.message == GenerationError)
            && (r == Failure(OnlyUserError) <==> c.useOnlyUserSongs && pool == [])
            && (r == Failure(GenerationError) <==>
                  !c.useOnlyUserSongs && pool == []
                  && (generated.None?
                      || ProcessGenerated(generated.value, Gradual(c.bpmRange), LikedSet(prefs, lower), NumSongs(c.durationMinutes), lower).None?))
  {
    assert OnlyUserError != GenerationError by {
      assert |OnlyUserError| != |GenerationError|;
    }
  }

  /**
   * When the user's songs are used they come first-`num_songs`-in-pool
   * order, each marked liked; in only-user mode the genre filter keeps all
   * of them or none, and none is still a success.
   */
  lemma UserPoolPlaylist(c: Constraints, lowered: string, prefs: UserPreferences, generated: Option<seq<Song>>,
                         lower: string -> string)
    requires |c.releaseYearRange| == 2
    requires UserPool(lowered, prefs) != []
    ensures var r := Assembled(c, lowered, prefs, generated, lower);
            var pool := UserPool(lowered, prefs);
            var n := NumSongs(c.durationMinutes);
            && r.Playlist?
            && (|r.songs| == Min(n, |pool|) || (c.useOnlyUserSongs && r.songs == []))
            && (r.songs == [] ==> c.useOnlyUserSongs && GenreFiltered(c.genres, prefs.topGenres, pool) == [])
            && forall k :: 0 <= k < |r.songs| ==>
                 r.songs[k].title == Some(pool[k].name) && r.songs[k].artist == Some(pool[k].artist)
                 && r.songs[k].liked == Some(true)
  {
    var pool := UserPool(lowered, prefs);
    var n := NumSongs(c.durationMinutes);
    var kept := if c.useOnlyUserSongs then GenreFiltered(c.genres, prefs.topGenres, pool) else pool;
    var taken := Take(kept, n);
    assert Assembled(c, lowered, prefs, generated, lower) == Playlist(UserEntries(taken));
    assert forall k :: 0 <= k < |taken| ==> taken[k] == pool[k];
  }

  /**
   * On the generative path the `liked` key of every entry says whether its
   * lowered (title, artist) is the lowered (name, artist) of a liked song;
   * top tracks do not count.
   */
  lemma GeneratedLiked(c: Constraints, lowered: string, prefs: UserPreferences, generated: Option<seq<Song>>,
                       lower: string -> string)
    requires |c.releaseYearRange| == 2
    requires !c.useOnlyUserSongs && UserPool(lowered, prefs) == []
    ensures var r := Assembled(c, lowered, prefs, generated, lower);
            r.Playlist? ==> forall k :: 0 <= k < |r.songs| ==>
              HasKeys(r.songs[k])
              && (r.songs[k].liked == Some(true) <==>
                    exists j :: 0 <= j < |prefs.likedSongs|
                      && lower(r.songs[k].title.value) == lower(prefs.likedSongs[j].name)
                      && lower(r.songs[k].artist.value) == lower(prefs.likedSongs[j].artist))
  {
    var r := Assembled(c, lowered, prefs, generated, lower);
    if r.Playlist? {
      var songs := generated.value;
      var ordered := if Gradual(c.bpmRange) then SortByBpm(songs) else songs;
      var marked := MarkAll(ordered, LikedSet(prefs, lower), lower).value;
      var n := NumSongs(c.durationMinutes);
      assert r.songs == Take(marked, n);
      forall k | 0 <= k < |r.songs|
        ensures HasKeys(r.songs[k])
        ensures r.songs[k].liked == Some(true) <==>
                  exists j :: 0 <= j < |prefs.likedSongs|
                    && lower(r.songs[k].title.value) == lower(prefs.likedSongs[j].name)
                    && lower(r.songs[k].artist.value) == lower(prefs.likedSongs[j].artist)
      {
        assert r.songs[k] == marked[k];
        var pair := (lower(ordered[k].title.value), lower(ordered[k].artist.value));
        if pair in LikedSet(prefs, lower) {
          var j :| 0 <= j < |prefs.likedSongs|
                   && pair == (lower(prefs.likedSongs[j].name), lower(prefs.likedSongs[j].artist));
        }
      }
    }
  }

  /**
   * With the gradual increase requested, a generated playlist is ordered by
   * tempo, and it is the head of the stable sort of the generated list with
   * `liked` recomputed, so (by `SortByBpmCorrect`) the entries of one tempo
   * keep the order the generator gave them.
   */
  lemma GradualPlaylistSorted(c: Constraints, lowered: string, prefs: UserPreferences, generated: Option<seq<Song>>,
                              lower: string -> string)
    requires |c.releaseYearRange| == 2
    requires !c.useOnlyUserSongs && UserPool(lowered, prefs) == [] && Gradual(c.bpmRange)
    ensures var r := Assembled(c, lowered, prefs, generated, lower);
            r.Playlist? ==> AllHaveBpm(r.songs) && SortedByBpm(r.songs)
    ensures var r := Assembled(c, lowered, prefs, generated, lower);
            r.Playlist? ==>
              && generated.Some? && AllHaveBpm(generated.value)
              && var sorted := SortByBpm(generated.value);
                 && |r.songs| <= |sorted|
                 && forall k :: 0 <= k < |r.songs| ==>
                      HasKeys(sorted[k]) && r.songs[k] == Marked(sorted[k], LikedSet(prefs, lower), lower)
  {
    var r := Assembled(c, lowered, prefs, generated, lower);
    if r.Playlist? {
      var songs := generated.value;
      var sorted := SortByBpm(songs);
      SortByBpmCorrect(songs);
      var marked := MarkAll(sorted, LikedSet(prefs, lower), lower).value;
      assert r.songs == Take(marked, NumSongs(c.durationMinutes));
      assert forall k :: 0 <= k < |r.songs| ==> r.songs[k].bpm == sorted[k].bpm by {
        forall k | 0 <= k < |r.songs| ensures r.songs[k].bpm == sorted[k].bpm {
          assert r.songs[k] == marked[k];
          assert marked[k].(liked := sorted[k].liked) == sorted[k];
        }
      }
    }
  }

  /**
   * For a request as `interpret_user_query` reads it the tempo range is
   * always a list, so the sort never happens: a generated playlist is the
   * generated list in its own order, cut to `num_songs`, with `liked`
   * recomputed.
   */
  lemma GeneratedOrderKept(query: string, prefs: UserPreferences, songs: seq<Song>, lower: string -> string)
    requires var c := Interpret(query);
             !c.useOnlyUserSongs && UserPool(Lower(query), prefs) == []
    ensures var r := GeneratePlaylist(query, prefs, Some(songs), lower);
            var n := NumSongs(Interpret(query).durationMinutes);
            && (r.Playlist? <==> forall k :: 0 <= k < |songs| ==> HasKeys(songs[k]))
            && (r.Playlist? ==>
                  && |r.songs| == Min(n, |songs|)
                  && forall k :: 0 <= k < |r.songs| ==> r.songs[k] == Marked(songs[k], LikedSet(prefs, lower), lower))
  {
    var c := Interpret(query);
    assert !Gradual(c.bpmRange);
    var r := GeneratePlaylist(query, prefs, Some(songs), lower);
    var marked := MarkAll(songs, LikedSet(prefs, lower), lower);
    if marked.Some? {
      assert r.songs == Take(marked.value, NumSongs(c.durationMinutes));
      forall k | 0 <= k < |r.songs| ensures r.songs[k] == Marked(songs[k], LikedSet(prefs, lower), lower) {
        assert r.songs[k] == marked.value[k];
      }
    }
  }

  /** Every entry of a playlist has a title and an artist, whichever branch built it. */
  lemma PlaylistEntriesHaveKeys(c: Constraints, lowered: string, prefs: UserPreferences, generated: Option<seq<Song>>,
                                lower: string -> string)
    requires |c.releaseYearRange| == 2
    ensures var r := Assembled(c, lowered, prefs, generated, lower);
            r.Playlist? ==> forall k :: 0 <= k < |r.songs| ==> HasKeys(r.songs[k])
  {
    var r := Assembled(c, lowered, prefs, generated, lower);
    var pool := UserPool(lowered, prefs);
    if r.Playlist? {
      if pool != [] {
        UserPoolPlaylist(c, lowered, prefs, generated, lower);
      } else {
        GeneratedLiked(c, lowered, prefs, generated, lower);
      }
    }
  }

  /**
   * The shown total of four minutes per track (ui.py:134) never exceeds the
   * requested duration by more than two minutes, except that a playlist of
   * at most five tracks may show up to 20 minutes.
   */
  lemma PlaylistMinutesNearRequest(query: string, prefs: UserPreferences, generated: Option<seq<Song>>,
                                   lower: string -> string)
    ensures var r := GeneratePlaylist(query, prefs, generated, lower);
            var d := Interpret(query).durationMinutes;
            r.Playlist? ==> 4 * |r.songs| <= Max(4 * MinSongs, d + 2)
  {
    var c := Interpret(query);
    assert GeneratePlaylist(query, prefs, generated, lower) == Assembled(c, Lower(query), prefs, generated, lower);
  }

  /**
   * `generate_constrained_playlist` once the constraints are read
   * (music_utils.py:107-208), step by step: the `liked` loop updates the
   * entries of the parsed list in place.
   */
  method Assemble(c: Constraints, lowered: string, prefs: UserPreferences, generated: Option<seq<Song>>,
                  lower: string -> string)
    returns (r: Outcome)
    requires |c.releaseYearRange| == 2
    ensures r == Assembled(c, lowered, prefs, generated, lower)
  {
    var gradual := Gradual(c.bpmRange);
    var numSongs := NumSongs(c.durationMinutes);
    var liked := LikedSet(prefs, lower);
    var userSongs := UserPool(lowered, prefs);

    if c.useOnlyUserSongs {
      if userSongs != [] {
        var filtered := GenreFiltered(c.genres, prefs.topGenres, userSongs);
        return Playlist(UserEntries(Take(filtered, numSongs)));
      } else {
        return Failure(OnlyUserError);
      }
    }

    if userSongs != [] {
      return Playlist(UserEntries(Take(userSongs, numSongs)));
    }
    if generated.None? {
      return Failure(GenerationError);
    }
    var parsed := generated.value;
    if gradual {
      if !AllHaveBpm(parsed) {
        return Failure(GenerationError);
      }
      parsed := SortByBpm(parsed);
    }

    var playlist := new Song[|parsed|](k requires 0 <= k < |parsed| => parsed[k]);
    assert playlist[..] == parsed;
    var ok := MarkLiked(playlist, liked, lower);
    if !ok {
      return Failure(GenerationError);
    }
    r := Playlist(Take(playlist[..], numSongs));
  }

  /**
   * The `liked` loop (music_utils.py:194-195): each entry of the parsed list
   * gets its `liked` key in place. It fails at the first entry without a
   * title or an artist, leaving the entries before it marked and the rest
   * as they were.
   */
  method MarkLiked(playlist: array<Song>, liked: set<(string, string)>, lower: string -> string) returns (ok: bool)
    modifies playlist
    ensures ok <==> MarkAll(old(playlist[..]), liked, lower).Some?
    ensures ok ==> playlist[..] == MarkAll(old(playlist[..]), liked, lower).value
    ensures !ok ==> exists i ::
                      && 0 <= i < playlist.Length && !HasKeys(old(playlist[i]))
                      && MarkAll(old(playlist[..i]), liked, lower).Some?
                      && playlist[..] == MarkAll(old(playlist[..i]), liked, lower).value + old(playlist[i..])
  {
    ghost var parsed := playlist[..];
    var i := 0;
    while i < playlist.Length
      invariant 0 <= i <= playlist.Length == |parsed|
      invariant forall k :: 0 <= k < i ==> HasKeys(parsed[k]) && playlist[k] == Marked(parsed[k], liked, lower)
      invariant forall k :: i <= k < playlist.Length ==> playlist[k] == parsed[k]
    {
      var song := playlist[i];
      if song.title.None? || song.artist.None? {
        assert playlist[..i] == MarkAll(parsed[..i], liked, lower).value;
        assert playlist[..] == playlist[..i] + parsed[i..];
        return false;
      }
      playlist[i] := song.(liked := Some((lower(song.title.value), lower(song.artist.value)) in liked));
      i := i + 1;
    }
    assert playlist[..] == MarkAll(parsed, liked, lower).value;
    return true;
  }

  /** `generate_constrained_playlist(user_query)` (music_utils.py:104-208). */
  method GenerateConstrainedPlaylist(query: string, prefs: UserPreferences, generated: Option<seq<Song>>,
                                     lower: string -> string)
    returns (r: Outcome)
    ensures r == GeneratePlaylist(query, prefs, generated, lower)
    ensures r.Playlist? ==> |r.songs| <= NumSongs(Interpret(query).durationMinutes)
  {
    var constraints := Interpret(query);
    r := Assemble(constraints, Lower(query), prefs, generated, lower);
  }
}
