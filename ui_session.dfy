/**
 * The page state of ui.py: `st.session_state`, a dictionary that survives
 * the reruns of the page script, and the steps that change it: the
 * defaults set on every run (ui.py:31-33), the login with the redirected
 * URL (ui.py:46-62), storing a generated playlist with one album cover and
 * one track URI per song (ui.py:106-128), the total duration shown
 * (ui.py:132-134) and the "new request" reset (ui.py:165-170).
 *
 * The Spotify token exchange, the current-user lookup and the track search
 * are network calls; they are parameters here.
 */
module UiSession {
  import opened Wrappers
  import opened AuthCode
  import opened PlaylistGeneration

  /** A value stored in `st.session_state`. */
  datatype Value =
    | Null
    | Flag(flag: bool)
    | TokenInfo(accessToken: string)
    | UserInfo(displayName: string)
    | Tracks(songs: seq<Song>)
    | Covers(urls: seq<string>)
    | Uris(uris: seq<Option<string>>)
    | Lines(lines: seq<string>)

  /** The first track `sp.search(..., type="track", limit=1)` finds: its album's image URLs and its URI. */
  datatype SearchHit = SearchHit(albumImages: seq<string>, uri: string)

  /**
   * What one call of `sp.search` does: it raises (a network or API error,
   * which nothing on the page catches), or answers with its first track, if
   * any.
   */
  datatype SearchResult = Raised | Answered(hit: Option<SearchHit>)

  /** The track an answer carries; a raise carries none. */
  function HitOf(r: SearchResult): Option<SearchHit> {
    if r.Answered? then r.hit else None
  }

  const SessionKeys := ["authenticated", "token_info", "user_info", "favorites_loaded", "playlist",
                        "album_covers", "track_uris", "data_cached", "show_auth", "user_switched"]
  const FalseByDefault := ["authenticated", "data_cached"]
  const PlaceholderCover := "https://via.placeholder.com/200"
  const MinutesPerTrack := 4

  /** The default of a session key (ui.py:33): `False` for the two flags, `None` for the rest. */
  function DefaultValue(key: string): (v: Value)
    ensures v == Flag(false) <==> key == "authenticated" || key == "data_cached"
    ensures v != Flag(false) ==> v == Null
  {
    if key in FalseByDefault then Flag(false) else Null
  }

  /**
   * Python truthiness of a stored value: `None` is false, a flag is itself,
   * the token and user dictionaries are non-empty, a list is true when it
   * has an element.
   */
  function Truthy(v: Value): (b: bool)
    ensures v == Null ==> !b
    ensures v.Flag? ==> b == v.flag
    ensures v.TokenInfo? || v.UserInfo? ==> b
    ensures v.Tracks? ==> (b <==> |v.songs| > 0)
  {
    match v
    case Null => false
    case Flag(b) => b
    case TokenInfo(_) => true
    case UserInfo(_) => true
    case Tracks(songs) => songs != []
    case Covers(urls) => urls != []
    case Uris(uris) => uris != []
    case Lines(lines) => lines != []
  }

  /** `f"{song['title']} {song['artist']}"`, the search text for a song (ui.py:119). */
  function SearchText(song: Song): (text: string)
    requires HasKeys(song)
    ensures var title := song.title.value;
            && |text| == |title| + 1 + |song.artist.value|
            && text[..|title|] == title && text[|title|] == ' ' && text[|title| + 1..] == song.artist.value
  {
    song.title.value + " " + song.artist.value
  }

  /** The cover shown for a song: the first album image of the hit, else the placeholder (ui.py:120-126). */
  function CoverOf(hit: Option<SearchHit>): (url: string)
    ensures url == PlaceholderCover || (hit.Some? && url in hit.value.albumImages)
    ensures hit.Some? && hit.value.albumImages != [] ==> url == hit.value.albumImages[0]
    ensures hit.None? ==> url == PlaceholderCover
  {
    if hit.Some? && hit.value.albumImages != [] then hit.value.albumImages[0] else PlaceholderCover
  }

  /** The URI saved for a song: the hit's, else `None` (ui.py:124,127). */
  function UriOf(hit: Option<SearchHit>): (uri: Option<string>)
    ensures uri.Some? <==> hit.Some?
    ensures uri.Some? ==> uri.value == hit.value.uri
  {
    if hit.Some? then Some(hit.value.uri) else None
  }

  /**
   * How many songs, in playlist order, are searched before the first search
   * that raises: all of them when none raises.
   */
  function Searched(songs: seq<Song>, search: string -> SearchResult): (n: nat)
    requires forall k :: 0 <= k < |songs| ==> HasKeys(songs[k])
    ensures n <= |songs|
    ensures forall k :: 0 <= k < n ==> search(SearchText(songs[k])).Answered?
    ensures n < |songs| ==> search(SearchText(songs[n])).Raised?
  {
    if songs == [] || search(SearchText(songs[0])).Raised? then 0
    else 1 + Searched(songs[1..], search)
  }

  /** The answers before index `i`, and a raise at `i` or the end of the list there, fix the count. */
  lemma SearchedIs(songs: seq<Song>, search: string -> SearchResult, i: nat)
    requires forall k :: 0 <= k < |songs| ==> HasKeys(songs[k])
    requires i <= |songs| && forall k :: 0 <= k < i ==> search(SearchText(songs[k])).Answered?
    requires i < |songs| ==> search(SearchText(songs[i])).Raised?
    ensures Searched(songs, search) == i
  {
  }

  /**
   * The stored cover and URI lists have one entry per song exactly when no
   * search raises; otherwise the page later reads past their end
   * (`album_covers[i]`, ui.py:140).
   */
  lemma ListsCompleteUnlessRaised(songs: seq<Song>, search: string -> SearchResult)
    requires forall k :: 0 <= k < |songs| ==> HasKeys(songs[k])
    ensures var n := Searched(songs, search);
            (|AlbumCovers(songs[..n], search)| == |songs| && |TrackUris(songs[..n], search)| == |songs|) <==>
            forall k :: 0 <= k < |songs| ==> search(SearchText(songs[k])).Answered?
  {
  }

  /** One cover per song, in playlist order. */
  function AlbumCovers(songs: seq<Song>, search: string -> SearchResult): (covers: seq<string>)
    requires forall k :: 0 <= k < |songs| ==> HasKeys(songs[k])
    ensures |covers| == |songs|
    ensures forall k :: 0 <= k < |songs| ==> covers[k] == CoverOf(HitOf(search(SearchText(songs[k]))))
  {
    seq(|songs|, k requires 0 <= k < |songs| && HasKeys(songs[k]) => CoverOf(HitOf(search(SearchText(songs[k])))))
  }

  /** One URI (or `None`) per song, in playlist order. */
  function TrackUris(songs: seq<Song>, search: string -> SearchResult): (uris: seq<Option<string>>)
    requires forall k :: 0 <= k < |songs| ==> HasKeys(songs[k])
    ensures |uris| == |songs|
    ensures forall k :: 0 <= k < |songs| ==> uris[k] == UriOf(HitOf(search(SearchText(songs[k]))))
  {
    seq(|songs|, k requires 0 <= k < |songs| && HasKeys(songs[k]) => UriOf(HitOf(search(SearchText(songs[k])))))
  }

  /** Searching one more song appends its cover and its URI. */
  lemma SearchResultsStep(songs: seq<Song>, i: nat, search: string -> SearchResult)
    requires i < |songs| && forall k :: 0 <= k < |songs| ==> HasKeys(songs[k])
    ensures AlbumCovers(songs[..i + 1], search) ==
            AlbumCovers(songs[..i], search) + [CoverOf(HitOf(search(SearchText(songs[i]))))]
    ensures TrackUris(songs[..i + 1], search) ==
            TrackUris(songs[..i], search) + [UriOf(HitOf(search(SearchText(songs[i]))))]
  {
    assert songs[..i + 1][i] == songs[i];
    assert forall k :: 0 <= k < i ==> songs[..i + 1][k] == songs[..i][k];
  }

  /** Storing both lists again replaces what was stored for them before. */
  lemma ListsReplaced(base: map<string, Value>, covers: Value, uris: Value, covers': Value, uris': Value)
    ensures base["album_covers" := covers]["track_uris" := uris]["album_covers" := covers']["track_uris" := uris'] ==
            base["album_covers" := covers']["track_uris" := uris']
  {
  }

  class Session {
    /** `st.session_state`. */
    var state: map<string, Value>

    /** The state a rerun of the page starts from. */
    constructor(initial: map<string, Value>)
      ensures state == initial
    {
      state := initial;
    }

    /** Fills in the keys the page expects, keeping every value already there (ui.py:31-33). */
    method InitDefaults()
      modifies this
      ensures forall key :: key in state <==> key in old(state) || key in SessionKeys
      ensures forall key :: key in old(state) ==> state[key] == old(state)[key]
      ensures forall key :: key in SessionKeys && key !in old(state) ==> state[key] == DefaultValue(key)
    {
      var i := 0;
      while i < |SessionKeys|
        invariant 0 <= i <= |SessionKeys|
        invariant forall key :: key in state <==> key in old(state) || key in SessionKeys[..i]
        invariant forall key :: key in old(state) ==> state[key] == old(state)[key]
        invariant forall key :: key in SessionKeys[..i] && key !in old(state) ==> state[key] == DefaultValue(key)
      {
        var key := SessionKeys[i];
        if key !in state {
          state := state[key := DefaultValue(key)];
        }
        assert SessionKeys[..i + 1] == SessionKeys[..i] + [key];
        i := i + 1;
      }
      assert SessionKeys[..|SessionKeys|] == SessionKeys;
    }

    /**
     * The "Authenticate" button (ui.py:46-62). `exchanged` is the code handed
     * to the token exchange: none when the URL has no `code=`. `exchange`
     * gives the access token for a code, or `None` when the exchange raises;
     * `currentUser` is the display name, or `None` when that lookup raises
     * after the token has been stored.
     */
    method Authenticate(redirectedUrl: string, exchange: string -> Option<string>, currentUser: Option<string>)
      returns (exchanged: Option<string>)
      modifies this
      ensures exchanged == ExtractCode(redirectedUrl)
      ensures exchanged.None? ==> state == old(state)
      ensures exchanged.Some? && exchange(exchanged.value).None? ==> state == old(state)
      ensures exchanged.Some? && exchange(exchanged.value).Some? ==>
                var signedIn := old(state)["token_info" := TokenInfo(exchange(exchanged.value).value)]
                                          ["authenticated" := Flag(true)]["user_switched" := Flag(true)];
                state == if currentUser.Some?
                         then signedIn["user_info" := UserInfo(currentUser.value)]["data_cached" := Flag(false)]
                         else signedIn
    {
      exchanged := ExtractCode(redirectedUrl);
      if exchanged.None? {
        return;
      }
      var tokenInfo := exchange(exchanged.value);
      if tokenInfo.None? {
        return;
      }
      state := state["token_info" := TokenInfo(tokenInfo.value)];
      state := state["authenticated" := Flag(true)];
      state := state["user_switched" := Flag(true)];
      if currentUser.None? {
        return;
      }
      state := state["user_info" := UserInfo(currentUser.value)];
      state := state["data_cached" := Flag(false)];
    }

    /**
     * The answer of the playlist endpoint reaches the page (ui.py:111-128).
     * `response` is `None` for a non-200 status; an error answer has no
     * `playlist` key and changes nothing. Otherwise the playlist is stored,
     * the reasoning list is empty (the endpoint sends none), and every song
     * is searched for in playlist order, giving one cover and one URI each.
     * A search that raises ends the run there (`raised`): the playlist stays
     * stored with the covers and URIs of the songs before it only, so the
     * lists are shorter than the playlist.
     */
    method ShowGenerated(response: Option<Outcome>, search: string -> SearchResult) returns (raised: bool)
      requires response.Some? && response.value.Playlist? ==>
                 forall k :: 0 <= k < |response.value.songs| ==> HasKeys(response.value.songs[k])
      modifies this
      ensures response.None? || response.value.Failure? ==> state == old(state) && !raised
      ensures response.Some? && response.value.Playlist? ==>
                var songs := response.value.songs;
                var n := Searched(songs, search);
                && (raised <==> n < |songs|)
                && state == old(state)["playlist" := Tracks(songs)]["debug_info" := Lines([])]
                                      ["album_covers" := Covers(AlbumCovers(songs[..n], search))]
                                      ["track_uris" := Uris(TrackUris(songs[..n], search))]
    {
      raised := false;
      if response.None? || response.value.Failure? {
        return;
      }
      var songs := response.value.songs;
      state := state["playlist" := Tracks(songs)];
      state := state["debug_info" := Lines([])];
      ghost var base := state;
      state := state["album_covers" := Covers([])];
      state := state["track_uris" := Uris([])];
      var covers: seq<string> := [];
      var uris: seq<Option<string>> := [];
      var i := 0;
      while i < |songs|
        invariant 0 <= i <= |songs|
        invariant forall k :: 0 <= k < i ==> search(SearchText(songs[k])).Answered?
        invariant covers == AlbumCovers(songs[..i], search) && uris == TrackUris(songs[..i], search)
        invariant state == base["album_covers" := Covers(covers)]["track_uris" := Uris(uris)]
      {
        ghost var (covers0, uris0) := (covers, uris);
        var answer := search(SearchText(songs[i]));
        if answer.Raised? {
          SearchedIs(songs, search, i);
          raised := true;
          return;
        }
        var hit := answer.hit;
        SearchResultsStep(songs, i, search);
        if hit.Some? {
          var cover := if hit.value.albumImages != [] then hit.value.albumImages[0] else PlaceholderCover;
          covers := covers + [cover];
          uris := uris + [Some(hit.value.uri)];
        } else {
          covers := covers + [PlaceholderCover];
          uris := uris + [None];
        }
        ListsReplaced(base, Covers(covers0), Uris(uris0), Covers(covers), Uris(uris));
        state := state["album_covers" := Covers(covers)];
        state := state["track_uris" := Uris(uris)];
        i := i + 1;
      }
      SearchedIs(songs, search, i);
      assert songs[..i] == songs;
    }

    /**
     * The total shown under "Generated Playlist" (ui.py:132-135): four
     * minutes per track, shown only when logged in with a non-empty
     * playlist.
     */
    function DisplayedDuration(): (minutes: Option<int>)
      reads this
      ensures minutes.Some? <==>
                && "authenticated" in state && Truthy(state["authenticated"])
                && "playlist" in state && state["playlist"].Tracks? && state["playlist"].songs != []
      ensures minutes.Some? ==> minutes.value == MinutesPerTrack * |state["playlist"].songs|
      ensures minutes.Some? ==> minutes.value >= MinutesPerTrack
    {
      if "authenticated" in state && Truthy(state["authenticated"])
         && "playlist" in state && state["playlist"].Tracks? && state["playlist"].songs != []
      then Some(MinutesPerTrack * |state["playlist"].songs|)
      else None
    }

    /** "Make a New Playlist Request" (ui.py:165-170): the playlist is dropped and its lists emptied. */
    method NewRequest()
      modifies this
      ensures state == old(state)["playlist" := Null]["album_covers" := Covers([])]
                                 ["track_uris" := Uris([])]["debug_info" := Lines([])]
      ensures DisplayedDuration().None?
    {
      state := state["playlist" := Null];
      state := state["album_covers" := Covers([])];
      state := state["track_uris" := Uris([])];
      state := state["debug_info" := Lines([])];
    }
  }

  /** A playlist the generator returns can always be searched for: every entry has a title and an artist. */
  lemma GeneratedPlaylistIsSearchable(query: string, prefs: UserPreferences, generated: Option<seq<Song>>,
                                         lower: string -> string)
    ensures var r := GeneratePlaylist(query, prefs, generated, lower);
            r.Playlist? ==> forall k :: 0 <= k < |r.songs| ==> HasKeys(r.songs[k])
  {
    PlaylistEntriesHaveKeys(QueryInterpretation.Interpret(query), Text.Lower(query), prefs, generated, lower);
  }
}
