/**
 * `interpret_user_query` (music_utils.py:62-101): the deterministic
 * heuristics that turn a free-text playlist request into a constraints
 * record.
 */
module QueryInterpretation {
  import opened Wrappers
  import opened Text
  import opened DurationPattern

  /**
   * `bpm_range` as the playlist step reads it: either a two-element list or
   * a dictionary that may ask for a gradual increase. The heuristics here
   * only ever build the list.
   */
  datatype BpmRange = BpmList(bounds: seq<int>) | BpmDict(gradualIncrease: bool, start: int, end: int)

  datatype Constraints = Constraints(
    durationMinutes: int,
    bpmRange: BpmRange,
    genres: seq<string>,
    releaseYearRange: seq<int>,
    moodConstraints: seq<string>,
    useOnlyUserSongs: bool)

  const DefaultDuration := 60
  const DefaultBpmRange := BpmList([60, 130])
  const DefaultReleaseYears := [2019, 2024]
  const AnyGenre := ["any"]

  const CinematicKeywords := ["movie", "soundtrack", "cinematic"]
  const CinematicGenres := ["orchestral", "cinematic", "electronic", "synthwave", "ambient"]
  const CinematicMoods := ["epic", "dramatic", "adventurous"]
  const CalmKeywords := ["relax", "stress"]
  const CalmGenres := ["lofi", "chill", "ambient", "soft rock", "indie"]
  const CalmMoods := ["calm", "peaceful", "soothing"]
  const OnlyUserPhrases := ["only my liked songs", "only my favorites", "only my top tracks", "only my favourite songs"]

  /** The minutes the leftmost `<number><ws><unit>` match gives, if the query has one (lines 64-68). */
  function ExtractedDuration(query: string): (r: Option<int>)
    ensures r.None? <==> forall i: nat, m :: !IsMatchAt(query, i, m)
    ensures r.Some? ==> r.value >= 0
  {
    var found := Search(query);
    if found.None? then None else Some(MinutesOf(found.value))
  }

  /** The scenario keyword defaults, first match wins (lines 70-76). */
  function ScenarioDuration(lowered: string): (r: Option<int>)
    ensures r.None? <==> !Contains(lowered, "car ride") && !Contains(lowered, "workout") && !Contains(lowered, "study session")
    ensures r == Some(45) <==> Contains(lowered, "car ride")
    ensures r == Some(60) <==> !Contains(lowered, "car ride") && Contains(lowered, "workout")
    ensures r.Some? ==> r.value == 45 || r.value == 60 || r.value == 90
  {
    if Contains(lowered, "car ride") then Some(45)
    else if Contains(lowered, "workout") then Some(60)
    else if Contains(lowered, "study session") then Some(90)
    else None
  }

  /** Theme-based genres and moods (lines 78-85); empty lists when no theme applies. */
  function Theme(lowered: string): (r: (seq<string>, seq<string>))
    ensures r.0 == [] <==> r.1 == []
    ensures r.0 == [] <==> !ContainsAny(lowered, CinematicKeywords) && !ContainsAny(lowered, CalmKeywords)
    ensures ContainsAny(lowered, CinematicKeywords) ==> r == (CinematicGenres, CinematicMoods)
    ensures r.0 != [] ==> "ambient" in r.0
  {
    if ContainsAny(lowered, CinematicKeywords) then (CinematicGenres, CinematicMoods)
    else if ContainsAny(lowered, CalmKeywords) then (CalmGenres, CalmMoods)
    else ([], [])
  }

  /** `interpret_user_query(user_query)`. */
  function Interpret(query: string): (c: Constraints)
    ensures c.durationMinutes >= 1
    ensures c.bpmRange == BpmList([60, 130]) && c.releaseYearRange == [2019, 2024]
    ensures c.genres != []
  {
    var lowered := Lower(query);
    var extracted := ExtractedDuration(query);
    var duration := if extracted.None? then ScenarioDuration(lowered) else extracted;
    var (genres, moods) := Theme(lowered);
    Constraints(
      durationMinutes := if duration.Some? && duration.value != 0 then duration.value else DefaultDuration,
      bpmRange := DefaultBpmRange,
      genres := if genres != [] then genres else AnyGenre,
      releaseYearRange := DefaultReleaseYears,
      moodConstraints := moods,
      useOnlyUserSongs := ContainsAny(lowered, OnlyUserPhrases))
  }

  /**
   * Precedence of the duration sources: an explicit duration match wins
   * (and a match that truncates to 0 falls back to 60 without consulting
   * the scenario keywords); without a match the keywords are tried in the
   * order car ride, workout, study session; otherwise 60.
   */
  lemma DurationPrecedence(query: string)
    ensures var d := Interpret(query).durationMinutes;
            var l := Lower(query);
            match ExtractedDuration(query)
            case Some(v) => d == (if v == 0 then 60 else v)
            case None =>
              d == (if Contains(l, "car ride") then 45
                    else if Contains(l, "workout") then 60
                    else if Contains(l, "study session") then 90
                    else 60)
  {
  }

  /** An explicit positive duration is used whatever scenario keywords the query also has. */
  lemma ExplicitDurationSuppressesScenarios(q1: string, q2: string)
    requires ExtractedDuration(q1) == ExtractedDuration(q2) && ExtractedDuration(q1).Some?
    ensures Interpret(q1).durationMinutes == Interpret(q2).durationMinutes
  {
  }

  /**
   * Genres and moods: the cinematic lists when a cinematic keyword occurs,
   * else the calm lists when a calm keyword occurs, else `["any"]` and no
   * moods.
   */
  lemma ThemeSelection(query: string)
    ensures var c := Interpret(query);
            var l := Lower(query);
            var cinematic := Contains(l, "movie") || Contains(l, "soundtrack") || Contains(l, "cinematic");
            var calm := Contains(l, "relax") || Contains(l, "stress");
            && (cinematic ==> c.genres == CinematicGenres && c.moodConstraints == CinematicMoods)
            && (!cinematic && calm ==> c.genres == CalmGenres && c.moodConstraints == CalmMoods)
            && (!cinematic && !calm ==> c.genres == ["any"] && c.moodConstraints == [])
  {
    var l := Lower(query);
    assert ContainsAny(l, CinematicKeywords) <==>
      (Contains(l, "movie") || Contains(l, "soundtrack") || Contains(l, "cinematic")) by {
      assert CinematicKeywords[0] == "movie" && CinematicKeywords[1] == "soundtrack" && CinematicKeywords[2] == "cinematic";
    }
    assert ContainsAny(l, CalmKeywords) <==> (Contains(l, "relax") || Contains(l, "stress")) by {
      assert CalmKeywords[0] == "relax" && CalmKeywords[1] == "stress";
    }
  }

  /** Only-user mode is requested exactly by one of the four phrases, in any letter case (lines 87-89). */
  lemma OnlyUserSongsPhrases(query: string)
    ensures var l := Lower(query);
            Interpret(query).useOnlyUserSongs <==>
              || Contains(l, "only my liked songs")
              || Contains(l, "only my favorites")
              || Contains(l, "only my top tracks")
              || Contains(l, "only my favourite songs")
  {
    var l := Lower(query);
    assert OnlyUserPhrases[0] == "only my liked songs" && OnlyUserPhrases[1] == "only my favorites";
    assert OnlyUserPhrases[2] == "only my top tracks" && OnlyUserPhrases[3] == "only my favourite songs";
    assert ContainsAny(l, OnlyUserPhrases) <==> exists k :: 0 <= k < 4 && Contains(l, OnlyUserPhrases[k]);
  }

  /**
   * "45 minute workout": the explicit 45 minutes win over the workout
   * default, no theme applies, and only-user mode is off.
   */
  lemma WorkoutExample(q: string)
    requires q == "45 minute workout"
    ensures var c := Interpret(q);
            && c.durationMinutes == 45
            && c.genres == ["any"] && c.moodConstraints == []
            && !c.useOnlyUserSongs
  {
    WorkoutDuration(q);
    DurationPrecedence(q);
    WorkoutTheme(q);
    WorkoutNotOnlyUser(q);
  }

  lemma WorkoutTheme(q: string)
    requires q == "45 minute workout"
    ensures Interpret(q).genres == ["any"] && Interpret(q).moodConstraints == []
  {
    WorkoutLacksThemeLetters(q);
    NoThemeLetters(q);
  }

  lemma WorkoutLacksThemeLetters(q: string)
    requires q == "45 minute workout"
    ensures 'a' !in q && 'A' !in q && 'v' !in q && 'V' !in q && 's' !in q && 'S' !in q
  {
  }

  lemma WorkoutNotOnlyUser(q: string)
    requires q == "45 minute workout"
    ensures !Interpret(q).useOnlyUserSongs
  {
    assert 'y' !in q && 'Y' !in q;
    NoOnlyUserLetters(q);
  }

  /** Every theme keyword has an `a`, a `v` or an `s`: a query without them, in either case, gets no theme. */
  lemma NoThemeLetters(q: string)
    requires 'a' !in q && 'A' !in q && 'v' !in q && 'V' !in q && 's' !in q && 'S' !in q
    ensures Interpret(q).genres == ["any"] && Interpret(q).moodConstraints == []
  {
    var l := Lower(q);
    LowerHasLetter(q, 'a');
    LowerHasLetter(q, 'v');
    LowerHasLetter(q, 's');
    forall k | 0 <= k < |CinematicKeywords| ensures !Contains(l, CinematicKeywords[k]) {
      if k == 0 {
        AbsentCharExcludes(l, CinematicKeywords[k], CinematicKeywords[k][2]);
      } else if k == 1 {
        AbsentCharExcludes(l, CinematicKeywords[k], CinematicKeywords[k][7]);
      } else {
        AbsentCharExcludes(l, CinematicKeywords[k], CinematicKeywords[k][5]);
      }
    }
    forall k | 0 <= k < |CalmKeywords| ensures !Contains(l, CalmKeywords[k]) {
      if k == 0 {
        AbsentCharExcludes(l, CalmKeywords[k], CalmKeywords[k][3]);
      } else {
        AbsentCharExcludes(l, CalmKeywords[k], CalmKeywords[k][0]);
      }
    }
  }

  /** Every only-user phrase has a `y`: a query without one, in either case, does not ask for only-user mode. */
  lemma NoOnlyUserLetters(q: string)
    requires 'y' !in q && 'Y' !in q
    ensures !Interpret(q).useOnlyUserSongs
  {
    var l := Lower(q);
    LowerHasLetter(q, 'y');
    forall k | 0 <= k < |OnlyUserPhrases| ensures !Contains(l, OnlyUserPhrases[k]) {
      AbsentCharExcludes(l, OnlyUserPhrases[k], OnlyUserPhrases[k][3]);
    }
  }

  lemma WorkoutDuration(q: string)
    requires q == "45 minute workout"
    ensures ExtractedDuration(q) == Some(45)
  {
    var m := DurationMatch("45", "", " ", Min);
    WorkoutMatch(q);
    DurationOfFirstMatch(q, 0, m);
    TwoDigitMinutes(m);
  }

  lemma WorkoutMatch(q: string)
    requires q == "45 minute workout"
    ensures IsMatchAt(q, 0, DurationMatch("45", "", " ", Min))
  {
    assert WordAt(q, 3, "min") by {
      assert q[3] == 'm' && q[4] == 'i' && q[5] == 'n';
    }
  }

  /** A match at the text's first digit gives the extracted duration. */
  lemma DurationOfFirstMatch(q: string, i: nat, m: DurationMatch)
    requires IsMatchAt(q, i, m)
    requires forall k :: 0 <= k < i ==> !IsDigit(q[k])
    ensures ExtractedDuration(q) == Some(MinutesOf(m))
  {
    SearchFindsFirstDigit(q, i, m);
  }

  /**
   * "cinematic 20 minute soundtrack playlist": 20 minutes from the explicit
   * duration, and the cinematic genres and moods.
   */
  lemma CinematicExample(q: string)
    requires q == "cinematic 20 minute soundtrack playlist"
    ensures var c := Interpret(q);
            && c.durationMinutes == 20
            && c.genres == ["orchestral", "cinematic", "electronic", "synthwave", "ambient"]
            && c.moodConstraints == ["epic", "dramatic", "adventurous"]
  {
    CinematicDuration(q);
    DurationPrecedence(q);
    CinematicTheme(q);
  }

  lemma CinematicTheme(q: string)
    requires q == "cinematic 20 minute soundtrack playlist"
    ensures Interpret(q).genres == CinematicGenres && Interpret(q).moodConstraints == CinematicMoods
  {
    var word := CinematicKeywords[2];
    assert word <= q by {
      assert q[..9] == word;
    }
    PlainPrefixKept(q, word);
  }

  /** A query that starts with a phrase without capitals contains that phrase once lowered. */
  lemma PlainPrefixKept(q: string, word: string)
    requires word <= q
    requires forall i :: 0 <= i < |word| ==> IsPlain(word[i])
    ensures Contains(Lower(q), word)
  {
    var rest := q[|word|..];
    assert q == word + rest;
    LowerAppend(word, rest);
    LowerOfPlain(word);
    assert OccursAt(Lower(q), word, 0);
  }

  lemma CinematicDuration(q: string)
    requires q == "cinematic 20 minute soundtrack playlist"
    ensures ExtractedDuration(q) == Some(20)
  {
    var m := DurationMatch("20", "", " ", Min);
    CinematicMatch(q);
    CinematicDigitsStartAt10(q);
    DurationOfFirstMatch(q, 10, m);
    TwoDigitMinutes(m);
  }

  lemma CinematicMatch(q: string)
    requires q == "cinematic 20 minute soundtrack playlist"
    ensures IsMatchAt(q, 10, DurationMatch("20", "", " ", Min))
  {
    CinematicNumber(q);
    CinematicUnit(q);
  }

  lemma CinematicNumber(q: string)
    requires q == "cinematic 20 minute soundtrack playlist"
    ensures q[10..12] == "20" && q[12..13] == " "
  {
    assert q[10] == '2' && q[11] == '0' && q[12] == ' ';
  }

  lemma CinematicUnit(q: string)
    requires q == "cinematic 20 minute soundtrack playlist"
    ensures WordAt(q, 13, "min")
  {
    assert q[13] == 'm' && q[14] == 'i' && q[15] == 'n';
  }

  lemma CinematicDigitsStartAt10(q: string)
    requires q == "cinematic 20 minute soundtrack playlist"
    ensures forall k :: 0 <= k < 10 ==> !IsDigit(q[k])
  {
    assert q[..10] == "cinematic ";
  }

  /** "0.5 min" truncates to 0 minutes, which falls back to the 60-minute default. */
  lemma ZeroMinutesExample(q: string)
    requires q == "0.5 min"
    ensures Interpret(q).durationMinutes == 60
  {
    var m := DurationMatch("0", "5", " ", Min);
    ZeroMinutesMatch(q);
    DurationOfFirstMatch(q, 0, m);
    assert MinutesOf(m) == 0 by {
      assert m.whole[..0] == "";
    }
    DurationPrecedence(q);
  }

  lemma ZeroMinutesMatch(q: string)
    requires q == "0.5 min"
    ensures IsMatchAt(q, 0, DurationMatch("0", "5", " ", Min))
  {
    assert q[0] == '0' && q[1] == '.' && q[2] == '5' && q[3] == ' ';
    assert WordAt(q, 4, "min") by {
      assert q[4] == 'm' && q[5] == 'i' && q[6] == 'n';
    }
  }
}
