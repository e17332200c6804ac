/**
 * The duration pattern of music_utils.py:64,
 *
 *     (\d+(\.\d+)?)\s*(hour|hr|min|minutes)      searched case-insensitively,
 *
 * as a left-to-right scanner (`MatchAt`, `FirstMatchIndex`) together with a
 * declarative description of what the pattern matches (`IsMatchAt`). The
 * scanner is proved sound and complete against that description, so the
 * greedy scan is what the backtracking engine finds.
 */
module DurationPattern {
  import opened Wrappers

  /** `\d`, for ASCII digits. */
  predicate IsDigit(c: char) {
    '0' <= c <= '9'
  }

  /** `\s` for Python `str` patterns: the characters `str.isspace()` accepts. */
  function IsSpace(c: char): (b: bool)
    ensures c < '\U{0080}' ==> (b <==> '\U{0009}' <= c <= '\U{000D}' || '\U{001C}' <= c <= ' ')
    ensures b ==> !IsDigit(c) && !('a' <= c <= 'z') && !('A' <= c <= 'Z')
  {
    if c <= ' ' then '\U{0009}' <= c <= '\U{000D}' || '\U{001C}' <= c
    else if c < '\U{0085}' then false
    else IsWideSpace(c)
  }

  /** The whitespace characters beyond ASCII. */
  predicate IsWideSpace(c: char) {
    || c == '\U{0085}' || c == '\U{00A0}' || c == '\U{1680}'
    || '\U{2000}' <= c <= '\U{200A}'
    || c == '\U{2028}' || c == '\U{2029}' || c == '\U{202F}'
    || c == '\U{205F}' || c == '\U{3000}'
  }

  /**
   * Case-insensitive match of the text character `c` against the lower-case
   * pattern letter `l`. Under `re.IGNORECASE` the letter `i` also matches
   * DOTLESS I and CAPITAL I WITH DOT ABOVE. Python also lets `s` match LONG S
   * (U+017F) and `k` match the KELVIN SIGN; those two are left out because
   * no unit word has a `k`, and `s` occurs only in `minutes`, which never
   * wins over `min` (`UnitNeverMinutes`), so no search result depends on
   * them. A `minutes` spelt with a long s is thus not a match of the
   * pattern described here, but the text still matches `min` there.
   */
  function LetterMatches(c: char, l: char): (b: bool)
    requires 'a' <= l <= 'z'
    ensures c == l || c as int == l as int - 32 ==> b
    ensures b && l != 'i' ==> c == l || c as int == l as int - 32
    ensures b && c as int >= 128 ==> l == 'i'
  {
    c == l || c as int == l as int - 32 || (l == 'i' && (c == '\U{0130}' || c == '\U{0131}'))
  }

  predicate IsLowerWord(w: string) {
    forall k :: 0 <= k < |w| ==> 'a' <= w[k] <= 'z'
  }

  /** The lower-case word `w` occurs at index `i` of `s`, ignoring case. */
  predicate WordAt(s: string, i: nat, w: string)
    requires IsLowerWord(w)
  {
    i + |w| <= |s| && forall k :: 0 <= k < |w| ==> LetterMatches(s[i + k], w[k])
  }

  /** The four alternatives of the unit group, in the order the pattern tries them. */
  datatype Unit = Hour | Hr | Min | Minutes

  function UnitWord(u: Unit): (w: string)
    ensures IsLowerWord(w) && |w| >= 2
  {
    match u
    case Hour => "hour"
    case Hr => "hr"
    case Min => "min"
    case Minutes => "minutes"
  }

  /** The first alternative of the unit group that matches at `w`. */
  function UnitAt(s: string, w: nat): (r: Option<Unit>)
    ensures r.None? <==>
              !WordAt(s, w, "hour") && !WordAt(s, w, "hr") && !WordAt(s, w, "min") && !WordAt(s, w, "minutes")
  {
    if WordAt(s, w, "hour") then Some(Hour)
    else if WordAt(s, w, "hr") then Some(Hr)
    else if WordAt(s, w, "min") then Some(Min)
    else if WordAt(s, w, "minutes") then Some(Minutes)
    else None
  }

  /** The unit is the first alternative, in the order the pattern lists them, whose word occurs. */
  lemma UnitAtFirstAlternative(s: string, w: nat)
    ensures UnitAt(s, w) == Some(Hour) <==> WordAt(s, w, "hour")
    ensures UnitAt(s, w) == Some(Hr) <==> !WordAt(s, w, "hour") && WordAt(s, w, "hr")
    ensures UnitAt(s, w) == Some(Min) <==> !WordAt(s, w, "hour") && !WordAt(s, w, "hr") && WordAt(s, w, "min")
    ensures UnitAt(s, w) == Some(Minutes) <==>
              !WordAt(s, w, "hour") && !WordAt(s, w, "hr") && !WordAt(s, w, "min") && WordAt(s, w, "minutes")
  {
  }

  /** The alternative `UnitAt` reports really is present. */
  lemma UnitAtSound(s: string, w: nat)
    requires UnitAt(s, w).Some?
    ensures WordAt(s, w, UnitWord(UnitAt(s, w).value))
  {
  }

  /** Because `min` is tried before `minutes`, the unit group never captures `minutes`. */
  lemma UnitNeverMinutes(s: string, w: nat)
    ensures UnitAt(s, w) != Some(Minutes)
  {
    if WordAt(s, w, "minutes") {
      assert WordAt(s, w, "min") by {
        forall k | 0 <= k < 3 ensures LetterMatches(s[w + k], "min"[k]) {
          assert "min"[k] == "minutes"[k];
        }
      }
    }
  }

  /** End of the longest run of digits starting at `i`. */
  function DigitRun(s: string, i: nat): (j: nat)
    requires i <= |s|
    ensures i <= j <= |s|
    ensures forall k :: i <= k < j ==> IsDigit(s[k])
    ensures j == |s| || !IsDigit(s[j])
    decreases |s| - i
  {
    if i < |s| && IsDigit(s[i]) then DigitRun(s, i + 1) else i
  }

  /** End of the longest run of whitespace starting at `i`. */
  function SpaceRun(s: string, i: nat): (j: nat)
    requires i <= |s|
    ensures i <= j <= |s|
    ensures forall k :: i <= k < j ==> IsSpace(s[k])
    ensures j == |s| || !IsSpace(s[j])
    decreases |s| - i
  {
    if i < |s| && IsSpace(s[i]) then SpaceRun(s, i + 1) else i
  }

  /**
   * One match of the pattern: group 1 is `whole` followed, when `fraction`
   * is not empty, by `.` and `fraction`; `gap` is what `\s*` consumed;
   * `unit` is the alternative group 3 captured.
   */
  datatype DurationMatch = DurationMatch(whole: string, fraction: string, gap: string, unit: Unit)


  /** End of the optional `(\.\d+)?` group starting at `j`. */
  function FractionEnd(s: string, j: nat): (k: nat)
    requires j <= |s|
    ensures j <= k <= |s|
    ensures k != j <==> j + 1 < |s| && s[j] == '.' && IsDigit(s[j + 1])
    ensures k != j ==> k > j + 1 && s[j] == '.' && forall t :: j + 1 <= t < k ==> IsDigit(s[t])
    ensures k != j ==> k == |s| || !IsDigit(s[k])
  {
    if j + 1 < |s| && s[j] == '.' && IsDigit(s[j + 1]) then DigitRun(s, j + 1) else j
  }

  /**
   * The match read off the scanner's positions: digits from `i` to `j`,
   * the fraction after the dot up to `k` (if any), whitespace up to `w`.
   */
  function Scanned(s: string, i: nat, j: nat, k: nat, w: nat, u: Unit): DurationMatch
    requires i <= j <= k <= w <= |s| && (k != j ==> j + 1 <= k)
  {
    DurationMatch(s[i..j], if k == j then [] else s[j + 1..k], s[k..w], u)
  }

  /** The match the pattern makes when the search tries start index `i`. */
  function MatchAt(s: string, i: nat): (r: Option<DurationMatch>)
    ensures r.Some? ==> i < |s| && IsDigit(s[i]) && r.value.whole != [] && r.value.whole <= s[i..]
  {
    if i < |s| && IsDigit(s[i]) then
      var j := DigitRun(s, i);
      var k := FractionEnd(s, j);
      var w := SpaceRun(s, k);
      match UnitAt(s, w)
      case None => None
      case Some(u) => Some(Scanned(s, i, j, k, w, u))
    else None
  }

  predicate AllDigits(t: string) {
    forall k :: 0 <= k < |t| ==> IsDigit(t[k])
  }

  predicate AllSpaces(t: string) {
    forall k :: 0 <= k < |t| ==> IsSpace(t[k])
  }

  /** Where group 1 ends when `m` is matched from index `i`. */
  function NumberEnd(i: nat, m: DurationMatch): nat {
    i + |m.whole| + (if m.fraction == [] then 0 else 1 + |m.fraction|)
  }

  /** What the pattern denotes: `m` is a way of matching it at index `i` of `s`. */
  ghost predicate IsMatchAt(s: string, i: nat, m: DurationMatch) {
    var a := i + |m.whole|;
    var b := NumberEnd(i, m);
    var w := b + |m.gap|;
    && |m.whole| > 0 && AllDigits(m.whole) && AllDigits(m.fraction) && AllSpaces(m.gap)
    && w <= |s|
    && s[i..a] == m.whole
    && (m.fraction != [] ==> s[a] == '.' && s[a + 1..b] == m.fraction)
    && s[b..w] == m.gap
    && WordAt(s, w, UnitWord(m.unit))
  }

  /** The scanner only reports genuine matches. */
  lemma {:induction false} MatchAtSound(s: string, i: nat)
    requires MatchAt(s, i).Some?
    ensures IsMatchAt(s, i, MatchAt(s, i).value)
  {
    var j := DigitRun(s, i);
    var k := FractionEnd(s, j);
    var w := SpaceRun(s, k);
    var u := UnitAt(s, w).value;
    MatchAtUnfold(s, i, j, k, w, u);
    UnitAtSound(s, w);
    SliceAllDigits(s, i, j);
    if k != j {
      SliceAllDigits(s, j + 1, k);
    }
    SliceAllSpaces(s, k, w);
    ScannedIsMatch(s, i, j, k, w, u);
  }

  /** The parts the scanner cuts out, with a unit word after them, form a match. */
  lemma ScannedIsMatch(s: string, i: nat, j: nat, k: nat, w: nat, u: Unit)
    requires i < j <= k <= w <= |s| && (k != j ==> j + 1 < k && s[j] == '.')
    requires AllDigits(s[i..j]) && (k != j ==> AllDigits(s[j + 1..k])) && AllSpaces(s[k..w])
    requires WordAt(s, w, UnitWord(u))
    ensures IsMatchAt(s, i, Scanned(s, i, j, k, w, u))
  {
    var m := Scanned(s, i, j, k, w, u);
    assert NumberEnd(i, m) == k;
    assert AllDigits(m.fraction);
  }

  lemma SliceAllDigits(s: string, i: nat, j: nat)
    requires i <= j <= |s| && forall k :: i <= k < j ==> IsDigit(s[k])
    ensures AllDigits(s[i..j])
  {
    forall t | 0 <= t < j - i ensures IsDigit(s[i..j][t]) {
      assert s[i..j][t] == s[i + t];
    }
  }

  lemma SliceAllSpaces(s: string, i: nat, j: nat)
    requires i <= j <= |s| && forall k :: i <= k < j ==> IsSpace(s[k])
    ensures AllSpaces(s[i..j])
  {
    forall t | 0 <= t < j - i ensures IsSpace(s[i..j][t]) {
      assert s[i..j][t] == s[i + t];
    }
  }

  /** A pattern letter never matches a digit, a space or a dot. */
  lemma LetterIsNotSeparator(c: char, l: char)
    requires 'a' <= l <= 'z'
    requires LetterMatches(c, l)
    ensures !IsDigit(c) && !IsSpace(c) && c != '.'
  {
  }

  lemma {:induction false} DigitRunStops(s: string, i: nat, n: nat)
    requires i + n <= |s|
    requires forall k :: i <= k < i + n ==> IsDigit(s[k])
    requires i + n == |s| || !IsDigit(s[i + n])
    ensures DigitRun(s, i) == i + n
    decreases n
  {
    if n > 0 {
      DigitRunStops(s, i + 1, n - 1);
    }
  }

  lemma {:induction false} SpaceRunStops(s: string, i: nat, n: nat)
    requires i + n <= |s|
    requires forall k :: i <= k < i + n ==> IsSpace(s[k])
    requires i + n == |s| || !IsSpace(s[i + n])
    ensures SpaceRun(s, i) == i + n
    decreases n
  {
    if n > 0 {
      SpaceRunStops(s, i + 1, n - 1);
    }
  }

  /** The unit alternative the engine picks when the word of `u` is present at `w`. */
  function Picked(u: Unit): Unit {
    if u == Minutes then Min else u
  }

  lemma UnitAtPicks(s: string, w: nat, u: Unit)
    requires WordAt(s, w, UnitWord(u))
    ensures UnitAt(s, w) == Some(Picked(u))
  {
    match u
    case Hour =>
    case Hr =>
      assert LetterMatches(s[w + 1], "hr"[1]);
      assert !LetterMatches(s[w + 1], "hour"[1]);
    case Min =>
      assert LetterMatches(s[w + 0], "min"[0]);
      assert !LetterMatches(s[w + 0], "hour"[0]) && !LetterMatches(s[w + 0], "hr"[0]);
    case Minutes =>
      assert LetterMatches(s[w + 0], "minutes"[0]);
      assert !LetterMatches(s[w + 0], "hour"[0]) && !LetterMatches(s[w + 0], "hr"[0]);
      UnitNeverMinutes(s, w);
  }

  /**
   * Every way of matching the pattern at `i` is found by the scanner, and it
   * is the only way up to the `min`/`minutes` choice, which the engine
   * resolves in favour of `min`.
   */
  lemma {:induction false} MatchAtComplete(s: string, i: nat, m: DurationMatch)
    requires IsMatchAt(s, i, m)
    ensures MatchAt(s, i) == Some(m.(unit := Picked(m.unit)))
  {
    var a := i + |m.whole|;
    var b := NumberEnd(i, m);
    var w := b + |m.gap|;
    MatchRunsEnd(s, i, m);
    MatchAtUnfold(s, i, a, b, w, Picked(m.unit));
    MatchFields(s, i, m);
  }

  /** The scanner's runs stop exactly where the parts of a match end. */
  lemma {:induction false} MatchRunsEnd(s: string, i: nat, m: DurationMatch)
    requires IsMatchAt(s, i, m)
    ensures i < |s| && IsDigit(s[i])
    ensures DigitRun(s, i) == i + |m.whole|
    ensures FractionEnd(s, i + |m.whole|) == NumberEnd(i, m)
    ensures SpaceRun(s, NumberEnd(i, m)) == NumberEnd(i, m) + |m.gap|
    ensures UnitAt(s, NumberEnd(i, m) + |m.gap|) == Some(Picked(m.unit))
  {
    WholeIsMaximal(s, i, m);
    FractionIsMaximal(s, i, m);
    GapIsMaximal(s, i, m);
    UnitAtPicks(s, NumberEnd(i, m) + |m.gap|, m.unit);
    assert IsDigit(s[i]) by {
      assert s[i] == m.whole[0];
    }
  }

  /** The slices the scanner takes are the parts of the match. */
  lemma {:induction false} MatchFields(s: string, i: nat, m: DurationMatch)
    requires IsMatchAt(s, i, m)
    ensures var a := i + |m.whole|;
            var b := NumberEnd(i, m);
            var w := b + |m.gap|;
            Scanned(s, i, a, b, w, Picked(m.unit)) == m.(unit := Picked(m.unit))
  {
    FractionIsMaximal(s, i, m);
  }

  lemma {:induction false} MatchAtUnfold(s: string, i: nat, j: nat, k: nat, w: nat, u: Unit)
    requires i < |s| && IsDigit(s[i])
    requires j == DigitRun(s, i) && k == FractionEnd(s, j) && w == SpaceRun(s, k) && UnitAt(s, w) == Some(u)
    ensures MatchAt(s, i) == Some(Scanned(s, i, j, k, w, u))
  {
  }

  /** The character where the unit word of a match starts is a letter. */
  lemma {:induction false} UnitStartsWithLetter(s: string, i: nat, m: DurationMatch)
    requires IsMatchAt(s, i, m)
    ensures var w := NumberEnd(i, m) + |m.gap|;
            w < |s| && !IsDigit(s[w]) && !IsSpace(s[w]) && s[w] != '.'
  {
    var w := NumberEnd(i, m) + |m.gap|;
    var word := UnitWord(m.unit);
    assert LetterMatches(s[w], word[0]);
    LetterIsNotSeparator(s[w], word[0]);
  }

  /** In a match, the character after group 1 is a space or the unit's first letter. */
  lemma {:induction false} AfterNumber(s: string, i: nat, m: DurationMatch)
    requires IsMatchAt(s, i, m)
    ensures var b := NumberEnd(i, m);
            b < |s| && !IsDigit(s[b]) && s[b] != '.'
  {
    var b := NumberEnd(i, m);
    var w := b + |m.gap|;
    UnitStartsWithLetter(s, i, m);
    if m.gap != [] {
      assert s[b] == m.gap[0];
    }
  }

  lemma {:induction false} WholeIsMaximal(s: string, i: nat, m: DurationMatch)
    requires IsMatchAt(s, i, m)
    ensures DigitRun(s, i) == i + |m.whole|
  {
    var a := i + |m.whole|;
    forall t | i <= t < a ensures IsDigit(s[t]) {
      assert s[t] == m.whole[t - i];
    }
    AfterNumber(s, i, m);
    DigitRunStops(s, i, |m.whole|);
  }

  lemma {:induction false} FractionIsMaximal(s: string, i: nat, m: DurationMatch)
    requires IsMatchAt(s, i, m)
    ensures FractionEnd(s, i + |m.whole|) == NumberEnd(i, m)
    ensures m.fraction != [] ==> s[i + |m.whole| + 1..NumberEnd(i, m)] == m.fraction
  {
    var a := i + |m.whole|;
    var b := NumberEnd(i, m);
    AfterNumber(s, i, m);
    if m.fraction != [] {
      forall t | a + 1 <= t < b ensures IsDigit(s[t]) {
        assert s[t] == m.fraction[t - a - 1];
      }
      DigitRunStops(s, a + 1, |m.fraction|);
    }
  }

  lemma {:induction false} GapIsMaximal(s: string, i: nat, m: DurationMatch)
    requires IsMatchAt(s, i, m)
    ensures SpaceRun(s, NumberEnd(i, m)) == NumberEnd(i, m) + |m.gap|
  {
    var b := NumberEnd(i, m);
    var w := b + |m.gap|;
    forall t | b <= t < w ensures IsSpace(s[t]) {
      assert s[t] == m.gap[t - b];
    }
    UnitStartsWithLetter(s, i, m);
    SpaceRunStops(s, b, |m.gap|);
  }

  /** The leftmost start index `>= from` at which the pattern matches (what `re.search` finds). */
  function FirstMatchIndex(s: string, from: nat): (r: Option<nat>)
    ensures r.Some? ==> from <= r.value < |s| && MatchAt(s, r.value).Some?
    ensures r.Some? ==> forall k :: from <= k < r.value ==> MatchAt(s, k).None?
    ensures r.None? ==> forall k :: from <= k ==> MatchAt(s, k).None?
    decreases |s| - from
  {
    if from >= |s| then None
    else if MatchAt(s, from).Some? then Some(from)
    else FirstMatchIndex(s, from + 1)
  }

  /** `re.search` of the pattern over the whole string. */
  function Search(s: string): (r: Option<DurationMatch>)
    ensures r.None? <==> forall i: nat, m :: !IsMatchAt(s, i, m)
    ensures r.Some? ==> AllDigits(r.value.whole) && AllDigits(r.value.fraction)
  {
    var idx := FirstMatchIndex(s, 0);
    if idx.Some? then
      MatchAtSound(s, idx.value);
      MatchAt(s, idx.value)
    else
      assert forall i: nat, m :: !IsMatchAt(s, i, m) by {
        forall i: nat, m | IsMatchAt(s, i, m) ensures false {
          MatchAtComplete(s, i, m);
        }
      }
      None
  }

  /** The match `Search` returns is a match at the leftmost index where any match exists. */
  lemma {:induction false} SearchIsLeftmost(s: string)
    requires Search(s).Some?
    ensures exists i: nat :: IsMatchAt(s, i, Search(s).value)
                          && forall j: nat, m :: j < i ==> !IsMatchAt(s, j, m)
  {
    var i := FirstMatchIndex(s, 0).value;
    MatchAtSound(s, i);
    forall j: nat, m | j < i && IsMatchAt(s, j, m) ensures false {
      MatchAtComplete(s, j, m);
    }
  }

  lemma {:induction false} FirstMatchIndexSkips(s: string, from: nat, i: nat)
    requires from <= i && MatchAt(s, i).Some?
    requires forall k :: from <= k < i ==> !IsDigit(s[k])
    ensures FirstMatchIndex(s, from) == Some(i)
  {
    forall k | from <= k < i ensures MatchAt(s, k).None? {
      NoMatchAtNonDigit(s, k);
    }
    FirstMatchIndexIs(s, from, i);
  }

  /** The first index with a match is the one before which no index has one. */
  lemma FirstMatchIndexIs(s: string, from: nat, i: nat)
    requires from <= i && MatchAt(s, i).Some?
    requires forall k :: from <= k < i ==> MatchAt(s, k).None?
    ensures FirstMatchIndex(s, from) == Some(i)
  {
    var r := FirstMatchIndex(s, from);
    assert r.Some?;
    assert !(r.value < i);
    assert !(r.value > i);
  }

  /** The pattern starts with a digit, so no match starts anywhere else. */
  lemma NoMatchAtNonDigit(s: string, k: nat)
    requires k < |s| && !IsDigit(s[k])
    ensures MatchAt(s, k).None?
  {
  }

  /**
   * A match that starts at the first digit of the text is the one `re.search`
   * reports (with `min` chosen over `minutes`).
   */
  lemma {:induction false} SearchFindsFirstDigit(s: string, i: nat, m: DurationMatch)
    requires IsMatchAt(s, i, m)
    requires forall k :: 0 <= k < i ==> !IsDigit(s[k])
    ensures Search(s) == Some(m.(unit := Picked(m.unit)))
  {
    MatchAtComplete(s, i, m);
    FirstMatchIndexSkips(s, 0, i);
  }

  /** Value of a string of decimal digits. */
  function DigitsValue(t: string): (v: nat)
    requires AllDigits(t)
  {
    if t == [] then 0 else DigitsValue(t[..|t| - 1]) * 10 + (t[|t| - 1] as int - '0' as int)
  }

  /** A minute count of two digits, read as a decimal number. */
  lemma TwoDigitMinutes(m: DurationMatch)
    requires m.unit == Min && |m.whole| == 2 && AllDigits(m.whole) && AllDigits(m.fraction)
    ensures MinutesOf(m) == 10 * (m.whole[0] as int - '0' as int) + (m.whole[1] as int - '0' as int)
  {
    var first := m.whole[..1];
    assert first[..0] == [] && first[0] == m.whole[0];
    assert DigitsValue(first) == m.whole[0] as int - '0' as int;
    assert m.whole[..|m.whole| - 1] == first;
  }

  function Pow10(n: nat): (p: nat)
    ensures p >= 1
  {
    if n == 0 then 1 else 10 * Pow10(n - 1)
  }

  /**
   * `int(float(group1) * 60)` when group 3 contains `hour`, else
   * `int(float(group1))`, in exact decimal arithmetic: the value of group 1
   * is `whole + fraction / 10^|fraction|` and `int` truncates, which for a
   * non-negative number is the floor.
   */
  function MinutesOf(m: DurationMatch): (minutes: int)
    requires AllDigits(m.whole) && AllDigits(m.fraction)
    ensures minutes >= 0
  {
    if m.unit == Hour then
      var x, d := Scaled(m) * 60, Pow10(|m.fraction|);
      assert x / d >= 0 by {
        DivNonnegative(x, d);
      }
      x / d
    else DigitsValue(m.whole)
  }

  lemma DivNonnegative(x: int, d: int)
    requires x >= 0 && d > 0
    ensures x / d >= 0
  {
  }

  /** Group 1 as a whole number of units of `10^-|fraction|`. */
  function Scaled(m: DurationMatch): (n: int)
    requires AllDigits(m.whole) && AllDigits(m.fraction)
    ensures n >= 0
  {
    var a, b := DigitsValue(m.whole), Pow10(|m.fraction|);
    assert a * b >= 0 by {
      MulNonnegative(a, b);
    }
    a * b + DigitsValue(m.fraction)
  }

  lemma MulNonnegative(a: int, b: int)
    requires a >= 0 && b >= 0
    ensures a * b >= 0
  {
  }

  /** Minutes taken from an hour count are the floor of 60 times the exact value of group 1. */
  lemma HourMinutesAreFloor(m: DurationMatch)
    requires AllDigits(m.whole) && AllDigits(m.fraction) && m.unit == Hour
    ensures MinutesOf(m) * Pow10(|m.fraction|) <= Scaled(m) * 60 < (MinutesOf(m) + 1) * Pow10(|m.fraction|)
  {
    var x, d := Scaled(m) * 60, Pow10(|m.fraction|);
    var q, r := x / d, x % d;
    assert x == q * d + r && 0 <= r < d;
    assert (q + 1) * d == q * d + d;
  }

  /** A string of `n` digits is worth less than `10^n`. */
  lemma {:induction false} DigitsBelow(t: string)
    requires AllDigits(t)
    ensures DigitsValue(t) < Pow10(|t|)
  {
    if t != [] {
      DigitsBelow(t[..|t| - 1]);
    }
  }

  /**
   * Minutes taken from an `hr`, `min` or `minutes` count are the floor of
   * the exact value of group 1: `int` drops the fraction.
   */
  lemma NonHourIsFloor(m: DurationMatch)
    requires AllDigits(m.whole) && AllDigits(m.fraction) && m.unit != Hour
    ensures MinutesOf(m) * Pow10(|m.fraction|) <= Scaled(m) < (MinutesOf(m) + 1) * Pow10(|m.fraction|)
  {
    DigitsBelow(m.fraction);
  }

  /** "45 min workout": the number and the unit word, with one space between. */
  lemma MinutesExample(s: string)
    requires s == "45 min workout"
    ensures Search(s) == Some(DurationMatch("45", "", " ", Min))
    ensures MinutesOf(DurationMatch("45", "", " ", Min)) == 45
  {
    var m := DurationMatch("45", "", " ", Min);
    MinutesMatch(s);
    SearchFindsFirstDigit(s, 0, m);
    TwoDigitMinutes(m);
  }

  lemma MinutesMatch(s: string)
    requires s == "45 min workout"
    ensures IsMatchAt(s, 0, DurationMatch("45", "", " ", Min))
  {
    assert WordAt(s, 3, "min") by {
      assert s[3] == 'm' && s[4] == 'i' && s[5] == 'n';
    }
  }

  /** "2 hours": `hour` matches inside `hours`, and the hours become minutes. */
  lemma HoursExample(s: string)
    requires s == "2 hours"
    ensures Search(s) == Some(DurationMatch("2", "", " ", Hour))
    ensures MinutesOf(DurationMatch("2", "", " ", Hour)) == 120
  {
    var m := DurationMatch("2", "", " ", Hour);
    HoursMatch(s);
    SearchFindsFirstDigit(s, 0, m);
    assert "2"[..0] == "";
    assert Scaled(m) == 2;
  }

  lemma HoursMatch(s: string)
    requires s == "2 hours"
    ensures IsMatchAt(s, 0, DurationMatch("2", "", " ", Hour))
  {
    assert WordAt(s, 2, "hour") by {
      assert s[2] == 'h' && s[3] == 'o' && s[4] == 'u' && s[5] == 'r';
    }
  }

  /** "1.5hr": only the word `hour` converts, so `hr` takes the number as minutes, truncated. */
  lemma HrExample(s: string)
    requires s == "1.5hr"
    ensures Search(s) == Some(DurationMatch("1", "5", "", Hr))
    ensures MinutesOf(DurationMatch("1", "5", "", Hr)) == 1
  {
    var m := DurationMatch("1", "5", "", Hr);
    HrMatch(s);
    SearchFindsFirstDigit(s, 0, m);
    assert "1"[..0] == "";
  }

  lemma HrMatch(s: string)
    requires s == "1.5hr"
    ensures IsMatchAt(s, 0, DurationMatch("1", "5", "", Hr))
  {
    assert s[0] == '1' && s[1] == '.' && s[2] == '5';
    assert WordAt(s, 3, "hr") by {
      assert s[3] == 'h' && s[4] == 'r';
    }
  }

  /** "0.5 HOUR": case is ignored and half an hour is 30 minutes. */
  lemma HalfHourExample(s: string)
    requires s == "0.5 HOUR"
    ensures Search(s) == Some(DurationMatch("0", "5", " ", Hour))
    ensures MinutesOf(DurationMatch("0", "5", " ", Hour)) == 30
  {
    var m := DurationMatch("0", "5", " ", Hour);
    HalfHourMatch(s);
    SearchFindsFirstDigit(s, 0, m);
    HalfHourMinutes(m);
  }

  lemma HalfHourMinutes(m: DurationMatch)
    requires m == DurationMatch("0", "5", " ", Hour)
    ensures MinutesOf(m) == 30
  {
    assert DigitsValue(m.whole) == 0 && DigitsValue(m.fraction) == 5 by {
      assert m.whole[..0] == "" && m.fraction[..0] == "";
    }
    assert Pow10(|m.fraction|) == 10;
    assert Scaled(m) == 5;
  }

  lemma HalfHourMatch(s: string)
    requires s == "0.5 HOUR"
    ensures IsMatchAt(s, 0, DurationMatch("0", "5", " ", Hour))
  {
    assert s[0] == '0' && s[1] == '.' && s[2] == '5' && s[3] == ' ';
    assert WordAt(s, 4, "hour") by {
      assert s[4] == 'H' && s[5] == 'O' && s[6] == 'U' && s[7] == 'R';
    }
  }

  /** "go 3 minutes": the search skips to the first digit, and `min` is the alternative chosen. */
  lemma MinutesWordExample(s: string)
    requires s == "go 3 minutes"
    ensures Search(s) == Some(DurationMatch("3", "", " ", Min))
  {
    var m := DurationMatch("3", "", " ", Minutes);
    MinutesWordMatch(s);
    assert s[0] == 'g' && s[1] == 'o' && s[2] == ' ';
    SearchFindsFirstDigit(s, 3, m);
  }

  lemma MinutesWordMatch(s: string)
    requires s == "go 3 minutes"
    ensures IsMatchAt(s, 3, DurationMatch("3", "", " ", Minutes))
  {
    assert s[3] == '3' && s[4] == ' ';
    assert WordAt(s, 5, "minutes") by {
      assert s[5] == 'm' && s[6] == 'i' && s[7] == 'n' && s[8] == 'u';
      assert s[9] == 't' && s[10] == 'e' && s[11] == 's';
    }
  }
}
