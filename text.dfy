/**
 * The handful of Python string operations the core relies on: substring
 * membership (`p in s`), `str.split(sep)` with its inverse `sep.join`, and
 * `str.lower()` as far as it matters for finding lower-case ASCII phrases.
 */
module Text {
  import opened Wrappers

  /** `p` occurs in `s` starting at index `i`. */
  predicate OccursAt(s: string, p: string, i: int) {
    0 <= i && i + |p| <= |s| && s[i..i + |p|] == p
  }

  /** The first index `>= k` at which `p` occurs in `s`, scanning left to right. */
  function FindFrom(s: string, p: string, k: nat): (r: Option<nat>)
    ensures r.Some? ==> k <= r.value && OccursAt(s, p, r.value)
    ensures r.Some? ==> forall j :: k <= j < r.value ==> !OccursAt(s, p, j)
    ensures r.None? ==> forall j :: k <= j ==> !OccursAt(s, p, j)
    decreases |s| - k
  {
    if k + |p| > |s| then None
    else if s[k..k + |p|] == p then Some(k)
    else FindFrom(s, p, k + 1)
  }

  /** Python's `p in s`. */
  function Contains(s: string, p: string): (r: bool)
    ensures r <==> exists i :: OccursAt(s, p, i)
  {
    FindFrom(s, p, 0).Some?
  }

  /** Python's `any(p in s for p in ps)`. */
  function ContainsAny(s: string, ps: seq<string>): (r: bool)
    ensures r <==> exists k :: 0 <= k < |ps| && Contains(s, ps[k])
  {
    if ps == [] then false else Contains(s, ps[0]) || ContainsAny(s, ps[1..])
  }

  /** A phrase cannot occur where one of its characters is missing. */
  lemma AbsentCharExcludes(s: string, p: string, c: char)
    requires c in p && c !in s
    ensures !Contains(s, p)
  {
  }

  /** An occurrence inside a prefix is an occurrence in the whole string. */
  lemma OccursInPrefix(s: string, p: string, n: nat, j: int)
    requires n <= |s|
    requires OccursAt(s[..n], p, j)
    ensures OccursAt(s, p, j)
  {
    assert s[..n][j..j + |p|] == s[j..j + |p|];
  }

  /** Occurrences in a suffix `s[d..]` are the occurrences in `s` shifted by `d`. */
  lemma OccursInSuffix(s: string, p: string, d: nat, j: int)
    requires d <= |s|
    ensures OccursAt(s[d..], p, j) <==> (0 <= j && OccursAt(s, p, d + j))
  {
    if 0 <= j && j + |p| <= |s| - d {
      assert s[d..][j..j + |p|] == s[d + j..d + j + |p|];
    }
  }

  /**
   * Python's `s.split(sep)`: cut `s` at every occurrence of `sep`, found
   * left to right without overlap.
   */
  function Split(s: string, sep: string): (pieces: seq<string>)
    requires |sep| > 0
    ensures |pieces| >= 1
    ensures Join(pieces, sep) == s
    ensures forall k :: 0 <= k < |pieces| ==> !Contains(pieces[k], sep)
  {
    JoinSplitFrom(s, sep, 0);
    SplitFromPiecesAreFree(s, sep, 0);
    SplitFrom(s, sep, 0)
  }

  /** The pieces of `s[from..]`, scanning `s` from index `from`. */
  function SplitFrom(s: string, sep: string, from: nat): (pieces: seq<string>)
    requires |sep| > 0 && from <= |s|
    ensures |pieces| >= 1
    decreases |s| - from
  {
    match FindFrom(s, sep, from)
    case None => [s[from..]]
    case Some(i) => [s[from..i]] + SplitFrom(s, sep, i + |sep|)
  }

  /** Python's `sep.join(pieces)`. */
  function Join(pieces: seq<string>, sep: string): (r: string)
    requires |pieces| >= 1
    ensures pieces[0] <= r
    ensures |pieces| > 1 ==> pieces[0] + sep <= r
    ensures |pieces[|pieces| - 1]| <= |r| && r[|r| - |pieces[|pieces| - 1]|..] == pieces[|pieces| - 1]
  {
    if |pieces| == 1 then pieces[0]
    else
      var rest := Join(pieces[1..], sep);
      assert (pieces[0] + sep + rest)[|pieces[0] + sep|..] == rest;
      pieces[0] + sep + rest
  }

  lemma {:induction false} JoinSplitFrom(s: string, sep: string, from: nat)
    requires |sep| > 0 && from <= |s|
    ensures Join(SplitFrom(s, sep, from), sep) == s[from..]
    decreases |s| - from
  {
    var found := FindFrom(s, sep, from);
    if found.None? {
      assert SplitFrom(s, sep, from) == [s[from..]];
    } else {
      var i := found.value;
      var rest := SplitFrom(s, sep, i + |sep|);
      SplitFromStep(s, sep, from, i);
      JoinSplitFrom(s, sep, i + |sep|);
      calc {
        Join(SplitFrom(s, sep, from), sep);
        Join([s[from..i]] + rest, sep);
        { JoinCons(s[from..i], rest, sep); }
        s[from..i] + sep + Join(rest, sep);
        s[from..i] + sep + s[i + |sep|..];
        { CutAround(s, sep, from, i); }
        s[from..];
      }
    }
  }

  /** Where the scan finds the separator, the split takes the text before it and goes on after it. */
  lemma SplitFromStep(s: string, sep: string, from: nat, i: nat)
    requires |sep| > 0 && from <= |s|
    requires FindFrom(s, sep, from) == Some(i)
    ensures i + |sep| <= |s|
    ensures SplitFrom(s, sep, from) == [s[from..i]] + SplitFrom(s, sep, i + |sep|)
  {
  }

  /** Joining a piece in front of more pieces puts one separator between them. */
  lemma JoinCons(head: string, rest: seq<string>, sep: string)
    requires |rest| >= 1
    ensures Join([head] + rest, sep) == head + sep + Join(rest, sep)
  {
    assert ([head] + rest)[1..] == rest;
  }

  /** A string is the text before an occurrence, the occurrence, and the text after it. */
  lemma CutAround(s: string, sep: string, from: nat, i: nat)
    requires from <= i && OccursAt(s, sep, i)
    ensures s[from..] == s[from..i] + sep + s[i + |sep|..]
  {
    assert s[from..] == s[from..i] + s[i..i + |sep|] + s[i + |sep|..];
  }

  lemma {:induction false} SplitFromPiecesAreFree(s: string, sep: string, from: nat)
    requires |sep| > 0 && from <= |s|
    ensures forall k :: 0 <= k < |SplitFrom(s, sep, from)| ==> !Contains(SplitFrom(s, sep, from)[k], sep)
    decreases |s| - from
  {
    var found := FindFrom(s, sep, from);
    if found.None? {
      RestIsFree(s, sep, from);
      assert SplitFrom(s, sep, from) == [s[from..]];
    } else {
      var i := found.value;
      var rest := SplitFrom(s, sep, i + |sep|);
      SplitFromPiecesAreFree(s, sep, i + |sep|);
      HeadIsFree(s, sep, from, i);
      SplitFromStep(s, sep, from, i);
      FreeCons(s[from..i], rest, sep);
    }
  }

  /** Putting a piece without the separator in front of such pieces keeps them all free of it. */
  lemma FreeCons(head: string, rest: seq<string>, sep: string)
    requires !Contains(head, sep)
    requires forall k :: 0 <= k < |rest| ==> !Contains(rest[k], sep)
    ensures forall k :: 0 <= k < |rest| + 1 ==> !Contains(([head] + rest)[k], sep)
  {
    forall k | 0 <= k < |rest| + 1 ensures !Contains(([head] + rest)[k], sep) {
      if k > 0 {
        assert ([head] + rest)[k] == rest[k - 1];
      }
    }
  }

  /** With no separator left from `from` on, the rest of the string holds none. */
  lemma RestIsFree(s: string, sep: string, from: nat)
    requires from <= |s| && FindFrom(s, sep, from).None?
    ensures !Contains(s[from..], sep)
  {
    forall j | OccursAt(s[from..], sep, j) ensures false {
      OccursInSuffix(s, sep, from, j);
    }
  }

  /** The text before the first separator found holds none. */
  lemma HeadIsFree(s: string, sep: string, from: nat, i: nat)
    requires |sep| > 0 && from <= |s| && FindFrom(s, sep, from) == Some(i)
    ensures !Contains(s[from..i], sep)
  {
    forall j | OccursAt(s[from..i], sep, j) ensures false {
      assert s[from..i] == s[from..][..i - from];
      OccursInPrefix(s[from..], sep, i - from, j);
      OccursInSuffix(s, sep, from, j);
    }
  }

  /**
   * The last piece of a split is the text after the last occurrence of the
   * separator that the left-to-right scan uses: no occurrence starts at or
   * after the end of that one.
   */
  lemma SplitLastPiece(s: string, sep: string) returns (k: nat)
    requires |sep| > 0
    requires Contains(s, sep)
    ensures OccursAt(s, sep, k)
    ensures forall j :: k + |sep| <= j ==> !OccursAt(s, sep, j)
    ensures Split(s, sep)[|Split(s, sep)| - 1] == s[k + |sep|..]
  {
    k := SplitFromLastPiece(s, sep, 0);
    assert Split(s, sep) == SplitFrom(s, sep, 0);
  }

  lemma {:induction false} SplitFromLastPiece(s: string, sep: string, from: nat) returns (k: nat)
    requires |sep| > 0 && from <= |s|
    requires FindFrom(s, sep, from).Some?
    ensures from <= k && OccursAt(s, sep, k)
    ensures forall j :: k + |sep| <= j ==> !OccursAt(s, sep, j)
    ensures var pieces := SplitFrom(s, sep, from); pieces[|pieces| - 1] == s[k + |sep|..]
    decreases |s| - from
  {
    var i := FindFrom(s, sep, from).value;
    var next := i + |sep|;
    var rest := SplitFrom(s, sep, next);
    SplitFromStep(s, sep, from, i);
    assert ([s[from..i]] + rest)[|rest|] == rest[|rest| - 1];
    if FindFrom(s, sep, next).Some? {
      k := SplitFromLastPiece(s, sep, next);
    } else {
      k := i;
      assert rest == [s[next..]];
    }
  }

  /**
   * The first piece of a split is everything before the first occurrence of
   * the separator, or the whole string when there is none.
   */
  lemma SplitFirstPiece(s: string, sep: string)
    requires |sep| > 0
    ensures FindFrom(s, sep, 0).None? ==> Split(s, sep)[0] == s
    ensures FindFrom(s, sep, 0).Some? ==> Split(s, sep)[0] == s[..FindFrom(s, sep, 0).value]
  {
  }

  /**
   * `str.lower()` of one character, as far as finding lower-case ASCII
   * phrases goes: ASCII capitals, the KELVIN SIGN (which lowers to `k`) and
   * LATIN CAPITAL LETTER I WITH DOT ABOVE (which lowers to `i` plus a
   * combining dot) are the only characters whose lower case contains an
   * ASCII letter; every other character is kept as it is.
   */
  function LowerChar(c: char): (r: string)
    ensures |r| >= 1 && forall k :: 0 <= k < |r| ==> IsPlain(r[k])
  {
    if 'A' <= c <= 'Z' then [(c as int + 32) as char]
    else if c == '\U{212A}' then "k"
    else if c == '\U{0130}' then "i\U{0307}"
    else [c]
  }

  /** A character that `LowerChar` leaves alone. */
  predicate IsPlain(c: char) {
    !('A' <= c <= 'Z') && c != '\U{212A}' && c != '\U{0130}'
  }

  /** Python's `s.lower()`, in the sense of `LowerChar`. */
  function Lower(s: string): (r: string)
    ensures |r| >= |s|
    ensures forall k :: 0 <= k < |r| ==> IsPlain(r[k])
  {
    if s == [] then [] else LowerChar(s[0]) + Lower(s[1..])
  }

  /** Lowering twice is lowering once. */
  lemma LowerIdempotent(s: string)
    ensures Lower(Lower(s)) == Lower(s)
  {
    LowerOfPlain(Lower(s));
  }

  /** A string without capitals is its own lower case. */
  lemma {:induction false} LowerOfPlain(s: string)
    requires forall i :: 0 <= i < |s| ==> IsPlain(s[i])
    ensures Lower(s) == s
  {
    if s != [] {
      LowerOfPlain(s[1..]);
    }
  }

  /** Lowering works character by character, so it distributes over concatenation. */
  lemma {:induction false} LowerAppend(a: string, b: string)
    ensures Lower(a + b) == Lower(a) + Lower(b)
  {
    if a != [] {
      LowerAppend(a[1..], b);
      assert (a + b)[0] == a[0] && (a + b)[1..] == a[1..] + b;
    } else {
      assert a + b == b;
    }
  }

  /**
   * A lower-case letter other than `i` and `k` is in the lowered string
   * exactly when it, or its capital, is in the original.
   */
  lemma {:induction false} LowerHasLetter(s: string, c: char)
    requires 'a' <= c <= 'z' && c != 'i' && c != 'k'
    ensures c in Lower(s) <==> c in s || (c as int - 32) as char in s
  {
    if s != [] {
      LowerHasLetter(s[1..], c);
      assert s == [s[0]] + s[1..];
      assert c in LowerChar(s[0]) <==> s[0] == c || s[0] == (c as int - 32) as char;
    }
  }
}
