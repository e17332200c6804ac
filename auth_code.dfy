/**
 * The authorisation code taken from the URL Spotify redirects to after
 * login (ui.py:47-49): the text after the last `code=`, cut at the first
 * `&` that follows.
 */
module AuthCode {
  import opened Wrappers
  import opened Text

  const CodeMarker := "code="
  const ParamSeparator := "&"

  /**
   * `redirected_url.split("code=")[-1].split("&")[0]`, or `None` when the
   * URL has no `code=` and is rejected (ui.py:47,61-62).
   */
  function ExtractCode(url: string): (code: Option<string>)
    ensures code.None? <==> !Contains(url, CodeMarker)
    ensures code.Some? ==> !Contains(code.value, ParamSeparator)
  {
    if !Contains(url, CodeMarker) then None
    else
      var pieces := Split(url, CodeMarker);
      var tail := pieces[|pieces| - 1];
      Some(Split(tail, ParamSeparator)[0])
  }

  /**
   * The code is read from the text after the last `code=`: it is a prefix
   * of that text, the whole of it when no `&` follows, and otherwise ends
   * exactly where the first `&` begins.
   */
  lemma CodeAfterLastMarker(url: string)
    requires Contains(url, CodeMarker)
    ensures exists k :: OccursAt(url, CodeMarker, k)
              && (forall j :: k + |CodeMarker| <= j ==> !OccursAt(url, CodeMarker, j))
              && var tail := url[k + |CodeMarker|..];
                 var code := ExtractCode(url).value;
                 && code <= tail
                 && (!Contains(tail, ParamSeparator) ==> code == tail)
                 && (Contains(tail, ParamSeparator) ==> OccursAt(tail, ParamSeparator, |code|))
  {
    var k := SplitLastPiece(url, CodeMarker);
    var tail := url[k + |CodeMarker|..];
    assert Split(url, CodeMarker)[|Split(url, CodeMarker)| - 1] == tail;
    SplitFirstPiece(tail, ParamSeparator);
    var code := ExtractCode(url).value;
    assert code == Split(tail, ParamSeparator)[0];
    assert OccursAt(url, CodeMarker, k);
  }

  /** A typical redirect: the code sits between `code=` and the next parameter. */
  lemma ExtractCodeExample(url: string)
    requires url == "?code=ab&s=1"
    ensures ExtractCode(url) == Some("ab")
  {
    ExampleMarkerSplit(url);
    var tail := url[6..];
    assert tail == "ab&s=1";
    ExampleSeparatorSplit(tail);
  }

  lemma ExampleMarkerSplit(url: string)
    requires url == "?code=ab&s=1"
    ensures Split(url, CodeMarker) == [url[..1], url[6..]]
  {
    assert url[0..5] != CodeMarker && url[1..6] == CodeMarker;
    assert FindFrom(url, CodeMarker, 0) == Some(1);
    assert url[6..11] != CodeMarker by {
      assert url[6..11][0] == 'a' && CodeMarker[0] == 'c';
    }
    assert url[7..12] != CodeMarker by {
      assert url[7..12][0] == 'b' && CodeMarker[0] == 'c';
    }
    assert FindFrom(url, CodeMarker, 6) == None;
    SplitFromStep(url, CodeMarker, 0, 1);
    assert SplitFrom(url, CodeMarker, 6) == [url[6..]];
    assert Split(url, CodeMarker) == SplitFrom(url, CodeMarker, 0);
  }

  lemma ExampleSeparatorSplit(tail: string)
    requires tail == "ab&s=1"
    ensures Split(tail, ParamSeparator)[0] == "ab"
  {
    assert tail[0..1] != ParamSeparator by {
      assert tail[0..1][0] == 'a' && ParamSeparator[0] == '&';
    }
    assert tail[1..2] != ParamSeparator by {
      assert tail[1..2][0] == 'b' && ParamSeparator[0] == '&';
    }
    assert tail[2..3] == ParamSeparator by {
      assert tail[2] == '&' && |ParamSeparator| == 1 && ParamSeparator[0] == '&';
    }
    assert FindFrom(tail, ParamSeparator, 2) == Some(2);
    assert FindFrom(tail, ParamSeparator, 1) == Some(2);
    assert FindFrom(tail, ParamSeparator, 0) == Some(2);
  }

  /** A redirect without `code=` is rejected. */
  lemma MissingCodeExample(url: string)
    requires url == "?state=1"
    ensures ExtractCode(url) == None
  {
    AbsentCharExcludes(url, CodeMarker, 'o');
  }
}
