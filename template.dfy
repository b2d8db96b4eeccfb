/**
 * The URL rewrite `url.replace(pattern, "YUI." + proxy)` (js/jsonp.js:46)
 * with the default pattern `/{callback}/i` (js/jsonp.js:73): the first
 * case-insensitive occurrence of `{callback}` is replaced, and nothing else.
 * The replacement is a string, so JavaScript expands its `$` patterns.
 */
module Template {
  import opened Wrappers
  import opened Arguments

  /** The placeholder the default pattern matches, in lower case. */
  const PLACEHOLDER: string := "{callback}"

  /** The case folding of a non-Unicode RegExp with the `i` flag, on the ASCII letters. */
  function Fold(ch: char): char {
    if 'A' <= ch <= 'Z' then (ch as int + 32) as char else ch
  }

  /** The default pattern matches all of `w`. */
  predicate IsPlaceholder(w: string) {
    |w| == |PLACEHOLDER| && forall k :: 0 <= k < |w| ==> Fold(w[k]) == PLACEHOLDER[k]
  }

  /**
   * The strings the default pattern accepts: each character is the
   * placeholder's own, or the upper-case form of one of its letters.
   */
  lemma IsPlaceholderCases(w: string)
    ensures IsPlaceholder(w) <==>
      && |w| == |PLACEHOLDER|
      && forall k :: 0 <= k < |w| ==>
           w[k] == PLACEHOLDER[k] || ('a' <= PLACEHOLDER[k] <= 'z' && w[k] as int == PLACEHOLDER[k] as int - 32)
  {
  }

  /** The default pattern matches the text of `url` that starts at `i`. */
  predicate MatchesAt(url: string, i: nat) {
    i + |PLACEHOLDER| <= |url| && IsPlaceholder(url[i..i + |PLACEHOLDER|])
  }

  /** The leftmost match at or after `from`, as a non-global RegExp finds it. */
  function FindFrom(url: string, from: nat): (r: Option<nat>)
    decreases |url| - from
    ensures r.Some? ==> from <= r.value && MatchesAt(url, r.value)
    ensures r.Some? ==> forall j :: from <= j < r.value ==> !MatchesAt(url, j)
    ensures r.None? ==> forall j :: from <= j ==> !MatchesAt(url, j)
  {
    if from + |PLACEHOLDER| > |url| then None
    else if MatchesAt(url, from) then Some(from)
    else FindFrom(url, from + 1)
  }

  /** The leftmost occurrence of the placeholder in `url`. */
  function FindPlaceholder(url: string): (r: Option<nat>)
    ensures r.Some? ==> r.value + |PLACEHOLDER| <= |url|
  {
    FindFrom(url, 0)
  }

  /**
   * The replacement text that `String.prototype.replace` inserts for a string
   * replacement `repl` and a pattern without capturing groups: `$$` is a
   * dollar, `$&` the matched text, `` $` `` the text before the match and `$'`
   * the text after it; any other `$` stands for itself.
   */
  function Expand(repl: string, matched: string, before: string, after: string): (r: string)
    // a replacement without `$` is inserted as it is
    ensures '$' !in repl ==> r == repl
  {
    if |repl| == 0 then ""
    else if repl[0] == '$' && |repl| >= 2 && repl[1] == '$' then
      "$" + Expand(repl[2..], matched, before, after)
    else if repl[0] == '$' && |repl| >= 2 && repl[1] == '&' then
      matched + Expand(repl[2..], matched, before, after)
    else if repl[0] == '$' && |repl| >= 2 && repl[1] == '`' then
      before + Expand(repl[2..], matched, before, after)
    else if repl[0] == '$' && |repl| >= 2 && repl[1] == '\'' then
      after + Expand(repl[2..], matched, before, after)
    else
      [repl[0]] + Expand(repl[1..], matched, before, after)
  }

  /** A match found by a pattern: the text `url[start..end]`. */
  datatype Span = Span(start: nat, end: nat)

  /** Replaces the text of `span` by the expansion of `repl`. */
  function ReplaceSpan(url: string, span: Span, repl: string): (r: string)
    requires span.start <= span.end <= |url|
    ensures '$' !in repl ==> r == url[..span.start] + repl + url[span.end..]
  {
    url[..span.start] + Expand(repl, url[span.start..span.end], url[..span.start], url[span.end..])
      + url[span.end..]
  }

  /**
   * `url.replace(/{callback}/i, repl)`: with a replacement without `$`, a URL
   * without the placeholder is unchanged, and otherwise its first occurrence
   * gives way to `repl` while the text around it is kept.
   */
  function ReplaceFirstPlaceholder(url: string, repl: string): (r: string)
    ensures '$' !in repl && FindPlaceholder(url).None? ==> r == url
    ensures '$' !in repl && FindPlaceholder(url).Some? ==>
      var i := FindPlaceholder(url).value;
      r == url[..i] + repl + url[i + |PLACEHOLDER|..]
  {
    match FindPlaceholder(url)
    case None => url
    case Some(i) => ReplaceSpan(url, Span(i, i + |PLACEHOLDER|), repl)
  }

  /**
   * With the default pattern and a replacement without `$`: a URL without the
   * placeholder is unchanged; otherwise exactly the first occurrence is
   * replaced, the text before it holds no occurrence and is kept, and the text
   * after it, later occurrences included, is kept.
   */
  lemma ReplaceFirstPlaceholderSpec(url: string, repl: string)
    requires '$' !in repl
    ensures FindPlaceholder(url).None? <==> forall j: nat :: !MatchesAt(url, j)
    ensures FindPlaceholder(url).None? ==> ReplaceFirstPlaceholder(url, repl) == url
    ensures FindPlaceholder(url).Some? ==>
      var i := FindPlaceholder(url).value;
      && MatchesAt(url, i)
      && (forall j: nat :: j < i ==> !MatchesAt(url, j))
      && ReplaceFirstPlaceholder(url, repl) == url[..i] + repl + url[i + |PLACEHOLDER|..]
  {
  }

  /**
   * After the rewrite with "YUI." + proxy, no occurrence of the placeholder
   * starts before the end of "YUI.": the occurrence that was replaced is gone
   * and no new one reaches into the inserted text from the left.
   */
  lemma PlaceholderConsumed(url: string, proxy: string)
    requires '$' !in proxy
    requires FindPlaceholder(url).Some?
    ensures forall j: nat :: j < FindPlaceholder(url).value + 4 ==>
      !MatchesAt(ReplaceFirstPlaceholder(url, "YUI." + proxy), j)
  {
    var i := FindPlaceholder(url).value;
    var repl := "YUI." + proxy;
    assert '$' !in repl by {
      assert repl[..4] == "YUI." && repl[4..] == proxy;
      forall k | 0 <= k < |repl| ensures repl[k] != '$' {
        if k >= 4 { assert repl[k] == proxy[k - 4]; }
      }
    }
    var r := ReplaceFirstPlaceholder(url, repl);
    assert r == url[..i] + repl + url[i + |PLACEHOLDER|..];
    forall j: nat | j < i + 4 ensures !MatchesAt(r, j) {
      if j + |PLACEHOLDER| <= i {
        // the window lies in the kept prefix, which holds no occurrence
        assert !MatchesAt(url, j);
        assert r[..i] == url[..i];
        assert r[j..j + |PLACEHOLDER|] == r[..i][j..j + |PLACEHOLDER|] == url[j..j + |PLACEHOLDER|];
      } else if j + |PLACEHOLDER| <= |r| && j <= i {
        // the window covers the inserted 'Y'
        var w := r[j..j + |PLACEHOLDER|];
        assert w[i - j] == r[i] == 'Y';
        assert Fold(w[i - j]) != PLACEHOLDER[i - j];
      } else if j + |PLACEHOLDER| <= |r| {
        // the window starts on the inserted 'U', 'I' or '.'
        var w := r[j..j + |PLACEHOLDER|];
        assert w[0] == r[j] == repl[j - i];
        assert Fold(w[0]) != PLACEHOLDER[0];
      }
    }
  }

  /**
   * When the URL holds exactly one placeholder and the proxy has neither `$`
   * nor `{`, the rewritten URL handed to the loader holds no placeholder.
   */
  lemma NoPlaceholderLeft(url: string, proxy: string)
    requires '$' !in proxy && '{' !in proxy
    requires FindPlaceholder(url).Some?
    requires forall j: nat :: FindPlaceholder(url).value < j ==> !MatchesAt(url, j)
    ensures forall j: nat :: !MatchesAt(ReplaceFirstPlaceholder(url, "YUI." + proxy), j)
  {
    var i := FindPlaceholder(url).value;
    var repl := "YUI." + proxy;
    assert '$' !in repl by {
      forall k | 0 <= k < |repl| ensures repl[k] != '$' {
        if k >= 4 { assert repl[k] == proxy[k - 4]; }
      }
    }
    PlaceholderConsumed(url, proxy);
    var r := ReplaceFirstPlaceholder(url, repl);
    assert r == url[..i] + repl + url[i + |PLACEHOLDER|..];
    forall j: nat | i + 4 <= j ensures !MatchesAt(r, j) {
      if j < i + |repl| {
        // the window starts on a character of the proxy, which is not '{'
        if j + |PLACEHOLDER| <= |r| {
          var w := r[j..j + |PLACEHOLDER|];
          assert w[0] == r[j] == proxy[j - i - 4];
          assert Fold(w[0]) != PLACEHOLDER[0];
        }
      } else {
        // the window lies in the kept suffix, which holds no occurrence
        var j' := j - |repl| + |PLACEHOLDER|;
        assert !MatchesAt(url, j');
        if j + |PLACEHOLDER| <= |r| {
          assert r[j..j + |PLACEHOLDER|] == url[j'..j' + |PLACEHOLDER|];
        }
      }
    }
  }

  /** A caller's RegExp, abstracted as the leftmost match it finds in a URL, if any. */
  type Matcher = (PatId, string) -> Option<Span>

  /** Every match a matcher reports lies inside the URL it searched. */
  ghost predicate MatcherValid(find: Matcher) {
    forall id, url :: find(id, url).Some? ==> find(id, url).value.start <= find(id, url).value.end <= |url|
  }

  /** `url.replace(pattern, repl)` for the pattern chosen by the normalisation. */
  function Rewrite(pattern: PatternRef, url: string, repl: string, find: Matcher): (r: string)
    requires MatcherValid(find)
    ensures pattern.Placeholder? ==> r == ReplaceFirstPlaceholder(url, repl)
    ensures pattern.Custom? && find(pattern.id, url).None? ==> r == url
    ensures pattern.Custom? && find(pattern.id, url).Some? && '$' !in repl ==>
      var span := find(pattern.id, url).value;
      r == url[..span.start] + repl + url[span.end..]
  {
    match pattern
    case Placeholder => ReplaceFirstPlaceholder(url, repl)
    case Custom(id) =>
      match find(id, url)
      case None => url
      case Some(span) => ReplaceSpan(url, span, repl)
  }
}
