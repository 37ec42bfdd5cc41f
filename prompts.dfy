/** Prompt templates: frontmatter stripping, placeholder extraction and validation. The Go
    regexps are modelled by their leftmost-first matching; the template engine is a parameter. */
module Prompts {
  import opened Wrappers
  import opened Text
  import opened Values
  import opened Seqs

  // ---------------------------------------------------------------------------
  // Character runs

  /** The length of the run of regexp white space (`\s`) starting at `i`. */
  function SpaceRun(s: string, i: nat): (n: nat)
    requires i <= |s|
    ensures i + n <= |s|
    ensures forall k :: i <= k < i + n ==> IsRegexSpace(s[k])
    ensures i + n < |s| ==> !IsRegexSpace(s[i + n])
    decreases |s| - i
  {
    if i < |s| && IsRegexSpace(s[i]) then 1 + SpaceRun(s, i + 1) else 0
  }

  /** The length of the run of word characters (`\w`) starting at `i`. */
  function WordRun(s: string, i: nat): (n: nat)
    requires i <= |s|
    ensures i + n <= |s|
    ensures forall k :: i <= k < i + n ==> IsWordChar(s[k])
    ensures i + n < |s| ==> !IsWordChar(s[i + n])
    decreases |s| - i
  {
    if i < |s| && IsWordChar(s[i]) then 1 + WordRun(s, i + 1) else 0
  }

  /** The length of the line starting at `i`: the characters before the next '\n'. */
  function LineLength(s: string, i: nat): (n: nat)
    requires i <= |s|
    ensures i + n <= |s| && '\n' !in s[i..i + n]
    ensures i + n < |s| ==> s[i + n] == '\n'
    decreases |s| - i
  {
    if i < |s| && s[i] != '\n' then
      var n := 1 + LineLength(s, i + 1);
      assert s[i..i + n] == [s[i]] + s[i + 1..i + n];
      n
    else 0
  }

  predicate AllRegexSpace(w: string) {
    forall k :: 0 <= k < |w| ==> IsRegexSpace(w[k])
  }

  /** A variable name: one or more word characters. */
  predicate IsIdentifier(w: string) {
    w != [] && forall k :: 0 <= k < |w| ==> IsWordChar(w[k])
  }

  // ---------------------------------------------------------------------------
  // GetVariables: the pattern \{\{\s*\.(\w+)\s*\}\}

  /** The placeholder text for variable `name`, with the white space it allows. */
  predicate PlaceholderText(m: string, ws1: string, name: string, ws2: string) {
    && AllRegexSpace(ws1) && AllRegexSpace(ws2) && IsIdentifier(name)
    && m == "{{" + ws1 + "." + name + ws2 + "}}"
  }

  /** The match of the placeholder pattern starting at `i`: the captured name and where the match ends. */
  function PlaceholderAt(s: string, i: nat): (r: Option<(string, nat)>)
    requires i <= |s|
    ensures r.Some? ==> i < r.value.1 <= |s| && IsIdentifier(r.value.0)
  {
    if i + 2 <= |s| && s[i] == '{' && s[i + 1] == '{' then
      var a := i + 2 + SpaceRun(s, i + 2);
      if a < |s| && s[a] == '.' then
        var w := WordRun(s, a + 1);
        var b := a + 1 + w;
        var c := b + SpaceRun(s, b);
        if w > 0 && c + 2 <= |s| && s[c] == '}' && s[c + 1] == '}' then Some((s[a + 1..b], c + 2))
        else None
      else None
    else None
  }

  lemma SliceSplit(s: string, i: nat, j: nat, k: nat)
    requires i <= j <= k <= |s|
    ensures s[i..k] == s[i..j] + s[j..k]
  {
  }

  /** Text cut at the places where the pattern's parts meet is placeholder text. */
  lemma PlaceholderPieces(s: string, i: nat, a: nat, b: nat, c: nat)
    requires i + 2 <= a < b <= c && c + 2 <= |s|
    requires s[i] == '{' && s[i + 1] == '{' && s[a] == '.' && s[c] == '}' && s[c + 1] == '}'
    requires AllRegexSpace(s[i + 2..a]) && IsIdentifier(s[a + 1..b]) && AllRegexSpace(s[b..c])
    ensures PlaceholderText(s[i..c + 2], s[i + 2..a], s[a + 1..b], s[b..c])
  {
    SliceSplit(s, i, c, c + 2);
    SliceSplit(s, i, b, c);
    SliceSplit(s, i, a + 1, b);
    SliceSplit(s, i, a, a + 1);
    SliceSplit(s, i, i + 2, a);
    assert s[i..i + 2] == "{{" && s[a..a + 1] == "." && s[c..c + 2] == "}}";
  }

  /** A match is placeholder text: braces, optional white space, a dot, the name, optional
      white space, braces. */
  lemma PlaceholderAtSound(s: string, i: nat)
    requires i <= |s| && PlaceholderAt(s, i).Some?
    ensures exists ws1, ws2 ::
      PlaceholderText(s[i..PlaceholderAt(s, i).value.1], ws1, PlaceholderAt(s, i).value.0, ws2)
  {
    var a := i + 2 + SpaceRun(s, i + 2);
    var b := a + 1 + WordRun(s, a + 1);
    var c := b + SpaceRun(s, b);
    assert PlaceholderAt(s, i) == Some((s[a + 1..b], c + 2));
    var w := s[i + 2..a];
    assert AllRegexSpace(w) by {
      forall k | 0 <= k < |w| ensures IsRegexSpace(w[k]) {
          assert w[k] == s[i + 2 + k];
      }
    }
    var w' := s[b..c];
    assert AllRegexSpace(w') by {
      forall k | 0 <= k < |w'| ensures IsRegexSpace(w'[k]) {
        assert w'[k] == s[b + k];
      }
    }
    PlaceholderPieces(s, i, a, b, c);
  }

  /** Placeholder text at `i` is always matched there, in full, with its name captured. */
  lemma PlaceholderAtComplete(s: string, i: nat, m: string, ws1: string, name: string, ws2: string)
    requires PlaceholderText(m, ws1, name, ws2) && i + |m| <= |s| && s[i..i + |m|] == m
    ensures PlaceholderAt(s, i) == Some((name, i + |m|))
  {
    var a, b, c := PlaceholderRuns(s, i, m, ws1, name, ws2);
    PlaceholderAtOfRuns(s, i, a, b, c, name);
  }

  /** Where the runs of placeholder text in `s` at `i` end. */
  lemma PlaceholderRuns(s: string, i: nat, m: string, ws1: string, name: string, ws2: string)
      returns (a: nat, b: nat, c: nat)
    requires PlaceholderText(m, ws1, name, ws2) && i + |m| <= |s| && s[i..i + |m|] == m
    ensures i + 2 <= a && a + 1 < b <= c && c + 2 == i + |m|
    ensures s[i] == '{' && s[i + 1] == '{' && s[a] == '.' && s[c] == '}' && s[c + 1] == '}'
    ensures s[a + 1..b] == name
    ensures SpaceRun(s, i + 2) == a - (i + 2) && WordRun(s, a + 1) == b - (a + 1) && SpaceRun(s, b) == c - b
  {
    a := i + 2 + |ws1|;
    b := a + 1 + |name|;
    c := b + |ws2|;
    PlaceholderSlices(s, i, ws1, name, ws2);
    SpacesIn(s, i + 2, a, ws1);
    WordCharsIn(s, a + 1, b, name);
    SpacesIn(s, b, c, ws2);
    RunsOfPlaceholder(s, i, a, b, c);
  }

  /** White space cut out of `s` at `lo` is white space in `s`. */
  lemma SpacesIn(s: string, lo: nat, hi: nat, w: string)
    requires lo <= hi <= |s| && s[lo..hi] == w && AllRegexSpace(w)
    ensures forall k :: lo <= k < hi ==> IsRegexSpace(s[k])
  {
    forall k | lo <= k < hi ensures IsRegexSpace(s[k]) {
      assert s[k] == w[k - lo];
    }
  }

  /** A name cut out of `s` at `lo` is word characters in `s`. */
  lemma WordCharsIn(s: string, lo: nat, hi: nat, w: string)
    requires lo <= hi <= |s| && s[lo..hi] == w && IsIdentifier(w)
    ensures forall k :: lo <= k < hi ==> IsWordChar(s[k])
  {
    forall k | lo <= k < hi ensures IsWordChar(s[k]) {
      assert s[k] == w[k - lo];
    }
  }

  /** The parts of placeholder text found in `s` at `i`. */
  lemma PlaceholderSlices(s: string, i: nat, ws1: string, name: string, ws2: string)
    requires var m := "{{" + ws1 + "." + name + ws2 + "}}";
      i + |m| <= |s| && s[i..i + |m|] == m
    ensures var a := i + 2 + |ws1|; var b := a + 1 + |name|; var c := b + |ws2|;
      && s[i] == '{' && s[i + 1] == '{' && s[a] == '.' && s[c] == '}' && s[c + 1] == '}'
      && s[i + 2..a] == ws1 && s[a + 1..b] == name && s[b..c] == ws2
  {
    var a := i + 2 + |ws1|;
    var b := a + 1 + |name|;
    var c := b + |ws2|;
    SliceSplit(s, i, c, c + 2);
    SliceSplit(s, i, b, c);
    SliceSplit(s, i, a + 1, b);
    SliceSplit(s, i, a, a + 1);
    SliceSplit(s, i, i + 2, a);
    ConcatCancel(s[i..c], s[c..c + 2], "{{" + ws1 + "." + name + ws2, "}}");
    ConcatCancel(s[i..b], s[b..c], "{{" + ws1 + "." + name, ws2);
    ConcatCancel(s[i..a + 1], s[a + 1..b], "{{" + ws1 + ".", name);
    ConcatCancel(s[i..a], s[a..a + 1], "{{" + ws1, ".");
    ConcatCancel(s[i..i + 2], s[i + 2..a], "{{", ws1);
    assert s[i] == s[i..i + 2][0] && s[i + 1] == s[i..i + 2][1];
    assert s[a] == s[a..a + 1][0];
    assert s[c] == s[c..c + 2][0] && s[c + 1] == s[c..c + 2][1];
  }

  /** The runs stop exactly where the parts of placeholder text end. */
  lemma RunsOfPlaceholder(s: string, i: nat, a: nat, b: nat, c: nat)
    requires i + 2 <= a && a + 1 < b <= c && c + 2 <= |s|
    requires s[a] == '.' && s[c] == '}'
    requires forall k :: i + 2 <= k < a ==> IsRegexSpace(s[k])
    requires forall k :: a + 1 <= k < b ==> IsWordChar(s[k])
    requires forall k :: b <= k < c ==> IsRegexSpace(s[k])
    ensures SpaceRun(s, i + 2) == a - (i + 2) && WordRun(s, a + 1) == b - (a + 1) && SpaceRun(s, b) == c - b
  {
    assert !IsRegexSpace(s[a]);
    SpaceRunOf(s, i + 2, a - (i + 2));
    assert !IsWordChar(s[b]) by {
      if b < c {
        assert IsRegexSpace(s[b]);
      }
    }
    WordRunOf(s, a + 1, b - (a + 1));
    SpaceRunOf(s, b, c - b);
  }

  /** Matching at `i` when the runs stop exactly where the parts of the text end. */
  lemma PlaceholderAtOfRuns(s: string, i: nat, a: nat, b: nat, c: nat, name: string)
    requires i + 2 <= a && a + 1 < b <= c && c + 2 <= |s| && s[a + 1..b] == name
    requires s[i] == '{' && s[i + 1] == '{' && s[a] == '.' && s[c] == '}' && s[c + 1] == '}'
    requires SpaceRun(s, i + 2) == a - (i + 2) && WordRun(s, a + 1) == b - (a + 1) && SpaceRun(s, b) == c - b
    ensures PlaceholderAt(s, i) == Some((name, c + 2))
  {
    assert i + 2 + SpaceRun(s, i + 2) == a;
    assert a + 1 + WordRun(s, a + 1) == b;
    assert b + SpaceRun(s, b) == c;
  }

  lemma ConcatCancel(p1: string, q1: string, p2: string, q2: string)
    requires p1 + q1 == p2 + q2 && |q1| == |q2|
    ensures p1 == p2 && q1 == q2
  {
    assert p1 == (p1 + q1)[..|p1|];
    assert p2 == (p2 + q2)[..|p2|];
    assert q1 == (p1 + q1)[|p1|..];
    assert q2 == (p2 + q2)[|p2|..];
  }

  lemma SpaceRunOf(s: string, i: nat, n: nat)
    requires i + n < |s| && !IsRegexSpace(s[i + n])
    requires forall k :: i <= k < i + n ==> IsRegexSpace(s[k])
    ensures SpaceRun(s, i) == n
    decreases n
  {
    if n > 0 {
      SpaceRunOf(s, i + 1, n - 1);
    }
  }

  lemma WordRunOf(s: string, i: nat, n: nat)
    requires i + n < |s| && !IsWordChar(s[i + n])
    requires forall k :: i <= k < i + n ==> IsWordChar(s[k])
    ensures WordRun(s, i) == n
    decreases n
  {
    if n > 0 {
      WordRunOf(s, i + 1, n - 1);
    }
  }

  /** FindAllStringSubmatch's captured names: leftmost non-overlapping matches from `from` on. */
  function Placeholders(s: string, from: nat): (names: seq<string>)
    requires from <= |s|
    ensures forall k :: 0 <= k < |names| ==> IsIdentifier(names[k])
    decreases |s| - from
  {
    if from == |s| then []
    else match PlaceholderAt(s, from)
      case Some((name, e)) => [name] + Placeholders(s, e)
      case None => Placeholders(s, from + 1)
  }

  /** The names in first-occurrence order, each once. */
  function Dedup(xs: seq<string>): (d: seq<string>)
    ensures Distinct(d)
    ensures forall x :: x in d <==> x in xs
  {
    if xs == [] then []
    else
      var n := |xs| - 1;
      var d := Dedup(xs[..n]);
      assert xs == xs[..n] + [xs[n]];
      if xs[n] in d then d else d + [xs[n]]
  }

  /** Dedup keeps the order in which the names first occur. */
  lemma {:induction false} DedupFirstOccurrenceOrder(xs: seq<string>)
    ensures forall i, j :: 0 <= i < j < |Dedup(xs)| ==>
      FirstIndex(xs, Dedup(xs)[i]) < FirstIndex(xs, Dedup(xs)[j])
  {
    if xs != [] {
      var n := |xs| - 1;
      var front := xs[..n];
      var d := Dedup(front);
      DedupFirstOccurrenceOrder(front);
      forall y | y in front ensures FirstIndex(xs, y) == FirstIndex(front, y) {
        var k := FirstIndex(front, y);
        assert xs[..k] == front[..k];
        FirstIndexUnique(xs, y, k);
      }
      if xs[n] !in d {
        assert xs[..n] == front;
        FirstIndexUnique(xs, xs[n], n);
        var d' := d + [xs[n]];
        assert Dedup(xs) == d';
        assert forall y :: y in d' ==> y in xs;
        forall i, j | 0 <= i < j < |d'| ensures FirstIndex(xs, d'[i]) < FirstIndex(xs, d'[j]) {
          assert d'[i] == d[i] && d[i] in front;
          if j < |d| {
            assert d'[j] == d[j] && d[j] in front;
          }
        }
      } else {
        assert Dedup(xs) == d;
        assert forall y :: y in d ==> y in xs;
        forall i, j | 0 <= i < j < |d| ensures FirstIndex(xs, d[i]) < FirstIndex(xs, d[j]) {
          assert d[i] in front && d[j] in front;
        }
      }
    }
  }

  // ---------------------------------------------------------------------------
  // parseFrontmatter: the pattern ^---\s*\n(.*?)\n---\s*\n(.*)

  /** The position just after the last '\n' among the `n` characters from `a`. */
  function AfterLastNewline(s: string, a: nat, n: nat): (r: Option<nat>)
    requires a + n <= |s|
    ensures r.Some? ==> a < r.value <= a + n && s[r.value - 1] == '\n'
    ensures r.None? ==> '\n' !in s[a..a + n]
  {
    if n == 0 then None
    else if s[a + n - 1] == '\n' then Some(a + n)
    else
      var r := AfterLastNewline(s, a, n - 1);
      assert s[a..a + n] == s[a..a + n - 1] + [s[a + n - 1]];
      r
  }

  /** The closing `\n---\s*\n` at `t`: where the text after it starts. `\s*` is greedy, so the
      match runs to the last '\n' of the white space after the dashes. */
  function CloseAt(s: string, t: nat): Option<nat>
    requires t < |s|
  {
    if s[t] == '\n' && t + 4 <= |s| && s[t + 1..t + 4] == "---" then
      AfterLastNewline(s, t + 4, SpaceRun(s, t + 4))
    else None
  }

  /** The lazy `(.*?)` from `t` on: the first '\n' that starts a closing line. Without `(?s)`
      (`dotAll` false) the group cannot run past a '\n', so only the first '\n' is tried.
      The answer is (end of the frontmatter group, start of the body). */
  function CloseSearch(s: string, t: nat, dotAll: bool): (r: Option<(nat, nat)>)
    requires t <= |s|
    ensures r.Some? ==> t <= r.value.0 < r.value.1 <= |s|
    decreases |s| - t
  {
    if t == |s| then None
    else if s[t] == '\n' then
      match CloseAt(s, t)
      case Some(m) => Some((t, m))
      case None => if dotAll then CloseSearch(s, t + 1, dotAll) else None
    else CloseSearch(s, t + 1, dotAll)
  }

  /** The opening `---\s*\n`: `\s*` is greedy, so the '\n's of the white space after the dashes
      are tried from the last one back; `k` bounds the ones left to try. */
  function Openings(s: string, k: nat, dotAll: bool): (r: Option<(nat, nat, nat)>)
    requires 3 + k <= |s|
    ensures r.Some? ==> 4 <= r.value.0 <= r.value.1 < r.value.2 <= |s|
    decreases k
  {
    if k == 0 then None
    else if s[3 + k - 1] == '\n' then
      match CloseSearch(s, 3 + k, dotAll)
      case Some((t, m)) => Some((3 + k, t, m))
      case None => Openings(s, k - 1, dotAll)
    else Openings(s, k - 1, dotAll)
  }

  /** The match of the frontmatter pattern: (start and end of the frontmatter group, start of the body). */
  function FrontmatterMatch(s: string, dotAll: bool): (r: Option<(nat, nat, nat)>)
    ensures r.Some? ==> HasPrefix(s, "---") && r.value.2 <= |s|
  {
    if HasPrefix(s, "---") then Openings(s, SpaceRun(s, 3), dotAll) else None
  }

  /** The content parseFrontmatter leaves, as written: `(.*)` without `(?s)` captures only the
      first line after the frontmatter; text the pattern does not match is unchanged. */
  function StripFrontmatterAsWritten(s: string): (r: string)
    ensures !HasPrefix(s, "---") ==> r == s
    ensures |r| <= |s|
    ensures FrontmatterMatch(s, false).Some? ==> '\n' !in r
  {
    match FrontmatterMatch(s, false)
    case None => s
    case Some((_, _, m)) => s[m..m + LineLength(s, m)]
  }

  /** The content parseFrontmatter evidently means to leave: with `(?s)`, everything after the
      frontmatter; text without frontmatter is unchanged. This corrected reading is not what
      the Prompt class applies. */
  function StripFrontmatter(s: string): (r: string)
    ensures !HasPrefix(s, "---") ==> r == s
    ensures |r| <= |s|
  {
    match FrontmatterMatch(s, true)
    case None => s
    case Some((_, _, m)) => s[m..]
  }

  /** A frontmatter block with no line starting "---" inside it, between two "---" lines, is
      found at its place: group 1 is the frontmatter and the body starts right after the second
      "---" line. Without `(?s)` this needs the frontmatter to be a single line. */
  lemma {:induction false} FrontmatterFound(fm: string, body: string, dotAll: bool)
    requires fm != [] && !IsRegexSpace(fm[0]) && !Contains(fm, "\n---")
    requires dotAll || '\n' !in fm
    requires body == [] || !IsRegexSpace(body[0])
    ensures FrontmatterMatch("---\n" + fm + "\n---\n" + body, dotAll) == Some((4, 4 + |fm|, 9 + |fm|))
  {
    var s := "---\n" + fm + "\n---\n" + body;
    var t := 4 + |fm|;
    assert s[..3] == "---";
    assert s[3] == '\n' && s[4] == fm[0];
    SpaceRunOfOne(s, 3);
    assert s[t] == '\n' && s[t + 1..t + 4] == "---" && s[t + 4] == '\n';
    if body != [] {
      assert s[t + 5] == body[0];
    }
    SpaceRunOfOne(s, t + 4);
    assert CloseAt(s, t) == Some(t + 5);
    SkipFrontmatter(fm, body, dotAll);
  }

  lemma SpaceRunOfOne(s: string, i: nat)
    requires i < |s| && IsRegexSpace(s[i])
    requires i + 1 == |s| || !IsRegexSpace(s[i + 1])
    ensures SpaceRun(s, i) == 1
  {
  }

  /** The search moves past characters that cannot start a closing line. */
  lemma {:induction false} CloseSearchSkips(s: string, t: nat, end: nat, dotAll: bool)
    requires t <= end <= |s|
    requires forall k :: t <= k < end ==> s[k] != '\n' || (dotAll && CloseAt(s, k).None?)
    ensures CloseSearch(s, t, dotAll) == CloseSearch(s, end, dotAll)
    decreases end - t
  {
    if t < end {
      CloseSearchSkips(s, t + 1, end, dotAll);
    }
  }

  /** No closing line starts inside the frontmatter, so the search reaches its end. */
  lemma SkipFrontmatter(fm: string, body: string, dotAll: bool)
    requires dotAll || '\n' !in fm
    requires !Contains(fm, "\n---")
    ensures var s := "---\n" + fm + "\n---\n" + body;
      CloseSearch(s, 4, dotAll) == CloseSearch(s, 4 + |fm|, dotAll)
  {
    var s := "---\n" + fm + "\n---\n" + body;
    var end := 4 + |fm|;
    forall t | 4 <= t < end ensures s[t] != '\n' || (dotAll && CloseAt(s, t).None?) {
      assert s[t] == fm[t - 4];
      if s[t] == '\n' && dotAll {
        assert s[end] == '\n';
        if t + 4 <= end {
          assert s[t..t + 4] == fm[t - 4..t];
          NotContainsSlice(fm, "\n---", t - 4);
          assert s[t..t + 4] == [s[t]] + s[t + 1..t + 4];
        } else {
          assert s[t + 1..t + 4][end - t - 1] == '\n';
        }
      }
    }
    CloseSearchSkips(s, 4, end, dotAll);
  }

  /** With (?s) the whole body survives. */
  lemma StripFrontmatterKeepsBody(fm: string, body: string)
    requires fm != [] && !IsRegexSpace(fm[0]) && !Contains(fm, "\n---")
    requires body == [] || !IsRegexSpace(body[0])
    ensures StripFrontmatter("---\n" + fm + "\n---\n" + body) == body
  {
    FrontmatterFound(fm, body, true);
    var s := "---\n" + fm + "\n---\n" + body;
    assert s[9 + |fm|..] == body;
  }

  /** As written, the content keeps only the first line of the body: a single-line frontmatter
      followed by a body of several lines leaves just that first line. */
  lemma FrontmatterAsWrittenKeepsFirstLine(fm: string, line: string, rest: string)
    requires fm != [] && !IsRegexSpace(fm[0]) && !Contains(fm, "\n---") && '\n' !in fm
    requires line != [] && !IsRegexSpace(line[0]) && '\n' !in line
    ensures StripFrontmatterAsWritten("---\n" + fm + "\n---\n" + (line + "\n" + rest)) == line
  {
    var body := line + "\n" + rest;
    assert body[0] == line[0];
    FrontmatterFound(fm, body, false);
    var s := "---\n" + fm + "\n---\n" + body;
    var m := 9 + |fm|;
    assert s[m..] == body;
    forall k | m <= k < m + |line| ensures s[k] != '\n' {
      assert s[k] == body[k - m] == line[k - m];
    }
    assert s[m + |line|] == body[|line|] == '\n';
    LineLengthOf(s, m, |line|);
    assert s[m..m + |line|] == body[..|line|] == line;
  }

  /** As written, frontmatter of more than one line is not recognised at all: the lazy group
      stops at the first line break, and the line after it is not the closing "---". */
  lemma {:induction false} FrontmatterAsWrittenMissesLines(line: string, rest: string)
    requires line != [] && !IsRegexSpace(line[0]) && '\n' !in line
    requires !HasPrefix(rest, "---")
    ensures FrontmatterMatch("---\n" + line + "\n" + rest, false).None?
  {
    var s := "---\n" + line + "\n" + rest;
    var t := 4 + |line|;
    assert s[..3] == "---";
    assert s[3] == '\n' && s[4] == line[0];
    SpaceRunOfOne(s, 3);
    forall k | 4 <= k < t ensures s[k] != '\n' {
      assert s[k] == line[k - 4];
    }
    CloseSearchSkips(s, 4, t, false);
    assert s[t] == '\n';
    assert CloseAt(s, t).None?;
  }

  /** The two-line frontmatter of a typical prompt file stays in its content. */
  lemma FrontmatterAsWrittenMissesTwoLines()
    ensures StripFrontmatterAsWritten("---\na: 1\nb: 2\n---\nbody") == "---\na: 1\nb: 2\n---\nbody"
  {
    var rest := "b: 2\n---\nbody";
    assert rest[0] == 'b';
    FrontmatterAsWrittenMissesLines("a: 1", rest);
    assert "---\n" + "a: 1" + "\n" + rest == "---\na: 1\nb: 2\n---\nbody";
  }

  /** A string that does not contain `sub` has no slice equal to it. */
  lemma NotContainsSlice(s: string, sub: string, j: nat)
    requires !Contains(s, sub) && j + |sub| <= |s|
    ensures s[j..j + |sub|] != sub
  {
    assert s[j..][..|sub|] == s[j..j + |sub|];
  }

  lemma NotContainsFirst(s: string, sub: string)
    requires sub != [] && sub[0] !in s
    ensures !Contains(s, sub)
  {
  }

  lemma LineLengthOf(s: string, i: nat, n: nat)
    requires i + n < |s| && s[i + n] == '\n'
    requires forall k :: i <= k < i + n ==> s[k] != '\n'
    ensures LineLength(s, i) == n
    decreases n
  {
    if n > 0 {
      LineLengthOf(s, i + 1, n - 1);
    }
  }

  // ---------------------------------------------------------------------------
  // Prompt

  /** A prompt file's text and its metadata; parseFrontmatter rewrites the text in place. */
  class Prompt {
    var content: string
    var metadata: map<string, string>

    constructor (content: string)
      ensures this.content == content && metadata == map[]
    {
      this.content := content;
      metadata := map[];
    }

    /** parseFrontmatter with the pattern as compiled (no `(?s)`): on a match the content
        becomes group 2, the first line after the frontmatter; otherwise it is unchanged.
        It never fails. */
    method ParseFrontmatter() returns (err: Option<string>)
      modifies this
      ensures content == StripFrontmatterAsWritten(old(content)) && metadata == old(metadata)
      ensures FrontmatterMatch(old(content), false).None? ==> content == old(content)
      ensures FrontmatterMatch(old(content), false).Some? ==> '\n' !in content
      ensures err.None?
    {
      match FrontmatterMatch(content, false) {
        case Some((_, _, m)) =>
          content := content[m..m + LineLength(content, m)];
        case None =>
      }
      return None;
    }

    /** GetVariables: the placeholder names in first-occurrence order, each once. */
    method GetVariables() returns (variables: seq<string>)
      ensures variables == Dedup(Placeholders(content, 0))
    {
      var matches := Placeholders(content, 0);
      variables := [];
      var seen: set<string> := {};
      for k := 0 to |matches|
        invariant variables == Dedup(matches[..k])
        invariant seen == set x | x in variables
      {
        assert matches[..k + 1] == matches[..k] + [matches[k]];
        assert matches[..k + 1][..k] == matches[..k];
        if matches[k] !in seen {
          variables := variables + [matches[k]];
          seen := seen + {matches[k]};
        }
      }
      assert matches[..|matches|] == matches;
    }

    /** Validate: empty content (nothing but white space) is refused before the template is
        parsed; `parseTemplate` is text/template's Parse, giving its error if any. */
    function Validate(parseTemplate: string -> Option<string>): (r: Option<string>)
      reads this
      ensures r == Some("prompt content is empty") <==> forall i :: 0 <= i < |content| ==> IsSpace(content[i])
      ensures r.None? <==> (exists i :: 0 <= i < |content| && !IsSpace(content[i])) && parseTemplate(content).None?
      ensures (exists i :: 0 <= i < |content| && !IsSpace(content[i])) && parseTemplate(content).Some? ==>
        r == Some("invalid template syntax: " + parseTemplate(content).value)
    {
      TrimSpaceEmpty(content);
      if TrimSpace(content) == "" then Some("prompt content is empty")
      else match parseTemplate(content)
        case Some(e) =>
          var msg := "invalid template syntax: " + e;
          assert msg[0] != "prompt content is empty"[0];
          Some(msg)
        case None => None
    }
  }

  /** Prompt.Render on a prompt with this content: `execute` is the template engine. */
  function Render(execute: (string, map<string, Value>) -> Result<string, string>, content: string,
                  variables: map<string, Value>): (r: Result<string, string>)
    ensures execute(content, variables).Ok? ==> r == execute(content, variables)
    ensures execute(content, variables).Err? ==> r == Err("failed to render prompt: " + execute(content, variables).error)
  {
    match execute(content, variables)
    case Ok(text) => Ok(text)
    case Err(e) => Err("failed to render prompt: " + e)
  }
}
