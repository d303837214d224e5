/**
 * `clean_html` (bot_service.py:231-245) and `format_post`
 * (bot_service.py:297-354): the excerpt, the bordered block and its two
 * fallbacks when the block is too long.
 */
module Formatter {
  import opened Maybe
  import opened Text
  import opened FeedEntry

  predicate IsNewline(c: char) { c == '\n' }

  /** No three consecutive line breaks. */
  predicate NoTriple(s: string) {
    forall i :: 0 <= i < |s| - 2 ==> !(s[i] == '\n' && s[i + 1] == '\n' && s[i + 2] == '\n')
  }

  /** One past the last line break among the first `n` characters of `s`, or 0 if there is none. */
  function LastNewlineEnd(s: string, n: nat): (k: nat)
    requires n <= |s|
    ensures k <= n
    ensures k > 0 ==> s[k - 1] == '\n'
    ensures forall j :: k <= j < n ==> s[j] != '\n'
  {
    if n == 0 then 0 else if s[n - 1] == '\n' then n else LastNewlineEnd(s, n - 1)
  }

  /**
   * `re.sub(r'\n\s*\n', '\n\n', s)`: from a line break, the greedy `\s*`
   * reaches the last line break inside the whitespace run that follows, and
   * the whole match becomes one blank line; scanning resumes after the match.
   */
  function CollapseBlankLines(s: string): (r: string)
    ensures s != [] ==> r != [] && r[0] == s[0]
    ensures NoTriple(r)
    decreases |s|
  {
    if s == [] then []
    else if s[0] == '\n' then
      var rest := s[1..];
      var k := LastNewlineEnd(rest, LeadingCount(rest, IsSpace));
      if k > 0 then "\n\n" + CollapseBlankLines(rest[k..])
      else "\n" + CollapseBlankLines(rest)
    else [s[0]] + CollapseBlankLines(s[1..])
  }

  /**
   * No blank line holds anything but the two line breaks: between two line
   * breaks that are not adjacent there is some non-whitespace character.
   */
  predicate Collapsed(r: string) {
    forall i, j :: 0 <= i && i + 1 < j < |r| && r[i] == '\n' && r[j] == '\n' ==> !AllSpace(r[i + 1..j])
  }

  /** No line break is reached from the start of `t` through whitespace alone. */
  predicate QuietStart(t: string) {
    forall q :: 0 <= q < |t| && t[q] == '\n' ==> !AllSpace(t[..q])
  }

  /**
   * What the substitution achieves: no blank line is left with whitespace
   * on it. `BlankRunBecomesPair` says what each blank line becomes and
   * `CollapsedUnchanged` that nothing else is touched.
   */
  lemma {:induction false} CollapseBlankLinesMeaning(s: string)
    ensures Collapsed(CollapseBlankLines(s))
    decreases |s|
  {
    if s == [] {
    } else if s[0] == '\n' {
      var rest := s[1..];
      var n := LeadingCount(rest, IsSpace);
      var k := LastNewlineEnd(rest, n);
      var t := rest[k..];
      forall q | 0 <= q < n - k
        ensures IsSpace(t[q]) && t[q] != '\n'
      {
        assert t[q] == rest[k + q];
      }
      if n < |rest| {
        assert t[n - k] == rest[n];
      }
      LeadingCountIs(t, n - k);
      CollapseBlankLinesMeaning(t);
      QuietStartKept(t);
      if k > 0 {
        TwoBreaksCollapsed(CollapseBlankLines(t));
      } else {
        OneBreakCollapsed(CollapseBlankLines(t));
      }
    } else {
      CollapseBlankLinesMeaning(s[1..]);
      ConsCollapsed(s[0], CollapseBlankLines(s[1..]));
    }
  }

  /**
   * A blank line, whatever whitespace sits on it, becomes a bare pair of
   * line breaks, and the scan resumes at the next visible character.
   */
  lemma BlankRunBecomesPair(w: string, t: string)
    requires AllSpace(w) && (t == [] || !IsSpace(t[0]))
    ensures CollapseBlankLines("\n" + w + "\n" + t) == "\n\n" + CollapseBlankLines(t)
  {
    var s := "\n" + w + "\n" + t;
    var rest := s[1..];
    assert rest == w + "\n" + t;
    assert rest[|w|] == '\n';
    LeadingCountIs(rest, |w| + 1);
    assert LastNewlineEnd(rest, |w| + 1) == |w| + 1;
    assert rest[|w| + 1..] == t;
  }

  /** Every suffix of a collapsed text is collapsed. */
  lemma CollapsedSuffix(s: string, m: nat)
    requires Collapsed(s) && m <= |s|
    ensures Collapsed(s[m..])
  {
    var u := s[m..];
    forall i, j | 0 <= i && i + 1 < j < |u| && u[i] == '\n' && u[j] == '\n'
      ensures !AllSpace(u[i + 1..j])
    {
      assert u[i + 1..j] == s[m + i + 1..m + j];
    }
  }

  /**
   * Outside blank lines the substitution changes nothing: a text whose
   * blank lines are all bare pairs of line breaks comes back unchanged.
   */
  lemma {:induction false} CollapsedUnchanged(s: string)
    requires Collapsed(s)
    ensures CollapseBlankLines(s) == s
    decreases |s|
  {
    if s != [] {
      var rest := s[1..];
      CollapsedSuffix(s, 1);
      if s[0] == '\n' {
        var n := LeadingCount(rest, IsSpace);
        var k := LastNewlineEnd(rest, n);
        if k == 0 {
          CollapsedUnchanged(rest);
        } else {
          // the break that ends the run, and only whitespace before it
          assert s[k] == '\n';
          assert s[1..k] == rest[..k - 1];
          assert AllSpace(s[1..k]);
          assert k == 1;
          CollapsedSuffix(rest, 1);
          CollapsedUnchanged(rest[1..]);
          assert s == "\n\n" + rest[1..];
        }
      } else {
        CollapsedUnchanged(rest);
      }
    }
  }

  /** The non-whitespace characters of `s`, in order. */
  function Visible(s: string): (r: string)
    ensures |r| <= |s|
    ensures forall i :: 0 <= i < |r| ==> !IsSpace(r[i])
  {
    if s == [] then [] else (if IsSpace(s[0]) then [] else [s[0]]) + Visible(s[1..])
  }

  lemma {:induction false} VisibleAppend(a: string, b: string)
    ensures Visible(a + b) == Visible(a) + Visible(b)
  {
    if a != [] {
      assert (a + b)[1..] == a[1..] + b;
      VisibleAppend(a[1..], b);
    } else {
      assert a + b == b;
    }
  }

  lemma {:induction false} VisibleOfSpace(a: string)
    requires AllSpace(a)
    ensures Visible(a) == []
  {
    if a != [] {
      VisibleOfSpace(a[1..]);
    }
  }

  /**
   * The substitution deletes only whitespace: the text it leaves has the
   * same non-whitespace characters, in the same order, as its input.
   */
  lemma {:induction false} CollapseBlankLinesKeepsText(s: string)
    ensures Visible(CollapseBlankLines(s)) == Visible(s)
    decreases |s|
  {
    if s != [] {
      var rest := s[1..];
      if s[0] == '\n' {
        var k := LastNewlineEnd(rest, LeadingCount(rest, IsSpace));
        assert rest == rest[..k] + rest[k..];
        VisibleAppend(rest[..k], rest[k..]);
        VisibleOfSpace(rest[..k]);
        CollapseBlankLinesKeepsText(rest[k..]);
        if k > 0 {
          VisibleAppend("\n\n", CollapseBlankLines(rest[k..]));
          assert Visible("\n\n") == [];
        } else {
          VisibleAppend("\n", CollapseBlankLines(rest));
        }
      } else {
        CollapseBlankLinesKeepsText(rest);
      }
    }
  }

  /** The substitution keeps the whitespace before the first line break of its input. */
  lemma {:induction false} QuietStartKept(t: string)
    requires forall q :: 0 <= q < LeadingCount(t, IsSpace) ==> t[q] != '\n'
    ensures QuietStart(CollapseBlankLines(t))
    decreases |t|
  {
    if t != [] {
      var u := CollapseBlankLines(t[1..]);
      assert CollapseBlankLines(t) == [t[0]] + u;
      if IsSpace(t[0]) {
        assert LeadingCount(t[1..], IsSpace) == LeadingCount(t, IsSpace) - 1;
        forall q | 0 <= q < LeadingCount(t[1..], IsSpace)
          ensures t[1..][q] != '\n'
        {
          assert t[1..][q] == t[q + 1];
        }
        QuietStartKept(t[1..]);
        forall q | 0 <= q < |[t[0]] + u| && ([t[0]] + u)[q] == '\n'
          ensures !AllSpace(([t[0]] + u)[..q])
        {
          assert ([t[0]] + u)[..q][1..] == u[..q - 1];
        }
      } else {
        forall q | 0 <= q < |[t[0]] + u| && ([t[0]] + u)[q] == '\n'
          ensures !AllSpace(([t[0]] + u)[..q])
        {
          assert ([t[0]] + u)[..q][0] == t[0];
        }
      }
    }
  }

  /** A character other than a line break in front keeps a text collapsed. */
  lemma ConsCollapsed(c: char, u: string)
    requires c != '\n' && Collapsed(u)
    ensures Collapsed([c] + u)
  {
    var r := [c] + u;
    forall i, j | 0 <= i && i + 1 < j < |r| && r[i] == '\n' && r[j] == '\n'
      ensures !AllSpace(r[i + 1..j])
    {
      assert r[i] == u[i - 1] && r[j] == u[j - 1];
      assert r[i + 1..j] == u[i..j - 1];
    }
  }

  /** One line break in front of a collapsed text with a quiet start. */
  lemma OneBreakCollapsed(u: string)
    requires Collapsed(u) && QuietStart(u)
    ensures Collapsed("\n" + u)
  {
    var r := "\n" + u;
    forall i, j | 0 <= i && i + 1 < j < |r| && r[i] == '\n' && r[j] == '\n'
      ensures !AllSpace(r[i + 1..j])
    {
      assert r[j] == u[j - 1];
      if i == 0 {
        assert r[1..j] == u[..j - 1];
      } else {
        assert r[i] == u[i - 1];
        assert r[i + 1..j] == u[i..j - 1];
      }
    }
  }

  /** The bare blank line `"\n\n"` in front of a collapsed text with a quiet start. */
  lemma TwoBreaksCollapsed(u: string)
    requires Collapsed(u) && QuietStart(u)
    ensures Collapsed("\n\n" + u)
  {
    var r := "\n\n" + u;
    forall i, j | 0 <= i && i + 1 < j < |r| && r[i] == '\n' && r[j] == '\n'
      ensures !AllSpace(r[i + 1..j])
    {
      assert r[j] == u[j - 2];
      if i < 2 {
        assert !AllSpace(u[..j - 2]);
        var q :| 0 <= q < j - 2 && !IsSpace(u[..j - 2][q]);
        assert r[i + 1..j][q + 1 - i] == u[q];
      } else {
        assert r[i] == u[i - 2];
        assert r[i + 1..j] == u[i - 1..j - 2];
      }
    }
  }

  /** The leading whitespace of `t` is exactly its first `m` characters. */
  lemma LeadingCountIs(t: string, m: nat)
    requires m <= |t| && (forall q :: 0 <= q < m ==> IsSpace(t[q]))
    requires m == |t| || !IsSpace(t[m])
    ensures LeadingCount(t, IsSpace) == m
  {
    var c := LeadingCount(t, IsSpace);
    assert c <= m;
    assert c >= m;
  }

  /** `re.sub(r'\n{3,}', '\n\n', s)`: every run of three or more line breaks becomes two. */
  function SquashNewlineRuns(s: string): string
    decreases |s|
  {
    if s == [] then []
    else
      var n := LeadingCount(s, IsNewline);
      if n >= 3 then "\n\n" + SquashNewlineRuns(s[n..]) else [s[0]] + SquashNewlineRuns(s[1..])
  }

  /** The second substitution changes nothing in a text without three consecutive line breaks. */
  lemma {:induction false} SquashIdentity(s: string)
    requires NoTriple(s)
    ensures SquashNewlineRuns(s) == s
    decreases |s|
  {
    if s != [] {
      var n := LeadingCount(s, IsNewline);
      if |s| >= 3 {
        assert !(IsNewline(s[0]) && IsNewline(s[1]) && IsNewline(s[2]));
      }
      assert n < 3;
      assert NoTriple(s[1..]) by {
        forall i | 0 <= i < |s| - 3
          ensures !(s[1..][i] == '\n' && s[1..][i + 1] == '\n' && s[1..][i + 2] == '\n')
        {
          assert s[1..][i] == s[i + 1];
        }
      }
      SquashIdentity(s[1..]);
    }
  }

  /**
   * `clean_html(html)`: "" for an empty input; otherwise the converter's
   * text (html2text, a parameter here), stripped, then the two blank-line
   * substitutions.
   */
  function CleanHtml(convert: string -> string, html: string): string {
    if html == [] then [] else SquashNewlineRuns(CollapseBlankLines(Strip(convert(html))))
  }

  /**
   * The cleaned text never holds three consecutive line breaks nor a blank
   * line with whitespace on it, keeps every non-whitespace character of the
   * converted text in order, and the second substitution of
   * bot_service.py:243 never fires.
   */
  lemma CleanHtmlMeaning(convert: string -> string, html: string)
    ensures NoTriple(CleanHtml(convert, html))
    ensures Collapsed(CleanHtml(convert, html))
    ensures html != [] ==> CleanHtml(convert, html) == CollapseBlankLines(Strip(convert(html)))
    ensures html != [] ==> Visible(CleanHtml(convert, html)) == Visible(convert(html))
  {
    if html != [] {
      var text := convert(html);
      SquashIdentity(CollapseBlankLines(Strip(text)));
      CollapseBlankLinesMeaning(Strip(text));
      CollapseBlankLinesKeepsText(Strip(text));
      StripKeepsText(text);
    }
  }

  /** `strip()` removes only whitespace. */
  lemma StripKeepsText(s: string)
    ensures Visible(Strip(s)) == Visible(s)
  {
    var a := LeadingCount(s, IsSpace);
    var rest := s[a..];
    var b := |rest| - TrailingCount(rest, IsSpace);
    assert s == s[..a] + rest;
    assert rest == rest[..b] + rest[b..];
    VisibleAppend(s[..a], rest);
    VisibleAppend(rest[..b], rest[b..]);
    VisibleOfSpace(s[..a]);
    VisibleOfSpace(rest[b..]);
  }

  /** The body text chosen for a post: the first present of content, summary, description. */
  function ContentOf(e: Entry): string {
    if e.contents != [] then e.contents[0]
    else if e.summary.Some? then e.summary.value
    else if e.description.Some? then e.description.value
    else ""
  }

  /**
   * The first present field wins, even when it is empty: a content list
   * whose first value is "" hides a non-empty summary.
   */
  lemma ContentOfFirstPresent(e: Entry, summary: Option<string>, description: Option<string>)
    ensures e.contents != [] ==> ContentOf(e.(summary := summary, description := description)) == e.contents[0]
    ensures e.contents == [] && e.summary.Some? ==> ContentOf(e.(description := description)) == e.summary.value
    ensures ContentOf(Entry(e.title, e.link, [""], Some("summary"), description)) == ""
  {
  }

  /** `s[:n]` in Python: a negative `n` counts from the end. */
  function PyPrefix(s: string, n: int): string {
    if n >= |s| then s
    else if n >= 0 then s[..n]
    else if |s| + n >= 0 then s[..|s| + n]
    else []
  }

  /** The excerpt limit of bot_service.py:314-315. */
  function Excerpt(text: string, maxContentLength: int): string {
    if |text| > maxContentLength then PyPrefix(text, maxContentLength) + "..." else text
  }

  /**
   * Text within the limit is kept as is; longer text becomes exactly its
   * first `maxContentLength` characters followed by "..." (for a negative
   * limit, all but its last `-maxContentLength` characters).
   */
  lemma ExcerptMeaning(text: string, maxContentLength: int)
    ensures |text| <= maxContentLength ==> Excerpt(text, maxContentLength) == text
    ensures 0 <= maxContentLength < |text| ==>
      Excerpt(text, maxContentLength) == text[..maxContentLength] + "..."
      && |Excerpt(text, maxContentLength)| == maxContentLength + 3
    ensures maxContentLength < 0 ==>
      Excerpt(text, maxContentLength) == text[..if |text| + maxContentLength >= 0 then |text| + maxContentLength else 0] + "..."
  {
  }

  const Top := "╭─────────────────────────────────╮\n"
  const Separator := "├─────────────────────────────────┤\n"
  const Bottom := "╰─────────────────────────────────╯"

  /** The bordered block of bot_service.py:318-332; the content section appears only for non-empty text. */
  function Block(emoji: string, title: string, link: string, source: string, text: string): string {
    Top
    + "│  " + emoji + " **" + title + "**\n"
    + Separator
    + "│ 🔗 " + link + "\n"
    + "│ 📰 " + source + "\n"
    + (if text != [] then Separator + "│ " + text + "\n" else "")
    + Bottom
  }

  /** The minimalist form of bot_service.py:347-351. */
  function Minimal(emoji: string, title: string, link: string, source: string): string {
    emoji + " **" + title + "**\n\n🔗 " + link + "\n📰 " + source
  }

  /** The configured lengths `MAX_POST_LENGTH` and `MAX_CONTENT_LENGTH`. */
  datatype Limits = Limits(maxPostLength: int, maxContentLength: int)

  /** The three shapes `format_post` can return. */
  datatype Shape = Full | Rebuilt | Minimalist

  /** The title shown: the entry's title (or "No title" if absent), stripped. */
  function ShownTitle(e: Entry): string {
    Strip(e.title.GetOr("No title"))
  }

  /** The excerpt a post starts from. */
  function PostText(limits: Limits, convert: string -> string, e: Entry): string {
    Excerpt(CleanHtml(convert, ContentOf(e)), limits.maxContentLength)
  }

  /** Which shape `format_post` picks, and the text it returns. */
  function FormatWithShape(limits: Limits, convert: string -> string, e: Entry, source: string, emoji: string): (Shape, string) {
    var title := ShownTitle(e);
    var link := e.link.GetOr("");
    var text := PostText(limits, convert, e);
    var post := Block(emoji, title, link, source, text);
    if |post| > limits.maxPostLength then
      var available := limits.maxPostLength - |post| + |text| - 20;
      if available > 50 then (Rebuilt, Block(emoji, title, link, source, PyPrefix(text, available) + "..."))
      else (Minimalist, Minimal(emoji, title, link, source))
    else (Full, post)
  }

  /** `format_post(entry, source_name, category_emoji)`. */
  function FormatPost(limits: Limits, convert: string -> string, e: Entry, source: string, emoji: string): string {
    FormatWithShape(limits, convert, e, source, emoji).1
  }

  /** The length of the bordered block: 126 fixed characters, plus 39 more around non-empty text. */
  lemma BlockLength(emoji: string, title: string, link: string, source: string, text: string)
    ensures |Block(emoji, title, link, source, text)|
      == 126 + |emoji| + |title| + |link| + |source| + (if text != [] then 39 + |text| else 0)
  {
    assert |Top| == 36 && |Separator| == 36 && |Bottom| == 35;
    assert |"│ 🔗 "| == 4 && |"│ 📰 "| == 4;
  }

  /**
   * The length behaviour of `format_post`: the full block is returned only
   * when it fits; a block that does not fit is rebuilt exactly when the room
   * left for text (`maxPostLength - |block| + |text| - 20`) exceeds 50, and the
   * rebuilt block is then exactly `maxPostLength - 17` long and holds a prefix
   * of the excerpt; otherwise the minimalist form is returned, with no bound
   * on its length.
   */
  lemma FormatPostLength(limits: Limits, convert: string -> string, e: Entry, source: string, emoji: string)
    ensures var (shape, r) := FormatWithShape(limits, convert, e, source, emoji);
      var title := ShownTitle(e);
      var link := e.link.GetOr("");
      var text := PostText(limits, convert, e);
      && (shape == Full ==> r == Block(emoji, title, link, source, text) && |r| <= limits.maxPostLength)
      && (shape == Rebuilt ==>
            |r| == limits.maxPostLength - 17
            && exists n :: 50 < n < |text| && r == Block(emoji, title, link, source, text[..n] + "..."))
      && (shape == Minimalist ==> r == Minimal(emoji, title, link, source))
      && (shape != Full <==> |Block(emoji, title, link, source, text)| > limits.maxPostLength)
      && (shape == Rebuilt <==>
            && |Block(emoji, title, link, source, text)| > limits.maxPostLength
            && limits.maxPostLength - |Block(emoji, title, link, source, text)| + |text| - 20 > 50)
  {
    var title := ShownTitle(e);
    var link := e.link.GetOr("");
    var text := PostText(limits, convert, e);
    var post := Block(emoji, title, link, source, text);
    BlockLength(emoji, title, link, source, text);
    if |post| > limits.maxPostLength {
      var available := limits.maxPostLength - |post| + |text| - 20;
      if available > 50 {
        assert text != [];
        assert available < |text|;
        var short := text[..available] + "...";
        assert PyPrefix(text, available) == text[..available];
        BlockLength(emoji, title, link, source, short);
      }
    }
  }

  /** An example where the minimalist form is longer than the limit it replaces a block for. */
  lemma MinimalCanExceedLimit()
    ensures var e := Entry(Some("T"), Some(seq(200, _ => 'x')), [], None, None);
      var limits := Limits(100, 800);
      FormatWithShape(limits, x => x, e, "S", "E").0 == Minimalist
      && |FormatPost(limits, x => x, e, "S", "E")| > limits.maxPostLength
  {
    var e := Entry(Some("T"), Some(seq(200, _ => 'x')), [], None, None);
    var limits := Limits(100, 800);
    assert ContentOf(e) == "";
    assert PostText(limits, x => x, e) == "";
    assert ShownTitle(e) == "T" by {
      assert Strip("T") == "T" by {
        assert LeadingCount("T", IsSpace) == 0;
        assert TrailingCount("T", IsSpace) == 0;
      }
    }
    BlockLength("E", "T", e.link.value, "S", "");
    assert |Minimal("E", "T", e.link.value, "S")| == 215;
  }

  lemma BlockNotBlank(emoji: string, title: string, link: string, source: string, text: string)
    ensures !AllSpace(Block(emoji, title, link, source, text))
  {
    var b := Block(emoji, title, link, source, text);
    assert b[0] == Top[0];
  }

  lemma MinimalNotBlank(emoji: string, title: string, link: string, source: string)
    ensures !AllSpace(Minimal(emoji, title, link, source))
  {
    var m := Minimal(emoji, title, link, source);
    assert m[|emoji| + 1] == '*';
  }

  /** A post always holds a non-space character, so delivery never rejects it as empty. */
  lemma FormatPostNotBlank(limits: Limits, convert: string -> string, e: Entry, source: string, emoji: string)
    ensures !AllSpace(FormatPost(limits, convert, e, source, emoji))
  {
    var title := ShownTitle(e);
    var link := e.link.GetOr("");
    var text := PostText(limits, convert, e);
    var post := Block(emoji, title, link, source, text);
    if |post| > limits.maxPostLength {
      var available := limits.maxPostLength - |post| + |text| - 20;
      if available > 50 {
        BlockNotBlank(emoji, title, link, source, PyPrefix(text, available) + "...");
      } else {
        MinimalNotBlank(emoji, title, link, source);
      }
    } else {
      BlockNotBlank(emoji, title, link, source, text);
    }
  }
}
