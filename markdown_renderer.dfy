/** The markdown helpers of src/utils/markdown/renderer.ts: `renderMarkdown` turns a small
    markdown subset into HTML, `extractPlainText` strips the markup, and
    `generatePreviewText` cuts the plain text to a preview.

    The rules anchored with `^` and `$` in multiline mode act line by line; a line ends at a
    line terminator (LF, CR, LS or PS), which `.` does not match either. The bold, italic,
    code and link rules are a parameter (`inline` for the HTML rendering, `unwrap` for the
    plain text): the model covers the rules around them. */
module MarkdownRenderer {
  import opened Common

  /** No line terminator in `s`: `s` is a single line. */
  predicate NoTerminator(s: string) {
    forall i :: 0 <= i < |s| ==> !IsLineTerminator(s[i])
  }

  /** The first line terminator at or after `i`, or the end of the text. */
  function NextTerminator(s: string, i: nat): (e: nat)
    requires i <= |s|
    ensures i <= e <= |s|
    ensures forall m :: i <= m < e ==> !IsLineTerminator(s[m])
    ensures e == |s| || IsLineTerminator(s[e])
    decreases |s| - i
  {
    if i < |s| && !IsLineTerminator(s[i]) then NextTerminator(s, i + 1) else i
  }

  /** A line-by-line replacement `replace(/^...$/gm, ...)`: `f` rewrites each line, and the
      terminators stay where they are. */
  function MapLines(f: string -> string, s: string): string
    decreases |s|
  {
    var e := NextTerminator(s, 0);
    if e == |s| then f(s) else f(s[..e]) + [s[e]] + MapLines(f, s[e + 1..])
  }

  /** The first terminator of a line, a terminator and more text is the one after the line. */
  lemma NextTerminatorAfterLine(a: string, c: char, b: string)
    requires NoTerminator(a) && IsLineTerminator(c)
    ensures NextTerminator(a + [c] + b, 0) == |a|
  {
    var t := a + [c] + b;
    var e := NextTerminator(t, 0);
    assert t[|a|] == c;
    assert forall m :: 0 <= m < |a| ==> t[m] == a[m];
  }

  /** Two line-by-line passes are one, when the first keeps each line a single line. */
  lemma {:induction false} MapLinesFuse(f: string -> string, g: string -> string, h: string -> string, s: string)
    requires forall line :: NoTerminator(line) ==> NoTerminator(g(line))
    requires forall line :: NoTerminator(line) ==> h(line) == f(g(line))
    ensures MapLines(f, MapLines(g, s)) == MapLines(h, s)
    decreases |s|
  {
    var e := NextTerminator(s, 0);
    if e == |s| {
      assert NoTerminator(s);
      MapLinesOne(f, g(s));
    } else {
      var line := s[..e];
      var rest := s[e + 1..];
      assert NoTerminator(line);
      MapLinesCons(f, g(line), s[e], MapLines(g, rest));
      MapLinesFuse(f, g, h, rest);
    }
  }

  /** A single line is rewritten whole. */
  lemma MapLinesOne(f: string -> string, s: string)
    requires NoTerminator(s)
    ensures MapLines(f, s) == f(s)
  {
    assert NextTerminator(s, 0) == |s|;
  }

  /** A line, a terminator and more text: the line is rewritten and the rest is mapped. */
  lemma MapLinesCons(f: string -> string, a: string, c: char, b: string)
    requires NoTerminator(a) && IsLineTerminator(c)
    ensures MapLines(f, a + [c] + b) == f(a) + [c] + MapLines(f, b)
  {
    NextTerminatorAfterLine(a, c, b);
    var t := a + [c] + b;
    assert t[..|a|] == a && t[|a|] == c && t[|a| + 1..] == b;
  }

  const H1Open: string := "<h1 class=\"markdown-h1\">"
  const H2Open: string := "<h2 class=\"markdown-h2\">"
  const H3Open: string := "<h3 class=\"markdown-h3\">"
  const LiOpen: string := "<li class=\"markdown-li\">"

  /** `replace(/^### (.*$)/gim, ...)` on one line. */
  function H3Rule(line: string): string {
    if StartsWith(line, "### ") then H3Open + line[4..] + "</h3>" else line
  }

  /** `replace(/^## (.*$)/gim, ...)` on one line. */
  function H2Rule(line: string): string {
    if StartsWith(line, "## ") then H2Open + line[3..] + "</h2>" else line
  }

  /** `replace(/^# (.*$)/gim, ...)` on one line. */
  function H1Rule(line: string): string {
    if StartsWith(line, "# ") then H1Open + line[2..] + "</h1>" else line
  }

  /** `replace(/^- (.*$)/gim, ...)` on one line. */
  function ListRule(line: string): string {
    if StartsWith(line, "- ") then LiOpen + line[2..] + "</li>" else line
  }

  /** What the three heading passes do to one line, decided at once: the most `#` marks
      win. */
  function Heading(line: string): string {
    if StartsWith(line, "### ") then H3Open + line[4..] + "</h3>"
    else if StartsWith(line, "## ") then H2Open + line[3..] + "</h2>"
    else if StartsWith(line, "# ") then H1Open + line[2..] + "</h1>"
    else line
  }

  /** `replace(/\n/gim, '<br>')`. */
  function BreakLines(s: string): (r: string)
    ensures '\n' !in r
    ensures '\n' !in s ==> r == s
  {
    if s == [] then []
    else (if s[0] == '\n' then "<br>" else [s[0]]) + BreakLines(s[1..])
  }

  function RenderMarkdown(content: string, inline: string -> string): string {
    if content == [] then []
    else
      var headed := MapLines(H1Rule, MapLines(H2Rule, MapLines(H3Rule, content)));
      BreakLines(MapLines(ListRule, inline(headed)))
  }

  /** The opening and closing tags are single lines. */
  lemma TagsAreLines()
    ensures NoTerminator(H1Open) && NoTerminator(H2Open) && NoTerminator(H3Open)
    ensures NoTerminator("</h1>") && NoTerminator("</h2>") && NoTerminator("</h3>")
  {
    H1OpenIsLine();
    H2OpenIsLine();
    H3OpenIsLine();
  }

  lemma H1OpenIsLine()
    ensures NoTerminator(H1Open)
  {
  }

  lemma H2OpenIsLine()
    ensures NoTerminator(H2Open)
  {
  }

  lemma H3OpenIsLine()
    ensures NoTerminator(H3Open)
  {
  }

  lemma AppendLines(a: string, b: string, c: string)
    requires NoTerminator(a) && NoTerminator(b) && NoTerminator(c)
    ensures NoTerminator(a + b + c)
  {
  }

  /** Each heading rule keeps a line a single line. */
  lemma HeadingRulesKeepLines(line: string)
    requires NoTerminator(line)
    ensures NoTerminator(H3Rule(line)) && NoTerminator(H2Rule(line))
  {
    TagsAreLines();
    if StartsWith(line, "### ") {
      AppendLines(H3Open, line[4..], "</h3>");
    }
    if StartsWith(line, "## ") {
      AppendLines(H2Open, line[3..], "</h2>");
    }
  }

  /** On one line the three passes give the single decision: a `### ` line becomes one h3
      heading, never an h1 or h2, because the h3 rule runs first and its output starts
      with `<`. */
  lemma HeadingPassesOnLine(line: string)
    ensures H1Rule(H2Rule(H3Rule(line))) == Heading(line)
  {
    if StartsWith(line, "### ") {
      assert H3Rule(line)[0] == '<';
    } else if StartsWith(line, "## ") {
      assert H2Rule(line)[0] == '<';
    }
  }

  /** The three heading passes over a whole text rewrite each line by `Heading`. */
  lemma HeadingPasses(s: string)
    ensures MapLines(H1Rule, MapLines(H2Rule, MapLines(H3Rule, s))) == MapLines(Heading, s)
  {
    forall line | NoTerminator(line)
      ensures NoTerminator(H3Rule(line)) && NoTerminator(H2Rule(line))
    {
      HeadingRulesKeepLines(line);
    }
    forall line | NoTerminator(line)
      ensures Heading(line) == H1Rule(H2Rule(H3Rule(line)))
    {
      HeadingPassesOnLine(line);
    }
    MapLinesFuse(H2Rule, H3Rule, H2OfH3, s);
    MapLinesFuse(H1Rule, H2OfH3, Heading, s);
  }

  /** The h2 pass after the h3 pass, on one line. */
  function H2OfH3(line: string): string {
    H2Rule(H3Rule(line))
  }

  /** The rendering of empty content is empty, and no rendering holds a line feed: each one
      becomes `<br>`. */
  lemma RenderShape(content: string, inline: string -> string)
    ensures content == [] ==> RenderMarkdown(content, inline) == []
    ensures '\n' !in RenderMarkdown(content, inline)
  {
  }

  /** `#{1,6}` followed by white space at `p`: the whole run of `#` must be followed by white
      space, since a shorter run is followed by another `#`. */
  predicate HeadingMarkAt(s: string, p: nat) {
    var h := HashRunEnd(s, p);
    p < h <= p + 6 && h < |s| && IsSpace(s[h])
  }

  /** Where the run of `#` that starts at `p` ends. */
  function HashRunEnd(s: string, p: nat): (e: nat)
    ensures p <= e
    ensures e <= |s| || e == p
    ensures forall m :: p <= m < e ==> s[m] == '#'
    ensures e < |s| ==> s[e] != '#'
    decreases |s| - p
  {
    if p < |s| && s[p] == '#' then HashRunEnd(s, p + 1) else p
  }

  /** `^` in multiline mode: the start of the text or just after a line terminator. */
  predicate LineStart(s: string, p: nat) {
    p == 0 || (p <= |s| && IsLineTerminator(s[p - 1]))
  }

  /** `replace(/^#{1,6}\s+/gm, '')` from position `i` on: the scan goes left to right, and
      after a removed mark it resumes where the mark ended (the white space may have run
      over line ends, so the next line can be a heading too). */
  function StripHeadingsFrom(s: string, i: nat): (r: string)
    requires i <= |s|
    ensures |r| <= |s| - i
    decreases |s| - i
  {
    if i == |s| then []
    else if LineStart(s, i) && HeadingMarkAt(s, i) then StripHeadingsFrom(s, SpaceRunEnd(s, HashRunEnd(s, i)))
    else [s[i]] + StripHeadingsFrom(s, i + 1)
  }

  function StripHeadings(s: string): string {
    StripHeadingsFrom(s, 0)
  }

  /** `replace(/^- /gm, '')` on one line: a leading list marker goes. */
  function DropDash(line: string): string {
    if StartsWith(line, "- ") then line[2..] else line
  }

  function ExtractPlainText(markdown: string, unwrap: string -> string): (r: string)
    ensures IsTrimmed(r)
  {
    Trim(MapLines(DropDash, unwrap(StripHeadings(markdown))))
  }

  /** No heading mark at a line start from `i` on: the rest of the text is kept as it is. */
  lemma {:induction false} NoHeadingKeeps(s: string, i: nat)
    requires i <= |s|
    requires forall p :: i <= p < |s| ==> !(LineStart(s, p) && HeadingMarkAt(s, p))
    ensures StripHeadingsFrom(s, i) == s[i..]
    decreases |s| - i
  {
    if i < |s| {
      NoHeadingKeeps(s, i + 1);
      assert s[i..] == [s[i]] + s[i + 1..];
    }
  }

  /** A single heading line loses its `#` marks and the white space after them, and
      nothing else. */
  lemma HeadingLineStripped(line: string)
    requires NoTerminator(line) && HeadingMarkAt(line, 0)
    ensures StripHeadings(line) == line[SpaceRunEnd(line, HashRunEnd(line, 0))..]
  {
    var e := SpaceRunEnd(line, HashRunEnd(line, 0));
    forall p | e <= p < |line|
      ensures !(LineStart(line, p) && HeadingMarkAt(line, p))
    {
      if p > 0 {
        assert !IsLineTerminator(line[p - 1]);
      }
    }
    NoHeadingKeeps(line, e);
  }

  /** `substring(0, n)` on a longer text: a negative end counts as 0. */
  function Prefix(s: string, n: int): (r: string)
    requires n <= |s|
    ensures |r| == (if n < 0 then 0 else n) && r == s[..|r|]
  {
    if n < 0 then [] else s[..n]
  }

  function GeneratePreviewText(markdown: string, maxLength: int, unwrap: string -> string): string {
    var plainText := ExtractPlainText(markdown, unwrap);
    if |plainText| > maxLength then Prefix(plainText, maxLength) + "..." else plainText
  }

  /** A plain text that fits is the preview; a longer one is cut to `maxLength` characters
      (none for a negative limit) followed by `...`, so a preview is never longer than
      `maxLength + 3`, and it always starts with the plain text's first characters. */
  lemma PreviewShape(markdown: string, maxLength: int, unwrap: string -> string)
    ensures var plainText := ExtractPlainText(markdown, unwrap);
            var r := GeneratePreviewText(markdown, maxLength, unwrap);
            && (|plainText| <= maxLength ==> r == plainText)
            && (|plainText| > maxLength ==> EndsWith(r, "...") && |r| == (if maxLength < 0 then 0 else maxLength) + 3)
            && |r| <= (if maxLength < 0 then 0 else maxLength) + 3
            && exists k :: 0 <= k <= |plainText| && StartsWith(r, plainText[..k]) && (k == |plainText| || k == |r| - 3)
  {
    CutShape(ExtractPlainText(markdown, unwrap), maxLength);
  }

  /** The preview cut on the plain text alone. */
  lemma CutShape(plainText: string, maxLength: int)
    ensures var r := if |plainText| > maxLength then Prefix(plainText, maxLength) + "..." else plainText;
            && (|plainText| <= maxLength ==> r == plainText)
            && (|plainText| > maxLength ==> EndsWith(r, "...") && |r| == (if maxLength < 0 then 0 else maxLength) + 3)
            && |r| <= (if maxLength < 0 then 0 else maxLength) + 3
            && exists k :: 0 <= k <= |plainText| && StartsWith(r, plainText[..k]) && (k == |plainText| || k == |r| - 3)
  {
    if |plainText| > maxLength {
      var k := if maxLength < 0 then 0 else maxLength;
      var r := Prefix(plainText, maxLength) + "...";
      assert r[..k] == plainText[..k];
    } else {
      assert plainText[..|plainText|] == plainText;
    }
  }
}
