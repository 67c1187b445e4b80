/** `extractKeywordDisplay` (src/utils/_extractKeyword.ts): a short keyword from a long
    manuscript. The text after the first `키워드:` label wins; without one, the first line is
    used with a leading `제목:` label removed. Either way the text is cut before the first
    shop-detail label (업체명, 주소, 영업시간, 평일, 주말, 주차 followed by a colon) and before the
    first `(`.

    The regular expressions are modelled by what they match: white space is `\s` (the set
    `trim` removes), a colon is `:` or the full-width `：`, and the `i` flag changes nothing
    because none of the letters in the patterns has case. */
module ExtractKeyword {
  import opened Common

  const KeywordLabel: string := "키워드"
  const TitleLabel: string := "제목"

  /** The labels a keyword stops at. */
  const StopLabels: seq<string> := ["업체명", "주소", "영업시간", "평일", "주말", "주차"]

  /** `[:：]`. */
  predicate IsColon(c: char) {
    c == ':' || c == '：'
  }

  /** The first position at or after `i` holding `ch`, or the end of the text. */
  function CharEnd(s: string, i: nat, ch: char): (e: nat)
    requires i <= |s|
    ensures i <= e <= |s|
    ensures forall m :: i <= m < e ==> s[m] != ch
    ensures e == |s| || s[e] == ch
    decreases |s| - i
  {
    if i < |s| && s[i] != ch then CharEnd(s, i + 1, ch) else i
  }

  /** `s.split(ch)[0]` for a one-character separator: the text before the first `ch`, or all
      of it. */
  function FirstPiece(s: string, ch: char): (r: string)
    ensures |r| <= |s| && r == s[..|r|] && ch !in r
    ensures |r| < |s| ==> s[|r|] == ch
  {
    s[..CharEnd(s, 0, ch)]
  }

  /** The last position in `[lo, hi)` that does not hold a line feed. */
  function LastNonNewline(s: string, lo: nat, hi: nat): (r: Option<nat>)
    requires lo <= hi <= |s|
    ensures r.Some? ==> lo <= r.value < hi && s[r.value] != '\n'
    ensures r.Some? ==> forall m :: r.value < m < hi ==> s[m] == '\n'
    ensures r.None? ==> forall m :: lo <= m < hi ==> s[m] == '\n'
    decreases hi - lo
  {
    if hi == lo then None
    else if s[hi - 1] != '\n' then Some(hi - 1)
    else LastNonNewline(s, lo, hi - 1)
  }

  /** What the group of `/키워드\s*[:：]\s*([^\n]+)/` captures when the match is tried at `p`.
      The white space before the colon is never given back, because a colon is not white
      space. The white space after the colon is taken greedily, line feeds included, so the
      capture can start on a later line. When that run reaches the end of the text, the
      match backtracks to the last character of the run that is not a line feed, and the
      capture is the rest of the line from there. */
  function CaptureAt(s: string, p: nat): (r: Option<string>)
    ensures r.Some? ==> r.value != [] && '\n' !in r.value
  {
    if !OccursAt(s, KeywordLabel, p) then None
    else
      var c := SpaceRunEnd(s, p + |KeywordLabel|);
      if c == |s| || !IsColon(s[c]) then None
      else
        var e := SpaceRunEnd(s, c + 1);
        if e < |s| then Some(s[e..CharEnd(s, e, '\n')])
        else
          match LastNonNewline(s, c + 1, e)
          case None => None
          case Some(j) => Some(s[j..CharEnd(s, j, '\n')])
  }

  /** `text.match(...)`: the leftmost position at or after `from` where the keyword pattern
      matches. */
  function FirstKeywordMatch(s: string, from: nat): (r: Option<nat>)
    ensures r.Some? ==> from <= r.value && CaptureAt(s, r.value).Some?
    ensures r.Some? ==> forall q :: from <= q < r.value ==> CaptureAt(s, q).None?
    ensures r.None? ==> forall q :: from <= q ==> CaptureAt(s, q).None?
    decreases |s| - from
  {
    if from + |KeywordLabel| > |s| then None
    else if CaptureAt(s, from).Some? then Some(from)
    else FirstKeywordMatch(s, from + 1)
  }

  /** `\s*[:：]` matches at `i`: white space, then a colon. */
  predicate ColonAfterSpace(s: string, i: nat) {
    exists c :: i <= c < |s| && IsColon(s[c]) && forall m :: i <= m < c ==> IsSpace(s[m])
  }

  /** `word\s*[:：]` matches at `p`. */
  predicate WordThenColon(s: string, word: string, p: nat) {
    OccursAt(s, word, p) && ColonAfterSpace(s, p + |word|)
  }

  /** `/(?:업체명|주소|영업시간|평일|주말|주차)\s*[:：]/` matches at `p`. */
  predicate LabelAt(s: string, p: nat) {
    exists k :: 0 <= k < |StopLabels| && WordThenColon(s, StopLabels[k], p)
  }

  /** No shop-detail label anywhere in `s`. */
  predicate NoLabel(s: string) {
    forall p :: 0 <= p < |s| ==> !LabelAt(s, p)
  }

  /** The leftmost label match at or after `from`. */
  function FirstLabel(s: string, from: nat): (r: Option<nat>)
    ensures r.Some? ==> from <= r.value < |s| && LabelAt(s, r.value)
    decreases |s| - from
  {
    if from >= |s| then None
    else if LabelAt(s, from) then Some(from)
    else FirstLabel(s, from + 1)
  }

  /** No label match lies between `from` and the one found, or after `from` when none is
      found. */
  lemma {:induction false} FirstLabelIsFirst(s: string, from: nat)
    ensures FirstLabel(s, from).Some? ==> forall q :: from <= q < FirstLabel(s, from).value ==> !LabelAt(s, q)
    ensures FirstLabel(s, from).None? ==> forall q :: from <= q < |s| ==> !LabelAt(s, q)
    decreases |s| - from
  {
    if from < |s| && !LabelAt(s, from) {
      var next := FirstLabel(s, from + 1);
      assert FirstLabel(s, from) == next;
      FirstLabelIsFirst(s, from + 1);
      var bound := if next.Some? then next.value else |s|;
      assert forall q :: from < q < bound ==> !LabelAt(s, q);
    }
  }

  /** `split(LABEL_PATTERN)[0]`: the text before the leftmost label match, or all of it. */
  function CutLabels(s: string): (r: string)
    ensures |r| <= |s| && r == s[..|r|]
    ensures |r| < |s| ==> LabelAt(s, |r|)
    ensures forall q :: 0 <= q < |r| ==> !LabelAt(s, q)
  {
    FirstLabelIsFirst(s, 0);
    match FirstLabel(s, 0)
    case None => s
    case Some(p) => s[..p]
  }

  /** The `제목` replacement: a leading title label, the white space after it, its colon and
      the white space after the colon go. */
  function StripTitle(s: string): (r: string)
    ensures |r| <= |s| && r == s[|s| - |r|..]
  {
    if !OccursAt(s, TitleLabel, 0) then s
    else
      var c := SpaceRunEnd(s, |TitleLabel|);
      if c == |s| || !IsColon(s[c]) then s else s[SpaceRunEnd(s, c + 1)..]
  }

  /** The steps both branches share: cut at the first label and trim, then keep the trimmed
      text before the first `(`, unless that is empty. */
  function Shorten(t: string): (r: string)
    ensures IsTrimmed(r)
  {
    var extracted := Trim(CutLabels(t));
    var beforeParenthesis := Trim(FirstPiece(extracted, '('));
    if beforeParenthesis != [] then beforeParenthesis else extracted
  }

  function ExtractKeywordDisplay(text: string): (r: string)
    ensures IsTrimmed(r)
  {
    if text == [] then []
    else
      match FirstKeywordMatch(text, 0)
      case Some(p) => Shorten(Trim(CaptureAt(text, p).value))
      case None => Shorten(Trim(StripTitle(Trim(FirstPiece(text, '\n')))))
  }

  /** Every character of a piece of `s` is a character of `s`. */
  lemma PieceChars(s: string, a: nat, b: nat)
    requires a <= b <= |s|
    ensures forall c :: c in s[a..b] ==> c in s
  {
    forall c | c in s[a..b] ensures c in s {
      var k :| 0 <= k < b - a && s[a..b][k] == c;
      assert s[a + k] == c;
    }
  }

  /** `trim` returns a piece of its input. */
  lemma TrimPiece(s: string) returns (a: nat)
    ensures a + |Trim(s)| <= |s| && Trim(s) == s[a..a + |Trim(s)|]
  {
    TrimRemovesSpace(s);
    a := TrimOffset(s);
  }

  /** A colon after white space inside a piece of a text is one in the text. */
  lemma ColonInPiece(s: string, a: nat, b: nat, i: nat)
    requires a <= b <= |s|
    requires ColonAfterSpace(s[a..b], i)
    ensures ColonAfterSpace(s, a + i)
  {
    var t := s[a..b];
    var c :| i <= c < |t| && IsColon(t[c]) && forall m :: i <= m < c ==> IsSpace(t[m]);
    assert IsColon(s[a + c]);
    forall m | a + i <= m < a + c
      ensures IsSpace(s[m])
    {
      assert s[m] == t[m - a];
    }
  }

  /** A word and colon inside a piece of a text are in the text. */
  lemma WordInPiece(s: string, a: nat, b: nat, word: string, q: nat)
    requires a <= b <= |s|
    requires WordThenColon(s[a..b], word, q)
    ensures WordThenColon(s, word, a + q)
  {
    var t := s[a..b];
    forall j | 0 <= j < |word|
      ensures s[a + q + j] == word[j]
    {
      assert t[q + j] == word[j];
    }
    assert s[a + q..a + q + |word|] == word;
    ColonInPiece(s, a, b, q + |word|);
  }

  /** A label match inside a piece of a text is a label match of the text. */
  lemma LabelInPiece(s: string, a: nat, b: nat, q: nat)
    requires a <= b <= |s|
    requires LabelAt(s[a..b], q)
    ensures LabelAt(s, a + q)
  {
    var k :| 0 <= k < |StopLabels| && WordThenColon(s[a..b], StopLabels[k], q);
    WordInPiece(s, a, b, StopLabels[k], q);
  }

  /** A piece of a label-free text is label-free. */
  lemma PieceNoLabel(s: string, a: nat, b: nat)
    requires a <= b <= |s|
    requires NoLabel(s)
    ensures NoLabel(s[a..b])
  {
    forall q | 0 <= q < b - a && LabelAt(s[a..b], q)
      ensures false
    {
      LabelInPiece(s, a, b, q);
    }
  }

  /** The text before the first label match holds no label. */
  lemma CutLabelsNoLabel(s: string)
    ensures NoLabel(CutLabels(s))
  {
    var r := CutLabels(s);
    forall q | 0 <= q < |r| && LabelAt(r, q)
      ensures false
    {
      LabelInPiece(s, 0, |r|, q);
    }
  }

  /** A piece of a text holds only the text's characters, and no label when the text holds
      none. */
  lemma PieceShape(s: string, a: nat, b: nat, piece: string)
    requires a <= b <= |s| && piece == s[a..b]
    ensures forall c :: c in piece ==> c in s
    ensures NoLabel(s) ==> NoLabel(piece)
  {
    PieceChars(s, a, b);
    if NoLabel(s) {
      PieceNoLabel(s, a, b);
    }
  }

  /** Trimming keeps only characters of its input, and adds no label. */
  lemma TrimShape(s: string)
    ensures forall c :: c in Trim(s) ==> c in s
    ensures NoLabel(s) ==> NoLabel(Trim(s))
  {
    var a := TrimPiece(s);
    PieceShape(s, a, a + |Trim(s)|, Trim(s));
  }

  /** The label cut, trimmed, holds no label and only characters of its input. */
  lemma ExtractedShape(t: string)
    ensures var x := Trim(CutLabels(t));
            NoLabel(x) && forall c :: c in x ==> c in t
  {
    var cut := CutLabels(t);
    CutLabelsNoLabel(t);
    PieceShape(t, 0, |cut|, cut);
    TrimShape(cut);
  }

  /** The trimmed text before the first `(` holds no `(`, and no label or character its
      input lacks. */
  lemma BeforeParenthesisShape(x: string)
    ensures var y := Trim(FirstPiece(x, '('));
            && '(' !in y
            && (forall c :: c in y ==> c in x)
            && (NoLabel(x) ==> NoLabel(y))
  {
    var first := FirstPiece(x, '(');
    PieceShape(x, 0, |first|, first);
    TrimShape(first);
  }

  /** A blank start of a text that is not empty starts with white space. */
  lemma BlankStart(x: string, n: nat)
    requires n <= |x| && IsBlank(x[..n])
    ensures n > 0 ==> IsSpace(x[0])
  {
    if n > 0 {
      assert x[..n][0] == x[0];
    }
  }

  /** A trimmed text with a `(` and nothing but white space before the first one begins
      with it. */
  lemma BlankBeforeParenthesis(x: string)
    requires IsTrimmed(x) && '(' in x
    requires IsBlank(FirstPiece(x, '('))
    ensures x[0] == '('
  {
    var first := FirstPiece(x, '(');
    assert first != x;
    assert x[..|x|] == x;
    BlankStart(x, |first|);
  }

  /** What `Shorten` returns has no label and no character its input lacks, and it holds a
      `(` only when it begins with one (when nothing but white space stands before the first
      parenthesis, the text is kept uncut). */
  lemma ShortenShape(t: string)
    ensures var r := Shorten(t);
            && NoLabel(r)
            && (forall c :: c in r ==> c in t)
            && ('(' in r ==> r[0] == '(')
  {
    var x := Trim(CutLabels(t));
    ExtractedShape(t);
    BeforeParenthesisShape(x);
    if Trim(FirstPiece(x, '(')) == [] && '(' in x {
      TrimEmpty(FirstPiece(x, '('));
      BlankBeforeParenthesis(x);
    }
  }

  lemma TrimChars(s: string)
    ensures forall c :: c in Trim(s) ==> c in s
  {
    var a := TrimPiece(s);
    PieceChars(s, a, a + |Trim(s)|);
  }

  /** What `Shorten` makes of a trimmed capture holds no line feed. */
  lemma CaptureShape(captured: string)
    requires '\n' !in captured
    ensures '\n' !in Shorten(Trim(captured))
  {
    TrimChars(captured);
    ShortenShape(Trim(captured));
  }

  /** What `Shorten` makes of the first line holds no line feed. */
  lemma FirstLineShape(text: string)
    ensures '\n' !in Shorten(Trim(StripTitle(Trim(FirstPiece(text, '\n')))))
  {
    var t1 := Trim(FirstPiece(text, '\n'));
    TrimChars(FirstPiece(text, '\n'));
    var t2 := StripTitle(t1);
    PieceChars(t1, |t1| - |t2|, |t1|);
    TrimChars(t2);
    ShortenShape(Trim(t2));
  }

  /** Empty input gives the empty result. The result never holds a line feed or a
      shop-detail label, and holds a `(` only at its start. */
  lemma ResultShape(text: string)
    ensures var r := ExtractKeywordDisplay(text);
            && (text == [] ==> r == [])
            && '\n' !in r
            && NoLabel(r)
            && ('(' in r ==> r[0] == '(')
  {
    if text != [] {
      match FirstKeywordMatch(text, 0)
      case Some(p) =>
        CaptureShape(CaptureAt(text, p).value);
        ShortenShape(Trim(CaptureAt(text, p).value));
      case None =>
        FirstLineShape(text);
        ShortenShape(Trim(StripTitle(Trim(FirstPiece(text, '\n')))));
    }
  }

  /** The leftmost keyword match decides the result, however the rest of the text reads. */
  lemma KeywordBranch(text: string, p: nat)
    requires CaptureAt(text, p).Some?
    requires forall q :: 0 <= q < p ==> CaptureAt(text, q).None?
    ensures ExtractKeywordDisplay(text) == Shorten(Trim(CaptureAt(text, p).value))
  {
    var found := FirstKeywordMatch(text, 0);
    assert found.Some?;
    assert found.value == p;
  }

  lemma NoKeywordMatch(text: string)
    requires forall q: nat :: CaptureAt(text, q).None?
    ensures FirstKeywordMatch(text, 0).None?
  {
  }

  /** Without a keyword match anywhere, the first line alone decides the result: its title
      label is stripped and it is shortened, and every character of the result is one of
      that line. */
  lemma FirstLineBranch(text: string)
    requires text != []
    requires forall q: nat :: CaptureAt(text, q).None?
    ensures ExtractKeywordDisplay(text) == Shorten(Trim(StripTitle(Trim(FirstPiece(text, '\n')))))
    ensures forall c :: c in ExtractKeywordDisplay(text) ==> c in FirstPiece(text, '\n')
  {
    NoKeywordMatch(text);
    var line := FirstPiece(text, '\n');
    var t1 := Trim(line);
    TrimChars(line);
    var t2 := StripTitle(t1);
    PieceChars(t1, |t1| - |t2|, |t1|);
    TrimChars(t2);
    ShortenShape(Trim(t2));
  }

  /** The capture at such a label is white space only. */
  lemma BlankCapture(text: string, p: nat, c: nat)
    requires OccursAt(text, KeywordLabel, p)
    requires p + |KeywordLabel| <= c < |text| && IsColon(text[c])
    requires forall m :: p + |KeywordLabel| <= m < c ==> IsSpace(text[m])
    requires forall m :: c < m < |text| ==> IsSpace(text[m])
    requires exists m :: c < m < |text| && text[m] != '\n'
    ensures CaptureAt(text, p).Some? && IsBlank(CaptureAt(text, p).value)
  {
    SpaceRunEndAt(text, p + |KeywordLabel|, c);
    SpaceRunEndAt(text, c + 1, |text|);
    var m :| c < m < |text| && text[m] != '\n';
    assert LastNonNewline(text, c + 1, |text|).Some?;
    var j := LastNonNewline(text, c + 1, |text|).value;
    CaptureAtTail(text, p, c, j);
    SliceBlank(text, j, CharEnd(text, j, '\n'));
  }

  /** The run of white space from `i` ends at the first position that is not white space. */
  lemma SpaceRunEndAt(s: string, i: nat, c: nat)
    requires i <= c <= |s| && forall m :: i <= m < c ==> IsSpace(s[m])
    requires c == |s| || !IsSpace(s[c])
    ensures SpaceRunEnd(s, i) == c
  {
  }

  /** The capture when the white space after the colon runs to the end of the text: the
      rest of the line from the last character of that run that is not a line feed. */
  lemma CaptureAtTail(s: string, p: nat, c: nat, j: nat)
    requires OccursAt(s, KeywordLabel, p) && SpaceRunEnd(s, p + |KeywordLabel|) == c
    requires c < |s| && IsColon(s[c]) && SpaceRunEnd(s, c + 1) == |s|
    requires LastNonNewline(s, c + 1, |s|) == Some(j)
    ensures CaptureAt(s, p) == Some(s[j..CharEnd(s, j, '\n')])
  {
    assert !(SpaceRunEnd(s, c + 1) < |s|);
  }

  /** A slice of white space is blank. */
  lemma SliceBlank(s: string, a: nat, b: nat)
    requires a <= b <= |s| && forall m :: a <= m < b ==> IsSpace(s[m])
    ensures IsBlank(s[a..b])
  {
    forall i | 0 <= i < b - a ensures IsSpace(s[a..b][i]) {
      assert s[a..b][i] == s[a + i];
    }
  }

  lemma ShortenEmpty()
    ensures Shorten([]) == []
  {
    assert CutLabels([]) == [];
    TrimEmpty([]);
  }

  /** A keyword label whose colon is followed only by white space that is not all line
      feeds gives the empty result: the match backtracks and captures one white-space
      character, which trims to nothing, and the first line is not tried. */
  lemma BlankAfterKeyword(text: string, p: nat, c: nat)
    requires OccursAt(text, KeywordLabel, p)
    requires forall q :: 0 <= q < p ==> CaptureAt(text, q).None?
    requires p + |KeywordLabel| <= c < |text| && IsColon(text[c])
    requires forall m :: p + |KeywordLabel| <= m < c ==> IsSpace(text[m])
    requires forall m :: c < m < |text| ==> IsSpace(text[m])
    requires exists m :: c < m < |text| && text[m] != '\n'
    ensures ExtractKeywordDisplay(text) == []
  {
    BlankCapture(text, p, c);
    KeywordBranch(text, p);
    TrimEmpty(CaptureAt(text, p).value);
    ShortenEmpty();
  }
}
