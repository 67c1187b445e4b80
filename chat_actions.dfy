/** The chat message actions (src/hooks/useChatActions.ts): the notice shown after copying a
    message, the file name a downloaded answer gets, and downloading several files. The
    clipboard and the browser download are not modelled: whether copying succeeded is given,
    and a download is the name and content it saves. */
module ChatActions {
  import opened Common
  import opened Messages
  import opened SanitizeFileName
  import opened ExtractKeyword

  const CopyKeywordLength: nat := 30
  const DownloadKeywordLength: nat := 50
  const DefaultBase: string := "message"

  /** A file the browser saves: `downloadText` stores `content` as `<fileName>.txt`. */
  datatype Download = Download(savedAs: string, content: string)

  /** `{ fileName, content }`. */
  datatype MultipleFileItem = MultipleFileItem(fileName: string, content: string)

  /** The toast after a copy: the copied keyword (at most 30 characters and an ellipsis) and
      whether it was the user's keyword or the answer; the plain success; the failure. */
  datatype CopyNotice = KeywordCopied(shown: string, isKeyword: bool) | Copied | CopyFailed

  /** `downloadText({ fileName, content })`. */
  function DownloadText(fileName: string, content: string): Download {
    Download(fileName + ".txt", content)
  }

  /** A keyword over 30 characters is cut to its first 30 and `...`. */
  function TruncateKeyword(keyword: string): (r: string)
    ensures |keyword| <= CopyKeywordLength ==> r == keyword
    ensures |keyword| > CopyKeywordLength ==> |r| == CopyKeywordLength + 3 && r[..CopyKeywordLength] == keyword[..CopyKeywordLength] && EndsWith(r, "...")
  {
    if |keyword| > CopyKeywordLength then keyword[..CopyKeywordLength] + "..." else keyword
  }

  /** `copyMsg`: the notice after copying, given whether the clipboard write succeeded. */
  function CopyNoticeFor(copied: bool, msg: Option<Message>): (r: CopyNotice)
    ensures !copied <==> r == CopyFailed
    ensures r.KeywordCopied? <==> copied && msg.Some? && Truthy(msg.value.keyword)
    ensures r.KeywordCopied? ==> |r.shown| <= CopyKeywordLength + 3 && (r.isKeyword <==> msg.value.role == User)
  {
    if !copied then CopyFailed
    else if msg.Some? && Truthy(msg.value.keyword) then KeywordCopied(TruncateKeyword(msg.value.keyword.value), msg.value.role == User)
    else Copied
  }

  /** The keyword a download is named after: over 50 characters it is a whole manuscript, and
      the keyword extracted from it is used instead. */
  function DownloadKeyword(rawKeyword: string): string {
    if |rawKeyword| > DownloadKeywordLength then ExtractKeywordDisplay(rawKeyword) else rawKeyword
  }

  /** `handleDownloadClick`'s file name: the sanitized keyword (or `message`), a dash, and the
      number of characters of the content that are not white space. */
  function DownloadFileName(msg: Message): string {
    var keyword := DownloadKeyword(OrElse(msg.keyword, ""));
    Sanitize(if keyword == [] then DefaultBase else keyword) + "-" + NatToString(CountNonSpace(msg.content))
  }

  /** `handleDownloadClick`: the answer's content saved under its derived name. */
  function HandleDownloadClick(msg: Message): (r: Download)
    ensures r.content == msg.content && EndsWith(r.savedAs, ".txt")
  {
    DownloadText(DownloadFileName(msg), msg.content)
  }

  /** A clean base, a dash and digits make a name with no forbidden character that ends in
      a dash and those digits. */
  lemma DashedSafe(base: string, digits: string)
    requires forall c :: c in base ==> !IsInvalid(c)
    requires forall i :: 0 <= i < |digits| ==> IsDigit(digits[i])
    ensures var r := base + "-" + digits;
            && (forall c :: c in r ==> !IsInvalid(c))
            && EndsWith(r, "-" + digits)
  {
    var r := base + "-" + digits;
    forall c | c in r ensures !IsInvalid(c) {
      var k :| 0 <= k < |r| && r[k] == c;
      if k < |base| {
        assert c in base;
      } else if k > |base| {
        assert IsDigit(digits[k - |base| - 1]);
      }
    }
    assert r[|r| - |digits| - 1..] == "-" + digits;
  }

  /** A derived download name is safe: no forbidden or control character, no leading white
      space, and it ends in a dash and the decimal count of the content's non-white-space
      characters. */
  lemma DownloadFileNameSafe(msg: Message)
    ensures var r := DownloadFileName(msg);
            && (forall c :: c in r ==> !IsInvalid(c))
            && !IsSpace(r[0])
            && EndsWith(r, "-" + NatToString(CountNonSpace(msg.content)))
  {
    var keyword := DownloadKeyword(OrElse(msg.keyword, ""));
    var named := if keyword == [] then DefaultBase else keyword;
    var digits := NatToString(CountNonSpace(msg.content));
    SanitizeClean(named);
    DashedSafe(Sanitize(named), digits);
  }

  /** Two answers with the same keyword but different amounts of text download under
      different names. */
  lemma DownloadNamesDiffer(a: Message, b: Message)
    requires a.keyword == b.keyword
    requires CountNonSpace(a.content) != CountNonSpace(b.content)
    ensures DownloadFileName(a) != DownloadFileName(b)
  {
    var keyword := DownloadKeyword(OrElse(a.keyword, ""));
    var base := Sanitize(if keyword == [] then DefaultBase else keyword);
    DashedDiffer(base, CountNonSpace(a.content), CountNonSpace(b.content));
  }

  /** The same base with different counts gives different names. */
  lemma DashedDiffer(base: string, m: nat, n: nat)
    requires m != n
    ensures base + "-" + NatToString(m) != base + "-" + NatToString(n)
  {
    if base + "-" + NatToString(m) == base + "-" + NatToString(n) {
      assert (base + "-" + NatToString(m))[|base| + 1..] == NatToString(m);
      assert (base + "-" + NatToString(n))[|base| + 1..] == NatToString(n);
      NatToStringInjective(m, n);
    }
  }

  /** Each file, in order, saved under its sanitized name. */
  function Saved(files: seq<MultipleFileItem>): (r: seq<Download>)
    ensures |r| == |files|
    decreases |files|
  {
    if files == [] then []
    else Saved(AllButLast(files)) + [DownloadText(Sanitize(Last(files).fileName), Last(files).content)]
  }

  /** The i-th download is the i-th file saved under its sanitized name. */
  lemma {:induction false} SavedAt(files: seq<MultipleFileItem>, i: nat)
    requires i < |files|
    ensures Saved(files)[i] == DownloadText(Sanitize(files[i].fileName), files[i].content)
    decreases |files|
  {
    if i < |files| - 1 {
      SavedAt(AllButLast(files), i);
    }
  }

  /** `downloadMultipleFiles`: nothing for no files; otherwise each file, in order, saved under
      its sanitized name, and a notice counting them. */
  method DownloadMultipleFiles(files: seq<MultipleFileItem>) returns (downloads: seq<Download>, notice: Option<nat>)
    ensures downloads == Saved(files)
    ensures notice == if files == [] then None else Some(|files|)
  {
    if |files| == 0 {
      return [], None;
    }
    downloads := [];
    for k := 0 to |files|
      invariant downloads == Saved(files[..k])
    {
      var safeFileName := Sanitize(files[k].fileName);
      assert AllButLast(files[..k + 1]) == files[..k];
      downloads := downloads + [DownloadText(safeFileName, files[k].content)];
    }
    assert files[..|files|] == files;
    notice := Some(|files|);
  }

  /** Every file of a multiple download is saved under a clean, non-empty name with the
      `.txt` extension. */
  lemma MultipleNamesSafe(files: seq<MultipleFileItem>, i: nat)
    requires i < |files|
    ensures Saved(files)[i].content == files[i].content
    ensures var saved := Saved(files)[i].savedAs;
            && EndsWith(saved, ".txt")
            && |saved| > |".txt"|
            && forall c :: c in saved ==> !IsInvalid(c)
  {
    SavedAt(files, i);
    SanitizeClean(files[i].fileName);
    TxtNameSafe(Sanitize(files[i].fileName));
  }

  /** A clean, non-empty name with `.txt` appended is clean, ends in `.txt` and is longer
      than the extension. */
  lemma TxtNameSafe(name: string)
    requires name != [] && forall c :: c in name ==> !IsInvalid(c)
    ensures var saved := name + ".txt";
            && EndsWith(saved, ".txt")
            && |saved| > |".txt"|
            && forall c :: c in saved ==> !IsInvalid(c)
  {
    var saved := name + ".txt";
    assert saved[|saved| - 4..] == ".txt";
    forall c | c in saved ensures !IsInvalid(c) {
      if c !in name {
        assert c in ".txt";
      }
    }
  }
}
