/** `sanitizeFileName` (src/utils/_sanitizeFileName.ts): a file name from free text. The
    forbidden characters and the control characters are deleted, each run of white space
    becomes one space, the ends are trimmed and trailing dots are removed; an empty outcome
    gives `result`. */
module SanitizeFileName {
  import opened Common

  const Fallback: string := "result"

  /** `[<>:"/\\|?*\u0000-\u001F]`. */
  predicate IsInvalid(c: char) {
    c == '<' || c == '>' || c == ':' || c == '"' || c == '/' || c == '\\' || c == '|' || c == '?' || c == '*' ||
    c < '\U{0020}'
  }

  /** `.replace(INVALID_CHAR_PATTERN, '')`. */
  function RemoveInvalid(s: string): (r: string)
    ensures |r| <= |s|
  {
    if s == [] then []
    else (if IsInvalid(s[0]) then [] else [s[0]]) + RemoveInvalid(s[1..])
  }

  /** Exactly the valid characters remain. */
  lemma {:induction false} RemoveInvalidMembers(s: string)
    ensures forall c :: c in RemoveInvalid(s) <==> c in s && !IsInvalid(c)
  {
    if s != [] {
      RemoveInvalidMembers(s[1..]);
      assert s == [s[0]] + s[1..];
    }
  }

  /** No two neighbouring characters are both white space. */
  predicate SingleSpaced(s: string) {
    forall i :: 0 <= i < |s| - 1 ==> !(IsSpace(s[i]) && IsSpace(s[i + 1]))
  }

  /** The only white space is the plain space. */
  predicate PlainSpaces(s: string) {
    forall c :: c in s && IsSpace(c) ==> c == ' '
  }

  /** `.replace(/\s+/g, ' ')`: each maximal run of white space becomes one space. */
  function CollapseSpace(s: string): (r: string)
    ensures |r| <= |s|
    decreases |s|
  {
    if s == [] then []
    else if IsSpace(s[0]) then [' '] + CollapseSpace(TrimStart(s[1..]))
    else [s[0]] + CollapseSpace(s[1..])
  }

  /** `r` has only single plain spaces, starts with white space exactly when a non-empty `s`
      does, and every other character of `r` comes from `s`. */
  predicate CollapsedFrom(r: string, s: string) {
    && SingleSpaced(r) && PlainSpaces(r)
    && (r != [] && s != [] ==> (IsSpace(r[0]) <==> IsSpace(s[0])))
    && (forall c :: c in r && c != ' ' ==> c in s)
  }

  /** After collapsing, the only white space is single plain spaces, the text starts with
      white space exactly when the input did, and every other character comes from the
      input. */
  lemma {:induction false} CollapseSpaceShape(s: string)
    ensures CollapsedFrom(CollapseSpace(s), s)
    decreases |s|
  {
    if s != [] {
      if IsSpace(s[0]) {
        CollapseSpaceShape(TrimStart(s[1..]));
        CollapseSpaceStep(s);
      } else {
        CollapseSpaceShape(s[1..]);
        CollapseCharStep(s);
      }
    }
  }

  /** A leading run of white space becomes one space before the collapsed rest. */
  lemma CollapseSpaceStep(s: string)
    requires s != [] && IsSpace(s[0])
    requires CollapsedFrom(CollapseSpace(TrimStart(s[1..])), TrimStart(s[1..]))
    ensures CollapsedFrom(CollapseSpace(s), s)
  {
    var rest := TrimStart(s[1..]);
    var tail := CollapseSpace(rest);
    assert CollapseSpace(s) == [' '] + tail;
    assert tail != [] ==> !IsSpace(tail[0]);
    ConsSpaced(' ', tail);
    forall c | c in [' '] + tail && c != ' ' ensures c in s {
      assert c in rest;
      InSuffix(s[1..], |s[1..]| - |rest|, c);
      InSuffix(s, 1, c);
    }
  }

  /** A character put in front of a single-spaced text keeps it single-spaced unless both
      it and the text's first character are white space. */
  lemma ConsSpaced(c: char, tail: string)
    requires SingleSpaced(tail) && PlainSpaces(tail)
    requires IsSpace(c) && tail != [] ==> !IsSpace(tail[0])
    requires IsSpace(c) ==> c == ' '
    ensures SingleSpaced([c] + tail) && PlainSpaces([c] + tail)
  {
    var r := [c] + tail;
    forall i | 0 <= i < |r| - 1 ensures !(IsSpace(r[i]) && IsSpace(r[i + 1])) {
      if i > 0 {
        assert r[i] == tail[i - 1] && r[i + 1] == tail[i];
      }
    }
  }

  /** A leading character that is not white space is kept before the collapsed rest. */
  lemma CollapseCharStep(s: string)
    requires s != [] && !IsSpace(s[0])
    requires CollapsedFrom(CollapseSpace(s[1..]), s[1..])
    ensures CollapsedFrom(CollapseSpace(s), s)
  {
    var tail := CollapseSpace(s[1..]);
    var r := [s[0]] + tail;
    assert CollapseSpace(s) == r;
    ConsSpaced(s[0], tail);
    forall c | c in r && c != ' ' ensures c in s {
      if c != s[0] {
        assert c in tail;
      }
    }
  }

  /** `.replace(/\.+$/, '')`: the dots at the very end go. */
  function StripTrailingDots(s: string): (r: string)
    ensures |r| <= |s| && r == s[..|r|]
    ensures r == [] || r[|r| - 1] != '.'
    ensures forall i :: |r| <= i < |s| ==> s[i] == '.'
    decreases |s|
  {
    if s != [] && s[|s| - 1] == '.' then StripTrailingDots(s[..|s| - 1]) else s
  }

  /** The text after the three replacements and the second trim, before the fallback. */
  function Cleaned(trimmed: string): string {
    StripTrailingDots(Trim(CollapseSpace(RemoveInvalid(trimmed))))
  }

  function Sanitize(value: string): (r: string)
    ensures |r| > 0
  {
    if value == [] then Fallback
    else
      var trimmed := Trim(value);
      if trimmed == [] then Fallback
      else
        var cleaned := Cleaned(trimmed);
        if |cleaned| > 0 then cleaned else Fallback
  }

  /** No forbidden or control character, only plain spaces, never two in a row. */
  predicate Clean(s: string) {
    (forall c :: c in s ==> !IsInvalid(c)) && PlainSpaces(s) && SingleSpaced(s)
  }

  /** A piece of a clean text is clean. */
  lemma PieceKeeps(s: string, r: string, a: nat)
    requires a + |r| <= |s| && r == s[a..a + |r|]
    requires Clean(s)
    ensures Clean(r)
  {
    forall c | c in r ensures c in s {
      var k :| 0 <= k < |r| && r[k] == c;
      assert s[a + k] == c;
    }
    forall i | 0 <= i < |r| - 1 ensures !(IsSpace(r[i]) && IsSpace(r[i + 1])) {
      assert r[i] == s[a + i] && r[i + 1] == s[a + i + 1];
    }
  }

  /** The first two replacements leave a clean text. */
  lemma CollapsedClean(trimmed: string)
    ensures Clean(CollapseSpace(RemoveInvalid(trimmed)))
  {
    var removed := RemoveInvalid(trimmed);
    RemoveInvalidMembers(trimmed);
    CollapseSpaceShape(removed);
  }

  /** Trimming a clean text leaves it clean. */
  lemma TrimKeepsClean(s: string)
    requires Clean(s)
    ensures Clean(Trim(s))
  {
    TrimRemovesSpace(s);
    PieceKeeps(s, Trim(s), TrimOffset(s));
  }

  /** What is left of a trimmed text after the cleaning is clean, does not start with white
      space and does not end with a dot. */
  lemma CleanedClean(trimmed: string)
    ensures var r := Cleaned(trimmed);
            && Clean(r)
            && (r != [] ==> !IsSpace(r[0]) && r[|r| - 1] != '.')
  {
    var collapsed := CollapseSpace(RemoveInvalid(trimmed));
    CollapsedClean(trimmed);
    var t := Trim(collapsed);
    TrimKeepsClean(collapsed);
    var cleaned := StripTrailingDots(t);
    PieceKeeps(t, cleaned, 0);
    if cleaned != [] {
      assert cleaned[0] == t[0];
    }
  }

  /** The result is never empty, holds no forbidden or control character, has only plain
      spaces and never two in a row, does not start with white space and does not end with
      a dot. */
  lemma SanitizeClean(value: string)
    ensures var r := Sanitize(value);
            && r != []
            && Clean(r)
            && !IsSpace(r[0])
            && r[|r| - 1] != '.'
  {
    if value != [] && Trim(value) != [] {
      CleanedClean(Trim(value));
    }
    var r := Sanitize(value);
    if r == Fallback {
      assert forall c :: c in r ==> !IsInvalid(c) && !IsSpace(c);
    }
  }

  /** Empty or blank input gives `result`. */
  lemma BlankGivesFallback(value: string)
    requires IsBlank(value)
    ensures Sanitize(value) == Fallback
  {
    TrimEmpty(value);
  }

  /** The result can end with a space: a space before trailing dots survives, because the
      dots are removed after the trim. Sanitizing that result again changes it. */
  lemma SpaceBeforeDots()
    ensures Sanitize("a .") == "a "
    ensures Sanitize(Sanitize("a .")) == "a"
  {
    TrimOfSpaceDot();
    CleanedSpaceDot();
    SanitizeOf("a .");
    TrimOfASpace();
    CleanedA();
    SanitizeOf("a ");
  }

  /** A text that is not blank and keeps something after cleaning becomes that cleaned
      text. */
  lemma SanitizeOf(value: string)
    requires Trim(value) != [] && Cleaned(Trim(value)) != []
    ensures Sanitize(value) == Cleaned(Trim(value))
  {
  }

  /** Texts that agree once the forbidden characters are deleted are cleaned alike. */
  lemma CleanedAfterRemoval(x: string, y: string)
    requires RemoveInvalid(x) == RemoveInvalid(y)
    ensures Cleaned(x) == Cleaned(y)
  {
  }

  /** Collapsing white space keeps a leading character that is not white space. */
  lemma CollapseKeep(c: char, t: string)
    requires !IsSpace(c)
    ensures CollapseSpace([c] + t) == [c] + CollapseSpace(t)
  {
    assert ([c] + t)[1..] == t;
  }

  lemma TrimOfSpaceDot()
    ensures Trim("a .") == "a ."
  {
    var s := "a .";
    assert !IsSpace(s[0]) && !IsSpace(s[2]);
    assert TrimStart(s) == s;
    assert TrimEnd(s) == s;
  }

  lemma TrimOfASpace()
    ensures Trim("a ") == "a"
  {
    var s := "a ";
    assert !IsSpace(s[0]) && IsSpace(s[1]);
    assert TrimStart(s) == s;
    assert s[..1] == "a";
    assert TrimEnd("a") == "a";
  }

  lemma CleanedSpaceDot()
    ensures Cleaned("a .") == "a "
  {
    RemoveSpaceDot();
    CollapseSpaceDot();
    TrimOfSpaceDot();
    StripSpaceDot();
  }

  lemma StripSpaceDot()
    ensures StripTrailingDots("a .") == "a "
  {
    var s := "a .";
    assert s[..2] == "a ";
    var t := "a ";
    assert t[1] != '.';
    assert StripTrailingDots(t) == t;
  }

  lemma RemoveSpaceDot()
    ensures RemoveInvalid("a .") == "a ."
  {
    RemoveDot();
    var s := "a .";
    assert !IsInvalid(s[0]);
    assert s[1..] == " .";
  }

  lemma RemoveDot()
    ensures RemoveInvalid(" .") == " ."
  {
    var s := " .";
    assert !IsInvalid(s[0]) && !IsInvalid(s[1]);
    assert s[1..] == ".";
    assert RemoveInvalid(s[1..][1..]) == [];
  }

  lemma CollapseSpaceDot()
    ensures CollapseSpace("a .") == "a ."
  {
    assert "a ." == ['a'] + " .";
    CollapseKeep('a', " .");
    CollapseDot();
  }

  lemma CollapseDot()
    ensures CollapseSpace(" .") == " ."
  {
    assert TrimStart(".") == ".";
    CollapseOneDot();
    assert " ."[1..] == ".";
  }

  lemma CollapseOneDot()
    ensures CollapseSpace(".") == "."
  {
  }

  lemma CleanedA()
    ensures Cleaned("a") == "a"
  {
    var s := "a";
    assert !IsInvalid(s[0]) && !IsSpace(s[0]) && s[0] != '.';
    assert RemoveInvalid(s) == s;
    assert CollapseSpace(s) == s;
    assert TrimStart(s) == s && TrimEnd(s) == s;
  }

  /** A tab or line feed is deleted, not turned into a space, because the control
      characters go before white space is collapsed. */
  lemma ControlCharactersDeleted()
    ensures Sanitize("a\tb\nc") == "abc"
  {
    TrimControls();
    RemoveControls();
    RemoveAbc();
    CleanedAfterRemoval("a\tb\nc", "abc");
    CleanedAbc();
    SanitizeOf("a\tb\nc");
  }

  lemma TrimControls()
    ensures Trim("a\tb\nc") == "a\tb\nc"
  {
    var s := "a\tb\nc";
    assert !IsSpace(s[0]) && !IsSpace(s[4]);
    assert TrimStart(s) == s && TrimEnd(s) == s;
  }

  lemma RemoveControls()
    ensures RemoveInvalid("a\tb\nc") == "abc"
  {
    RemoveTail();
    var s := "a\tb\nc";
    assert !IsInvalid(s[0]) && IsInvalid(s[1]);
    assert s[1..] == "\tb\nc" && s[2..] == "b\nc";
    assert s[1..][1..] == s[2..];
  }

  lemma RemoveTail()
    ensures RemoveInvalid("b\nc") == "bc"
  {
    var s := "b\nc";
    assert !IsInvalid(s[0]) && IsInvalid(s[1]) && !IsInvalid(s[2]);
    assert s[1..] == "\nc" && s[2..] == "c";
    assert s[1..][1..] == s[2..];
    assert s[2..][1..] == [];
  }

  lemma CleanedAbc()
    ensures Cleaned("abc") == "abc"
  {
    RemoveAbc();
    CollapseAbc();
    var s := "abc";
    assert !IsSpace(s[0]) && !IsSpace(s[2]) && s[2] != '.';
    assert TrimStart(s) == s && TrimEnd(s) == s;
  }

  lemma RemoveAbc()
    ensures RemoveInvalid("abc") == "abc"
  {
    var s := "abc";
    assert !IsInvalid(s[0]) && !IsInvalid(s[1]) && !IsInvalid(s[2]);
    assert s[1..] == "bc" && s[2..] == "c" && s[1..][1..] == s[2..];
    assert s[2..][1..] == [];
  }

  lemma CollapseAbc()
    ensures CollapseSpace("abc") == "abc"
  {
    var s := "abc";
    assert !IsSpace(s[0]) && !IsSpace(s[1]) && !IsSpace(s[2]);
    assert s[1..] == "bc" && s[2..] == "c" && s[1..][1..] == s[2..];
    assert s[2..][1..] == [];
  }
}
