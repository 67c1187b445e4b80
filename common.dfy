/** Values and JavaScript string/array primitives shared by the modules of the model.
    Strings are sequences of characters; the helpers below give the exact behaviour of the
    JavaScript built-ins the application calls (`trim`, `startsWith`, `split` on a string
    separator, `slice`, `splice(i, 1)`, the `\s` character class, number-to-string). */
module Common {

  datatype Option<T> = None | Some(value: T)

  /** JavaScript truthiness of an optional string: present and non-empty. */
  predicate Truthy(o: Option<string>) {
    o.Some? && o.value != ""
  }

  /** `a || b` on optional strings: `a` when it is truthy, `b` otherwise. */
  function OrElse(a: Option<string>, b: string): (r: string)
    ensures Truthy(a) ==> r == a.value
    ensures !Truthy(a) ==> r == b
  {
    if Truthy(a) then a.value else b
  }

  /** The characters matched by JavaScript's `\s` and removed by `String.prototype.trim`:
      WhiteSpace (TAB, VT, FF, SP, NBSP, ZWNBSP and the Zs category) and LineTerminator
      (LF, CR, LS, PS). */
  predicate IsSpace(c: char) {
    c == '\t' || c == '\n' || c == '\U{000B}' || c == '\U{000C}' || c == '\r' || c == ' ' ||
    c == '\U{00A0}' || c == '\U{1680}' || ('\U{2000}' <= c <= '\U{200A}') ||
    c == '\U{2028}' || c == '\U{2029}' || c == '\U{202F}' || c == '\U{205F}' ||
    c == '\U{3000}' || c == '\U{FEFF}'
  }

  /** The characters that end a line for `^`, `$` and `.` in a JavaScript regular expression. */
  predicate IsLineTerminator(c: char) {
    c == '\n' || c == '\r' || c == '\U{2028}' || c == '\U{2029}'
  }

  /** `list.findIndex(x => key(x) === k)`: the first position whose key is `k`. */
  function FindIndex<T>(list: seq<T>, key: T -> string, k: string): (r: Option<nat>)
    ensures r.Some? ==> r.value < |list| && key(list[r.value]) == k
    ensures r.Some? ==> forall j :: 0 <= j < r.value ==> key(list[j]) != k
    ensures r.None? <==> forall j :: 0 <= j < |list| ==> key(list[j]) != k
    decreases |list|
  {
    if list == [] then None
    else if key(list[0]) == k then Some(0)
    else
      match FindIndex(list[1..], key, k)
      case None => None
      case Some(i) => Some(i + 1)
  }

  /** Where the run of white space that starts at `i` ends. */
  function SpaceRunEnd(s: string, i: nat): (e: nat)
    requires i <= |s|
    ensures i <= e <= |s|
    ensures forall m :: i <= m < e ==> IsSpace(s[m])
    ensures e == |s| || !IsSpace(s[e])
    decreases |s| - i
  {
    if i < |s| && IsSpace(s[i]) then SpaceRunEnd(s, i + 1) else i
  }

  predicate NoSpaceAt(s: string, i: int) {
    0 <= i < |s| ==> !IsSpace(s[i])
  }

  /** Neither end of `s` is white space: what `trim` leaves. */
  predicate IsTrimmed(s: string) {
    s == [] || (!IsSpace(s[0]) && !IsSpace(s[|s| - 1]))
  }

  predicate StartsWith(s: string, prefix: string) {
    |prefix| <= |s| && s[..|prefix|] == prefix
  }

  predicate EndsWith(s: string, suffix: string) {
    |suffix| <= |s| && s[|s| - |suffix|..] == suffix
  }

  function TrimStart(s: string): (r: string)
    ensures |r| <= |s| && r == s[|s| - |r|..]
    ensures r == [] || !IsSpace(r[0])
    ensures forall i :: 0 <= i < |s| - |r| ==> IsSpace(s[i])
    decreases |s|
  {
    if s != [] && IsSpace(s[0]) then TrimStart(s[1..]) else s
  }

  function TrimEnd(s: string): (r: string)
    ensures |r| <= |s| && r == s[..|r|]
    ensures r == [] || !IsSpace(r[|r| - 1])
    ensures forall i :: |r| <= i < |s| ==> IsSpace(s[i])
    decreases |s|
  {
    if s != [] && IsSpace(s[|s| - 1]) then TrimEnd(s[..|s| - 1]) else s
  }

  /** `String.prototype.trim`: the longest infix with no white space at either end, obtained by
      removing only white space. */
  function Trim(s: string): (r: string)
    ensures IsTrimmed(r)
  {
    TrimEnd(TrimStart(s))
  }

  /** Where the trimmed text starts: after the leading white space. */
  function TrimOffset(s: string): nat {
    |s| - |TrimStart(s)|
  }

  /** What `trim` removes is white space at both ends and nothing else. */
  lemma TrimRemovesSpace(s: string)
    ensures TrimmedAt(s, Trim(s), TrimOffset(s))
  {
    var t := TrimStart(s);
    TrimmedAtParts(s, t, TrimEnd(t), TrimOffset(s));
  }

  /** Space removed from the front of `s`, then from the back of what is left. */
  lemma TrimmedAtParts(s: string, t: string, r: string, a: nat)
    requires a <= |s| && t == s[a..] && |r| <= |t| && r == t[..|r|]
    requires forall i :: 0 <= i < a ==> IsSpace(s[i])
    requires forall i :: |r| <= i < |t| ==> IsSpace(t[i])
    ensures TrimmedAt(s, r, a)
  {
    assert s[a..][..|r|] == s[a..a + |r|];
    forall i | a + |r| <= i < |s| ensures IsSpace(s[i]) {
      assert s[i] == t[i - a];
    }
  }

  /** `r` is the infix of `s` starting at `a`, and everything of `s` around it is white space. */
  ghost predicate TrimmedAt(s: string, r: string, a: int) {
    0 <= a && a + |r| <= |s| && r == s[a..a + |r|] &&
    (forall i :: 0 <= i < a ==> IsSpace(s[i])) &&
    (forall i :: a + |r| <= i < |s| ==> IsSpace(s[i]))
  }

  /** Empty or white space only: what `!s.trim()` tests. */
  predicate IsBlank(s: string) {
    forall i :: 0 <= i < |s| ==> IsSpace(s[i])
  }

  /** A string trims to the empty string exactly when it is blank. */
  lemma TrimEmpty(s: string)
    ensures Trim(s) == [] <==> IsBlank(s)
  {
    if Trim(s) != [] {
      var t := TrimStart(s);
      assert t != [] && !IsSpace(t[0]);
    }
  }

  /** `sub` occurs in `s` at position `i`. */
  predicate OccursAt(s: string, sub: string, i: int) {
    0 <= i && i + |sub| <= |s| && s[i..i + |sub|] == sub
  }

  predicate Contains(s: string, sub: string) {
    exists i :: 0 <= i <= |s| && OccursAt(s, sub, i)
  }

  /** `s.indexOf(sub, from)` for a non-empty `sub`: the first occurrence at or after `from`. */
  function IndexOfFrom(s: string, sub: string, from: nat): (r: Option<nat>)
    requires sub != []
    ensures r.Some? ==> from <= r.value && OccursAt(s, sub, r.value)
    ensures r.Some? ==> forall j :: from <= j < r.value ==> !OccursAt(s, sub, j)
    ensures r.None? ==> forall j :: from <= j ==> !OccursAt(s, sub, j)
    decreases |s| - from
  {
    if from + |sub| > |s| then None
    else if s[from..from + |sub|] == sub then Some(from)
    else IndexOfFrom(s, sub, from + 1)
  }

  function IndexOf(s: string, sub: string): (r: Option<nat>)
    requires sub != []
    ensures r.Some? ==> OccursAt(s, sub, r.value) && forall j :: 0 <= j < r.value ==> !OccursAt(s, sub, j)
    ensures r.None? <==> !Contains(s, sub)
  {
    IndexOfFrom(s, sub, 0)
  }

  /** The first occurrence is what `indexOf` finds. */
  lemma IndexOfFirst(s: string, sub: string, i: nat)
    requires sub != []
    requires OccursAt(s, sub, i)
    requires forall j :: 0 <= j < i ==> !OccursAt(s, sub, j)
    ensures IndexOf(s, sub) == Some(i)
  {
    assert Contains(s, sub);
  }

  /** Text appended after the first occurrence does not move it. */
  lemma IndexOfAppend(t: string, c: string, sub: string)
    requires sub != [] && IndexOf(t, sub).Some?
    ensures IndexOf(t + c, sub) == IndexOf(t, sub)
  {
    var i := IndexOf(t, sub).value;
    var tc := t + c;
    assert tc[..|t|] == t;
    OccursInPrefix(tc, sub, |t|, i);
    forall j | 0 <= j < i ensures !OccursAt(tc, sub, j) {
      OccursInPrefix(tc, sub, |t|, j);
    }
    IndexOfFirst(tc, sub, i);
  }

  /** An occurrence inside a prefix is an occurrence in the whole string, and the other way
      round when it ends within the prefix. */
  lemma OccursInPrefix(s: string, sub: string, k: nat, j: int)
    requires k <= |s|
    ensures OccursAt(s[..k], sub, j) <==> (OccursAt(s, sub, j) && j + |sub| <= k)
  {
    if 0 <= j && j + |sub| <= k {
      assert s[..k][j..j + |sub|] == s[j..j + |sub|];
    }
  }

  /** An occurrence inside a suffix `s[k..]` is an occurrence in `s`, shifted by `k`. */
  lemma OccursInSuffix(s: string, sub: string, k: nat, j: int)
    requires k <= |s|
    ensures OccursAt(s[k..], sub, j) <==> (j >= 0 && OccursAt(s, sub, k + j))
  {
    if 0 <= j && j + |sub| <= |s| - k {
      assert s[k..][j..j + |sub|] == s[k + j..k + j + |sub|];
    }
  }

  /** `s.split(sep)` for a non-empty string separator: the pieces between the successive
      left-most, non-overlapping occurrences of `sep`. */
  function Split(s: string, sep: string): (r: seq<string>)
    requires sep != []
    ensures |r| >= 1
    decreases |s|
  {
    match IndexOf(s, sep)
    case None => [s]
    case Some(i) => [s[..i]] + Split(s[i + |sep|..], sep)
  }

  /** `parts.join(sep)`. */
  function Join(parts: seq<string>, sep: string): string {
    if parts == [] then []
    else if |parts| == 1 then parts[0]
    else parts[0] + sep + Join(parts[1..], sep)
  }

  lemma JoinCons(a: string, rest: seq<string>, sep: string)
    requires rest != []
    ensures Join([a] + rest, sep) == a + sep + Join(rest, sep)
  {
    assert ([a] + rest)[1..] == rest;
  }

  /** Splitting and joining again gives back the original text. */
  lemma {:induction false} SplitJoin(s: string, sep: string)
    requires sep != []
    ensures Join(Split(s, sep), sep) == s
    decreases |s|
  {
    var found := IndexOf(s, sep);
    if found.Some? {
      var i := found.value;
      var rest := s[i + |sep|..];
      SplitJoin(rest, sep);
      JoinCons(s[..i], Split(rest, sep), sep);
      Reassemble(s, i, sep);
    }
  }

  lemma Reassemble(s: string, i: nat, sep: string)
    requires OccursAt(s, sep, i)
    ensures s == s[..i] + sep + s[i + |sep|..]
  {
    assert s == s[..i] + s[i..i + |sep|] + s[i + |sep|..];
  }

  /** No piece of a split contains the separator. */
  lemma {:induction false} SplitPiecesFree(s: string, sep: string)
    requires sep != []
    ensures forall p :: p in Split(s, sep) ==> !Contains(p, sep)
    decreases |s|
  {
    match IndexOf(s, sep)
    case None =>
    case Some(i) =>
      SplitPiecesFree(s[i + |sep|..], sep);
      forall j | OccursAt(s[..i], sep, j) ensures false {
        OccursInPrefix(s, sep, i, j);
      }
  }

  /** The first piece of a split is the text before the first separator (all of it when there
      is none), and holds no separator. */
  lemma SplitFirst(s: string, sep: string)
    requires sep != []
    ensures var first := Split(s, sep)[0];
            |first| <= |s| && first == s[..|first|] && !Contains(first, sep)
            && (|first| < |s| ==> OccursAt(s, sep, |first|))
  {
    SplitPiecesFree(s, sep);
  }

  /** All but the last element of a non-empty sequence (`pop()` removes the last). */
  function AllButLast<T>(s: seq<T>): seq<T>
    requires |s| >= 1
  {
    s[..|s| - 1]
  }

  function Last<T>(s: seq<T>): T
    requires |s| >= 1
  {
    s[|s| - 1]
  }

  /** Putting an element in front changes neither the last element nor what precedes it. */
  lemma ConsInitLast<T>(x: T, s: seq<T>)
    requires s != []
    ensures AllButLast([x] + s) == [x] + AllButLast(s) && Last([x] + s) == Last(s)
  {
  }

  /** What is in a suffix is in the whole. */
  lemma InSuffix<T>(s: seq<T>, k: nat, x: T)
    requires k <= |s| && x in s[k..]
    ensures x in s
  {
    var j :| 0 <= j < |s| - k && s[k..][j] == x;
    assert s[k + j] == x;
  }

  /** Slicing `t + c` below `|t|` only sees `t`. */
  lemma SliceAppend<T>(t: seq<T>, c: seq<T>, i: nat, k: nat)
    requires i <= k <= |t|
    ensures (t + c)[..i] == t[..i] && (t + c)[k..] == t[k..] + c
  {
  }

  /** Appending nothing changes nothing. */
  lemma AppendEmpty<T>(s: seq<T>)
    ensures s + [] == s
  {
  }

  /** A non-empty sequence is what precedes its last element, then that element. */
  lemma InitLast<T>(s: seq<T>)
    requires s != []
    ensures s == AllButLast(s) + [Last(s)]
  {
  }

  /** Dropping the last element of `a + b`, for a non-empty `b`, drops it from `b`. */
  lemma InitAppend<T>(a: seq<T>, b: seq<T>)
    requires b != []
    ensures AllButLast(a + b) == a + AllButLast(b) && Last(a + b) == Last(b)
  {
  }

  /** Concatenation regroups freely. */
  lemma AppendAssoc<T>(a: seq<T>, b: seq<T>, c: seq<T>)
    ensures a + b + c == a + (b + c)
  {
  }

  /** The prefix one longer is the prefix and the next element. */
  lemma PrefixSnoc<T>(s: seq<T>, k: nat)
    requires k < |s|
    ensures s[..k + 1] == s[..k] + [s[k]]
  {
  }

  /** The prefix one longer ends in the next element. */
  lemma PrefixStep<T>(s: seq<T>, i: nat)
    requires i < |s|
    ensures AllButLast(s[..i + 1]) == s[..i] && Last(s[..i + 1]) == s[i]
  {
  }

  /** The prefix of full length is the whole. */
  lemma PrefixWhole<T>(s: seq<T>)
    ensures s[..|s|] == s
  {
  }

  /** `s.slice(0, n)` for `n >= 0`. */
  function Take<T>(s: seq<T>, n: nat): (r: seq<T>)
    ensures |r| <= n && |r| <= |s|
    ensures |r| == if |s| <= n then |s| else n
    ensures r == s[..|r|]
  {
    if |s| <= n then s else s[..n]
  }

  /** `s.slice(-n)` for `n > 0`: the last `n` elements, or all of them when there are fewer. */
  function TakeLast<T>(s: seq<T>, n: nat): (r: seq<T>)
    requires n > 0
    ensures |r| <= n && |r| <= |s|
    ensures |r| == if |s| <= n then |s| else n
    ensures r == s[|s| - |r|..]
  {
    if |s| <= n then s else s[|s| - n..]
  }

  /** The start position `Array.prototype.splice` uses for `index`: negative values count from
      the end, and the result is clamped to `[0, len]`. */
  function SpliceStart(len: nat, index: int): (k: nat)
    ensures k <= len
    ensures 0 <= index <= len ==> k == index
    ensures index < 0 && len + index >= 0 ==> k == len + index
  {
    if index < 0 then (if len + index < 0 then 0 else len + index)
    else if index > len then len else index
  }

  /** `s.splice(index, 1)`: removes the one element at the splice start, if there is one. */
  function RemoveAt<T>(s: seq<T>, index: int): (r: seq<T>)
    ensures var k := SpliceStart(|s|, index);
            if k < |s| then |r| == |s| - 1 && r == s[..k] + s[k + 1..] else r == s
  {
    var k := SpliceStart(|s|, index);
    if k < |s| then s[..k] + s[k + 1..] else s
  }

  /** The positions `j` from `lo` on where `p(s[j])` holds, in increasing order: what a
      `filter` keeps, by position. */
  function Positions<T>(s: seq<T>, p: T -> bool, lo: nat): (ps: seq<nat>)
    ensures forall t :: 0 <= t < |ps| ==> lo <= ps[t] < |s| && p(s[ps[t]])
    ensures forall t, u :: 0 <= t < u < |ps| ==> ps[t] < ps[u]
    decreases |s| - lo
  {
    if lo >= |s| then []
    else if p(s[lo]) then [lo] + Positions(s, p, lo + 1)
    else Positions(s, p, lo + 1)
  }

  /** Every position from `lo` on where `p` holds is listed. */
  lemma {:induction false} PositionsComplete<T>(s: seq<T>, p: T -> bool, lo: nat, j: nat)
    requires lo <= j < |s| && p(s[j])
    ensures j in Positions(s, p, lo)
    decreases j - lo
  {
    if lo < j {
      PositionsComplete(s, p, lo + 1, j);
    }
  }

  /** Where `p` fails at `lo`, the positions from `lo` are those from `lo + 1`; where it holds,
      `lo` comes first. */
  lemma PositionsCons<T>(s: seq<T>, p: T -> bool, lo: nat)
    requires lo < |s|
    ensures Positions(s, p, lo) == if p(s[lo]) then [lo] + Positions(s, p, lo + 1) else Positions(s, p, lo + 1)
  {
  }

  /** `r` holds the elements of `s` at the positions `ps`, in that order. */
  ghost predicate Picks<T>(r: seq<T>, s: seq<T>, ps: seq<nat>) {
    |r| == |ps| && forall t :: 0 <= t < |ps| ==> ps[t] < |s| && r[t] == s[ps[t]]
  }

  /** One more picked element in front. */
  lemma PicksCons<T>(r: seq<T>, s: seq<T>, ps: seq<nat>, i: nat)
    requires Picks(r, s, ps) && i < |s|
    ensures Picks([s[i]] + r, s, [i] + ps)
  {
    var r', ps' := [s[i]] + r, [i] + ps;
    forall t | 0 <= t < |ps'| ensures ps'[t] < |s| && r'[t] == s[ps'[t]] {
      if t > 0 {
        assert r'[t] == r[t - 1] && ps'[t] == ps[t - 1];
      }
    }
  }

  /** `s` has no repeated element. */
  predicate NoDuplicates<T(==)>(s: seq<T>) {
    forall i, j :: 0 <= i < j < |s| ==> s[i] != s[j]
  }

  /** `s.filter(x => x !== v)` on a list of strings. */
  function RemoveAll(s: seq<string>, v: string): (r: seq<string>)
    ensures |r| <= |s|
    ensures v !in r
    ensures forall x :: x in r <==> x in s && x != v
  {
    if s == [] then []
    else if s[0] == v then RemoveAll(s[1..], v)
    else [s[0]] + RemoveAll(s[1..], v)
  }

  /** Dropping the last element keeps the others distinct, and the last is not among them. */
  lemma NoDuplicatesInit<T>(s: seq<T>)
    requires s != [] && NoDuplicates(s)
    ensures NoDuplicates(AllButLast(s)) && Last(s) !in AllButLast(s)
  {
  }

  /** Appending a new element keeps a list free of repetitions. */
  lemma AppendNoDuplicates<T>(s: seq<T>, x: T)
    requires NoDuplicates(s) && x !in s
    ensures NoDuplicates(s + [x])
  {
    forall i, j | 0 <= i < j < |s| + 1 ensures (s + [x])[i] != (s + [x])[j] {
      if j == |s| {
        assert s[i] in s;
      }
    }
  }

  /** Filtering out one value keeps the list free of repetitions. */
  lemma {:induction false} RemoveAllNoDuplicates(s: seq<string>, v: string)
    requires NoDuplicates(s)
    ensures NoDuplicates(RemoveAll(s, v))
    decreases |s|
  {
    if s != [] {
      RemoveAllNoDuplicates(s[1..], v);
      if s[0] != v {
        assert s[0] !in s[1..];
        assert s[0] !in RemoveAll(s[1..], v);
      }
    }
  }

  /** `Array.from(new Set(s))`: the first occurrence of every element, in order. */
  function Dedupe(s: seq<string>): (r: seq<string>)
    ensures NoDuplicates(r)
    ensures forall x :: x in r <==> x in s
    ensures |r| <= |s|
    decreases |s|
  {
    if s == [] then []
    else
      var d := Dedupe(AllButLast(s));
      if Last(s) in d then d else d + [Last(s)]
  }

  /** A list without repetitions is its own set, in the same order. */
  lemma {:induction false} DedupeNoDuplicates(s: seq<string>)
    requires NoDuplicates(s)
    ensures Dedupe(s) == s
    decreases |s|
  {
    if s != [] {
      DedupeNoDuplicates(AllButLast(s));
      assert Last(s) !in AllButLast(s);
      assert AllButLast(s) + [Last(s)] == s;
    }
  }

  /** `s.splice(j, 0, x)` for a position within the list. */
  function Insert<T>(s: seq<T>, j: nat, x: T): (r: seq<T>)
    requires j <= |s|
    ensures |r| == |s| + 1 && r[j] == x
    ensures r[..j] == s[..j] && r[j + 1..] == s[j..]
  {
    s[..j] + [x] + s[j..]
  }

  predicate IsDigit(c: char) {
    '0' <= c <= '9'
  }

  function DigitChar(d: nat): (c: char)
    requires d < 10
    ensures IsDigit(c) && c as int - '0' as int == d
  {
    "0123456789"[d]
  }

  /** The decimal form JavaScript gives a non-negative integer in a template literal. */
  function NatToString(n: nat): (r: string)
    ensures |r| >= 1
    ensures forall i :: 0 <= i < |r| ==> IsDigit(r[i])
    ensures |r| > 1 ==> r[0] != '0'
    decreases n
  {
    if n < 10 then [DigitChar(n)] else NatToString(n / 10) + [DigitChar(n % 10)]
  }

  function DigitValue(c: char): (d: nat)
    requires IsDigit(c)
    ensures d < 10
  {
    c as int - '0' as int
  }

  /** The value of a string of decimal digits. */
  function DigitsValue(s: string): nat
    requires forall i :: 0 <= i < |s| ==> IsDigit(s[i])
  {
    if s == [] then 0
    else DigitsValue(s[..|s| - 1]) * 10 + DigitValue(s[|s| - 1])
  }

  /** Reading the decimal form back gives the number: the decimal form is faithful. */
  lemma {:induction false} NatToStringValue(n: nat)
    ensures DigitsValue(NatToString(n)) == n
    decreases n
  {
    if n >= 10 {
      NatToStringValue(n / 10);
      var r := NatToString(n);
      assert r[..|r| - 1] == NatToString(n / 10);
    }
  }

  /** Different numbers have different decimal forms. */
  lemma NatToStringInjective(m: nat, n: nat)
    requires NatToString(m) == NatToString(n)
    ensures m == n
  {
    NatToStringValue(m);
    NatToStringValue(n);
  }

  /** The number of characters of `s` that are not white space (`s.replace(/\s/g, '').length`). */
  function CountNonSpace(s: string): (n: nat)
    ensures n <= |s|
  {
    if s == [] then 0 else (if IsSpace(s[0]) then 0 else 1) + CountNonSpace(s[1..])
  }
}
