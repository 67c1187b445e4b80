/** The chat message record shared by the two chat stores and the record mapping
    (src/types/_chat.ts, src/types/chat.ts). Optional properties are `Option`s. */
module Messages {
  import opened Common

  datatype Role = User | Bot

  datatype Message = Message(
    id: Option<string>,
    role: Role,
    content: string,
    keyword: Option<string>,
    ref: Option<string>,
    service: Option<string>,
    timestamp: Option<int>,
    loadingProgress: Option<nat>)

  /** The content of a placeholder awaiting its answer. */
  const LoadingContent: string := "loading"
  /** The text used when the server sent nothing usable. */
  const NoResponse: string := "(응답 없음)"
  /** The text used when a failed request carries no message. */
  const DefaultError: string := "오류가 발생했어요. 다시 시도해주세요!"

  /** The content shown for a failed request: a warning sign, a space and the message (or the
      default text when the message is empty). */
  function ErrorContent(message: string): (r: string)
    ensures StartsWith(r, "\U{26A0}\U{FE0F} ")
    ensures message != "" ==> r[|"\U{26A0}\U{FE0F} "|..] == message
    ensures message == "" ==> r[|"\U{26A0}\U{FE0F} "|..] == DefaultError
  {
    "\U{26A0}\U{FE0F} " + (if message != "" then message else DefaultError)
  }

  /** How the generate call settles: with a response (whose `content` may be missing), or by
      throwing an error with a message. */
  datatype Outcome = Responded(content: Option<string>) | Threw(message: string)

  /** `split(PART_SEPARATOR).map(p => p.trim()).filter(Boolean)`: the trimmed pieces that are
      not empty, in order. */
  function TrimmedParts(pieces: seq<string>): (r: seq<string>)
    ensures |r| <= |pieces|
    ensures forall p :: p in r ==> p != "" && IsTrimmed(p)
    ensures forall p :: p in r <==> p != "" && p in TrimAll(pieces)
  {
    var t := TrimAll(pieces);
    forall p | p in t ensures IsTrimmed(p) {
      var k :| 0 <= k < |t| && t[k] == p;
    }
    NonEmpty(t)
  }

  /** `pieces.map(p => p.trim())`. */
  function TrimAll(pieces: seq<string>): (r: seq<string>)
    ensures |r| == |pieces| && forall k :: 0 <= k < |pieces| ==> r[k] == Trim(pieces[k])
  {
    seq(|pieces|, k requires 0 <= k < |pieces| => Trim(pieces[k]))
  }

  /** `s.filter(Boolean)` on strings: the non-empty ones, in order. */
  function NonEmpty(s: seq<string>): (r: seq<string>)
    ensures |r| <= |s|
    ensures forall p :: p in r <==> p in s && p != ""
  {
    if s == [] then []
    else if s[0] == "" then NonEmpty(s[1..])
    else [s[0]] + NonEmpty(s[1..])
  }

  /** `filter(Boolean)` keeps an appended string exactly when it is not empty. */
  lemma {:induction false} NonEmptySnoc(s: seq<string>, x: string)
    ensures NonEmpty(s + [x]) == NonEmpty(s) + (if x == "" then [] else [x])
    decreases |s|
  {
    if s == [] {
      assert s + [x] == [x] && [x][1..] == [];
    } else {
      assert (s + [x])[0] == s[0] && (s + [x])[1..] == s[1..] + [x];
      NonEmptySnoc(s[1..], x);
    }
  }

  /** Trimming a piece more appends its trimmed text. */
  lemma TrimAllSnoc(pieces: seq<string>, p: string)
    ensures TrimAll(pieces + [p]) == TrimAll(pieces) + [Trim(p)]
  {
    var before, after := TrimAll(pieces), TrimAll(pieces + [p]);
    forall k | 0 <= k < |after| ensures after[k] == (before + [Trim(p)])[k] {
      if k < |pieces| {
        assert (pieces + [p])[k] == pieces[k];
      }
    }
  }

  /** No pieces give no parts, and one more piece adds its trimmed text at the end exactly when
      that text is not empty: the parts keep the order of the pieces. */
  lemma TrimmedPartsSnoc(pieces: seq<string>, p: string)
    ensures TrimmedParts([]) == []
    ensures TrimmedParts(pieces + [p]) == TrimmedParts(pieces) + (if Trim(p) == "" then [] else [Trim(p)])
  {
    TrimAllSnoc(pieces, p);
    NonEmptySnoc(TrimAll(pieces), Trim(p));
  }

  function Parts(response: string, split: string -> seq<string>): seq<string> {
    TrimmedParts(split(response))
  }

  /** `messages.findIndex(m => m.id === id)`. */
  function IndexOfId(msgs: seq<Message>, id: string): (r: Option<nat>)
    ensures r.Some? ==> r.value < |msgs| && msgs[r.value].id == Some(id)
    ensures r.Some? ==> forall j :: 0 <= j < r.value ==> msgs[j].id != Some(id)
    ensures r.None? <==> forall j :: 0 <= j < |msgs| ==> msgs[j].id != Some(id)
    decreases |msgs|
  {
    if msgs == [] then None
    else if msgs[0].id == Some(id) then Some(0)
    else
      match IndexOfId(msgs[1..], id)
      case None => None
      case Some(k) => Some(k + 1)
  }

  /** No message of `msgs` carries the id. */
  predicate Lacks(msgs: seq<Message>, id: string) {
    forall j :: 0 <= j < |msgs| ==> msgs[j].id != Some(id)
  }

  /** `findIndex` finds the first message carrying the id. */
  lemma IndexOfIdAt(msgs: seq<Message>, id: string, i: nat)
    requires i < |msgs| && msgs[i].id == Some(id) && Lacks(msgs[..i], id)
    ensures IndexOfId(msgs, id) == Some(i)
  {
    assert forall j :: 0 <= j < i ==> msgs[..i][j] == msgs[j];
  }

  lemma LacksAppend(s: seq<Message>, t: seq<Message>, id: string)
    requires Lacks(s, id) && Lacks(t, id)
    ensures Lacks(s + t, id)
  {
  }
}
