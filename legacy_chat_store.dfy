/** The older chat store (src/stores/chat.ts). Its `handleGenerate` remembers the position the
    placeholder was pushed at and, when the call settles, removes whatever is at that position
    and appends the answer parts at the end of the list.

    Assigning past the end of a JavaScript array leaves holes, so a slot of the list is an
    `Option<Message>`: `None` is a hole. `handleGenerate` is split into `BeginGenerate` and
    `CompleteGenerate` around the awaited call, with the captured values in a `Pending`. */
module LegacyChatStore {
  import opened Common
  import opened Messages

  /** What `handleGenerate` holds while it awaits the answer. */
  datatype Pending = Pending(loadingIndex: nat, input: string)

  function IntroMessage(intro: string, now: int): Message {
    Message(None, Bot, intro, None, None, None, Some(now), None)
  }

  function UserMessage(input: string, now: int): Message {
    Message(None, User, input, Some(input), None, None, Some(now), None)
  }

  function Placeholder(input: string, now: int): Message {
    Message(None, Bot, LoadingContent, Some(input), None, None, Some(now), None)
  }

  function Reply(part: string, input: string, now: int): Message {
    Message(None, Bot, part, Some(input), None, None, Some(now), None)
  }

  /** The slots pushed for the parts of one answer, in order. */
  function Replies(parts: seq<string>, input: string, now: int): (r: seq<Option<Message>>)
    ensures |r| == |parts|
    ensures forall k :: 0 <= k < |parts| ==> r[k] == Some(Reply(parts[k], input, now))
  {
    seq(|parts|, k requires 0 <= k < |parts| => Some(Reply(parts[k], input, now)))
  }

  /** `n` holes. */
  function Holes(n: nat): (r: seq<Option<Message>>)
    ensures |r| == n && forall k :: 0 <= k < n ==> r[k] == None
  {
    seq(n, k => None)
  }

  /** `a[i] = x`: overwrites slot `i`, or grows the array to `i + 1` slots, leaving holes
      between the old end and `i`. */
  function Overwrite(s: seq<Option<Message>>, i: nat, x: Message): (r: seq<Option<Message>>)
    ensures |r| == if i < |s| then |s| else i + 1
    ensures r[i] == Some(x)
    ensures forall j :: 0 <= j < |s| && j != i ==> r[j] == s[j]
    ensures forall j :: |s| <= j < i ==> r[j] == None
  {
    if i < |s| then s[i := Some(x)] else s + Holes(i - |s|) + [Some(x)]
  }

  /** The list after a successful call: the slot at the captured index goes (if the list still
      reaches that far) and the parts follow at the end. */
  function Placed(msgs: seq<Option<Message>>, p: Pending, parts: seq<string>, now: int): seq<Option<Message>> {
    RemoveAt(msgs, p.loadingIndex) + Replies(parts, p.input, now)
  }

  /** The list once the call settles. */
  function Settle(msgs: seq<Option<Message>>, p: Pending, outcome: Outcome, split: string -> seq<string>, now: int)
    : seq<Option<Message>>
  {
    match outcome
    case Responded(content) => Placed(msgs, p, Parts(OrElse(content, NoResponse), split), now)
    case Threw(message) =>
      Overwrite(msgs, p.loadingIndex, Reply(ErrorContent(message), p.input, now))
  }

  /** While the placeholder is still at the captured index, an answer of k parts removes it
      and appends the parts in order; the list grows by k - 1 and the messages before and
      after the placeholder keep their order. */
  lemma PlacedAtIndex(msgs: seq<Option<Message>>, p: Pending, parts: seq<string>, now: int)
    requires p.loadingIndex < |msgs|
    ensures var r := Placed(msgs, p, parts, now);
            && |r| == |msgs| - 1 + |parts|
            && r[..p.loadingIndex] == msgs[..p.loadingIndex]
            && r[p.loadingIndex..|msgs| - 1] == msgs[p.loadingIndex + 1..]
            && forall k :: 0 <= k < |parts| ==> r[|msgs| - 1 + k] == Some(Reply(parts[k], p.input, now))
  {
    var i := p.loadingIndex;
    var r := Placed(msgs, p, parts, now);
    assert RemoveAt(msgs, i) == msgs[..i] + msgs[i + 1..];
    assert r[..i] == msgs[..i];
    assert r[i..|msgs| - 1] == msgs[i + 1..];
  }

  /** Two requests in flight: the first answer (one part) arrives, then the second. The second
      request's captured index now points at the first answer, which is removed, while its own
      placeholder stays in the list with the content `'loading'`. */
  lemma StaleIndex(msgs: seq<Option<Message>>, a: string, b: string, partA: string, partsB: seq<string>, now: int)
    ensures var afterA := msgs + [Some(UserMessage(a, now)), Some(Placeholder(a, now))];
            var both := afterA + [Some(UserMessage(b, now)), Some(Placeholder(b, now))];
            var r := Placed(Placed(both, Pending(|msgs| + 1, a), [partA], now), Pending(|afterA| + 1, b), partsB, now);
            && r == msgs + [Some(UserMessage(a, now)), Some(UserMessage(b, now)), Some(Placeholder(b, now))]
                    + Replies(partsB, b, now)
            && r[|msgs| + 2].value.content == LoadingContent
  {
    var uA, pA := Some(UserMessage(a, now)), Some(Placeholder(a, now));
    var uB, pB := Some(UserMessage(b, now)), Some(Placeholder(b, now));
    var both := msgs + [uA, pA] + [uB, pB];
    var n := |msgs|;
    var first := Placed(both, Pending(n + 1, a), [partA], now);
    assert RemoveAt(both, n + 1) == msgs + [uA, uB, pB];
    assert first == msgs + [uA, uB, pB] + [Some(Reply(partA, a, now))];
    assert RemoveAt(first, n + 3) == msgs + [uA, uB, pB];
  }

  class LegacyChatStore {
    /** The list; `None` is a hole left by an assignment past the end. */
    var messages: seq<Option<Message>>
    var keyword: string
    var refMsg: string
    var isLoading: bool
    var showRefInput: bool
    /** The introduction text of the first message. */
    const intro: string

    predicate HasMessages()
      reads this
    {
      |messages| > 1
    }

    constructor (intro: string, now: int)
      ensures this.intro == intro && messages == [Some(IntroMessage(intro, now))]
      ensures keyword == "" && refMsg == "" && !isLoading && showRefInput
    {
      this.intro := intro;
      messages := [Some(IntroMessage(intro, now))];
      keyword, refMsg, isLoading, showRefInput := "", "", false, true;
    }

    /** `handleGenerate` up to the awaited call: a blank keyword does nothing; otherwise the
        user message and a placeholder are pushed, and the placeholder's position (the length
        after the first push) is captured. */
    method BeginGenerate(now: int) returns (p: Option<Pending>)
      modifies this`messages, this`keyword, this`showRefInput, this`isLoading
      ensures IsBlank(old(keyword)) ==> p == None && unchanged(this)
      ensures !IsBlank(old(keyword)) ==>
        && p == Some(Pending(|old(messages)| + 1, old(keyword)))
        && messages == old(messages) + [Some(UserMessage(old(keyword), now)), Some(Placeholder(old(keyword), now))]
        && messages[p.value.loadingIndex] == Some(Placeholder(old(keyword), now))
        && keyword == "" && !showRefInput && isLoading && refMsg == old(refMsg)
    {
      if IsBlank(keyword) {
        return None;
      }
      var input := keyword;
      messages := messages + [Some(UserMessage(input, now))];
      keyword := "";
      showRefInput := false;
      isLoading := true;
      var loadingIndex := |messages|;
      messages := messages + [Some(Placeholder(input, now))];
      p := Some(Pending(loadingIndex, input));
    }

    /** `handleGenerate` once the call settles: the answer parts replace the captured slot, or
        the error text is written into it; either way the loading flag drops and the reference
        text is cleared. */
    method CompleteGenerate(p: Pending, outcome: Outcome, split: string -> seq<string>, now: int)
      modifies this`messages, this`isLoading, this`refMsg
      ensures messages == Settle(old(messages), p, outcome, split, now)
      ensures !isLoading && refMsg == ""
      ensures keyword == old(keyword) && showRefInput == old(showRefInput)
    {
      match outcome {
        case Responded(content) =>
          var parts := Parts(OrElse(content, NoResponse), split);
          messages := RemoveAt(messages, p.loadingIndex);
          PushReplies(parts, p.input, now);
        case Threw(message) =>
          messages := Overwrite(messages, p.loadingIndex, Reply(ErrorContent(message), p.input, now));
      }
      isLoading := false;
      refMsg := "";
    }

    /** `for (const part of parts) messages.push(...)`. */
    method PushReplies(parts: seq<string>, input: string, now: int)
      modifies this`messages
      ensures messages == old(messages) + Replies(parts, input, now)
      ensures keyword == old(keyword) && refMsg == old(refMsg)
      ensures isLoading == old(isLoading) && showRefInput == old(showRefInput)
    {
      var k := 0;
      while k < |parts|
        invariant 0 <= k <= |parts|
        invariant messages == old(messages) + Replies(parts[..k], input, now)
        invariant keyword == old(keyword) && refMsg == old(refMsg)
        invariant isLoading == old(isLoading) && showRefInput == old(showRefInput)
      {
        assert Replies(parts[..k + 1], input, now) == Replies(parts[..k], input, now) + [Some(Reply(parts[k], input, now))];
        messages := messages + [Some(Reply(parts[k], input, now))];
        k := k + 1;
      }
      assert parts[..k] == parts;
    }

    /** `handleRegenerate`: a message with a keyword is sent again (the reference text and
        service are not restored). */
    method Regenerate(msg: Message, now: int) returns (p: Option<Pending>)
      modifies this`messages, this`keyword, this`showRefInput, this`isLoading
      ensures !Truthy(msg.keyword) ==> p == None && unchanged(this)
      ensures Truthy(msg.keyword) && IsBlank(msg.keyword.value) ==>
        && p == None && keyword == msg.keyword.value && messages == old(messages)
        && isLoading == old(isLoading) && showRefInput == old(showRefInput)
      ensures Truthy(msg.keyword) && !IsBlank(msg.keyword.value) ==>
        && p == Some(Pending(|old(messages)| + 1, msg.keyword.value))
        && messages == old(messages) + [Some(UserMessage(msg.keyword.value, now)), Some(Placeholder(msg.keyword.value, now))]
        && keyword == "" && isLoading && !showRefInput
      ensures refMsg == old(refMsg)
    {
      p := None;
      if Truthy(msg.keyword) {
        keyword := msg.keyword.value;
        p := BeginGenerate(now);
      }
    }

    /** `addQuickMessage`: send a suggestion as the keyword. */
    method AddQuickMessage(text: string, now: int) returns (p: Option<Pending>)
      modifies this`messages, this`keyword, this`showRefInput, this`isLoading
      ensures IsBlank(text) ==>
        && p == None && keyword == text && messages == old(messages)
        && isLoading == old(isLoading) && showRefInput == old(showRefInput)
      ensures !IsBlank(text) ==>
        && p == Some(Pending(|old(messages)| + 1, text))
        && messages == old(messages) + [Some(UserMessage(text, now)), Some(Placeholder(text, now))]
        && keyword == "" && isLoading && !showRefInput
      ensures refMsg == old(refMsg)
    {
      keyword := text;
      p := BeginGenerate(now);
    }

    /** `deleteMessage`: removes one slot, never the first. */
    method DeleteMessage(index: int)
      modifies this`messages
      ensures 0 < index < |old(messages)| ==> messages == old(messages)[..index] + old(messages)[index + 1..]
      ensures !(0 < index < |old(messages)|) ==> messages == old(messages)
      ensures |old(messages)| >= 1 ==> |messages| >= 1 && messages[0] == old(messages)[0]
      ensures keyword == old(keyword) && refMsg == old(refMsg) && isLoading == old(isLoading)
      ensures showRefInput == old(showRefInput)
    {
      if 0 < index < |messages| {
        messages := messages[..index] + messages[index + 1..];
      }
    }

    /** `clearChat`: the introduction alone (requests in flight are not cancelled). */
    method ClearChat(now: int)
      modifies this`messages
      ensures messages == [Some(IntroMessage(intro, now))] && !HasMessages()
      ensures keyword == old(keyword) && refMsg == old(refMsg) && isLoading == old(isLoading)
      ensures showRefInput == old(showRefInput)
    {
      messages := [Some(IntroMessage(intro, now))];
    }
  }
}
