/** The chat store (src/stores/_chat.ts): the message list with its loading placeholders, the
    registries of requests in flight, message selection, reply collection and the batch queue.

    `handleGenerate` is asynchronous; it is modelled as two steps, `BeginGenerate` (everything up
    to the awaited call) and `CompleteGenerate` (what runs when the call settles), with the
    captured values in a `Request`. Fresh ids, clock readings and abort controllers are
    parameters; `PART_SEPARATOR` is the abstract function `split`. */
module ChatStore {
  import opened Common
  import opened Messages

  datatype BatchStatus = Pending | InProgress | Succeeded | Failed

  datatype BatchRequest = BatchRequest(id: string, keyword: string, refMsg: Option<string>)

  /** A `Partial<BatchRequest>`: the properties the update carries. */
  datatype BatchPatch = BatchPatch(id: Option<string>, keyword: Option<string>, refMsg: Option<string>)

  /** A positive number of milliseconds. */
  type Duration = n: nat | 0 < n witness 1

  /** What `handleGenerate` holds while it awaits the answer: the placeholder id, the keyword
      and reference text it sent, the answer time expected for the service it was sent to,
      and its abort controller (by number). */
  datatype Request = Request(loadingId: string, input: string, refSnapshot: string, expectedTime: Duration, controller: nat)

  /** One entry of `exportSelectedMessages`. */
  datatype SelectedPackage = SelectedPackage(userMessage: Message, responses: seq<Message>)

  const IntroId: string := "intro-message"
  const BatchLimit: nat := 20
  /** The progress shown never passes this value before the answer arrives. */
  const ProgressCap: nat := 95

  function IntroMessage(intro: string, now: int): Message {
    Message(Some(IntroId), Bot, intro, None, None, None, Some(now), None)
  }

  /** The user message and the placeholder appended for one request. */
  function RequestPair(messageId: string, input: string, ref: string, service: string, now: int): (r: seq<Message>)
    ensures |r| == 2 && r[0].role == User && r[1].role == Bot
    ensures r[0].id == Some("user-" + messageId) && r[1].id == Some("bot-" + messageId)
    ensures r[0].content == input && r[1].content == LoadingContent && r[1].loadingProgress == Some(0)
    ensures r[0].keyword == r[1].keyword == Some(input) && r[0].ref == r[1].ref == Some(ref)
  {
    [Message(Some("user-" + messageId), User, input, Some(input), Some(ref), Some(service), Some(now), None),
     Message(Some("bot-" + messageId), Bot, LoadingContent, Some(input), Some(ref), Some(service), Some(now), Some(0))]
  }

  /** Expected answer time in seconds per service, 30 for a service without an entry. */
  function ExpectedSeconds(service: string): (r: nat)
    ensures r > 0
  {
    if service == "gpt-5-2" then 100
    else if service == "gpt-5-v2" then 90
    else if service == "test" then 45
    else if service == "grok" then 25
    else if service == "gpt-4-v3" then 70
    else if service == "gemini-3-pro" then 100
    else if service == "claude" then 80
    else if service == "clean-claude" then 60
    else if service == "deepseek" then 200
    else if service == "openai-new" then 100
    else if service == "gemini-new" then 100
    else if service == "grok-new" then 30
    else if service == "deepseek-new" then 150
    else if service == "clean-deepseek" then 100
    else 30
  }

  /** The expected answer time in milliseconds, fixed when a request starts. */
  function ExpectedTime(service: string): Duration {
    ExpectedSeconds(service) * 1000
  }

  /** The progress shown after `elapsed` milliseconds when the answer is expected after
      `expected` milliseconds: `elapsed / expected * 100` capped at 95 and rounded to the nearest
      integer (halves up), in exact arithmetic. */
  function LoadingProgress(elapsed: nat, expected: nat): (r: nat)
    requires expected > 0
    ensures r <= ProgressCap
    ensures 100 * elapsed >= ProgressCap * expected ==> r == ProgressCap
    ensures 100 * elapsed < ProgressCap * expected ==>
              -(expected as int) < 2 * (r * expected) - 200 * elapsed <= expected
  {
    if 100 * elapsed >= ProgressCap * expected then ProgressCap
    else
      RoundedRatio(200 * elapsed + expected, expected, 96);
      (200 * elapsed + expected) / (2 * expected)
  }

  /** Division bounds used by `LoadingProgress`: `x / (2d)` is the quotient `q` with
      `x - 2d < 2dq <= x`, and it is below `b` when `x` is below `2db`. */
  lemma RoundedRatio(x: nat, d: nat, b: nat)
    requires d > 0
    ensures var q := x / (2 * d);
            2 * (q * d) <= x < 2 * (q * d) + 2 * d &&
            (x < b * (2 * d) ==> q < b)
  {
    var q := x / (2 * d);
    assert x == q * (2 * d) + x % (2 * d);
    assert q * (2 * d) == 2 * (q * d);
    if x < b * (2 * d) {
      assert (b - q) * (2 * d) == b * (2 * d) - q * (2 * d);
    }
  }

  /** The answer messages replacing a placeholder: one per part, each with its fresh id. */
  function Replies(parts: seq<string>, ids: nat -> string, req: Request, service: string, now: int): (r: seq<Message>)
    ensures |r| == |parts|
    ensures forall k :: 0 <= k < |parts| ==>
              r[k] == Message(Some(ids(k)), Bot, parts[k], Some(req.input), Some(req.refSnapshot), Some(service), Some(now), None)
  {
    seq(|parts|, k requires 0 <= k < |parts| =>
      Message(Some(ids(k)), Bot, parts[k], Some(req.input), Some(req.refSnapshot), Some(service), Some(now), None))
  }

  /** A placeholder replaced in place, keeping its id. */
  function Answer(req: Request, content: string, service: string, now: int): Message {
    Message(Some(req.loadingId), Bot, content, Some(req.input), Some(req.refSnapshot), Some(service), Some(now), None)
  }

  /** The message list once a request settles, located by the placeholder's current position. */
  function Settle(msgs: seq<Message>, req: Request, outcome: Outcome, wasAborted: bool,
                  service: string, split: string -> seq<string>, ids: nat -> string, now: int): seq<Message>
  {
    match IndexOfId(msgs, req.loadingId)
    case None => msgs
    case Some(i) =>
      match outcome
      case Responded(content) =>
        var parts := Parts(OrElse(content, NoResponse), split);
        if |parts| > 0 then msgs[..i] + Replies(parts, ids, req, service, now) + msgs[i + 1..]
        else msgs[i := Answer(req, NoResponse, service, now)]
      case Threw(message) =>
        if wasAborted then msgs else msgs[i := Answer(req, ErrorContent(message), service, now)]
  }

  /** A response with k > 0 parts puts them, in order and with their fresh ids, where the
      placeholder currently is; the list grows by k - 1 and every other message keeps its
      content and relative order. */
  lemma SettleParts(msgs: seq<Message>, req: Request, content: Option<string>, wasAborted: bool,
                    service: string, split: string -> seq<string>, ids: nat -> string, now: int, i: nat)
    requires IndexOfId(msgs, req.loadingId) == Some(i)
    requires |Parts(OrElse(content, NoResponse), split)| > 0
    ensures var parts := Parts(OrElse(content, NoResponse), split);
            var r := Settle(msgs, req, Responded(content), wasAborted, service, split, ids, now);
            && |r| == |msgs| + |parts| - 1
            && (forall j :: 0 <= j < i ==> r[j] == msgs[j])
            && (forall k :: 0 <= k < |parts| ==> r[i + k].content == parts[k] && r[i + k].id == Some(ids(k)))
            && (forall j :: i < j < |msgs| ==> r[j + |parts| - 1] == msgs[j])
  {
    var parts := Parts(OrElse(content, NoResponse), split);
    SettleResponded(msgs, req, content, wasAborted, service, split, ids, now, i);
    Splice(msgs, i, Replies(parts, ids, req, service, now));
  }

  /** A response with parts splices its replies in place of the placeholder. */
  lemma SettleResponded(msgs: seq<Message>, req: Request, content: Option<string>, wasAborted: bool,
                        service: string, split: string -> seq<string>, ids: nat -> string, now: int, i: nat)
    requires IndexOfId(msgs, req.loadingId) == Some(i)
    requires |Parts(OrElse(content, NoResponse), split)| > 0
    ensures Settle(msgs, req, Responded(content), wasAborted, service, split, ids, now) ==
            msgs[..i] + Replies(Parts(OrElse(content, NoResponse), split), ids, req, service, now) + msgs[i + 1..]
  {
  }

  /** Where an element is replaced by a run of others: the front stays, the run follows, and
      the back is shifted by the run's length less one. */
  lemma Splice<T>(s: seq<T>, i: nat, run: seq<T>)
    requires i < |s|
    ensures var r := s[..i] + run + s[i + 1..];
            && |r| == |s| + |run| - 1
            && (forall j :: 0 <= j < i ==> r[j] == s[j])
            && (forall k :: 0 <= k < |run| ==> r[i + k] == run[k])
            && (forall j :: i < j < |s| ==> r[j + |run| - 1] == s[j])
  {
  }

  /** A response without parts, or a failure that was not an abort, rewrites the placeholder in
      place and keeps its id; an aborted failure, or a placeholder that is gone, changes nothing. */
  lemma SettleInPlace(msgs: seq<Message>, req: Request, outcome: Outcome, wasAborted: bool,
                      service: string, split: string -> seq<string>, ids: nat -> string, now: int)
    ensures var r := Settle(msgs, req, outcome, wasAborted, service, split, ids, now);
      && (IndexOfId(msgs, req.loadingId).None? ==> r == msgs)
      && (outcome.Threw? && wasAborted ==> r == msgs)
      && (IndexOfId(msgs, req.loadingId).Some? && outcome.Threw? && !wasAborted ==>
            var i := IndexOfId(msgs, req.loadingId).value;
            |r| == |msgs| && r[i].id == Some(req.loadingId) &&
            r[i].content == ErrorContent(outcome.message) &&
            forall j :: 0 <= j < |msgs| && j != i ==> r[j] == msgs[j])
      && (IndexOfId(msgs, req.loadingId).Some? && outcome.Responded? &&
          Parts(OrElse(outcome.content, NoResponse), split) == [] ==>
            var i := IndexOfId(msgs, req.loadingId).value;
            |r| == |msgs| && r[i].id == Some(req.loadingId) && r[i].content == NoResponse &&
            forall j :: 0 <= j < |msgs| && j != i ==> r[j] == msgs[j])
  {
  }

  /** Two requests in flight, answered in the order they were sent: each answer takes the
      place of its own placeholder, so the list ends with both exchanges complete and no
      placeholder left. */
  lemma TwoInFlight(msgs: seq<Message>, a: string, b: string, inputA: string, inputB: string,
                    ref: string, service: string, split: string -> seq<string>,
                    contentA: Option<string>, contentB: Option<string>,
                    idsA: nat -> string, idsB: nat -> string, now: int, ctlA: nat, ctlB: nat)
    requires a != b
    requires Lacks(msgs, "bot-" + a) && Lacks(msgs, "bot-" + b)
    requires forall k :: idsA(k) != "bot-" + b
    requires |Parts(OrElse(contentA, NoResponse), split)| > 0
    requires |Parts(OrElse(contentB, NoResponse), split)| > 0
    ensures var pairA := RequestPair(a, inputA, ref, service, now);
            var pairB := RequestPair(b, inputB, ref, service, now);
            var reqA := Request("bot-" + a, inputA, ref, ExpectedTime(service), ctlA);
            var reqB := Request("bot-" + b, inputB, ref, ExpectedTime(service), ctlB);
            var afterA := Settle(msgs + pairA + pairB, reqA, Responded(contentA), false, service, split, idsA, now);
            Settle(afterA, reqB, Responded(contentB), false, service, split, idsB, now) ==
              msgs + [pairA[0]] + Replies(Parts(OrElse(contentA, NoResponse), split), idsA, reqA, service, now)
                   + [pairB[0]] + Replies(Parts(OrElse(contentB, NoResponse), split), idsB, reqB, service, now)
  {
    var pairA := RequestPair(a, inputA, ref, service, now);
    var pairB := RequestPair(b, inputB, ref, service, now);
    var reqA := Request("bot-" + a, inputA, ref, ExpectedTime(service), ctlA);
    var reqB := Request("bot-" + b, inputB, ref, ExpectedTime(service), ctlB);
    var repA := Replies(Parts(OrElse(contentA, NoResponse), split), idsA, reqA, service, now);
    RepliesLack(Parts(OrElse(contentA, NoResponse), split), idsA, reqA, service, now, "bot-" + b);
    InFlightLacks(msgs, a, b, pairA[0], repA, pairB[0]);
    SettleTwoPairs(msgs, pairA, pairB, reqA, reqB, contentA, contentB, service, split, idsA, idsB, now);
  }

  /** Before each placeholder, no message carries its id: the user messages are told apart
      by their prefix, and the first replies have fresh ids. */
  lemma InFlightLacks(msgs: seq<Message>, a: string, b: string, userA: Message, repA: seq<Message>, userB: Message)
    requires a != b
    requires Lacks(msgs, "bot-" + a) && Lacks(msgs, "bot-" + b) && Lacks(repA, "bot-" + b)
    requires userA.id == Some("user-" + a) && userB.id == Some("user-" + b)
    ensures Lacks(msgs + [userA], "bot-" + a)
    ensures Lacks(msgs + [userA] + repA + [userB], "bot-" + b)
  {
    PrefixIds(a, b);
    LacksAppend(msgs, [userA], "bot-" + a);
    LacksAppend(msgs, [userA], "bot-" + b);
    LacksAppend(msgs + [userA], repA, "bot-" + b);
    LacksAppend(msgs + [userA] + repA, [userB], "bot-" + b);
  }

  /** Two answers settled in turn, each taking the place of its own pair's placeholder. */
  lemma SettleTwoPairs(msgs: seq<Message>, pairA: seq<Message>, pairB: seq<Message>, reqA: Request, reqB: Request,
                       contentA: Option<string>, contentB: Option<string>, service: string,
                       split: string -> seq<string>, idsA: nat -> string, idsB: nat -> string, now: int)
    requires |pairA| == 2 && pairA[1].id == Some(reqA.loadingId) && Lacks(msgs + [pairA[0]], reqA.loadingId)
    requires |pairB| == 2 && pairB[1].id == Some(reqB.loadingId)
    requires |Parts(OrElse(contentA, NoResponse), split)| > 0
    requires |Parts(OrElse(contentB, NoResponse), split)| > 0
    requires Lacks(msgs + [pairA[0]] + Replies(Parts(OrElse(contentA, NoResponse), split), idsA, reqA, service, now) + [pairB[0]],
                   reqB.loadingId)
    ensures var afterA := Settle(msgs + pairA + pairB, reqA, Responded(contentA), false, service, split, idsA, now);
            Settle(afterA, reqB, Responded(contentB), false, service, split, idsB, now) ==
              msgs + [pairA[0]] + Replies(Parts(OrElse(contentA, NoResponse), split), idsA, reqA, service, now)
                   + [pairB[0]] + Replies(Parts(OrElse(contentB, NoResponse), split), idsB, reqB, service, now)
  {
    var repA := Replies(Parts(OrElse(contentA, NoResponse), split), idsA, reqA, service, now);
    var repB := Replies(Parts(OrElse(contentB, NoResponse), split), idsB, reqB, service, now);
    SettlePair(msgs, pairA, pairB, reqA, contentA, service, split, idsA, now);
    var done := msgs + [pairA[0]] + repA;
    AppendEmpty(done + pairB);
    AppendEmpty(done + [pairB[0]] + repB);
    SettlePair(done, pairB, [], reqB, contentB, service, split, idsB, now);
  }

  /** The answer to the second message of a request pair takes that message's place. */
  lemma SettlePair(front: seq<Message>, pair: seq<Message>, back: seq<Message>, req: Request,
                   content: Option<string>, service: string, split: string -> seq<string>, ids: nat -> string, now: int)
    requires |pair| == 2 && pair[1].id == Some(req.loadingId) && Lacks(front + [pair[0]], req.loadingId)
    requires |Parts(OrElse(content, NoResponse), split)| > 0
    ensures Settle(front + pair + back, req, Responded(content), false, service, split, ids, now) ==
            front + [pair[0]] + Replies(Parts(OrElse(content, NoResponse), split), ids, req, service, now) + back
  {
    PairRegroup(front, pair, back);
    SettleSplice(front + [pair[0]], pair[1], back, req, content, service, split, ids, now);
  }

  lemma PairRegroup<T>(front: seq<T>, pair: seq<T>, back: seq<T>)
    requires |pair| == 2
    ensures front + pair + back == (front + [pair[0]]) + [pair[1]] + back
  {
    assert pair == [pair[0]] + [pair[1]];
  }

  /** Fresh reply ids that differ from `id` keep it out of the replies. */
  lemma RepliesLack(parts: seq<string>, ids: nat -> string, req: Request, service: string, now: int, id: string)
    requires forall k :: ids(k) != id
    ensures Lacks(Replies(parts, ids, req, service, now), id)
  {
  }

  /** The placeholder follows messages that do not carry its id: the answer's parts take its
      place. */
  lemma SettleSplice(front: seq<Message>, placeholder: Message, back: seq<Message>, req: Request,
                     content: Option<string>, service: string, split: string -> seq<string>, ids: nat -> string, now: int)
    requires placeholder.id == Some(req.loadingId) && Lacks(front, req.loadingId)
    requires |Parts(OrElse(content, NoResponse), split)| > 0
    ensures Settle(front + [placeholder] + back, req, Responded(content), false, service, split, ids, now) ==
            front + Replies(Parts(OrElse(content, NoResponse), split), ids, req, service, now) + back
  {
    var msgs := front + [placeholder] + back;
    var i := |front|;
    assert msgs[..i] == front && msgs[i + 1..] == back && msgs[i] == placeholder;
    IndexOfIdAt(msgs, req.loadingId, i);
  }

  /** The ids of a request pair are told apart by their prefixes. */
  lemma PrefixIds(a: string, b: string)
    requires a != b
    ensures "user-" + a != "bot-" + b && "user-" + b != "bot-" + b && "user-" + a != "bot-" + a
    ensures "bot-" + a != "bot-" + b
  {
    assert ("user-" + a)[0] == 'u' && ("user-" + b)[0] == 'u';
    assert ("bot-" + a)[0] == 'b' && ("bot-" + b)[0] == 'b';
    assert ("bot-" + a)[4..] == a && ("bot-" + b)[4..] == b;
  }

  // ----- Selection -----

  /** The ids of the user messages that have a non-empty id, in list order. */
  function UserMessageIds(msgs: seq<Message>): (r: seq<string>)
    ensures forall x :: x in r <==>
              exists j :: 0 <= j < |msgs| && msgs[j].role == User && msgs[j].id == Some(x) && x != ""
    decreases |msgs|
  {
    if msgs == [] then []
    else
      var rest := UserMessageIds(AllButLast(msgs));
      var m := Last(msgs);
      assert forall j :: 0 <= j < |msgs| - 1 ==> AllButLast(msgs)[j] == msgs[j];
      if m.role == User && Truthy(m.id) then rest + [m.id.value] else rest
  }

  /** Flipping the membership of `id` in an insertion-ordered set. */
  function Toggle(s: seq<string>, id: string): (r: seq<string>)
    requires NoDuplicates(s)
    ensures NoDuplicates(r)
    ensures forall x :: x in r <==> if x == id then id !in s else x in s
  {
    RemoveAllNoDuplicates(s, id);
    if id in s then RemoveAll(s, id) else s + [id]
  }

  /** Toggling the same id twice gives back the same selection. */
  lemma ToggleTwice(s: seq<string>, id: string)
    requires NoDuplicates(s)
    ensures forall x :: x in Toggle(Toggle(s, id), id) <==> x in s
  {
  }

  /** The selection as stored: `Array.from(set)`, the members in insertion order. */
  function Serialize(selected: seq<string>): (r: seq<string>)
    ensures forall x :: x in r <==> x in selected
  {
    selected
  }

  /** The selection as restored: an array becomes the set of its elements; a missing value
      becomes the empty set. */
  function Deserialize(stored: Option<seq<string>>): (r: seq<string>)
    ensures NoDuplicates(r)
    ensures stored.None? ==> r == []
    ensures stored.Some? ==> forall x :: x in r <==> x in stored.value
  {
    match stored
    case None => []
    case Some(a) => Dedupe(a)
  }

  /** Storing and restoring the selection gives back the same set, in the same order. */
  lemma SelectionRoundTrip(selected: seq<string>)
    requires NoDuplicates(selected)
    ensures Deserialize(Some(Serialize(selected))) == selected
  {
    DedupeNoDuplicates(selected);
  }

  // ----- Reply collection -----

  /** Whether `m` is collected as an answer to a user message with keyword `kw`. */
  predicate IsReply(m: Message, kw: Option<string>) {
    m.role == Bot && m.content != LoadingContent && m.keyword == kw
  }

  function ReplyTest(kw: Option<string>): Message -> bool {
    m => IsReply(m, kw)
  }

  /** The position of the first user message at or after `from`, or the end of the list. */
  function NextUser(msgs: seq<Message>, from: nat): (e: nat)
    requires from <= |msgs|
    ensures from <= e <= |msgs|
    ensures forall j :: from <= j < e ==> msgs[j].role != User
    ensures e < |msgs| ==> msgs[e].role == User
    decreases |msgs| - from
  {
    if from == |msgs| || msgs[from].role == User then from else NextUser(msgs, from + 1)
  }

  /** The answers collected from position `from`: the bot messages before the next user
      message that are not placeholders and carry the keyword `kw`. */
  function RepliesFrom(msgs: seq<Message>, from: nat, kw: Option<string>): (r: seq<Message>)
    ensures |r| <= |msgs| - from || (from >= |msgs| && r == [])
    ensures forall m :: m in r ==> m.role == Bot && m.content != LoadingContent && m.keyword == kw
    ensures forall m :: m in r ==> exists j :: from <= j < |msgs| && msgs[j] == m
    decreases |msgs| - from
  {
    if from >= |msgs| || msgs[from].role == User then []
    else
      var rest := RepliesFrom(msgs, from + 1, kw);
      if msgs[from].content != LoadingContent && msgs[from].keyword == kw then
        assert msgs[from].role == Bot;
        assert forall m :: m in [msgs[from]] + rest ==> m == msgs[from] || m in rest;
        [msgs[from]] + rest
      else rest
  }

  /** The collected answers are exactly the messages at the answer positions between `from`
      and the next user message, in list order. */
  lemma {:induction false} RepliesAtPositions(msgs: seq<Message>, from: nat, kw: Option<string>)
    requires from <= |msgs|
    ensures Picks(RepliesFrom(msgs, from, kw), msgs, Positions(msgs[..NextUser(msgs, from)], ReplyTest(kw), from))
    decreases |msgs| - from
  {
    if from < |msgs| && msgs[from].role != User {
      var e := NextUser(msgs, from);
      var s := msgs[..e];
      assert e == NextUser(msgs, from + 1);
      RepliesAtPositions(msgs, from + 1, kw);
      assert s[from] == msgs[from];
      PositionsCons(s, ReplyTest(kw), from);
      if IsReply(msgs[from], kw) {
        PicksCons(RepliesFrom(msgs, from + 1, kw), msgs, Positions(s, ReplyTest(kw), from + 1), from);
      }
    }
  }

  /** No answer between `from` and the next user message is skipped. */
  lemma RepliesComplete(msgs: seq<Message>, from: nat, kw: Option<string>, k: nat)
    requires from <= k < |msgs| && k < NextUser(msgs, from) && IsReply(msgs[k], kw)
    ensures msgs[k] in RepliesFrom(msgs, from, kw)
  {
    var s := msgs[..NextUser(msgs, from)];
    assert s[k] == msgs[k];
    PositionsComplete(s, ReplyTest(kw), from, k);
    RepliesAtPositions(msgs, from, kw);
    var ps := Positions(s, ReplyTest(kw), from);
    var t :| 0 <= t < |ps| && ps[t] == k;
    assert RepliesFrom(msgs, from, kw)[t] == msgs[k];
  }

  /** What `collectBotResponses(userMessageId)` returns: nothing for an unknown id; otherwise
      the messages at the answer positions between the user message and the next one, in
      list order. */
  function Responses(msgs: seq<Message>, userMessageId: string): (r: seq<Message>)
    ensures IndexOfId(msgs, userMessageId).None? ==> r == []
    ensures IndexOfId(msgs, userMessageId).Some? ==>
              var i := IndexOfId(msgs, userMessageId).value;
              Picks(r, msgs, Positions(msgs[..NextUser(msgs, i + 1)], ReplyTest(msgs[i].keyword), i + 1))
  {
    match IndexOfId(msgs, userMessageId)
    case None => []
    case Some(i) =>
      RepliesAtPositions(msgs, i + 1, msgs[i].keyword);
      RepliesFrom(msgs, i + 1, msgs[i].keyword)
  }

  /** One more message looked at by the collecting loop: a matching answer moves from the
      answers still to collect to those collected. */
  lemma CollectStep(responses: seq<Message>, msgs: seq<Message>, i: nat, kw: Option<string>)
    requires i < |msgs| && msgs[i].role != User
    ensures var m := msgs[i];
            var taken := if m.role == Bot && m.content != LoadingContent && m.keyword == kw then [m] else [];
            (responses + taken) + RepliesFrom(msgs, i + 1, kw) == responses + RepliesFrom(msgs, i, kw)
  {
    var m := msgs[i];
    if m.role == Bot && m.content != LoadingContent && m.keyword == kw {
      assert (responses + [m]) + RepliesFrom(msgs, i + 1, kw) == responses + ([m] + RepliesFrom(msgs, i + 1, kw));
    } else {
      AppendEmpty(responses);
    }
  }

  /** Every collected answer lies after the user message and before any later user message. */
  lemma {:induction false} RepliesBeforeNextUser(msgs: seq<Message>, from: nat, kw: Option<string>, j: nat)
    requires from <= j < |msgs| && msgs[j].role == User
    ensures forall m :: m in RepliesFrom(msgs, from, kw) ==> exists k :: from <= k < j && msgs[k] == m
    decreases |msgs| - from
  {
    if from < j && msgs[from].role != User {
      RepliesBeforeNextUser(msgs, from + 1, kw, j);
    }
  }

  /** Whether `m` is a user message with an id that is selected. */
  predicate IsSelected(m: Message, selected: seq<string>) {
    m.role == User && Truthy(m.id) && m.id.value in selected
  }

  function SelectedTest(selected: seq<string>): Message -> bool {
    m => IsSelected(m, selected)
  }

  /** The package of a selected user message. */
  function Package(m: Message, all: seq<Message>): SelectedPackage
    requires m.id.Some?
  {
    SelectedPackage(m, Responses(all, m.id.value))
  }

  /** The packages of the selected user messages from position `lo` on, in list order. */
  function ExportFrom(msgs: seq<Message>, all: seq<Message>, selected: seq<string>, lo: nat): (r: seq<SelectedPackage>)
    ensures var ps := Positions(msgs, SelectedTest(selected), lo);
            |r| == |ps| && forall t :: 0 <= t < |ps| ==> r[t] == Package(msgs[ps[t]], all)
    decreases |msgs| - lo
  {
    if lo >= |msgs| then []
    else
      var rest := ExportFrom(msgs, all, selected, lo + 1);
      PositionsCons(msgs, SelectedTest(selected), lo);
      if IsSelected(msgs[lo], selected) then [Package(msgs[lo], all)] + rest else rest
  }

  /** `exportSelectedMessages`: each selected user message with its collected answers, in
      list order, one package per selected user message. */
  function ExportSelected(msgs: seq<Message>, all: seq<Message>, selected: seq<string>): (r: seq<SelectedPackage>)
    ensures var ps := Positions(msgs, SelectedTest(selected), 0);
            |r| == |ps| && forall t :: 0 <= t < |ps| ==> r[t] == Package(msgs[ps[t]], all)
    ensures forall p :: p in r ==>
              (p.userMessage in msgs && p.userMessage.role == User && Truthy(p.userMessage.id) &&
               p.userMessage.id.value in selected && p.responses == Responses(all, p.userMessage.id.value))
  {
    ExportFrom(msgs, all, selected, 0)
  }

  /** Every selected user message gets its package. */
  lemma ExportComplete(msgs: seq<Message>, all: seq<Message>, selected: seq<string>, j: nat)
    requires j < |msgs| && IsSelected(msgs[j], selected)
    ensures Package(msgs[j], all) in ExportSelected(msgs, all, selected)
  {
    PositionsComplete(msgs, SelectedTest(selected), 0, j);
    var ps := Positions(msgs, SelectedTest(selected), 0);
    var t :| 0 <= t < |ps| && ps[t] == j;
    assert ExportSelected(msgs, all, selected)[t] == Package(msgs[j], all);
  }

  // ----- Batch queue -----

  /** `reqs.filter(req => req.keyword.trim())`: the batch requests whose keyword is not blank,
      in order. */
  function NonBlank(reqs: seq<BatchRequest>): (r: seq<BatchRequest>)
    ensures |r| <= |reqs|
    ensures forall x :: x in r <==> x in reqs && !IsBlank(x.keyword)
    decreases |reqs|
  {
    if reqs == [] then []
    else
      var rest := NonBlank(reqs[1..]);
      if !IsBlank(reqs[0].keyword) then [reqs[0]] + rest else rest
  }

  /** The filter keeps order: filtering a concatenation filters each part, so the requests
      that start are those of the queue, in queue order. */
  lemma {:induction false} NonBlankAppend(a: seq<BatchRequest>, b: seq<BatchRequest>)
    ensures NonBlank(a + b) == NonBlank(a) + NonBlank(b)
    decreases |a|
  {
    if a == [] {
      assert a + b == b;
    } else {
      assert (a + b)[0] == a[0] && (a + b)[1..] == a[1..] + b;
      NonBlankAppend(a[1..], b);
    }
  }

  /** One more request in the queue: it starts after all earlier ones exactly when its
      keyword is not blank. */
  lemma NonBlankSnoc(reqs: seq<BatchRequest>, x: BatchRequest)
    ensures NonBlank([]) == []
    ensures NonBlank(reqs + [x]) == NonBlank(reqs) + (if IsBlank(x.keyword) then [] else [x])
  {
    NonBlankAppend(reqs, [x]);
    assert [x][1..] == [];
  }

  /** `{ ...request, ...updates }`. */
  function ApplyPatch(b: BatchRequest, patch: BatchPatch): (r: BatchRequest)
    ensures r.id == (if patch.id.Some? then patch.id.value else b.id)
    ensures r.keyword == (if patch.keyword.Some? then patch.keyword.value else b.keyword)
    ensures r.refMsg == (if patch.refMsg.Some? then patch.refMsg else b.refMsg)
  {
    BatchRequest(
      if patch.id.Some? then patch.id.value else b.id,
      if patch.keyword.Some? then patch.keyword.value else b.keyword,
      if patch.refMsg.Some? then patch.refMsg else b.refMsg)
  }

  /** The keys of an insertion-ordered map after `set(id, ...)`: a new key goes last, an
      existing one keeps its place. */
  function Registered(keys: seq<string>, id: string): seq<string> {
    if id in keys then keys else keys + [id]
  }

  /** The request a batched request starts: its keyword and its reference text (empty when
      absent). */
  function Batched(b: BatchRequest, messageId: string, expectedTime: Duration, controller: nat): Request {
    Request("bot-" + messageId, b.keyword, OrElse(b.refMsg, ""), expectedTime, controller)
  }

  /** `started` holds the requests of the first `|started|` batched requests, in order. */
  ghost predicate StartedFor(started: seq<Request>, valid: seq<BatchRequest>, messageIds: nat -> string,
                             controllers: nat -> nat, expectedTime: Duration)
  {
    |started| <= |valid| &&
    forall j :: 0 <= j < |started| ==> started[j] == Batched(valid[j], messageIds(j), expectedTime, controllers(j))
  }

  lemma StartedStep(started: seq<Request>, valid: seq<BatchRequest>, messageIds: nat -> string,
                    controllers: nat -> nat, expectedTime: Duration)
    requires StartedFor(started, valid, messageIds, controllers, expectedTime) && |started| < |valid|
    ensures var k := |started|;
            StartedFor(started + [Batched(valid[k], messageIds(k), expectedTime, controllers(k))],
                       valid, messageIds, controllers, expectedTime)
  {
  }

  /** The user messages and placeholders the first `n` batched requests append, in order. */
  function BatchPairs(valid: seq<BatchRequest>, messageIds: nat -> string, service: string, now: int, n: nat): (r: seq<Message>)
    requires n <= |valid|
    ensures |r| == 2 * n
  {
    if n == 0 then []
    else BatchPairs(valid, messageIds, service, now, n - 1) +
         RequestPair(messageIds(n - 1), valid[n - 1].keyword, OrElse(valid[n - 1].refMsg, ""), service, now)
  }

  /** The `k`-th batched request's user message and placeholder sit at positions `2k` and
      `2k + 1` of what the batch appends. */
  lemma {:induction false} BatchPairsAt(valid: seq<BatchRequest>, messageIds: nat -> string, service: string, now: int, n: nat, k: nat)
    requires k < n <= |valid|
    ensures var pair := RequestPair(messageIds(k), valid[k].keyword, OrElse(valid[k].refMsg, ""), service, now);
            BatchPairs(valid, messageIds, service, now, n)[2 * k] == pair[0] &&
            BatchPairs(valid, messageIds, service, now, n)[2 * k + 1] == pair[1]
    decreases n
  {
    if k < n - 1 {
      BatchPairsAt(valid, messageIds, service, now, n - 1, k);
    }
  }

  /** The pending set after the placeholders of the first `n` batched requests are added in
      turn. */
  function PendingAll(pending: set<string>, messageIds: nat -> string, n: nat): set<string> {
    if n == 0 then pending else PendingAll(pending, messageIds, n - 1) + {"bot-" + messageIds(n - 1)}
  }

  /** What the batch adds to the pending set is exactly its placeholders. */
  lemma {:induction false} PendingAllHas(pending: set<string>, messageIds: nat -> string, n: nat, x: string)
    ensures x in PendingAll(pending, messageIds, n) <==> x in pending || exists k :: 0 <= k < n && x == "bot-" + messageIds(k)
  {
    if n > 0 {
      PendingAllHas(pending, messageIds, n - 1, x);
    }
  }

  /** The registry keys after the placeholders of the first `n` batched requests are
      registered in turn. */
  function RegisteredAll(keys: seq<string>, messageIds: nat -> string, n: nat): seq<string> {
    if n == 0 then keys else Registered(RegisteredAll(keys, messageIds, n - 1), "bot-" + messageIds(n - 1))
  }

  /** The registry's controllers after the first `n` batched requests are registered in turn:
      the last registration of an id decides its controller. */
  function RegisteredControllers(m: map<string, nat>, messageIds: nat -> string, controllers: nat -> nat, n: nat): map<string, nat> {
    if n == 0 then m
    else RegisteredControllers(m, messageIds, controllers, n - 1)["bot-" + messageIds(n - 1) := controllers(n - 1)]
  }

  /** One more batched request registered: its placeholder joins the pending set and the
      registry. */
  lemma RegisteredStep(keys: seq<string>, m: map<string, nat>,
                       messageIds: nat -> string, controllers: nat -> nat, k: nat)
    ensures Registered(RegisteredAll(keys, messageIds, k), "bot-" + messageIds(k)) == RegisteredAll(keys, messageIds, k + 1)
    ensures RegisteredControllers(m, messageIds, controllers, k)["bot-" + messageIds(k) := controllers(k)] ==
            RegisteredControllers(m, messageIds, controllers, k + 1)
  {
  }

  /** Deleting the last key of a registry keeps the keys distinct and in step with the map
      without that key. */
  lemma DropLastKey(keys: seq<string>, m: map<string, nat>)
    requires keys != [] && NoDuplicates(keys)
    requires forall id :: id in keys <==> id in m
    ensures NoDuplicates(AllButLast(keys))
    ensures forall id :: id in AllButLast(keys) <==> id in m - {Last(keys)}
  {
    NoDuplicatesInit(keys);
    assert keys == AllButLast(keys) + [Last(keys)];
  }

  /** Deleting a key from a registry keeps the keys distinct and in step with the map
      without that key. */
  lemma RemoveKey(keys: seq<string>, m: map<string, nat>, id: string)
    requires NoDuplicates(keys)
    requires forall x :: x in keys <==> x in m
    ensures NoDuplicates(RemoveAll(keys, id))
    ensures forall x :: x in RemoveAll(keys, id) <==> x in m - {id}
  {
    RemoveAllNoDuplicates(keys, id);
  }

  class ChatStore {
    var messages: seq<Message>
    var keyword: string
    var refMsg: string
    var service: string
    var showRefInput: bool
    /** Placeholder ids awaiting an answer. */
    var pendingMessages: set<string>
    /** The keys of the `activeRequests` map, in insertion order. */
    var activeRequests: seq<string>
    /** The values of the `activeRequests` map: each request's abort controller. */
    var controllerOf: map<string, nat>
    /** The abort controllers that have been aborted. */
    var aborted: set<nat>
    /** The selected user-message ids, an insertion-ordered set. */
    var selectedMessageIds: seq<string>
    var isSelectionMode: bool
    var batchRequests: seq<BatchRequest>
    var batchStatuses: map<string, BatchStatus>
    /** The introduction text of the first message. */
    const intro: string

    /** The registry is a map (keys without repetition, each with a controller) and the
        selection is a set. */
    ghost predicate Valid()
      reads this
    {
      && NoDuplicates(activeRequests)
      && (forall id :: id in activeRequests <==> id in controllerOf)
      && NoDuplicates(selectedMessageIds)
    }

    /** `isLoading`. */
    predicate IsLoading()
      reads this
    {
      |pendingMessages| > 0
    }

    /** `hasMessages`: something besides the introduction. */
    predicate HasMessages()
      reads this
    {
      |messages| > 1
    }

    constructor (intro: string, service: string, now: int)
      ensures Valid()
      ensures this.intro == intro && this.service == service
      ensures messages == [IntroMessage(intro, now)]
      ensures keyword == "" && refMsg == "" && showRefInput
      ensures pendingMessages == {} && activeRequests == [] && controllerOf == map[] && aborted == {}
      ensures selectedMessageIds == [] && !isSelectionMode
      ensures batchRequests == [] && batchStatuses == map[]
    {
      this.intro := intro;
      this.service := service;
      messages := [IntroMessage(intro, now)];
      keyword, refMsg, showRefInput := "", "", true;
      pendingMessages, activeRequests, controllerOf, aborted := {}, [], map[], {};
      selectedMessageIds, isSelectionMode := [], false;
      batchRequests, batchStatuses := [], map[];
    }

    /** `handleGenerate` up to the awaited call: a blank keyword does nothing; otherwise the
        user message and a placeholder are appended, the input is cleared and the placeholder
        is registered as pending and as the newest active request. */
    method BeginGenerate(messageId: string, controller: nat, now: int) returns (req: Option<Request>)
      requires Valid()
      modifies this`messages, this`keyword, this`showRefInput, this`pendingMessages, this`activeRequests, this`controllerOf
      ensures Valid()
      ensures IsBlank(old(keyword)) ==> req == None && unchanged(this)
      ensures !IsBlank(old(keyword)) ==>
        var id := "bot-" + messageId;
        && req == Some(Request(id, old(keyword), old(refMsg), ExpectedTime(old(service)), controller))
        && messages == old(messages) + RequestPair(messageId, old(keyword), old(refMsg), old(service), now)
        && keyword == "" && !showRefInput
        && pendingMessages == old(pendingMessages) + {id}
        && activeRequests == (if id in old(activeRequests) then old(activeRequests) else old(activeRequests) + [id])
        && controllerOf == old(controllerOf)[id := controller]
        && refMsg == old(refMsg) && service == old(service) && aborted == old(aborted)
        && selectedMessageIds == old(selectedMessageIds) && isSelectionMode == old(isSelectionMode)
        && batchRequests == old(batchRequests) && batchStatuses == old(batchStatuses)
    {
      if IsBlank(keyword) {
        return None;
      }
      var input := keyword;
      var refSnapshot := refMsg;
      messages := messages + RequestPair(messageId, input, refSnapshot, service, now);
      var id := "bot-" + messageId;
      keyword := "";
      showRefInput := false;
      Register(id, controller);
      req := Some(Request(id, input, refSnapshot, ExpectedTime(service), controller));
    }

    /** A request enters the pending set and the registry (`Map.set` keeps an existing key
        in its place). */
    method Register(id: string, controller: nat)
      requires Valid()
      modifies this`pendingMessages, this`activeRequests, this`controllerOf
      ensures Valid()
      ensures pendingMessages == old(pendingMessages) + {id}
      ensures activeRequests == (if id in old(activeRequests) then old(activeRequests) else old(activeRequests) + [id])
      ensures controllerOf == old(controllerOf)[id := controller]
      ensures messages == old(messages) && keyword == old(keyword) && showRefInput == old(showRefInput)
      ensures refMsg == old(refMsg) && service == old(service) && aborted == old(aborted)
      ensures selectedMessageIds == old(selectedMessageIds) && isSelectionMode == old(isSelectionMode)
      ensures batchRequests == old(batchRequests) && batchStatuses == old(batchStatuses)
    {
      pendingMessages := pendingMessages + {id};
      if id !in activeRequests {
        AppendNoDuplicates(activeRequests, id);
        activeRequests := activeRequests + [id];
      }
      controllerOf := controllerOf[id := controller];
    }

    /** The progress ticker of a request: the first message with its placeholder id gets the
        progress for the time elapsed, measured against the answer time fixed when the request
        started; nothing happens once the placeholder is gone. */
    method Tick(req: Request, elapsed: nat)
      modifies this`messages
      ensures IndexOfId(old(messages), req.loadingId).None? ==> messages == old(messages)
      ensures IndexOfId(old(messages), req.loadingId).Some? ==>
        var i := IndexOfId(old(messages), req.loadingId).value;
        messages == old(messages)[i := old(messages)[i].(loadingProgress := Some(LoadingProgress(elapsed, req.expectedTime)))]
      ensures pendingMessages == old(pendingMessages) && activeRequests == old(activeRequests)
      ensures keyword == old(keyword) && refMsg == old(refMsg) && service == old(service)
    {
      match IndexOfId(messages, req.loadingId) {
        case None =>
        case Some(i) =>
          var progress := LoadingProgress(elapsed, req.expectedTime);
          messages := messages[i := messages[i].(loadingProgress := Some(progress))];
      }
    }

    /** `handleGenerate` once the call settles. An answer replaces the placeholder where it is
        now (even after a cancel, whose placeholder is gone); a failure of an aborted request
        leaves the list alone; in every case the request leaves both registries and the
        reference text is cleared. */
    method CompleteGenerate(req: Request, outcome: Outcome, split: string -> seq<string>, ids: nat -> string, now: int)
      requires Valid()
      modifies this
      ensures Valid()
      ensures messages == Settle(old(messages), req, outcome, req.controller in old(aborted), old(service), split, ids, now)
      ensures req.loadingId !in pendingMessages && req.loadingId !in activeRequests
      ensures pendingMessages == old(pendingMessages) - {req.loadingId}
      ensures activeRequests == RemoveAll(old(activeRequests), req.loadingId)
      ensures controllerOf == old(controllerOf) - {req.loadingId}
      ensures refMsg == ""
      ensures keyword == old(keyword) && service == old(service) && aborted == old(aborted)
      ensures selectedMessageIds == old(selectedMessageIds) && isSelectionMode == old(isSelectionMode)
      ensures batchRequests == old(batchRequests) && batchStatuses == old(batchStatuses)
    {
      SettleMessages(req, outcome, split, ids, now);
      pendingMessages := pendingMessages - {req.loadingId};
      RemoveKey(activeRequests, controllerOf, req.loadingId);
      activeRequests := RemoveAll(activeRequests, req.loadingId);
      controllerOf := controllerOf - {req.loadingId};
      refMsg := "";
    }

    /** The message-list part of `CompleteGenerate`. */
    method SettleMessages(req: Request, outcome: Outcome, split: string -> seq<string>, ids: nat -> string, now: int)
      modifies this
      ensures messages == Settle(old(messages), req, outcome, req.controller in old(aborted), old(service), split, ids, now)
      ensures keyword == old(keyword) && refMsg == old(refMsg) && service == old(service)
      ensures pendingMessages == old(pendingMessages) && activeRequests == old(activeRequests)
      ensures controllerOf == old(controllerOf) && aborted == old(aborted)
      ensures selectedMessageIds == old(selectedMessageIds) && isSelectionMode == old(isSelectionMode)
      ensures batchRequests == old(batchRequests) && batchStatuses == old(batchStatuses)
    {
      match IndexOfId(messages, req.loadingId) {
        case None =>
        case Some(i) =>
          match outcome {
            case Responded(content) =>
              var parts := Parts(OrElse(content, NoResponse), split);
              if |parts| > 0 {
                PlaceReplies(i, Replies(parts, ids, req, service, now));
              } else {
                messages := messages[i := Answer(req, NoResponse, service, now)];
              }
            case Threw(message) =>
              if req.controller !in aborted {
                messages := messages[i := Answer(req, ErrorContent(message), service, now)];
              }
          }
      }
    }

    /** The placeholder at `i` becomes the first answer, and the others are spliced in after
        it one by one. */
    method PlaceReplies(i: nat, replies: seq<Message>)
      requires i < |messages| && |replies| >= 1
      modifies this
      ensures messages == old(messages)[..i] + replies + old(messages)[i + 1..]
      ensures keyword == old(keyword) && refMsg == old(refMsg) && service == old(service)
      ensures pendingMessages == old(pendingMessages) && activeRequests == old(activeRequests)
      ensures controllerOf == old(controllerOf) && aborted == old(aborted)
      ensures selectedMessageIds == old(selectedMessageIds) && isSelectionMode == old(isSelectionMode)
      ensures batchRequests == old(batchRequests) && batchStatuses == old(batchStatuses)
    {
      ghost var before := messages;
      messages := messages[i := replies[0]];
      assert replies[..1] == [replies[0]];
      var k := 1;
      while k < |replies|
        invariant 1 <= k <= |replies|
        invariant messages == before[..i] + replies[..k] + before[i + 1..]
        invariant keyword == old(keyword) && refMsg == old(refMsg) && service == old(service)
        invariant pendingMessages == old(pendingMessages) && activeRequests == old(activeRequests)
        invariant controllerOf == old(controllerOf) && aborted == old(aborted)
        invariant selectedMessageIds == old(selectedMessageIds) && isSelectionMode == old(isSelectionMode)
        invariant batchRequests == old(batchRequests) && batchStatuses == old(batchStatuses)
      {
        assert replies[..k + 1] == replies[..k] + [replies[k]];
        messages := Insert(messages, i + k, replies[k]);
        k := k + 1;
      }
      assert replies[..k] == replies;
    }

    /** `handleRegenerate`: a message with a keyword is sent again, with its reference text
        and service when it has them. */
    method Regenerate(msg: Message, messageId: string, controller: nat, now: int) returns (req: Option<Request>)
      requires Valid()
      modifies this`messages, this`keyword, this`refMsg, this`service, this`showRefInput, this`pendingMessages, this`activeRequests, this`controllerOf
      ensures Valid()
      ensures !Truthy(msg.keyword) ==> req == None && unchanged(this)
      ensures Truthy(msg.keyword) ==>
        && refMsg == (if Truthy(msg.ref) then msg.ref.value else old(refMsg))
        && service == (if Truthy(msg.service) then msg.service.value else old(service))
      ensures Truthy(msg.keyword) && IsBlank(msg.keyword.value) ==>
        && req == None && keyword == msg.keyword.value
        && (messages, showRefInput, pendingMessages, activeRequests, controllerOf) ==
           old((messages, showRefInput, pendingMessages, activeRequests, controllerOf))
      ensures Truthy(msg.keyword) && !IsBlank(msg.keyword.value) ==>
        var id := "bot-" + messageId;
        && req == Some(Request(id, msg.keyword.value, refMsg, ExpectedTime(service), controller))
        && messages == old(messages) + RequestPair(messageId, msg.keyword.value, refMsg, service, now)
        && keyword == "" && !showRefInput
        && pendingMessages == old(pendingMessages) + {id}
        && activeRequests == (if id in old(activeRequests) then old(activeRequests) else old(activeRequests) + [id])
        && controllerOf == old(controllerOf)[id := controller]
    {
      req := None;
      if Truthy(msg.keyword) {
        keyword := msg.keyword.value;
        if Truthy(msg.ref) {
          refMsg := msg.ref.value;
        }
        if Truthy(msg.service) {
          service := msg.service.value;
        }
        req := BeginGenerate(messageId, controller, now);
      }
    }

    /** `addQuickMessage`: send a suggestion as the keyword. */
    method AddQuickMessage(text: string, messageId: string, controller: nat, now: int) returns (req: Option<Request>)
      requires Valid()
      modifies this`messages, this`keyword, this`showRefInput, this`pendingMessages, this`activeRequests, this`controllerOf
      ensures Valid()
      ensures IsBlank(text) ==>
        && req == None && keyword == text
        && (messages, showRefInput, pendingMessages, activeRequests, controllerOf) ==
           old((messages, showRefInput, pendingMessages, activeRequests, controllerOf))
      ensures !IsBlank(text) ==>
        var id := "bot-" + messageId;
        && req == Some(Request(id, text, old(refMsg), ExpectedTime(old(service)), controller))
        && messages == old(messages) + RequestPair(messageId, text, old(refMsg), old(service), now)
        && keyword == "" && !showRefInput
        && pendingMessages == old(pendingMessages) + {id}
        && activeRequests == (if id in old(activeRequests) then old(activeRequests) else old(activeRequests) + [id])
        && controllerOf == old(controllerOf)[id := controller]
    {
      keyword := text;
      req := BeginGenerate(messageId, controller, now);
    }

    /** `deleteMessage`: removes one message, never the introduction at position 0. */
    method DeleteMessage(index: int)
      modifies this`messages
      ensures 0 < index < |old(messages)| ==> messages == old(messages)[..index] + old(messages)[index + 1..]
      ensures !(0 < index < |old(messages)|) ==> messages == old(messages)
      ensures |old(messages)| >= 1 ==> |messages| >= 1 && messages[0] == old(messages)[0]
      ensures pendingMessages == old(pendingMessages) && activeRequests == old(activeRequests)
      ensures controllerOf == old(controllerOf) && aborted == old(aborted)
      ensures selectedMessageIds == old(selectedMessageIds) && batchRequests == old(batchRequests)
    {
      if 0 < index < |messages| {
        messages := messages[..index] + messages[index + 1..];
      }
    }

    /** `cancelCurrentRequest`: the most recently registered request (if its id is not empty)
        is aborted, leaves both registries, and its placeholder is removed. */
    method CancelCurrentRequest()
      requires Valid()
      modifies this`aborted, this`activeRequests, this`controllerOf, this`pendingMessages, this`messages
      ensures Valid()
      ensures old(activeRequests) == [] || Last(old(activeRequests)) == "" ==> unchanged(this)
      ensures old(activeRequests) != [] && Last(old(activeRequests)) != "" ==>
        var id := Last(old(activeRequests));
        && aborted == old(aborted) + {old(controllerOf)[id]}
        && activeRequests == AllButLast(old(activeRequests))
        && controllerOf == old(controllerOf) - {id}
        && pendingMessages == old(pendingMessages) - {id}
        && messages == (match IndexOfId(old(messages), id)
                        case None => old(messages)
                        case Some(i) => old(messages)[..i] + old(messages)[i + 1..])
        && keyword == old(keyword) && refMsg == old(refMsg) && service == old(service)
        && selectedMessageIds == old(selectedMessageIds) && batchRequests == old(batchRequests)
    {
      if activeRequests == [] {
        return;
      }
      var id := Last(activeRequests);
      if id == "" {
        return;
      }
      aborted := aborted + {controllerOf[id]};
      DropNewest();
      pendingMessages := pendingMessages - {id};
      RemoveMessage(id);
    }

    /** The newest registry entry is deleted. */
    method DropNewest()
      requires Valid() && activeRequests != []
      modifies this`activeRequests, this`controllerOf
      ensures Valid()
      ensures activeRequests == AllButLast(old(activeRequests))
      ensures controllerOf == old(controllerOf) - {Last(old(activeRequests))}
      ensures messages == old(messages) && keyword == old(keyword) && showRefInput == old(showRefInput)
      ensures refMsg == old(refMsg) && service == old(service) && aborted == old(aborted)
      ensures pendingMessages == old(pendingMessages)
      ensures selectedMessageIds == old(selectedMessageIds) && isSelectionMode == old(isSelectionMode)
      ensures batchRequests == old(batchRequests) && batchStatuses == old(batchStatuses)
    {
      var id := Last(activeRequests);
      var rest := AllButLast(activeRequests);
      DropLastKey(activeRequests, controllerOf);
      activeRequests := rest;
      controllerOf := controllerOf - {id};
    }

    /** `messages.findIndex(m => m.id === id)` followed by `splice(index, 1)` when found. */
    method RemoveMessage(id: string)
      modifies this`messages
      ensures messages == (match IndexOfId(old(messages), id)
                           case None => old(messages)
                           case Some(i) => old(messages)[..i] + old(messages)[i + 1..])
      ensures keyword == old(keyword) && refMsg == old(refMsg) && service == old(service)
      ensures pendingMessages == old(pendingMessages) && activeRequests == old(activeRequests)
      ensures controllerOf == old(controllerOf) && aborted == old(aborted)
      ensures selectedMessageIds == old(selectedMessageIds) && isSelectionMode == old(isSelectionMode)
      ensures batchRequests == old(batchRequests) && batchStatuses == old(batchStatuses)
    {
      match IndexOfId(messages, id) {
        case None =>
        case Some(i) =>
          messages := messages[..i] + messages[i + 1..];
      }
    }

    /** `clearChat`: every active request is aborted, both registries are emptied and the list
        is back to the introduction alone. */
    method ClearChat(now: int)
      requires Valid()
      modifies this`aborted, this`activeRequests, this`controllerOf, this`pendingMessages, this`messages
      ensures Valid()
      ensures aborted == old(aborted) + old(controllerOf).Values
      ensures activeRequests == [] && controllerOf == map[] && pendingMessages == {}
      ensures messages == [IntroMessage(intro, now)] && !IsLoading()
      ensures keyword == old(keyword) && refMsg == old(refMsg) && service == old(service)
      ensures showRefInput == old(showRefInput)
      ensures selectedMessageIds == old(selectedMessageIds) && isSelectionMode == old(isSelectionMode)
      ensures batchRequests == old(batchRequests) && batchStatuses == old(batchStatuses)
    {
      aborted := aborted + controllerOf.Values;
      activeRequests, controllerOf := [], map[];
      pendingMessages := {};
      messages := [IntroMessage(intro, now)];
    }

    /** `toggleSelectionMode`: leaving selection mode clears the selection. */
    method ToggleSelectionMode()
      requires Valid()
      modifies this`isSelectionMode, this`selectedMessageIds
      ensures Valid()
      ensures isSelectionMode == !old(isSelectionMode)
      ensures selectedMessageIds == if isSelectionMode then old(selectedMessageIds) else []
      ensures messages == old(messages)
    {
      isSelectionMode := !isSelectionMode;
      if !isSelectionMode {
        selectedMessageIds := [];
      }
    }

    /** `toggleMessageSelection`: ids that are not those of user messages are ignored;
        otherwise the id's membership flips. */
    method ToggleMessageSelection(messageId: string)
      requires Valid()
      modifies this`selectedMessageIds
      ensures Valid()
      ensures messageId !in UserMessageIds(messages) ==> selectedMessageIds == old(selectedMessageIds)
      ensures messageId in UserMessageIds(messages) ==> selectedMessageIds == Toggle(old(selectedMessageIds), messageId)
      ensures messages == old(messages) && isSelectionMode == old(isSelectionMode)
    {
      if messageId in UserMessageIds(messages) {
        selectedMessageIds := Toggle(selectedMessageIds, messageId);
      }
    }

    /** `selectAllMessages`: exactly the user-message ids are selected, as a `Set` built from
        them keeps them (the first occurrence of each, in list order). */
    method SelectAllMessages()
      requires Valid()
      modifies this`selectedMessageIds
      ensures Valid()
      ensures selectedMessageIds == Dedupe(UserMessageIds(messages))
      ensures forall x :: x in selectedMessageIds <==> x in UserMessageIds(messages)
      ensures NoDuplicates(UserMessageIds(messages)) ==> selectedMessageIds == UserMessageIds(messages)
      ensures messages == old(messages) && isSelectionMode == old(isSelectionMode)
    {
      selectedMessageIds := Dedupe(UserMessageIds(messages));
      if NoDuplicates(UserMessageIds(messages)) {
        DedupeNoDuplicates(UserMessageIds(messages));
      }
    }

    method ClearSelection()
      requires Valid()
      modifies this`selectedMessageIds
      ensures Valid()
      ensures selectedMessageIds == [] && messages == old(messages) && isSelectionMode == old(isSelectionMode)
    {
      selectedMessageIds := [];
    }

    /** `collectBotResponses`: the loop from the message after the user message up to the next
        user message. */
    method CollectBotResponses(userMessageId: string) returns (responses: seq<Message>)
      ensures responses == Responses(messages, userMessageId)
    {
      var found := IndexOfId(messages, userMessageId);
      if found.None? {
        return [];
      }
      var userIndex := found.value;
      var kw := messages[userIndex].keyword;
      responses := [];
      var i := userIndex + 1;
      while i < |messages|
        invariant userIndex + 1 <= i <= |messages|
        invariant responses + RepliesFrom(messages, i, kw) == RepliesFrom(messages, userIndex + 1, kw)
        decreases |messages| - i
      {
        var candidate := messages[i];
        if candidate.role == User {
          break;
        }
        CollectStep(responses, messages, i, kw);
        if candidate.role == Bot && candidate.content != LoadingContent && candidate.keyword == kw {
          responses := responses + [candidate];
        }
        i := i + 1;
      }
      AppendEmpty(responses);
    }

    /** `addBatchRequest`: a queue of 20 is full; otherwise a blank request is added as
        pending. */
    method AddBatchRequest(id: string)
      modifies this`batchRequests, this`batchStatuses
      ensures |old(batchRequests)| >= BatchLimit ==>
                batchRequests == old(batchRequests) && batchStatuses == old(batchStatuses)
      ensures |old(batchRequests)| < BatchLimit ==>
                batchRequests == old(batchRequests) + [BatchRequest(id, "", Some(""))] &&
                batchStatuses == old(batchStatuses)[id := Pending]
      ensures |old(batchRequests)| <= BatchLimit ==> |batchRequests| <= BatchLimit
      ensures messages == old(messages) && activeRequests == old(activeRequests)
    {
      if |batchRequests| >= BatchLimit {
        return;
      }
      batchRequests := batchRequests + [BatchRequest(id, "", Some(""))];
      batchStatuses := batchStatuses[id := Pending];
    }

    /** `removeBatchRequest`: `splice(index, 1)`, and the removed request's status goes too. */
    method RemoveBatchRequest(index: int)
      modifies this`batchRequests, this`batchStatuses
      ensures batchRequests == RemoveAt(old(batchRequests), index)
      ensures var k := SpliceStart(|old(batchRequests)|, index);
              batchStatuses == if k < |old(batchRequests)| then old(batchStatuses) - {old(batchRequests)[k].id}
                               else old(batchStatuses)
      ensures messages == old(messages) && activeRequests == old(activeRequests)
    {
      var k := SpliceStart(|batchRequests|, index);
      if k < |batchRequests| {
        var removed := batchRequests[k];
        batchRequests := RemoveAt(batchRequests, index);
        batchStatuses := batchStatuses - {removed.id};
      }
    }

    /** `updateBatchRequest`: merges the update into the request at a valid position. */
    method UpdateBatchRequest(index: int, patch: BatchPatch)
      modifies this`batchRequests
      ensures 0 <= index < |old(batchRequests)| ==>
                batchRequests == old(batchRequests)[index := ApplyPatch(old(batchRequests)[index], patch)]
      ensures !(0 <= index < |old(batchRequests)|) ==> batchRequests == old(batchRequests)
      ensures batchStatuses == old(batchStatuses) && messages == old(messages)
    {
      if 0 <= index < |batchRequests| {
        batchRequests := batchRequests[index := ApplyPatch(batchRequests[index], patch)];
      }
    }

    method ClearBatchRequests()
      modifies this`batchRequests, this`batchStatuses
      ensures batchRequests == [] && batchStatuses == map[]
      ensures messages == old(messages) && activeRequests == old(activeRequests)
      ensures pendingMessages == old(pendingMessages) && controllerOf == old(controllerOf)
      ensures keyword == old(keyword) && refMsg == old(refMsg) && selectedMessageIds == old(selectedMessageIds)
    {
      batchRequests, batchStatuses := [], map[];
    }

    /** One iteration of `handleBatchGenerate`: the request's keyword and reference text are
        put in the input, and a generation starts for them. */
    method StartBatched(b: BatchRequest, messageId: string, controller: nat, now: int) returns (req: Request)
      requires Valid() && !IsBlank(b.keyword)
      modifies this`messages, this`keyword, this`showRefInput, this`pendingMessages, this`activeRequests, this`controllerOf, this`refMsg
      ensures Valid()
      ensures req == Batched(b, messageId, ExpectedTime(old(service)), controller)
      ensures messages == old(messages) + RequestPair(messageId, b.keyword, OrElse(b.refMsg, ""), old(service), now)
      ensures keyword == "" && refMsg == OrElse(b.refMsg, "") && !showRefInput
      ensures pendingMessages == old(pendingMessages) + {"bot-" + messageId}
      ensures activeRequests == Registered(old(activeRequests), "bot-" + messageId)
      ensures controllerOf == old(controllerOf)["bot-" + messageId := controller]
      ensures service == old(service) && aborted == old(aborted)
      ensures selectedMessageIds == old(selectedMessageIds) && isSelectionMode == old(isSelectionMode)
      ensures batchRequests == old(batchRequests) && batchStatuses == old(batchStatuses)
    {
      keyword := b.keyword;
      refMsg := OrElse(b.refMsg, "");
      var started := BeginGenerate(messageId, controller, now);
      req := started.value;
    }

    /** The state once the first `k` batched requests have started, from the given state
        before the batch: `started` holds their requests, their pairs follow `msgs0`, their
        placeholders are pending and registered, and the input holds the last one's reference
        text. */
    ghost predicate BatchedUpTo(valid: seq<BatchRequest>, messageIds: nat -> string, controllers: nat -> nat, now: int,
                                k: nat, started: seq<Request>, msgs0: seq<Message>, pending0: set<string>,
                                keys0: seq<string>, ctl0: map<string, nat>)
      reads this
    {
      && k <= |valid| && |started| == k
      && StartedFor(started, valid, messageIds, controllers, ExpectedTime(service))
      && (messages, pendingMessages, activeRequests, controllerOf)
         == (msgs0 + BatchPairs(valid, messageIds, service, now, k), PendingAll(pending0, messageIds, k),
             RegisteredAll(keys0, messageIds, k), RegisteredControllers(ctl0, messageIds, controllers, k))
      && (k > 0 ==> keyword == "" && refMsg == OrElse(valid[k - 1].refMsg, "") && !showRefInput)
    }

    /** One iteration of the `forEach`: the `k`-th request starts. */
    method StartNext(valid: seq<BatchRequest>, messageIds: nat -> string, controllers: nat -> nat, now: int,
                     k: nat, started: seq<Request>, ghost msgs0: seq<Message>, ghost pending0: set<string>,
                     ghost keys0: seq<string>, ghost ctl0: map<string, nat>)
      returns (started': seq<Request>)
      requires Valid() && k < |valid| && !IsBlank(valid[k].keyword)
      requires BatchedUpTo(valid, messageIds, controllers, now, k, started, msgs0, pending0, keys0, ctl0)
      modifies this`messages, this`keyword, this`showRefInput, this`pendingMessages, this`activeRequests, this`controllerOf, this`refMsg
      ensures Valid()
      ensures BatchedUpTo(valid, messageIds, controllers, now, k + 1, started', msgs0, pending0, keys0, ctl0)
    {
      var req := StartBatched(valid[k], messageIds(k), controllers(k), now);
      AppendAssoc(msgs0, BatchPairs(valid, messageIds, service, now, k),
                  RequestPair(messageIds(k), valid[k].keyword, OrElse(valid[k].refMsg, ""), service, now));
      StartedStep(started, valid, messageIds, controllers, ExpectedTime(service));
      RegisteredStep(keys0, ctl0, messageIds, controllers, k);
      started' := started + [req];
    }

    /** The `forEach` of `handleBatchGenerate`: a generation starts for each request, in
        order; the input is left empty with the last request's reference text. */
    method StartAll(valid: seq<BatchRequest>, messageIds: nat -> string, controllers: nat -> nat, now: int)
      returns (started: seq<Request>)
      requires Valid() && valid != [] && forall x :: x in valid ==> !IsBlank(x.keyword)
      modifies this`messages, this`keyword, this`showRefInput, this`pendingMessages, this`activeRequests, this`controllerOf, this`refMsg
      ensures Valid()
      ensures BatchedUpTo(valid, messageIds, controllers, now, |valid|, started,
                          old(messages), old(pendingMessages), old(activeRequests), old(controllerOf))
    {
      started := [];
      var k := 0;
      AppendEmpty(messages);
      while k < |valid|
        invariant k <= |valid| && Valid()
        invariant BatchedUpTo(valid, messageIds, controllers, now, k, started,
                              old(messages), old(pendingMessages), old(activeRequests), old(controllerOf))
      {
        assert valid[k] in valid;
        started := StartNext(valid, messageIds, controllers, now, k, started,
                             old(messages), old(pendingMessages), old(activeRequests), old(controllerOf));
        k := k + 1;
      }
    }

    /** `handleBatchGenerate`: nothing happens unless some keyword is not blank; otherwise a
        generation starts for each such request, in order, and the queue is cleared. */
    method HandleBatchGenerate(messageIds: nat -> string, controllers: nat -> nat, now: int)
      returns (started: seq<Request>)
      requires Valid()
      modifies this`messages, this`keyword, this`showRefInput, this`pendingMessages, this`activeRequests, this`controllerOf, this`refMsg
      modifies this`batchRequests, this`batchStatuses
      ensures Valid()
      ensures NonBlank(old(batchRequests)) == [] ==> started == [] && unchanged(this)
      ensures var valid := NonBlank(old(batchRequests));
              valid != [] ==>
              && BatchedUpTo(valid, messageIds, controllers, now, |valid|, started,
                             old(messages), old(pendingMessages), old(activeRequests), old(controllerOf))
              && (batchRequests, batchStatuses) == ([], map[])
    {
      var valid := NonBlank(batchRequests);
      if valid == [] {
        return [];
      }
      started := StartAll(valid, messageIds, controllers, now);
      ClearBatchRequests();
    }
  }
}
