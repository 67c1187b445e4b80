/** The streaming generation hook (src/hooks/useStreamChat.ts): a read loop that cuts the
    response body into `data: ` frames separated by a blank line, folds them into the shared
    stream state and reports them through the onChunk / onComplete / onError callbacks.

    The transport is an input: the chunks the reader delivers, then how the body ends (closed,
    or the read throws, by abort or otherwise). `JSON.parse` is the input `parse`. */
module StreamChat {
  import opened Common

  /** What `JSON.parse` gives for a payload that looks like an object: a syntax error, or an
      object whose `_id` property is `id` (`None` when the property is absent). */
  datatype JsonValue = ParseError | Object(id: Option<string>)

  /** One invocation of a caller-supplied callback. */
  datatype Callback =
    | OnChunk(chunk: string, fullContent: string)
    | OnComplete(fullContent: string, manuscriptId: Option<string>)
    | OnError(message: string)

  /** How the response body ends once the delivered chunks have been read. */
  datatype StreamEnd = Closed | Failed(isAbort: bool, message: string)

  /** What the network gives one `startStream` call: a failed request or a body that fails
      before its first chunk is `Transport([], Failed(...))`. */
  datatype Transport = Transport(chunks: seq<string>, end: StreamEnd)

  const Prefix: string := "data: "
  const DoneSignal: string := "[DONE]"
  const Delimiter: string := "\n\n"

  /** How the read loop treats one complete frame. */
  datatype FrameKind = Ignored | Terminator | Metadata(id: Option<string>) | Text(data: string)

  /** The classification of one frame: frames without the exact `data: ` prefix are ignored;
      the payload after the prefix is the end signal, a metadata object that parses, or text. */
  function Classify(frame: string, parse: string -> JsonValue): (k: FrameKind)
    ensures k.Ignored? <==> !StartsWith(frame, Prefix)
    ensures k.Terminator? <==> StartsWith(frame, Prefix) && frame[|Prefix|..] == DoneSignal
    ensures k.Metadata? ==> StartsWith(frame, Prefix + "{") && EndsWith(frame, "}") &&
                            parse(frame[|Prefix|..]) == Object(k.id)
    ensures k.Text? ==> frame == Prefix + k.data && k.data != DoneSignal
    ensures k.Text? && StartsWith(k.data, "{") && EndsWith(k.data, "}") ==> parse(k.data) == ParseError
  {
    if !StartsWith(frame, Prefix) then Ignored
    else
      var data := frame[|Prefix|..];
      assert frame == Prefix + data;
      if data == DoneSignal then Terminator
      else if StartsWith(data, "{") && EndsWith(data, "}") && parse(data).Object? then
        assert frame[..|Prefix| + 1] == Prefix + "{";
        Metadata(parse(data).id)
      else Text(data)
  }

  /** The stream state while frames are folded in: the text so far, the manuscript id, whether
      the end signal was seen (the loop has returned), and the callbacks invoked so far. */
  datatype Progress = Progress(content: string, manuscriptId: Option<string>, done: bool, calls: seq<Callback>)

  const Initial: Progress := Progress("", None, false, [])

  /** One iteration of the inner `for` loop; nothing happens once the loop has returned. */
  function Step(p: Progress, frame: string, parse: string -> JsonValue): Progress {
    if p.done then p
    else
      match Classify(frame, parse)
      case Ignored => p
      case Terminator => p.(done := true, calls := p.calls + [OnComplete(p.content, p.manuscriptId)])
      case Metadata(id) => if Truthy(id) then p.(manuscriptId := id) else p
      case Text(data) =>
        p.(content := p.content + data, calls := p.calls + [OnChunk(data, p.content + data)])
  }

  /** The frames folded in order. */
  function Fold(p: Progress, frames: seq<string>, parse: string -> JsonValue): Progress
    decreases |frames|
  {
    if frames == [] then p else Step(Fold(p, AllButLast(frames), parse), Last(frames), parse)
  }

  /** The read loop's local `buffer` together with the stream state. */
  datatype Reader = Reader(buffer: string, progress: Progress)

  /** One iteration of the outer `while` loop: append the chunk, cut on the delimiter, keep the
      trailing piece as the new buffer and fold the complete frames. */
  function Feed(r: Reader, chunk: string, parse: string -> JsonValue): Reader {
    if r.progress.done then r
    else
      var pieces := Split(r.buffer + chunk, Delimiter);
      Reader(Last(pieces), Fold(r.progress, AllButLast(pieces), parse))
  }

  function FeedAll(r: Reader, chunks: seq<string>, parse: string -> JsonValue): Reader
    decreases |chunks|
  {
    if chunks == [] then r else Feed(FeedAll(r, AllButLast(chunks), parse), Last(chunks), parse)
  }

  /** The text of all chunks, in order. */
  function Concat(chunks: seq<string>): string
    decreases |chunks|
  {
    if chunks == [] then "" else Concat(AllButLast(chunks)) + Last(chunks)
  }

  /** End of stream: a left-over `data: ` fragment is taken as text unless it is the end signal
      or starts with `{`; then the stream completes. */
  function Flush(r: Reader): Progress {
    var p := r.progress;
    var q :=
      if StartsWith(r.buffer, Prefix) && r.buffer[|Prefix|..] != DoneSignal && !StartsWith(r.buffer[|Prefix|..], "{")
      then
        var data := r.buffer[|Prefix|..];
        p.(content := p.content + data, calls := p.calls + [OnChunk(data, p.content + data)])
      else p;
    q.(done := true, calls := q.calls + [OnComplete(q.content, q.manuscriptId)])
  }

  /** The stream state and the callbacks once `startStream` has finished. */
  datatype Outcome = Outcome(content: string, manuscriptId: Option<string>, error: Option<string>, calls: seq<Callback>)

  function Finished(p: Progress, error: Option<string>, extra: seq<Callback>): Outcome {
    Outcome(p.content, p.manuscriptId, error, p.calls + extra)
  }

  /** The end signal was among the complete frames of the delivered chunks. */
  predicate SawDone(t: Transport, parse: string -> JsonValue) {
    FeedAll(Reader("", Initial), t.chunks, parse).progress.done
  }

  /** The reference semantics of one `startStream` call. */
  function Run(t: Transport, parse: string -> JsonValue): Outcome {
    var r := FeedAll(Reader("", Initial), t.chunks, parse);
    if r.progress.done then Finished(r.progress, None, []) else Ending(r, t.end)
  }

  /** How a stream whose reads never met the end signal finishes: a close flushes, an abort
      stops quietly, any other failure reports its message. */
  function Ending(r: Reader, end: StreamEnd): Outcome {
    match end
    case Closed => Finished(Flush(r), None, [])
    case Failed(isAbort, message) =>
      if isAbort then Finished(r.progress, None, [])
      else Finished(r.progress, Some(message), [OnError(message)])
  }

  // ----- Chunking does not matter -----

  /** Folding two runs of frames one after the other is folding their concatenation. */
  lemma {:induction false} FoldAppend(p: Progress, a: seq<string>, b: seq<string>, parse: string -> JsonValue)
    ensures Fold(p, a + b, parse) == Fold(Fold(p, a, parse), b, parse)
    decreases |b|
  {
    if b != [] {
      InitAppend(a, b);
      FoldAppend(p, a, AllButLast(b), parse);
      calc {
        Fold(p, a + b, parse);
        Step(Fold(p, a + AllButLast(b), parse), Last(b), parse);
        Step(Fold(Fold(p, a, parse), AllButLast(b), parse), Last(b), parse);
      }
    } else {
      assert a + b == a;
    }
  }

  /** After the end signal nothing changes. */
  lemma {:induction false} FoldDone(p: Progress, frames: seq<string>, parse: string -> JsonValue)
    requires p.done
    ensures Fold(p, frames, parse) == p
    decreases |frames|
  {
    if frames != [] {
      FoldDone(p, AllButLast(frames), parse);
    }
  }

  lemma {:induction false} FeedAllDone(r: Reader, chunks: seq<string>, parse: string -> JsonValue)
    requires r.progress.done
    ensures FeedAll(r, chunks, parse) == r
    decreases |chunks|
  {
    if chunks != [] {
      FeedAllDone(r, AllButLast(chunks), parse);
    }
  }

  /** Appending text to a string only extends its last piece: the complete pieces before it are
      cut the same way. */
  lemma {:induction false} SplitAppend(t: string, c: string)
    ensures Split(t + c, Delimiter) ==
            AllButLast(Split(t, Delimiter)) + Split(Last(Split(t, Delimiter)) + c, Delimiter)
    decreases |t|
  {
    var d := Delimiter;
    match IndexOf(t, d)
    case None =>
    case Some(i) =>
      IndexOfAppend(t, c, d);
      var rest := t[i + |d|..];
      SliceAppend(t, c, i, i + |d|);
      SplitAppend(rest, c);
      ConsInitLast(t[..i], Split(rest, d));
  }

  /** Whatever the chunks, the state after reading them is the fold of the complete frames of
      their concatenation, and the buffer holds its trailing piece. */
  lemma {:induction false} FeedAllIsFoldOfText(chunks: seq<string>, parse: string -> JsonValue)
    ensures var r := FeedAll(Reader("", Initial), chunks, parse);
            var pieces := Split(Concat(chunks), Delimiter);
            r.progress == Fold(Initial, AllButLast(pieces), parse) &&
            (!r.progress.done ==> r.buffer == Last(pieces))
    decreases |chunks|
  {
    if chunks == [] {
      assert Split("", Delimiter) == [""];
    } else {
      var init := Reader("", Initial);
      var cs, c := AllButLast(chunks), Last(chunks);
      FeedAllIsFoldOfText(cs, parse);
      var r0 := FeedAll(init, cs, parse);
      var t := Concat(cs);
      var st := Split(t, Delimiter);
      var sc := Split(Last(st) + c, Delimiter);
      SplitAppend(t, c);
      assert Split(Concat(chunks), Delimiter) == AllButLast(st) + sc;
      InitAppend(AllButLast(st), sc);
      FoldAppend(Initial, AllButLast(st), AllButLast(sc), parse);
      if r0.progress.done {
        FoldDone(r0.progress, AllButLast(sc), parse);
      }
    }
  }

  /** Frame reassembly: two ways of cutting the same body into chunks give the same final state
      and the same callbacks. */
  lemma ChunkingInvariant(chunks1: seq<string>, chunks2: seq<string>, end: StreamEnd, parse: string -> JsonValue)
    requires Concat(chunks1) == Concat(chunks2)
    ensures Run(Transport(chunks1, end), parse) == Run(Transport(chunks2, end), parse)
  {
    FeedAllIsFoldOfText(chunks1, parse);
    FeedAllIsFoldOfText(chunks2, parse);
  }

  /** Reading a body chunk by chunk is the same as reading it whole. */
  lemma SameAsWhole(chunks: seq<string>, end: StreamEnd, parse: string -> JsonValue)
    ensures Run(Transport(chunks, end), parse) == Run(Transport([Concat(chunks)], end), parse)
  {
    var whole := [Concat(chunks)];
    assert AllButLast(whole) == [];
    assert Concat(whole) == Concat(chunks);
    ChunkingInvariant(chunks, whole, end, parse);
  }

  // ----- What the callbacks see -----

  /** The concatenation of the chunk payloads among the callbacks. */
  function ChunkText(calls: seq<Callback>): string
    decreases |calls|
  {
    if calls == [] then ""
    else ChunkText(AllButLast(calls)) + (if Last(calls).OnChunk? then Last(calls).chunk else "")
  }

  /** Each onChunk call receives, as the full content, every chunk payload so far in order. */
  ghost predicate ChunksConsistent(calls: seq<Callback>) {
    forall k :: 0 <= k < |calls| && calls[k].OnChunk? ==> calls[k].fullContent == ChunkText(calls[..k + 1])
  }

  /** The invariant of the fold: the content is the text of the chunks reported so far; before
      the end signal only onChunk was called; after it, onComplete was called exactly once, last,
      with the content and the manuscript id. */
  ghost predicate Consistent(p: Progress) {
    && p.content == ChunkText(p.calls)
    && ChunksConsistent(p.calls)
    && (!p.done ==> forall k :: 0 <= k < |p.calls| ==> p.calls[k].OnChunk?)
    && (p.done ==> p.calls != [] && Last(p.calls) == OnComplete(p.content, p.manuscriptId) &&
                   forall k :: 0 <= k < |p.calls| - 1 ==> p.calls[k].OnChunk?)
  }

  /** Appending one callback extends the chunk text by its payload and keeps every earlier
      onChunk consistent. */
  lemma AppendCall(calls: seq<Callback>, x: Callback)
    requires ChunksConsistent(calls)
    requires x.OnChunk? ==> x.fullContent == ChunkText(calls) + x.chunk
    ensures ChunkText(calls + [x]) == ChunkText(calls) + (if x.OnChunk? then x.chunk else "")
    ensures ChunksConsistent(calls + [x])
  {
    var calls' := calls + [x];
    assert AllButLast(calls') == calls;
    forall k | 0 <= k < |calls'| && calls'[k].OnChunk?
      ensures calls'[k].fullContent == ChunkText(calls'[..k + 1])
    {
      if k < |calls| {
        assert calls'[..k + 1] == calls[..k + 1];
      } else {
        assert calls'[..k + 1] == calls';
      }
    }
  }

  lemma AppendChunk(p: Progress, data: string)
    requires Consistent(p) && !p.done
    ensures var q := p.(content := p.content + data, calls := p.calls + [OnChunk(data, p.content + data)]);
            Consistent(q)
  {
    AppendCall(p.calls, OnChunk(data, p.content + data));
  }

  lemma AppendComplete(p: Progress)
    requires Consistent(p) && !p.done
    ensures Consistent(p.(done := true, calls := p.calls + [OnComplete(p.content, p.manuscriptId)]))
  {
    AppendCall(p.calls, OnComplete(p.content, p.manuscriptId));
  }

  lemma {:induction false} FoldConsistent(p: Progress, frames: seq<string>, parse: string -> JsonValue)
    requires Consistent(p)
    ensures Consistent(Fold(p, frames, parse))
    decreases |frames|
  {
    if frames != [] {
      FoldConsistent(p, AllButLast(frames), parse);
      var q := Fold(p, AllButLast(frames), parse);
      if !q.done {
        match Classify(Last(frames), parse)
        case Ignored =>
        case Terminator => AppendComplete(q);
        case Metadata(id) =>
        case Text(data) => AppendChunk(q, data);
      }
    }
  }

  lemma FlushConsistent(r: Reader)
    requires Consistent(r.progress) && !r.progress.done
    ensures Consistent(Flush(r))
  {
    var p := r.progress;
    if StartsWith(r.buffer, Prefix) && r.buffer[|Prefix|..] != DoneSignal && !StartsWith(r.buffer[|Prefix|..], "{") {
      var data := r.buffer[|Prefix|..];
      AppendChunk(p, data);
      AppendComplete(p.(content := p.content + data, calls := p.calls + [OnChunk(data, p.content + data)]));
    } else {
      AppendComplete(p);
    }
  }

  lemma {:induction false} FeedAllConsistent(chunks: seq<string>, parse: string -> JsonValue)
    ensures Consistent(FeedAll(Reader("", Initial), chunks, parse).progress)
    decreases |chunks|
  {
    if chunks != [] {
      FeedAllConsistent(AllButLast(chunks), parse);
      var r := FeedAll(Reader("", Initial), AllButLast(chunks), parse);
      if !r.progress.done {
        FoldConsistent(r.progress, AllButLast(Split(r.buffer + Last(chunks), Delimiter)), parse);
      }
    }
  }

  /** The callbacks of one stream: every onChunk gets its payload and the content so far; a
      stream that saw `[DONE]` or closed calls onComplete exactly once, last, with the final
      content and manuscript id; a failed stream calls onError exactly once, last, and stores the
      message; an aborted stream calls neither. */
  lemma RunCallbacks(t: Transport, parse: string -> JsonValue)
    ensures var o := Run(t, parse);
      && o.content == ChunkText(o.calls)
      && ChunksConsistent(o.calls)
      && (forall k :: 0 <= k < |o.calls| - 1 ==> o.calls[k].OnChunk?)
      && (SawDone(t, parse) || t.end == Closed ==>
            o.error == None && o.calls != [] && Last(o.calls) == OnComplete(o.content, o.manuscriptId))
      && (!SawDone(t, parse) && t.end.Failed? && !t.end.isAbort ==>
            o.error == Some(t.end.message) && o.calls != [] && Last(o.calls) == OnError(t.end.message))
      && (!SawDone(t, parse) && t.end.Failed? && t.end.isAbort ==>
            o.error == None && forall k :: 0 <= k < |o.calls| ==> o.calls[k].OnChunk?)
  {
    FeedAllConsistent(t.chunks, parse);
    var r := FeedAll(Reader("", Initial), t.chunks, parse);
    if r.progress.done {
      CompletedOutcome(r.progress);
    } else {
      match t.end
      case Closed =>
        FlushConsistent(r);
        CompletedOutcome(Flush(r));
      case Failed(isAbort, message) =>
        if isAbort {
          StoppedOutcome(r.progress);
        } else {
          FailedOutcome(r.progress, message);
        }
    }
  }

  /** A stream state that has completed finishes with onComplete last. */
  lemma CompletedOutcome(p: Progress)
    requires Consistent(p) && p.done
    ensures var o := Finished(p, None, []);
      && o.content == ChunkText(o.calls)
      && ChunksConsistent(o.calls)
      && (forall k :: 0 <= k < |o.calls| - 1 ==> o.calls[k].OnChunk?)
      && o.error == None && o.calls != [] && Last(o.calls) == OnComplete(o.content, o.manuscriptId)
  {
    AppendEmpty(p.calls);
  }

  /** An aborted stream finishes with only its onChunk calls. */
  lemma StoppedOutcome(p: Progress)
    requires Consistent(p) && !p.done
    ensures var o := Finished(p, None, []);
      && o.content == ChunkText(o.calls)
      && ChunksConsistent(o.calls)
      && o.error == None && forall k :: 0 <= k < |o.calls| ==> o.calls[k].OnChunk?
  {
    AppendEmpty(p.calls);
  }

  /** A failed stream finishes with onError last and the message stored. */
  lemma FailedOutcome(p: Progress, message: string)
    requires Consistent(p) && !p.done
    ensures var o := Finished(p, Some(message), [OnError(message)]);
      && o.content == ChunkText(o.calls)
      && ChunksConsistent(o.calls)
      && (forall k :: 0 <= k < |o.calls| - 1 ==> o.calls[k].OnChunk?)
      && o.error == Some(message) && o.calls != [] && Last(o.calls) == OnError(message)
  {
    AppendCall(p.calls, OnError(message));
  }

  /** Once the end signal is among the first `k` frames, the rest are not read. */
  lemma {:induction false} FoldPrefixDone(p: Progress, frames: seq<string>, k: nat, parse: string -> JsonValue)
    requires k <= |frames| && Fold(p, frames[..k], parse).done
    ensures Fold(p, frames, parse) == Fold(p, frames[..k], parse)
    decreases |frames|
  {
    if |frames| == k {
      assert frames[..k] == frames;
    } else {
      assert AllButLast(frames)[..k] == frames[..k];
      FoldPrefixDone(p, AllButLast(frames), k, parse);
    }
  }

  /** Once the end signal is in the first `k` chunks, the later chunks are not read. */
  lemma {:induction false} FeedAllPrefixDone(r: Reader, chunks: seq<string>, k: nat, parse: string -> JsonValue)
    requires k <= |chunks| && FeedAll(r, chunks[..k], parse).progress.done
    ensures FeedAll(r, chunks, parse) == FeedAll(r, chunks[..k], parse)
    decreases |chunks|
  {
    if |chunks| == k {
      assert chunks[..k] == chunks;
    } else {
      assert AllButLast(chunks)[..k] == chunks[..k];
      FeedAllPrefixDone(r, AllButLast(chunks), k, parse);
    }
  }

  /** Reading one more chunk is one more `Feed`. */
  lemma FeedAllStep(r: Reader, chunks: seq<string>, i: nat, parse: string -> JsonValue)
    requires i < |chunks|
    ensures FeedAll(r, chunks[..i + 1], parse) == Feed(FeedAll(r, chunks[..i], parse), chunks[i], parse)
  {
    PrefixStep(chunks, i);
  }

  /** Folding one more frame is one more `Step`. */
  lemma FoldStep(p: Progress, frames: seq<string>, j: nat, parse: string -> JsonValue)
    requires j < |frames|
    ensures Fold(p, frames[..j + 1], parse) == Step(Fold(p, frames[..j], parse), frames[j], parse)
  {
    PrefixStep(frames, j);
  }

  /** One frame folded in, branch by branch as the inner loop reads it. */
  lemma StepFrame(p: Progress, line: string, parse: string -> JsonValue)
    requires !p.done
    ensures Step(p, line, parse) ==
      if !StartsWith(line, Prefix) then p
      else
        var data := line[|Prefix|..];
        if data == DoneSignal then p.(done := true, calls := p.calls + [OnComplete(p.content, p.manuscriptId)])
        else if StartsWith(data, "{") && EndsWith(data, "}") && parse(data).Object? then
          if Truthy(parse(data).id) then p.(manuscriptId := parse(data).id) else p
        else p.(content := p.content + data, calls := p.calls + [OnChunk(data, p.content + data)])
  {
  }

  /** The controller held, as a set. */
  function Held(c: Option<nat>): set<nat> {
    if c.Some? then {c.value} else {}
  }

  /** The hook: the reactive stream state, the abort controller of the latest stream (by
      number, `None` when there is none) and the controllers aborted so far. */
  class StreamChat {
    var content: string
    var isStreaming: bool
    var error: Option<string>
    var manuscriptId: Option<string>
    var controller: Option<nat>
    var aborted: set<nat>

    constructor ()
      ensures content == "" && !isStreaming && error == None && manuscriptId == None
      ensures controller == None && aborted == {}
    {
      content, isStreaming, error, manuscriptId := "", false, None, None;
      controller, aborted := None, {};
    }

    /** `startStream`: abort the previous stream, take a new controller `next`, reset the
        state and read the transport to its end. Returns the callbacks invoked, in order. */
    method StartStream(next: nat, t: Transport, parse: string -> JsonValue) returns (calls: seq<Callback>)
      modifies this
      ensures aborted == old(aborted) + Held(old(controller)) && controller == Some(next)
      ensures !isStreaming
      ensures Outcome(content, manuscriptId, error, calls) == Run(t, parse)
    {
      if controller.Some? {
        aborted := aborted + {controller.value};
      }
      controller := Some(next);
      content, isStreaming, error, manuscriptId := "", true, None, None;
      calls := [];
      var buffer := "";
      var i := 0;
      ghost var init := Reader("", Initial);
      while i < |t.chunks|
        invariant 0 <= i <= |t.chunks|
        invariant FeedAll(init, t.chunks[..i], parse) == Reader(buffer, Progress(content, manuscriptId, false, calls))
        invariant error == None
        invariant aborted == old(aborted) + Held(old(controller)) && controller == Some(next)
      {
        FeedAllStep(init, t.chunks, i, parse);
        var pieces := Split(buffer + t.chunks[i], Delimiter);
        buffer := Last(pieces);
        var done;
        done, calls := ReadFrames(AllButLast(pieces), calls, parse);
        if done {
          FeedAllPrefixDone(init, t.chunks, i + 1, parse);
          AppendEmpty(calls);
          return;
        }
        i := i + 1;
      }
      PrefixWhole(t.chunks);
      calls := Finish(buffer, t.end, calls);
    }

    /** What `startStream` does after its last read: the `done` branch of the loop on a close,
        or its `catch` on a failure. */
    method Finish(buffer: string, end: StreamEnd, calls0: seq<Callback>) returns (calls: seq<Callback>)
      requires error == None
      modifies this
      ensures Outcome(content, manuscriptId, error, calls) ==
              Ending(Reader(buffer, Progress(old(content), old(manuscriptId), false, calls0)), end)
      ensures !isStreaming && controller == old(controller) && aborted == old(aborted)
    {
      calls := calls0;
      match end {
        case Closed =>
          if StartsWith(buffer, Prefix) {
            var data := buffer[|Prefix|..];
            if data != DoneSignal && !StartsWith(data, "{") {
              content := content + data;
              calls := calls + [OnChunk(data, content)];
            }
          }
          isStreaming := false;
          calls := calls + [OnComplete(content, manuscriptId)];
          assert calls + [] == calls;
        case Failed(isAbort, message) =>
          isStreaming := false;
          if isAbort {
            assert calls + [] == calls;
            return;
          }
          error := Some(message);
          calls := calls + [OnError(message)];
      }
    }

    /** The inner loop of `startStream` over the complete frames of one read: `done` tells
        whether the end signal was met (the loop returns there). */
    method ReadFrames(lines: seq<string>, calls0: seq<Callback>, parse: string -> JsonValue)
      returns (done: bool, calls: seq<Callback>)
      modifies this
      ensures Fold(Progress(old(content), old(manuscriptId), false, calls0), lines, parse) ==
              Progress(content, manuscriptId, done, calls)
      ensures isStreaming == (old(isStreaming) && !done)
      ensures error == old(error) && controller == old(controller) && aborted == old(aborted)
    {
      ghost var p0 := Progress(content, manuscriptId, false, calls0);
      calls := calls0;
      var j := 0;
      while j < |lines|
        invariant 0 <= j <= |lines|
        invariant Fold(p0, lines[..j], parse) == Progress(content, manuscriptId, false, calls)
        invariant isStreaming == old(isStreaming)
        invariant error == old(error) && controller == old(controller) && aborted == old(aborted)
      {
        FoldStep(p0, lines, j, parse);
        StepFrame(Progress(content, manuscriptId, false, calls), lines[j], parse);
        var line := lines[j];
        if StartsWith(line, Prefix) {
          var data := line[|Prefix|..];
          if data == DoneSignal {
            isStreaming := false;
            calls := calls + [OnComplete(content, manuscriptId)];
            FoldPrefixDone(p0, lines, j + 1, parse);
            return true, calls;
          }
          if StartsWith(data, "{") && EndsWith(data, "}") && parse(data).Object? {
            if Truthy(parse(data).id) {
              manuscriptId := parse(data).id;
            }
          } else {
            content := content + data;
            calls := calls + [OnChunk(data, content)];
          }
        }
        j := j + 1;
      }
      PrefixWhole(lines);
      return false, calls;
    }

    /** `stopStream`: abort and drop the current controller; the text, error and manuscript id
        stay as they are. Calling it twice is calling it once. */
    method StopStream()
      modifies this
      ensures aborted == old(aborted) + Held(old(controller)) && controller == None
      ensures !isStreaming
      ensures content == old(content) && error == old(error) && manuscriptId == old(manuscriptId)
    {
      if controller.Some? {
        aborted := aborted + {controller.value};
        controller := None;
      }
      isStreaming := false;
    }

    /** `resetStream`: stop, then clear the stream state. */
    method ResetStream()
      modifies this
      ensures aborted == old(aborted) + Held(old(controller)) && controller == None
      ensures content == "" && !isStreaming && error == None && manuscriptId == None
    {
      StopStream();
      content, isStreaming, error, manuscriptId := "", false, None, None;
    }
  }
}
