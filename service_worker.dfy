/** The extension's background worker (extension/service_worker.ts): the draft queue and the
    event log kept in `chrome.storage.local`, and the dispatch of the messages the side panel
    sends.

    The stored values are fields (a missing key reads as the empty list). Every asynchronous
    operation runs to its end before the next starts; the result of each HTTP call, each fresh
    id and each clock reading is a parameter. Generating a draft or an image is split into the
    part before the call and the part after it, so the state in between can be stated. */
module ServiceWorker {
  import opened Common

  datatype DraftStatus = Pending | Generating | ImageGenerating | Completed | Copied | Posting | Posted | Error

  /** The status as written in the log. */
  function StatusName(s: DraftStatus): (r: string)
    ensures r != ""
  {
    match s
    case Pending => "PENDING"
    case Generating => "GENERATING"
    case ImageGenerating => "IMAGE_GENERATING"
    case Completed => "COMPLETED"
    case Copied => "COPIED"
    case Posting => "POSTING"
    case Posted => "POSTED"
    case Error => "ERROR"
  }

  datatype Draft = Draft(
    id: string,
    keyword: string,
    refMsg: Option<string>,
    service: string,
    content: Option<string>,
    title: Option<string>,
    status: DraftStatus,
    createdAt: int,
    updatedAt: int,
    manuscriptId: Option<string>,
    error: Option<string>,
    images: Option<seq<string>>,
    scheduledTime: Option<int>,
    withImage: Option<bool>)

  datatype LogType = GenerateStart | GenerateSuccess | GenerateError | Copy | StatusChange

  /** The `data` of a log entry: one named value, absent when `undefined`. */
  datatype LogData = LogData(key: string, value: Option<string>)

  datatype EventLog = EventLog(id: string, logType: LogType, draftId: string, message: string,
                               timestamp: int, data: Option<LogData>)

  const LogCap: nat := 100

  /** `[...log, entry].slice(-100)`. */
  function WithLog(log: seq<EventLog>, entry: EventLog): (r: seq<EventLog>)
    ensures 1 <= |r| <= LogCap && r[|r| - 1] == entry
    ensures |log| < LogCap ==> r == log + [entry]
    ensures |log| >= LogCap ==> r == log[|log| - LogCap + 1..] + [entry]
  {
    var all := log + [entry];
    assert |log| >= LogCap ==> all[|all| - LogCap..] == log[|log| - LogCap + 1..] + [entry];
    TakeLast(all, LogCap)
  }

  /** Something thrown: an `Error` with its message, or another value. */
  datatype Thrown = Thrown(message: Option<string>)

  /** `error instanceof Error ? error.message : 'Unknown error'`. */
  function ThrownMessage(t: Thrown): string {
    if t.message.Some? then t.message.value else "Unknown error"
  }

  /** How the draft request ended. */
  datatype DraftResult =
    | DraftOk(content: Option<string>, id: Option<string>)
    | DraftHttpError(status: nat, text: string)
    | DraftThrew(thrown: Thrown)

  /** How the image request ended. */
  datatype ImageResult =
    | ImagesOk(images: seq<string>)
    | ImageHttpError(status: nat)
    | ImageThrew(thrown: Thrown)

  /** The draft `generateDraft` queues before its request. */
  function NewDraft(id: string, keyword: string, refMsg: string, service: string, now: int): Draft {
    Draft(id, keyword, Some(refMsg), service, None, None, Generating, now, now, None, None, None, None, None)
  }

  /** `content.split('\n')[0]`. */
  function FirstLine(content: string): string {
    Split(content, "\n")[0]
  }

  /** The first line is the text before the first line break. */
  lemma FirstLineIsPrefix(content: string)
    ensures var f := FirstLine(content);
            StartsWith(content, f) && '\n' !in f && (|f| < |content| ==> content[|f|] == '\n')
  {
    SplitFirst(content, "\n");
    var f := FirstLine(content);
    if '\n' in f {
      var k :| 0 <= k < |f| && f[k] == '\n';
      assert OccursAt(f, "\n", k);
    }
    if |f| < |content| {
      assert OccursAt(content, "\n", |f|);
    }
  }

  /** The draft once its request settled. */
  function SettledDraft(draft: Draft, result: DraftResult, later: int): (d: Draft)
    ensures d.id == draft.id && d.keyword == draft.keyword && d.createdAt == draft.createdAt && d.updatedAt == later
    ensures result.DraftOk? <==> d.status == Completed
    ensures !result.DraftOk? ==> d.status == Error && d.error == Some(DraftError(result))
    ensures result.DraftOk? ==>
              var content := OrElse(result.content, "");
              && d.content == Some(content) && d.manuscriptId == result.id
              && d.title == Some(if FirstLine(content) != "" then FirstLine(content) else draft.keyword)
  {
    match result
    case DraftOk(c, mid) =>
      var content := if c.Some? then c.value else "";
      assert content == OrElse(c, "") || c == Some("");
      var first := FirstLine(content);
      draft.(content := Some(content), title := Some(if first != "" then first else draft.keyword),
             manuscriptId := mid, status := Completed, updatedAt := later)
    case _ => draft.(status := Error, error := Some(DraftError(result)), updatedAt := later)
  }

  /** The message stored with a failed draft. */
  function DraftError(result: DraftResult): string
    requires !result.DraftOk?
  {
    match result
    case DraftHttpError(status, text) => "API Error: " + NatToString(status) + " - " + text
    case DraftThrew(t) => ThrownMessage(t)
  }

  /** The draft once its image request settled. */
  function SettledImage(draft: Draft, result: ImageResult, later: int): (d: Draft)
    ensures d.id == draft.id && d.keyword == draft.keyword && d.content == draft.content && d.updatedAt == later
    ensures result.ImagesOk? ==> d.status == Completed && d.images == Some(result.images) && d.error == draft.error
    ensures result.ImageHttpError? ==> d.status == Error && d.error == Some("Image API Error: " + NatToString(result.status))
    ensures result.ImageThrew? ==> d.status == Error && d.error == Some(ThrownMessage(result.thrown))
  {
    match result
    case ImagesOk(images) => draft.(images := Some(images), status := Completed, updatedAt := later)
    case ImageHttpError(status) => draft.(status := Error, error := Some("Image API Error: " + NatToString(status)), updatedAt := later)
    case ImageThrew(t) => draft.(status := Error, error := Some(ThrownMessage(t)), updatedAt := later)
  }

  /** `queue.map(d => d.id === id ? replacement : d)`. */
  function ReplaceById(queue: seq<Draft>, id: string, replacement: Draft): (r: seq<Draft>)
    ensures |r| == |queue|
    ensures forall k :: 0 <= k < |queue| ==> r[k] == if queue[k].id == id then replacement else queue[k]
  {
    seq(|queue|, k requires 0 <= k < |queue| => if queue[k].id == id then replacement else queue[k])
  }

  /** `queue.filter(d => d.id !== id)`. */
  function RemoveById(queue: seq<Draft>, id: string): (r: seq<Draft>)
    ensures |r| <= |queue|
    ensures forall d :: d in r <==> d in queue && d.id != id
    decreases |queue|
  {
    if queue == [] then []
    else if queue[0].id == id then RemoveById(queue[1..], id)
    else [queue[0]] + RemoveById(queue[1..], id)
  }

  /** `queue.findIndex(d => d.id === id)`. */
  function IndexOfDraft(queue: seq<Draft>, id: string): Option<nat> {
    FindIndex(queue, DraftId, id)
  }

  function DraftId(x: Draft): string {
    x.id
  }

  /** A queued draft that settles replaces itself and nothing else, and keeps its place. */
  lemma SettleReplacesOnlyItself(queue: seq<Draft>, draft: Draft, result: DraftResult, later: int)
    requires draft in queue
    ensures var r := ReplaceById(queue, draft.id, SettledDraft(draft, result, later));
            && |r| == |queue|
            && SettledDraft(draft, result, later) in r
            && forall k :: 0 <= k < |queue| && queue[k].id != draft.id ==> r[k] == queue[k]
  {
  }

  /** The messages the side panel sends. `Other` stands for the actions this worker has no
      case for (batch start and stop, image list updates). */
  datatype Action =
    | GenerateDraftAction(keyword: string, refMsg: Option<string>, service: string)
    | GetDrafts
    | UpdateDraftStatusAction(id: string, status: DraftStatus)
    | DeleteDraftAction(id: string)
    | GenerateImageAction(id: string, keyword: string)
    | ClearAllDrafts
    | ClearLogs
    | GetLoginStatus
    | Other

  datatype LoginStatus = LoggedOut | LoggingIn | LoggedIn | LoginError

  datatype ResponseData =
    | NoData
    | DraftData(draft: Draft)
    | StorageData(draftQueue: seq<Draft>, eventLog: seq<EventLog>)
    | LoginState(loginStatus: LoginStatus, accountCount: nat, currentIndex: nat)

  datatype Response = Response(success: bool, data: ResponseData, error: Option<string>)

  /** The fresh values one message may use: ids and clock readings, in order of use. */
  datatype Fresh = Fresh(draftId: string, logIds: seq<string>, now: int, later: int)

  /** The entry `generateDraft` logs when it starts: the keyword, with the service as data. */
  function StartEntry(draft: Draft, logId: string): EventLog {
    EventLog(logId, GenerateStart, draft.id, "원고 생성 시작: " + draft.keyword, draft.createdAt,
             Some(LogData("service", Some(draft.service))))
  }

  /** The entry `generateDraft` logs once its request settled: the keyword and the manuscript
      id on success, the error text otherwise. */
  function SettledEntry(draft: Draft, result: DraftResult, later: int, logId: string): EventLog {
    if result.DraftOk? then
      EventLog(logId, GenerateSuccess, draft.id, "원고 생성 완료: " + draft.keyword, later, Some(LogData("manuscriptId", result.id)))
    else
      EventLog(logId, GenerateError, draft.id, "원고 생성 실패: " + DraftError(result), later, None)
  }

  class ServiceWorker {
    var draftQueue: seq<Draft>
    var eventLog: seq<EventLog>
    var loginStatus: LoginStatus
    var currentAccountIdx: nat
    /** The number of configured accounts. */
    const accountCount: nat

    constructor (accountCount: nat)
      ensures draftQueue == [] && eventLog == [] && loginStatus == LoggedOut && currentAccountIdx == 0
      ensures this.accountCount == accountCount
    {
      draftQueue, eventLog := [], [];
      loginStatus, currentAccountIdx := LoggedOut, 0;
      this.accountCount := accountCount;
    }

    /** `addLog`: the entry, with its fresh id and time, goes last; the oldest entries beyond
        one hundred are dropped. */
    method AddLog(logType: LogType, draftId: string, message: string, data: Option<LogData>, logId: string, now: int)
      modifies this`draftQueue, this`eventLog
      ensures eventLog == WithLog(old(eventLog), EventLog(logId, logType, draftId, message, now, data))
      ensures draftQueue == old(draftQueue)
    {
      eventLog := TakeLast(eventLog + [EventLog(logId, logType, draftId, message, now, data)], LogCap);
    }

    /** `generateDraft` up to its request: the draft is queued last, as generating, and the
        start is logged. */
    method BeginDraft(id: string, keyword: string, refMsg: string, service: string, now: int, logId: string)
      returns (draft: Draft)
      modifies this`draftQueue, this`eventLog
      ensures draft == NewDraft(id, keyword, refMsg, service, now) && draft.status == Generating
      ensures draftQueue == old(draftQueue) + [draft]
      ensures eventLog == WithLog(old(eventLog), StartEntry(draft, logId))
    {
      draft := NewDraft(id, keyword, refMsg, service, now);
      draftQueue := draftQueue + [draft];
      AddLog(GenerateStart, id, "원고 생성 시작: " + keyword, Some(LogData("service", Some(service))), logId, now);
    }

    /** `generateDraft` once its request settled: the queued draft (if still there) is
        replaced by the completed or failed one, and the outcome is logged. */
    method CompleteDraft(draft: Draft, result: DraftResult, later: int, logId: string) returns (settled: Draft)
      modifies this`draftQueue, this`eventLog
      ensures settled == SettledDraft(draft, result, later)
      ensures draftQueue == ReplaceById(old(draftQueue), draft.id, settled)
      ensures eventLog == WithLog(old(eventLog), SettledEntry(draft, result, later, logId))
    {
      settled := SettledDraft(draft, result, later);
      draftQueue := ReplaceById(draftQueue, draft.id, settled);
      if result.DraftOk? {
        AddLog(GenerateSuccess, draft.id, "원고 생성 완료: " + draft.keyword, Some(LogData("manuscriptId", result.id)), logId, later);
      } else {
        AddLog(GenerateError, draft.id, "원고 생성 실패: " + DraftError(result), None, logId, later);
      }
    }

    /** `updateDraftStatus`: an unknown id gives `None` and changes nothing; otherwise the
        first draft with the id gets the status and time in place, and the change is logged. */
    method UpdateDraftStatus(id: string, status: DraftStatus, now: int, logId: string) returns (r: Option<Draft>)
      modifies this`draftQueue, this`eventLog
      ensures IndexOfDraft(old(draftQueue), id).None? ==> r == None && unchanged(this)
      ensures IndexOfDraft(old(draftQueue), id).Some? ==>
                var i := IndexOfDraft(old(draftQueue), id).value;
                && r == Some(old(draftQueue)[i].(status := status, updatedAt := now))
                && draftQueue == old(draftQueue)[i := r.value]
                && eventLog == WithLog(old(eventLog), EventLog(logId, StatusChange, id, "상태 변경: " + StatusName(status), now, None))
    {
      match IndexOfDraft(draftQueue, id) {
        case None =>
          return None;
        case Some(i) =>
          var updated := draftQueue[i].(status := status, updatedAt := now);
          draftQueue := draftQueue[i := updated];
          AddLog(StatusChange, id, "상태 변경: " + StatusName(status), None, logId, now);
          return Some(updated);
      }
    }

    /** `deleteDraft`: every draft with the id goes; the answer is always yes. */
    method DeleteDraft(id: string) returns (ok: bool)
      modifies this`draftQueue, this`eventLog
      ensures ok && draftQueue == RemoveById(old(draftQueue), id)
      ensures eventLog == old(eventLog)
    {
      draftQueue := RemoveById(draftQueue, id);
      return true;
    }

    /** `generateImage` up to its request: an unknown id gives `None` and changes nothing;
        otherwise the draft is marked as generating its image, in place. */
    method BeginImage(id: string, now: int) returns (r: Option<Draft>)
      modifies this`draftQueue, this`eventLog
      ensures IndexOfDraft(old(draftQueue), id).None? ==> r == None && unchanged(this)
      ensures IndexOfDraft(old(draftQueue), id).Some? ==>
                var i := IndexOfDraft(old(draftQueue), id).value;
                && r == Some(old(draftQueue)[i].(status := ImageGenerating, updatedAt := now))
                && draftQueue == old(draftQueue)[i := r.value]
      ensures eventLog == old(eventLog)
    {
      match IndexOfDraft(draftQueue, id) {
        case None =>
          return None;
        case Some(i) =>
          var updating := draftQueue[i].(status := ImageGenerating, updatedAt := now);
          draftQueue := draftQueue[i := updating];
          return Some(updating);
      }
    }

    /** `generateImage` once its request settled: every draft with the id becomes the
        completed or failed one. */
    method CompleteImage(updating: Draft, result: ImageResult, later: int) returns (settled: Draft)
      modifies this`draftQueue, this`eventLog
      ensures settled == SettledImage(updating, result, later)
      ensures draftQueue == ReplaceById(old(draftQueue), updating.id, settled)
      ensures eventLog == old(eventLog)
    {
      settled := SettledImage(updating, result, later);
      draftQueue := ReplaceById(draftQueue, updating.id, settled);
    }

    /** `clearAllDrafts`. */
    method ClearAllDrafts()
      modifies this`draftQueue, this`eventLog
      ensures draftQueue == [] && eventLog == old(eventLog)
    {
      draftQueue := [];
    }

    /** The `onMessage` listener, for a message handled from start to end. `failure` is an
        error thrown by the storage before anything is written; the request results and
        fresh values are parameters. */
    method HandleMessage(action: Action, supply: Fresh, draftResult: DraftResult, imageResult: ImageResult,
                         failure: Option<Thrown>) returns (resp: Response)
      requires |supply.logIds| >= 2
      modifies this`draftQueue, this`eventLog
      ensures failure.Some? ==> resp == Response(false, NoData, Some(ThrownMessage(failure.value))) && unchanged(this)
      ensures failure.None? ==> match action
        case GenerateDraftAction(keyword, refMsg, service) =>
          var draft := NewDraft(supply.draftId, keyword, OrElse(refMsg, ""), service, supply.now);
          && resp == Response(true, DraftData(SettledDraft(draft, draftResult, supply.later)), None)
          && draftQueue == ReplaceById(old(draftQueue) + [draft], supply.draftId, SettledDraft(draft, draftResult, supply.later))
          && eventLog == WithLog(WithLog(old(eventLog), StartEntry(draft, supply.logIds[0])),
                                 SettledEntry(draft, draftResult, supply.later, supply.logIds[1]))
        case GetDrafts => resp == Response(true, StorageData(old(draftQueue), old(eventLog)), None) && unchanged(this)
        case UpdateDraftStatusAction(id, status) =>
          (IndexOfDraft(old(draftQueue), id).None? <==> resp == Response(false, NoData, Some("Draft not found")))
          && (resp.success ==> resp.data.DraftData? && resp.data.draft.id == id && resp.data.draft.status == status
                               && eventLog == WithLog(old(eventLog), EventLog(supply.logIds[0], StatusChange, id,
                                                                              "상태 변경: " + StatusName(status), supply.now, None)))
          && (!resp.success ==> unchanged(this))
        case DeleteDraftAction(id) =>
          resp == Response(true, NoData, None) && draftQueue == RemoveById(old(draftQueue), id) && eventLog == old(eventLog)
        case GenerateImageAction(id, _) =>
          (IndexOfDraft(old(draftQueue), id).None? <==> resp == Response(false, NoData, Some("Draft not found")))
          && (resp.success ==> resp.data.DraftData? && resp.data.draft.id == id &&
                                resp.data.draft.status == (if imageResult.ImagesOk? then Completed else Error))
          && eventLog == old(eventLog)
        case ClearAllDrafts => resp == Response(true, NoData, None) && draftQueue == [] && eventLog == old(eventLog)
        case ClearLogs => resp == Response(true, NoData, None) && eventLog == [] && draftQueue == old(draftQueue)
        case GetLoginStatus =>
          resp == Response(true, LoginState(loginStatus, accountCount, currentAccountIdx), None) && unchanged(this)
        case Other => resp == Response(false, NoData, Some("Unknown action")) && unchanged(this)
    {
      if failure.Some? {
        return Response(false, NoData, Some(ThrownMessage(failure.value)));
      }
      match action {
        case GenerateDraftAction(keyword, refMsg, service) =>
          var draft := BeginDraft(supply.draftId, keyword, OrElse(refMsg, ""), service, supply.now, supply.logIds[0]);
          var settled := CompleteDraft(draft, draftResult, supply.later, supply.logIds[1]);
          resp := Response(true, DraftData(settled), None);
        case GetDrafts =>
          resp := Response(true, StorageData(draftQueue, eventLog), None);
        case UpdateDraftStatusAction(id, status) =>
          var r := UpdateDraftStatus(id, status, supply.now, supply.logIds[0]);
          if r.Some? {
            resp := Response(true, DraftData(r.value), None);
          } else {
            resp := Response(false, NoData, Some("Draft not found"));
          }
        case DeleteDraftAction(id) =>
          var _ := DeleteDraft(id);
          resp := Response(true, NoData, None);
        case GenerateImageAction(id, _) =>
          var updating := BeginImage(id, supply.now);
          if updating.Some? {
            var settled := CompleteImage(updating.value, imageResult, supply.later);
            resp := Response(true, DraftData(settled), None);
          } else {
            resp := Response(false, NoData, Some("Draft not found"));
          }
        case ClearAllDrafts =>
          ClearAllDrafts();
          resp := Response(true, NoData, None);
        case ClearLogs =>
          eventLog := [];
          resp := Response(true, NoData, None);
        case GetLoginStatus =>
          resp := Response(true, LoginState(loginStatus, accountCount, currentAccountIdx), None);
        case Other =>
          resp := Response(false, NoData, Some("Unknown action"));
      }
    }
  }
}
