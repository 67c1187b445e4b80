/** The bot panel's state and the handlers that change it: logging
    (src/features/bot/hooks/useBotLog.ts), log-in and log-out against the authentication API
    (src/features/bot/hooks/useBotLogin.ts), and collecting and uploading dropped folders
    (src/features/bot/hooks/useFolderUpload.ts).

    The fields are the refs of the bot store these handlers use; the store's own definition
    and initial values are not part of this model. Each asynchronous handler is split at its
    request into a `Begin` and a `Complete` method; the request's outcome and every fresh id
    and clock reading are parameters. */
module BotStore {
  import opened Common
  import opened BotLog
  import opened FolderUpload

  datatype LoginStatus = LoggedOut | LoggingIn | LoggedIn | LoginError

  datatype NaverAccount = NaverAccount(id: string, password: string)

  /** An error caught from the HTTP client: its `code` and `message`, when present. */
  datatype RequestError = RequestError(code: Option<string>, message: Option<string>)

  /** The fields of the log-in response the handler reads. */
  datatype LoginResponse = LoginResponse(success: bool, sessionId: Option<string>, cookies: Option<map<string, string>>,
                                         message: Option<string>, error: Option<string>)

  datatype LoginOutcome = LoginReplied(response: LoginResponse) | LoginThrew(err: RequestError)

  datatype UploadedItem = UploadedItem(original: string, id: string)

  /** The fields of the upload response the handler reads; `uploaded` is `None` when it is
      missing or not an array. */
  datatype UploadResponse = UploadResponse(success: bool, batchId: Option<string>, uploaded: Option<seq<UploadedItem>>,
                                           message: Option<string>, error: Option<string>)

  /** How the upload went: the batch-id request failed, or it gave an id and then packing or
      the upload threw, or the upload answered. */
  datatype UploadOutcome =
    | BatchIdFailed(err: RequestError)
    | UploadThrew(newBatchId: Option<string>, err: RequestError)
    | UploadReplied(newBatchId: Option<string>, response: UploadResponse)

  /** A dropped item: its `kind` and the entry `webkitGetAsEntry` gives for it. */
  datatype DropItem = DropItem(kind: string, entry: Option<FsEntry>)

  /** The log after entries are appended one `addLog` at a time: the newest `LogCap` of the old
      and new entries, with a batch no longer than the cap kept whole, in order, at the end. */
  function Appended(logs: seq<LogEntry>, entries: seq<LogEntry>): (r: seq<LogEntry>)
    ensures entries != [] ==>
              && |r| == (if |logs| + |entries| <= LogCap then |logs| + |entries| else LogCap)
              && r == (logs + entries)[|logs| + |entries| - |r|..]
    ensures entries != [] && |entries| <= LogCap ==> r[|r| - |entries|..] == entries
    ensures entries == [] ==> r == logs
  {
    if entries == [] then logs else TakeLast(logs + entries, LogCap)
  }

  /** A value interpolated into a template literal: `undefined` when absent. */
  function Shown(o: Option<string>): string {
    if o.Some? then o.value else "undefined"
  }

  /** A timeout is not logged: the code `ECONNABORTED`, or a message mentioning `timeout`. */
  predicate IsTimeout(err: RequestError) {
    err.code == Some("ECONNABORTED") || (err.message.Some? && Contains(err.message.value, "timeout"))
  }

  /** The entries `handleLogin` writes once its request settles. */
  function LoginLines(outcome: LoginOutcome): (r: seq<LogLine>)
    ensures |r| <= 2
    ensures outcome.LoginThrew? ==> (r == [] <==> IsTimeout(outcome.err))
    ensures forall k :: 0 <= k < |r| ==> (r[k].logType == Failure <==> !(outcome.LoginReplied? && outcome.response.success))
  {
    match outcome
    case LoginReplied(resp) =>
      if resp.success then
        [LogLine(Success, "네이버 로그인 성공", resp.message)]
        + (if resp.cookies.Some? then [LogLine(Info, "쿠키 저장 완료", Some(NatToString(|resp.cookies.value.Keys|) + "개"))] else [])
      else [LogLine(Failure, "네이버 로그인 실패", if Truthy(resp.error) then resp.error else resp.message)]
    case LoginThrew(err) =>
      if IsTimeout(err) then [] else [LogLine(Failure, "네이버 로그인 실패", err.message)]
  }

  /** The entries `handleUploadFolders` writes once the batch id is requested. */
  function UploadLines(outcome: UploadOutcome, folderCount: nat): (r: seq<LogLine>)
    ensures |r| >= 1
    ensures r[|r| - 1].logType == Failure <==> !(outcome.UploadReplied? && outcome.response.success)
  {
    match outcome
    case BatchIdFailed(err) => [LogLine(Failure, "업로드 실패", err.message)]
    case UploadThrew(id, err) => Started(id, folderCount) + [LogLine(Failure, "업로드 실패", err.message)]
    case UploadReplied(id, resp) =>
      if resp.success then
        var done := LogLine(Success, "업로드 완료 (Batch: " + Shown(resp.batchId) + ")", resp.message);
        if resp.uploaded.Some? then Started(id, folderCount) + [done] + ItemLines(resp.uploaded.value)
        else Started(id, folderCount) + [done]
      else Started(id, folderCount) + [LogLine(Failure, "업로드 실패", if Truthy(resp.error) then resp.error else resp.message)]
  }

  /** The entries written once the batch id arrived, before packing. */
  function Started(newBatchId: Option<string>, folderCount: nat): seq<LogLine> {
    [LogLine(Success, "Batch ID 발급 완료: " + Shown(newBatchId), None),
     LogLine(Info, "ZIP 압축 및 업로드 시작...", Some(NatToString(folderCount) + "개 폴더"))]
  }

  /** One entry per uploaded item, in order. */
  function ItemLines(items: seq<UploadedItem>): (r: seq<LogLine>)
    ensures |r| == |items|
    ensures forall k :: 0 <= k < |items| ==> r[k] == LogLine(Info, "📁 " + items[k].original + " → " + items[k].id, None)
  {
    seq(|items|, k requires 0 <= k < |items| => LogLine(Info, "📁 " + items[k].original + " → " + items[k].id, None))
  }

  /** Every entry of the list is a directory. */
  predicate Directories(dirs: seq<FsEntry>) {
    forall k :: 0 <= k < |dirs| ==> dirs[k].DirectoryEntry?
  }

  /** The directories among the dropped items, in drop order. */
  function DroppedDirectories(items: seq<DropItem>): (r: seq<FsEntry>)
    ensures Directories(r)
    ensures forall e :: e in r <==> exists k :: 0 <= k < |items| && items[k].kind == "file" && items[k].entry == Some(e) && e.DirectoryEntry?
    decreases |items|
  {
    if items == [] then []
    else
      var init := DroppedDirectories(AllButLast(items));
      var it := Last(items);
      assert items == AllButLast(items) + [it];
      init + (if it.kind == "file" && it.entry.Some? && it.entry.value.DirectoryEntry? then [it.entry.value] else [])
  }

  /** The folders the dropped directories give, in order, without those that hold neither a
      manuscript nor an image. */
  function KeptFolders(dirs: seq<FsEntry>): (r: seq<UploadedFolder>)
    requires Directories(dirs)
    ensures |r| <= |dirs|
    ensures forall f :: f in r ==> Keeps(f)
    decreases |dirs|
  {
    if dirs == [] then []
    else
      var d := Last(dirs);
      var f := ReadFolder(d.name, d.entries);
      KeptFolders(AllButLast(dirs)) + (if Keeps(f) then [f] else [])
  }

  /** Every kept folder is the folder read from one of the directories. */
  lemma {:induction false} KeptFoldersFrom(dirs: seq<FsEntry>, f: UploadedFolder)
    requires Directories(dirs)
    requires f in KeptFolders(dirs)
    ensures exists k :: 0 <= k < |dirs| && f == ReadFolder(dirs[k].name, dirs[k].entries)
    decreases |dirs|
  {
    var init, d := AllButLast(dirs), Last(dirs);
    if f in KeptFolders(init) {
      KeptFoldersFrom(init, f);
      var k :| 0 <= k < |init| && f == ReadFolder(init[k].name, init[k].entries);
      assert init[k] == dirs[k];
    } else {
      assert f == ReadFolder(dirs[|dirs| - 1].name, dirs[|dirs| - 1].entries);
    }
  }

  /** Collecting keeps drop order: the directories of a concatenation are those of each
      part, one after the other. */
  lemma {:induction false} DroppedDirectoriesAppend(a: seq<DropItem>, b: seq<DropItem>)
    ensures DroppedDirectories(a + b) == DroppedDirectories(a) + DroppedDirectories(b)
    decreases |b|
  {
    if b == [] {
      assert a + b == a;
    } else {
      var init, it := AllButLast(b), Last(b);
      var tail := if it.kind == "file" && it.entry.Some? && it.entry.value.DirectoryEntry? then [it.entry.value] else [];
      assert AllButLast(a + b) == a + init && Last(a + b) == it;
      assert DroppedDirectories(a + b) == DroppedDirectories(a + init) + tail;
      DroppedDirectoriesAppend(a, init);
      assert DroppedDirectories(b) == DroppedDirectories(init) + tail;
    }
  }

  /** Reading keeps order: the folders of a concatenation are those of each part, one after
      the other. */
  lemma {:induction false} KeptFoldersAppend(a: seq<FsEntry>, b: seq<FsEntry>)
    requires Directories(a) && Directories(b)
    ensures KeptFolders(a + b) == KeptFolders(a) + KeptFolders(b)
    decreases |b|
  {
    if b == [] {
      assert a + b == a;
    } else {
      var init := AllButLast(b);
      assert AllButLast(a + b) == a + init && Last(a + b) == Last(b);
      KeptFoldersAppend(a, init);
    }
  }

  /** No folder worth keeping is lost: every dropped directory that holds a manuscript or an
      image gives its folder. */
  lemma KeptFoldersComplete(dirs: seq<FsEntry>, k: nat)
    requires Directories(dirs)
    requires k < |dirs| && Keeps(ReadFolder(dirs[k].name, dirs[k].entries))
    ensures ReadFolder(dirs[k].name, dirs[k].entries) in KeptFolders(dirs)
  {
    var front, back := dirs[..k + 1], dirs[k + 1..];
    assert dirs == front + back;
    PrefixDirectories(dirs, k + 1);
    KeptFoldersAppend(front, back);
    KeptPrefixStep(dirs, k);
  }

  /** One more directory read extends the kept folders of a prefix by its folder, if kept. */
  lemma KeptPrefixStep(dirs: seq<FsEntry>, k: nat)
    requires Directories(dirs) && k < |dirs|
    ensures Directories(dirs[..k]) && Directories(dirs[..k + 1])
    ensures var f := ReadFolder(dirs[k].name, dirs[k].entries);
            KeptFolders(dirs[..k + 1]) == KeptFolders(dirs[..k]) + (if Keeps(f) then [f] else [])
  {
    PrefixDirectories(dirs, k);
    PrefixDirectories(dirs, k + 1);
    PrefixStep(dirs, k);
  }

  /** The pieces of a list of directories are lists of directories. */
  lemma PrefixDirectories(dirs: seq<FsEntry>, n: nat)
    requires Directories(dirs)
    requires n <= |dirs|
    ensures Directories(dirs[..n]) && Directories(dirs[n..])
  {
    assert forall k :: 0 <= k < |dirs[n..]| ==> dirs[n..][k] == dirs[n + k];
  }

  /** One more `addLog` extends the appended entries by one. */
  lemma AppendedStep(logs: seq<LogEntry>, done: seq<LogEntry>, e: LogEntry)
    ensures TakeLast(Appended(logs, done) + [e], LogCap) == Appended(logs, done + [e])
  {
    if done != [] {
      TakeLastTwice(logs, done, e);
      AppendAssoc(logs, done, [e]);
    } else {
      assert done + [e] == [e];
    }
  }

  class BotStore {
    var logs: seq<LogEntry>
    var loginStatus: LoginStatus
    var sessionId: Option<string>
    var cookies: Option<map<string, string>>
    var isLoginLoading: bool
    var useManualAccount: bool
    /** The account chosen in the store, if any. */
    var currentAccount: Option<NaverAccount>
    var uploadedFolderList: seq<UploadedFolder>
    var isUploading: bool
    var isDragOver: bool
    var batchId: Option<string>
    var uploadedItems: seq<UploadedItem>

    /** `addLog`: the entry goes last, and only the last hundred are kept. */
    method AddLog(line: LogLine, stamp: Stamp)
      modifies this`logs
      ensures logs == TakeLast(old(logs) + [Entry(line, stamp)], LogCap)
      ensures logs[|logs| - 1] == Entry(line, stamp)
    {
      logs := logs + [Entry(line, stamp)];
      if |logs| > LogCap {
        logs := TakeLast(logs, LogCap);
      }
    }

    /** `addLog` once per line, in order. */
    method AddLogs(lines: seq<LogLine>, stamps: seq<Stamp>)
      requires |stamps| >= |lines|
      modifies this`logs
      ensures logs == Appended(old(logs), Entries(lines, stamps))
    {
      var entries := Entries(lines, stamps);
      var k := 0;
      while k < |lines|
        invariant 0 <= k <= |lines|
        invariant logs == Appended(old(logs), entries[..k])
      {
        AddLog(lines[k], stamps[k]);
        AppendedStep(old(logs), entries[..k], entries[k]);
        PrefixSnoc(entries, k);
        k := k + 1;
      }
      PrefixWhole(entries);
    }

    /** `clearLogs`. */
    method ClearLogs()
      modifies this`logs
      ensures logs == []
    {
      logs := [];
    }

    /** `handleLogin` up to its request. While a log-in or log-out is running nothing happens;
        without a complete account only an error is logged; otherwise the store shows the
        log-in as running. */
    method BeginLogin(stamp: Stamp) returns (started: bool)
      modifies this`logs, this`isLoginLoading, this`loginStatus
      ensures old(isLoginLoading) ==> !started && unchanged(this)
      ensures !old(isLoginLoading) && !(old(currentAccount).Some? && old(currentAccount).value.id != "" && old(currentAccount).value.password != "") ==>
                && !started
                && logs == TakeLast(old(logs) + [Entry(LogLine(Failure, "계정 정보가 없습니다",
                                                               Some(if useManualAccount then "아이디/비밀번호를 입력하세요"
                                                                    else "ACCOUNTS 배열에 계정을 추가하세요")), stamp)], LogCap)
                && loginStatus == old(loginStatus) && !isLoginLoading
      ensures started <==> !old(isLoginLoading) && old(currentAccount).Some? && old(currentAccount).value.id != "" && old(currentAccount).value.password != ""
      ensures started ==>
                && isLoginLoading && loginStatus == LoggingIn
                && logs == TakeLast(old(logs) + [Entry(LogLine(Info, "네이버 로그인 시도 중...", Some("계정: " + old(currentAccount).value.id)), stamp)], LogCap)
    {
      if isLoginLoading {
        return false;
      }
      var account := currentAccount;
      if !(account.Some? && account.value.id != "" && account.value.password != "") {
        AddLog(LogLine(Failure, "계정 정보가 없습니다",
                       Some(if useManualAccount then "아이디/비밀번호를 입력하세요" else "ACCOUNTS 배열에 계정을 추가하세요")), stamp);
        return false;
      }
      isLoginLoading := true;
      loginStatus := LoggingIn;
      AddLog(LogLine(Info, "네이버 로그인 시도 중...", Some("계정: " + account.value.id)), stamp);
      return true;
    }

    /** `handleLogin` once its request settled: a successful answer stores the session and
        cookies and logs in; a refusal or an error is an error status and keeps the session;
        the loading flag always drops. */
    method CompleteLogin(outcome: LoginOutcome, stamps: seq<Stamp>)
      requires |stamps| >= |LoginLines(outcome)|
      modifies this`logs, this`sessionId, this`cookies, this`loginStatus, this`isLoginLoading
      ensures !isLoginLoading
      ensures outcome.LoginReplied? && outcome.response.success ==>
                loginStatus == LoggedIn && sessionId == outcome.response.sessionId && cookies == outcome.response.cookies
      ensures !(outcome.LoginReplied? && outcome.response.success) ==>
                loginStatus == LoginError && sessionId == old(sessionId) && cookies == old(cookies)
      ensures logs == Appended(old(logs), Entries(LoginLines(outcome), stamps))
    {
      match outcome {
        case LoginReplied(resp) =>
          if resp.success {
            sessionId := resp.sessionId;
            cookies := resp.cookies;
            loginStatus := LoggedIn;
          } else {
            loginStatus := LoginError;
          }
        case LoginThrew(_) =>
          loginStatus := LoginError;
      }
      isLoginLoading := false;
      AddLogs(LoginLines(outcome), stamps);
    }

    /** `handleLogout` up to its request: guarded by the loading flag like log-in. The
        result says whether the log-out request is made, which happens only with a session. */
    method BeginLogout(stamp: Stamp) returns (started: bool, callsApi: bool)
      modifies this`logs, this`isLoginLoading
      ensures started <==> !old(isLoginLoading)
      ensures !started ==> unchanged(this)
      ensures started ==>
                && isLoginLoading
                && logs == TakeLast(old(logs) + [Entry(LogLine(Info, "네이버 로그아웃 시도 중...", None), stamp)], LogCap)
      ensures callsApi <==> started && Truthy(old(sessionId))
    {
      if isLoginLoading {
        return false, false;
      }
      isLoginLoading := true;
      AddLog(LogLine(Info, "네이버 로그아웃 시도 중...", None), stamp);
      return true, Truthy(sessionId);
    }

    /** `handleLogout` once its request settled (`failure` is the error it threw, if it was
        made): the local session is dropped whatever happened, and an error is only a
        warning. */
    method CompleteLogout(failure: Option<RequestError>, stamp: Stamp)
      modifies this`logs, this`sessionId, this`cookies, this`loginStatus, this`isLoginLoading
      ensures loginStatus == LoggedOut && sessionId == None && cookies == None && !isLoginLoading
      ensures failure.Some? ==>
                logs == TakeLast(old(logs) + [Entry(LogLine(Warning, "로그아웃 API 에러 (로컬 세션은 삭제됨)", failure.value.message), stamp)], LogCap)
      ensures failure.None? ==>
                logs == TakeLast(old(logs) + [Entry(LogLine(Success, "네이버 로그아웃 완료", None), stamp)], LogCap)
    {
      if failure.Some? {
        AddLog(LogLine(Warning, "로그아웃 API 에러 (로컬 세션은 삭제됨)", failure.value.message), stamp);
      }
      sessionId := None;
      cookies := None;
      loginStatus := LoggedOut;
      if failure.None? {
        AddLog(LogLine(Success, "네이버 로그아웃 완료", None), stamp);
      }
      isLoginLoading := false;
    }

    /** `handleDragOver` and `handleDragLeave`. */
    method SetDragOver(over: bool)
      modifies this`isDragOver
      ensures isDragOver == over
    {
      isDragOver := over;
    }

    /** `handleDrop`: the directories among the dropped items are read in drop order, and each
        one holding a manuscript or an image is appended to the list. */
    method HandleDrop(items: Option<seq<DropItem>>)
      modifies this`isDragOver, this`uploadedFolderList
      ensures !isDragOver
      ensures items.None? ==> uploadedFolderList == old(uploadedFolderList)
      ensures items.Some? ==> uploadedFolderList == old(uploadedFolderList) + KeptFolders(DroppedDirectories(items.value))
    {
      isDragOver := false;
      if items.None? {
        return;
      }
      AddKept(DroppedDirectories(items.value));
    }

    /** The loop of `handleDrop` over the collected directories. */
    method AddKept(dirs: seq<FsEntry>)
      requires Directories(dirs)
      modifies this`uploadedFolderList
      ensures uploadedFolderList == old(uploadedFolderList) + KeptFolders(dirs)
    {
      var k := 0;
      while k < |dirs|
        invariant 0 <= k <= |dirs|
        invariant uploadedFolderList == old(uploadedFolderList) + KeptFolders(dirs[..k])
      {
        var folder := ProcessDirectory(dirs[k].name, dirs[k].entries);
        KeptPrefixStep(dirs, k);
        if folder.Some? {
          uploadedFolderList := uploadedFolderList + [folder.value];
        }
        k := k + 1;
      }
      PrefixWhole(dirs);
    }

    /** `removeFolder`: removes the folder at the splice position of `index`, if there is one,
        and logs its name. */
    method RemoveFolder(index: int, stamp: Stamp)
      modifies this`logs, this`uploadedFolderList
      ensures uploadedFolderList == RemoveAt(old(uploadedFolderList), index)
      ensures |old(uploadedFolderList)| - 1 <= |uploadedFolderList| <= |old(uploadedFolderList)|
      ensures var k := SpliceStart(|old(uploadedFolderList)|, index);
              && (k < |old(uploadedFolderList)| ==>
                    logs == TakeLast(old(logs) + [Entry(LogLine(Info, "폴더 제거: " + old(uploadedFolderList)[k].name, None), stamp)], LogCap))
              && (k == |old(uploadedFolderList)| ==> logs == old(logs))
    {
      var k := SpliceStart(|uploadedFolderList|, index);
      var removed := uploadedFolderList[k..if k < |uploadedFolderList| then k + 1 else k];
      uploadedFolderList := RemoveAt(uploadedFolderList, index);
      if |removed| > 0 {
        AddLog(LogLine(Info, "폴더 제거: " + removed[0].name, None), stamp);
      }
    }

    /** `clearFolderList`. */
    method ClearFolderList(stamp: Stamp)
      modifies this`logs, this`uploadedFolderList
      ensures uploadedFolderList == []
      ensures logs == TakeLast(old(logs) + [Entry(LogLine(Info, "폴더 목록 초기화", None), stamp)], LogCap)
    {
      uploadedFolderList := [];
      AddLog(LogLine(Info, "폴더 목록 초기화", None), stamp);
    }

    /** `handleUploadFolders` up to the batch-id request: with no folder only an error is
        logged and the upload flag is left alone; otherwise the upload starts. */
    method BeginUpload(stamps: seq<Stamp>) returns (started: bool)
      requires |stamps| >= 2
      modifies this`logs, this`isUploading
      ensures started <==> |old(uploadedFolderList)| > 0
      ensures !started ==>
                && isUploading == old(isUploading)
                && logs == Appended(old(logs), Entries([LogLine(Info, "업로드 버튼 클릭됨", None),
                                                        LogLine(Failure, "업로드할 폴더가 없습니다", None)], stamps))
      ensures started ==>
                && isUploading
                && logs == Appended(old(logs), Entries([LogLine(Info, "업로드 버튼 클릭됨", None),
                                                        LogLine(Info, "Batch ID 발급 중...", None)], stamps))
    {
      if |uploadedFolderList| == 0 {
        AddLogs([LogLine(Info, "업로드 버튼 클릭됨", None), LogLine(Failure, "업로드할 폴더가 없습니다", None)], stamps);
        return false;
      }
      AddLogs([LogLine(Info, "업로드 버튼 클릭됨", None), LogLine(Info, "Batch ID 발급 중...", None)], stamps);
      isUploading := true;
      return true;
    }

    /** `handleUploadFolders` once its requests settled: a successful upload stores the batch
        id (and the uploaded items when given) and empties the folder list; a failure keeps
        the list; the upload flag always drops. */
    method CompleteUpload(outcome: UploadOutcome, stamps: seq<Stamp>)
      requires |stamps| >= |UploadLines(outcome, |uploadedFolderList|)|
      modifies this`logs, this`isUploading, this`batchId, this`uploadedItems, this`uploadedFolderList
      ensures !isUploading
      ensures outcome.UploadReplied? && outcome.response.success ==>
                && uploadedFolderList == []
                && batchId == outcome.response.batchId
                && uploadedItems == (if outcome.response.uploaded.Some? then outcome.response.uploaded.value else old(uploadedItems))
      ensures !(outcome.UploadReplied? && outcome.response.success) ==>
                uploadedFolderList == old(uploadedFolderList) && batchId == old(batchId) && uploadedItems == old(uploadedItems)
      ensures logs == Appended(old(logs), Entries(UploadLines(outcome, |old(uploadedFolderList)|), stamps))
    {
      var lines := UploadLines(outcome, |uploadedFolderList|);
      StoreUpload(outcome);
      AddLogs(lines, stamps);
      isUploading := false;
    }

    /** The fields a successful upload sets: the batch id, the uploaded items when given, and
        an empty folder list. */
    method StoreUpload(outcome: UploadOutcome)
      modifies this`batchId, this`uploadedItems, this`uploadedFolderList
      ensures outcome.UploadReplied? && outcome.response.success ==>
                && uploadedFolderList == []
                && batchId == outcome.response.batchId
                && uploadedItems == (if outcome.response.uploaded.Some? then outcome.response.uploaded.value else old(uploadedItems))
      ensures !(outcome.UploadReplied? && outcome.response.success) ==>
                uploadedFolderList == old(uploadedFolderList) && batchId == old(batchId) && uploadedItems == old(uploadedItems)
    {
      if outcome.UploadReplied? && outcome.response.success {
        batchId := outcome.response.batchId;
        if outcome.response.uploaded.Some? {
          uploadedItems := outcome.response.uploaded.value;
        }
        uploadedFolderList := [];
      }
    }
  }
}
