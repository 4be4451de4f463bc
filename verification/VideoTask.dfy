/** The video service behind the single flight: from a prompt to one final reply. */
module VideoTask {
  import opened GoText
  import opened Json
  import opened Attachments
  import opened Protocol

  // ---------- polling ----------

  datatype TaskStatus = TaskStatus(taskID: string, status: string, fileID: string)

  predicate IsSuccess(s: TaskStatus) { Word(s.status) in {"success", "succeeded"} }

  predicate IsFailed(s: TaskStatus) { Word(s.status) in {"fail", "failed"} }

  /** The query fails, or says something else than success or failure. */
  predicate Unsettled(answer: Option<TaskStatus>) {
    answer.None? || (!IsSuccess(answer.value) && !IsFailed(answer.value))
  }

  /** The provider's answer to the k-th query, the clock before it, and whether the wait after it is cancelled. */
  datatype Task = Task(
    query: nat -> Option<TaskStatus>, now: nat -> int, cancelled: nat -> bool, start: int, timeout: int, interval: int)
  {
    function Deadline(): int { start + timeout }

    /** The clock does not go back, and a wait that is not cancelled takes at least the interval. */
    ghost predicate Paced() { start <= now(0) && forall k: nat :: now(k + 1) >= now(k) + interval }
  }

  datatype Poll = Settled(status: TaskStatus) | TimedOut(lastStatus: string) | Aborted

  function LastStatus(answer: Option<TaskStatus>): string {
    match answer case Some(s) => s.status case None => ""
  }

  /** How a poll ends: with the first settled answer, past the deadline, or cancelled while waiting. */
  ghost predicate Ends(t: Task, r: Poll, queries: nat) {
    && queries <= MostQueries(t)
    && (forall k :: 0 <= k < queries - 1 ==> Unsettled(t.query(k)) && !t.cancelled(k) && t.now(k) <= t.Deadline())
    && (r.Settled? <==> queries > 0 && !Unsettled(t.query(queries - 1)))
    && (r.Settled? ==> t.query(queries - 1) == Some(r.status))
    && (r.Aborted? ==> queries > 0 && t.cancelled(queries - 1))
    && (r.TimedOut? ==> t.now(queries) > t.Deadline() && (queries > 0 ==> !t.cancelled(queries - 1)))
    && (r.TimedOut? ==> r.lastStatus == if queries == 0 then "" else LastStatus(t.query(queries - 1)))
  }

  function MostQueries(t: Task): int {
    if t.timeout < 0 || t.interval <= 0 then 0 else t.timeout / t.interval + 1
  }

  method PollTask(t: Task) returns (r: Poll, queries: nat)
    requires t.Paced() && t.interval > 0
    ensures Ends(t, r, queries)
    ensures queries <= if t.timeout < 0 then 0 else t.timeout / t.interval + 1
  {
    queries := 0;
    var lastStatus := "";
    while t.now(queries) <= t.Deadline()
      invariant t.now(queries) >= t.start + queries * t.interval
      invariant queries <= MostQueries(t)
      invariant forall k :: 0 <= k < queries ==> Unsettled(t.query(k)) && !t.cancelled(k) && t.now(k) <= t.Deadline()
      invariant lastStatus == if queries == 0 then "" else LastStatus(t.query(queries - 1))
      decreases t.Deadline() - t.now(queries)
    {
      WithinDeadline(queries, t.timeout, t.interval);
      var answer := t.query(queries);
      queries := queries + 1;
      match answer {
        case None =>
          lastStatus := "";
        case Some(status) =>
          lastStatus := status.status;
          if IsSuccess(status) {
            return Settled(status), queries;
          }
          if IsFailed(status) {
            return Settled(status), queries;
          }
      }
      if t.cancelled(queries - 1) {
        return Aborted, queries;
      }
    }
    r := TimedOut(lastStatus);
  }

  lemma WithinDeadline(k: nat, timeout: int, interval: int)
    requires interval > 0 && k * interval <= timeout
    ensures timeout >= 0 && k <= timeout / interval
  {
    CancelFactor(k, timeout / interval + 1, interval);
  }

  lemma CancelFactor(a: int, b: int, c: int)
    requires c > 0 && a * c < b * c
    ensures a < b
  {
    assert (b - a) * c > 0;
  }

  // ---------- from prompt to reply ----------

  /** Everything `generate` asks of the world. */
  datatype Provider = Provider(
    configured: bool,                              // resolveRuntimeConfig finds an API key
    create: string -> Option<string>,              // prompt to task id
    task: string -> Task,
    retrieve: string -> Option<string>,            // file id to URL
    download: string -> Option<string>,            // URL to local path
    upload: string -> Option<Attachment>)          // local path to uploaded attachment

  datatype Call =
    | CreateTask(prompt: string)
    | RetrieveFile(fileID: string)
    | Download(url: string)
    | Upload(path: string)

  function FinalError(sessionID: string, chunkSeq: int, code: string, message: string): ChatReply {
    ChatReply("", "", sessionID, "assistant", "", chunkSeq, true, true, Error, code, message, [])
  }

  function GeneratedReply(sessionID: string, uploaded: Attachment): ChatReply {
    ChatReply("", "", sessionID, "assistant", "视频已生成，请查看", 2, true, true, Stop, "", "", [uploaded])
  }

  /** The provider calls made, in order, are a justified chain: each uses what the one before gave. */
  ghost predicate Justified(p: Provider, prompt: string, calls: seq<Call>, status: Option<TaskStatus>) {
    && |calls| <= 4
    && (|calls| > 0 ==> p.configured && prompt != "" && calls[0] == CreateTask(prompt))
    && (|calls| > 1 ==> p.create(prompt).Some? && status.Some?)
    && (|calls| > 1 ==> IsSuccess(status.value) && !Blank(status.value.fileID))
    && (|calls| > 1 ==> calls[1] == RetrieveFile(status.value.fileID))
    && (|calls| > 2 ==> p.retrieve(status.value.fileID).Some?)
    && (|calls| > 2 ==> calls[2] == Download(p.retrieve(status.value.fileID).value))
    && (|calls| > 3 ==> p.download(calls[2].url).Some? && calls[3] == Upload(p.download(calls[2].url).value))
  }

  /** One final reply in any case; it carries an attachment exactly when it reports success, and then an uploaded
      one. */
  ghost predicate FinalReply(replies: seq<ChatReply>, sessionID: string, number: int) {
    && |replies| == 1
    && replies[0].isFinal && replies[0].isEnd && replies[0].sessionID == sessionID && replies[0].role == "assistant"
    && replies[0].chunkSeq == number
    && (replies[0].finishReason == Stop <==> replies[0].attachments != [])
    && (replies[0].finishReason == Stop <==> replies[0].errorCode == "")
    && (replies[0].attachments != [] ==>
          && |replies[0].attachments| == 1
          && !Blank(replies[0].attachments[0].previewURL) && !Blank(replies[0].attachments[0].mediaID))
  }

  /** The error code tells how far it got. */
  function CodeOf(calls: nat, created: bool, status: Option<TaskStatus>): string {
    if calls == 0 then "VIDEO_REQUEST_UNSUPPORTED"
    else if calls == 1 && !created then "VIDEO_TASK_CREATE_FAILED"
    else if calls == 1 && status.None? then "VIDEO_TASK_TIMEOUT"
    else if calls == 1 && IsFailed(status.value) then "VIDEO_TASK_FAILED"
    else if calls <= 2 then "VIDEO_FILE_RETRIEVE_FAILED"
    else if calls == 3 then "VIDEO_DOWNLOAD_FAILED"
    else "VIDEO_UPLOAD_FAILED"
  }

  function StatusOf(poll: Option<Poll>): Option<TaskStatus> {
    if poll.Some? && poll.value.Settled? then Some(poll.value.status) else None
  }

  /** All the calls there are to make: each as soon as the one before gave what it needs. */
  function Chain(p: Provider, prompt: string, status: Option<TaskStatus>): seq<Call> {
    if !p.configured || prompt == "" then []
    else if p.create(prompt).None? || status.None? || !IsSuccess(status.value) || Blank(status.value.fileID) then
      [CreateTask(prompt)]
    else [CreateTask(prompt)] + [RetrieveFile(status.value.fileID)] + FetchChain(p, p.retrieve(status.value.fileID))
  }

  function FetchChain(p: Provider, url: Option<string>): seq<Call> {
    match url
    case None => []
    case Some(u) => [Download(u)] + (match p.download(u) case None => [] case Some(path) => [Upload(path)])
  }

  /** A status settles the task exactly if it is one of four words, in whatever case. */
  lemma SettledIff(s: TaskStatus)
    ensures !Unsettled(Some(s)) <==> IsSuccess(s) || IsFailed(s)
    ensures IsSuccess(s) <==> Word(s.status) == "success" || Word(s.status) == "succeeded"
    ensures IsFailed(s) <==> Word(s.status) == "fail" || Word(s.status) == "failed"
    ensures !(IsSuccess(s) && IsFailed(s))
  {
  }

  ghost predicate PollFits(p: Provider, prompt: string, poll: Option<Poll>) {
    && (poll.Some? <==> p.configured && prompt != "" && p.create(prompt).Some?)
    && (StatusOf(poll).Some? ==> !Unsettled(StatusOf(poll)))
  }

  /** What each error code means, should the generation not succeed. */
  lemma CodesByCause(p: Provider, prompt: string, poll: Option<Poll>)
    requires PollFits(p, prompt, poll)
    ensures var s := StatusOf(poll);
      var code := CodeOf(|Chain(p, prompt, s)|, p.create(prompt).Some?, s);
      var file := if s.Some? && IsSuccess(s.value) && !Blank(s.value.fileID) then p.retrieve(s.value.fileID) else None;
      && (code == "VIDEO_REQUEST_UNSUPPORTED" <==> !p.configured || prompt == "")
      && (code == "VIDEO_TASK_CREATE_FAILED" <==> p.configured && prompt != "" && p.create(prompt).None?)
      && (code == "VIDEO_TASK_TIMEOUT" <==> poll.Some? && !poll.value.Settled?)
      && (code == "VIDEO_TASK_FAILED" <==> s.Some? && IsFailed(s.value))
      && (code == "VIDEO_FILE_RETRIEVE_FAILED" <==> s.Some? && IsSuccess(s.value) && file.None?)
      && (code == "VIDEO_DOWNLOAD_FAILED" <==> file.Some? && p.download(file.value).None?)
      && (code == "VIDEO_UPLOAD_FAILED" <==> file.Some? && p.download(file.value).Some?)
  {
    if StatusOf(poll).Some? {
      SettledIff(StatusOf(poll).value);
    }
  }

  /** `poll` is how the polling of the created task ended, if there was one. */
  method Generate(p: Provider, sessionID: string, text: string)
    returns (replies: seq<ChatReply>, calls: seq<Call>, ghost poll: Option<Poll>, ghost queries: nat)
    requires forall id :: p.task(id).Paced() && p.task(id).interval > 0
    ensures poll.Some? <==> p.configured && !Blank(text) && p.create(TrimSpace(text)).Some?
    ensures poll.Some? ==> Ends(p.task(p.create(TrimSpace(text)).value), poll.value, queries)
    ensures calls == Chain(p, TrimSpace(text), StatusOf(poll)) && Justified(p, TrimSpace(text), calls, StatusOf(poll))
    ensures FinalReply(replies, sessionID, if p.configured && !Blank(text) then 2 else 1)
    ensures replies[0].finishReason == Stop <==>
      |calls| == 4 && p.upload(calls[3].path).Some?
      && !Blank(p.upload(calls[3].path).value.previewURL) && !Blank(p.upload(calls[3].path).value.mediaID)
    ensures replies[0].finishReason == Stop ==> replies[0].attachments == [p.upload(calls[3].path).value]
    ensures replies[0].finishReason != Stop ==>
      replies[0].errorCode == CodeOf(|calls|, p.create(TrimSpace(text)).Some?, StatusOf(poll))
    ensures replies[0].errorCode == "VIDEO_TASK_TIMEOUT" <==>
      poll.Some? && (poll.value.TimedOut? || poll.value.Aborted?)
  {
    calls, poll, queries := [], None, 0;
    var prompt := TrimSpace(text);
    if !p.configured {
      return [FinalError(sessionID, 1, "VIDEO_REQUEST_UNSUPPORTED", "no api key")], calls, poll, queries;
    }
    if prompt == "" {
      return [FinalError(sessionID, 1, "VIDEO_REQUEST_UNSUPPORTED", "video prompt is empty")], calls, poll, queries;
    }
    calls := calls + [CreateTask(prompt)];
    var taskID := p.create(prompt);
    if taskID.None? {
      return [FinalError(sessionID, 2, "VIDEO_TASK_CREATE_FAILED", "create failed")], calls, poll, queries;
    }
    var ended, n := PollTask(p.task(taskID.value));
    poll, queries := Some(ended), n;
    if !ended.Settled? {
      return [FinalError(sessionID, 2, "VIDEO_TASK_TIMEOUT", "no result")], calls, poll, queries;
    }
    if IsFailed(ended.status) {
      return [FinalError(sessionID, 2, "VIDEO_TASK_FAILED", "video task failed")], calls, poll, queries;
    }
    replies, calls := Fetch(p, sessionID, prompt, ended.status, calls);
  }

  method Fetch(p: Provider, sessionID: string, ghost prompt: string, status: TaskStatus, made: seq<Call>)
    returns (replies: seq<ChatReply>, calls: seq<Call>)
    requires |made| == 1 && Justified(p, prompt, made, Some(status)) && p.create(prompt).Some? && IsSuccess(status)
    ensures FinalReply(replies, sessionID, 2)
    ensures calls == Chain(p, prompt, Some(status)) && Justified(p, prompt, calls, Some(status))
    ensures replies[0].finishReason == Stop <==>
      |calls| == 4 && p.upload(calls[3].path).Some?
      && !Blank(p.upload(calls[3].path).value.previewURL) && !Blank(p.upload(calls[3].path).value.mediaID)
    ensures replies[0].finishReason == Stop ==> replies[0].attachments == [p.upload(calls[3].path).value]
    ensures replies[0].finishReason != Stop ==> replies[0].errorCode == CodeOf(|calls|, true, Some(status))
  {
    calls := made;
    if TrimSpace(status.fileID) == "" {
      return [FinalError(sessionID, 2, "VIDEO_FILE_RETRIEVE_FAILED", "file_id is empty")], calls;
    }
    calls := calls + [RetrieveFile(status.fileID)];
    var url := p.retrieve(status.fileID);
    if url.None? {
      return [FinalError(sessionID, 2, "VIDEO_FILE_RETRIEVE_FAILED", "retrieve failed")], calls;
    }
    calls := calls + [Download(url.value)];
    var path := p.download(url.value);
    if path.None? {
      return [FinalError(sessionID, 2, "VIDEO_DOWNLOAD_FAILED", "download failed")], calls;
    }
    calls := calls + [Upload(path.value)];
    var uploaded := p.upload(path.value);
    if uploaded.None? {
      return [FinalError(sessionID, 2, "VIDEO_UPLOAD_FAILED", "upload failed")], calls;
    }
    if TrimSpace(uploaded.value.previewURL) == "" || TrimSpace(uploaded.value.mediaID) == "" {
      return [FinalError(sessionID, 2, "VIDEO_UPLOAD_FAILED", "missing media_id or preview_url")], calls;
    }
    replies := [GeneratedReply(sessionID, uploaded.value)];
  }
}
