/**
 * The conversion route (`src/app/api/download/route.ts`): a POST handler
 * that looks a Spotify track up, finds a matching video, downloads it to a
 * temporary file, has a conversion service turn it into MP3 and answers
 * with the address of the result.
 *
 * Every external call is an input (`Await`, `Rejected` being a throw); the
 * conversion job is polled at most 30 times. The model records the
 * outgoing calls in order and, as ghost state, the set of paths of
 * temporary files on disk.
 */
module DownloadRoute {
  import opened Wrappers
  import Text
  import Sequences

  const MaxPollAttempts: nat := 30
  const PollIntervalMs := 2000

  /** What the track lookup gives: the track's id, its name and its artist line. */
  datatype TrackInfo = TrackInfo(id: string, name: string, artist: string)

  /** The first search result. */
  datatype Video = Video(url: string)

  /** The created conversion job: its id and the address its import task takes the upload at. */
  datatype JobInfo = JobInfo(id: string, uploadUrl: string)

  /** One exported file; its `url` field may be missing. */
  datatype ExportFile = ExportFile(url: Option<string>)

  /** The export task of a poll answer: its status and its result's file list, if the result has one. */
  datatype PollReply = PollReply(exportStatus: string, files: Option<seq<ExportFile>>)

  /**
   * The answers of the outside world to one request: the track lookup, the
   * video search (None for no result), the video download, the API key in
   * the environment, the job creation, the upload, and the answer to the
   * i-th poll (for i from 0).
   */
  datatype Replies = Replies(
    trackInfo: Await<TrackInfo>,
    search: Await<Option<Video>>,
    download: Await<()>,
    apiKey: Option<string>,
    job: Await<JobInfo>,
    upload: Await<()>,
    poll: nat -> Await<PollReply>)

  /** An outgoing call or file operation, in the order the handler makes them. */
  datatype Call =
    | LookUpTrack(trackId: string)
    | SearchVideo(query: string)
    | DownloadVideo(videoUrl: string, path: string)
    | CreateJob(authorization: string)
    | Upload(uploadUrl: string, path: string)
    | Wait(ms: int)
    | PollJob(jobId: string)
    | Unlink(path: string)

  datatype Body = ErrorBody(error: string) | Converted(mp3Url: string, fileName: string)

  datatype Response = Response(status: int, body: Body)

  /** A handled request: the response and the calls made. */
  datatype Run = Run(response: Response, calls: seq<Call>)

  /** The search query for a track. */
  function SearchQuery(t: TrackInfo): string
  {
    t.name + " " + t.artist
  }

  /** Where the video is downloaded to. */
  function TempPath(t: TrackInfo): string
  {
    "/tmp/" + t.id + ".mp4"
  }

  /** The name the answer suggests for the MP3: title first, then artist. */
  function OutputFileName(t: TrackInfo): string
  {
    t.name + " - " + t.artist + ".mp3"
  }

  // ---------------------------------------------------------------------
  // Polling

  /** A poll answer that ends the polling: export finished with at least one file. */
  predicate Delivered(r: PollReply)
  {
    r.exportStatus == "finished" && r.files.Some? && |r.files.value| > 0
  }

  /** How polling ends: a delivered answer (with the first file's address), 30 answers without one, or a throw. */
  datatype PollOutcome = Found(url: Option<string>) | TimedOut | PollThrew(message: string)

  datatype PollRun = PollRun(outcome: PollOutcome, attempts: nat)

  /** The polling from attempt `i` on. */
  function PollFrom(poll: nat -> Await<PollReply>, i: nat): PollRun
    decreases MaxPollAttempts - i
  {
    if i >= MaxPollAttempts then PollRun(TimedOut, i)
    else match poll(i)
      case Rejected(m) => PollRun(PollThrew(m), i + 1)
      case Resolved(r) => if Delivered(r) then PollRun(Found(r.files.value[0].url), i + 1) else PollFrom(poll, i + 1)
  }

  /**
   * Polling stops at the first answer that is delivered or thrown, after at
   * most 30 attempts; every earlier answer was neither; a time-out means 30
   * answers, none delivered.
   */
  lemma {:induction false} PollFromStopsAtFirst(poll: nat -> Await<PollReply>, i: nat)
    requires i < MaxPollAttempts
    ensures var p := PollFrom(poll, i);
      i < p.attempts <= MaxPollAttempts &&
      (forall j :: i <= j < p.attempts - 1 ==> poll(j).Resolved? && !Delivered(poll(j).value)) &&
      (p.outcome.Found? ==> (poll(p.attempts - 1).Resolved? && Delivered(poll(p.attempts - 1).value) &&
        p.outcome.url == poll(p.attempts - 1).value.files.value[0].url)) &&
      (p.outcome.PollThrew? ==> poll(p.attempts - 1) == Rejected(p.outcome.message)) &&
      (p.outcome.TimedOut? ==> (p.attempts == MaxPollAttempts && poll(p.attempts - 1).Resolved? && !Delivered(poll(p.attempts - 1).value)))
    decreases MaxPollAttempts - i
  {
    if poll(i).Resolved? && !Delivered(poll(i).value) && i + 1 < MaxPollAttempts {
      PollFromStopsAtFirst(poll, i + 1);
    }
  }

  /** A "failed" export is not recognised: polling goes on as for any answer that is not delivered. */
  lemma FailedExportKeepsPolling(poll: nat -> Await<PollReply>, i: nat)
    requires i < MaxPollAttempts && poll(i).Resolved? && poll(i).value.exportStatus == "failed"
    ensures PollFrom(poll, i) == PollFrom(poll, i + 1)
    ensures PollFrom(poll, i).outcome.Found? ==> PollFrom(poll, i).attempts > i + 1
  {
    if i + 1 < MaxPollAttempts {
      PollFromStopsAtFirst(poll, i + 1);
    }
  }

  /** The loop of the handler: wait, poll, stop at a delivered answer. */
  method PollJobUntilDelivered(poll: nat -> Await<PollReply>) returns (outcome: PollOutcome, attempts: nat)
    ensures PollRun(outcome, attempts) == PollFrom(poll, 0)
  {
    outcome, attempts := TimedOut, 0;
    var i: nat := 0;
    while i < MaxPollAttempts
      invariant i <= MaxPollAttempts && attempts == i
      invariant PollFrom(poll, 0) == PollFrom(poll, i)
    {
      attempts := i + 1;
      var reply := poll(i);
      if reply.Rejected? {
        outcome := PollThrew(reply.message);
        return;
      }
      if Delivered(reply.value) {
        outcome := Found(reply.value.files.value[0].url);
        return;
      }
      i := i + 1;
    }
  }

  /** Calls that neither create nor remove a file. */
  predicate Inert(calls: seq<Call>)
  {
    forall c :: c in calls ==> !c.DownloadVideo? && !c.Unlink?
  }

  /** The waits and polls of `n` attempts: each poll preceded by a 2000 ms wait. */
  function PollCalls(jobId: string, n: nat): (calls: seq<Call>)
    ensures |calls| == 2 * n && Inert(calls)
    ensures forall k :: 0 <= k < n ==> calls[2 * k] == Wait(PollIntervalMs) && calls[2 * k + 1] == PollJob(jobId)
  {
    if n == 0 then [] else PollCalls(jobId, n - 1) + [Wait(PollIntervalMs), PollJob(jobId)]
  }

  // ---------------------------------------------------------------------
  // The handler as written, one awaited step after another

  function Fail(status: int, message: string, calls: seq<Call>): Run
  {
    Run(Response(status, ErrorBody(message)), calls)
  }

  /** `err.message || 'Internal error'`: what the catch-all answers for a throw. */
  function Caught(message: string): Run
  {
    Fail(500, OrElse(Some(message), "Internal error"), [])
  }

  /** A step's calls followed by the rest of the handling. */
  function Then(calls: seq<Call>, rest: Run): Run
  {
    Run(rest.response, calls + rest.calls)
  }

  /** `POST` for the `spotifyTrackId` of the request body. */
  function PostRun(trackId: Option<string>, replies: Replies): Run
  {
    if !Truthy(trackId) then Fail(400, "Missing spotifyTrackId", [])
    else Then([LookUpTrack(trackId.value)], AfterLookup(replies))
  }

  /** After the track lookup: search for a video. */
  function AfterLookup(replies: Replies): Run
  {
    match replies.trackInfo
    case Rejected(m) => Caught(m)
    case Resolved(t) => Then([SearchVideo(SearchQuery(t))], AfterSearch(t, replies))
  }

  /** After the search: download the first result to the temporary file. */
  function AfterSearch(t: TrackInfo, replies: Replies): Run
  {
    match replies.search
    case Rejected(m) => Caught(m)
    case Resolved(None) => Fail(404, "No YouTube video found", [])
    case Resolved(Some(video)) => Then([DownloadVideo(video.url, TempPath(t))], AfterDownload(t, replies))
  }

  /** After the download has started: check the API key and create the conversion job. */
  function AfterDownload(t: TrackInfo, replies: Replies): Run
  {
    if replies.download.Rejected? then Caught(replies.download.message)
    else if !Truthy(replies.apiKey) then Fail(500, "Missing CloudConvert API key", [])
    else Then([CreateJob("Bearer " + replies.apiKey.value)], AfterJob(t, replies))
  }

  /** After the job is created: upload the video. */
  function AfterJob(t: TrackInfo, replies: Replies): Run
  {
    match replies.job
    case Rejected(m) => Caught(m)
    case Resolved(job) => Then([Upload(job.uploadUrl, TempPath(t))], AfterUpload(t, job, replies))
  }

  /** After the upload: poll the job. */
  function AfterUpload(t: TrackInfo, job: JobInfo, replies: Replies): Run
  {
    if replies.upload.Rejected? then Caught(replies.upload.message)
    else
      var polled := PollFrom(replies.poll, 0);
      Then(PollCalls(job.id, polled.attempts), AfterPolling(t, polled.outcome))
  }

  /** After polling: remove the temporary file and answer with the exported file, if any. */
  function AfterPolling(t: TrackInfo, outcome: PollOutcome): Run
  {
    match outcome
    case PollThrew(m) => Caught(m)
    case TimedOut => Then([Unlink(TempPath(t))], Fail(500, "MP3 conversion failed", []))
    case Found(url) =>
      Then([Unlink(TempPath(t))],
        if Truthy(url) then Run(Response(200, Converted(url.value, OutputFileName(t))), [])
        else Fail(500, "MP3 conversion failed", []))
  }

  // ---------------------------------------------------------------------
  // Temporary files

  /** The effect of one call on the set of temporary files on disk. */
  function FileStep(files: set<string>, c: Call): set<string>
  {
    match c
    case DownloadVideo(_, path) => files + {path}
    case Unlink(path) => files - {path}
    case _ => files
  }

  /** The temporary files on disk after a list of calls, from `files` before them. */
  function Replay(files: set<string>, calls: seq<Call>): set<string>
    decreases |calls|
  {
    if calls == [] then files else Replay(FileStep(files, calls[0]), calls[1..])
  }

  lemma ReplayCons(files: set<string>, c: Call, rest: seq<Call>)
    ensures Replay(files, [c] + rest) == Replay(FileStep(files, c), rest)
  {
    assert ([c] + rest)[1..] == rest;
  }

  /** Replaying two lists of calls one after the other. */
  lemma {:induction false} ReplayConcat(files: set<string>, a: seq<Call>, b: seq<Call>)
    ensures Replay(files, a + b) == Replay(Replay(files, a), b)
    decreases |a|
  {
    if a == [] {
      assert a + b == b;
    } else {
      assert a + b == [a[0]] + (a[1..] + b);
      ReplayCons(files, a[0], a[1..] + b);
      ReplayConcat(FileStep(files, a[0]), a[1..], b);
    }
  }

  /** Calls that create and remove nothing leave the files alone. */
  lemma {:induction false} ReplayInert(files: set<string>, calls: seq<Call>)
    requires Inert(calls)
    ensures Replay(files, calls) == files
    decreases |calls|
  {
    if calls != [] {
      assert calls[0] in calls;
      assert forall c :: c in calls[1..] ==> c in calls;
      ReplayInert(files, calls[1..]);
    }
  }

  /** No call removes a file. */
  predicate NoUnlink(calls: seq<Call>)
  {
    forall c :: c in calls ==> !c.Unlink?
  }

  // ---------------------------------------------------------------------
  // Properties of the handler

  /** The request gets as far as downloading a video to the temporary file. */
  predicate StartsDownload(trackId: Option<string>, replies: Replies)
  {
    Truthy(trackId) && replies.trackInfo.Resolved? && replies.search.Resolved? && replies.search.value.Some?
  }

  /** The request gets to the removal of the temporary file after polling. */
  predicate ReachesCleanup(trackId: Option<string>, replies: Replies)
  {
    StartsDownload(trackId, replies) && replies.download.Resolved? && Truthy(replies.apiKey) &&
    replies.job.Resolved? && replies.upload.Resolved? && !PollFrom(replies.poll, 0).outcome.PollThrew?
  }

  /** A request without a track id is refused with 400 before any call. */
  lemma MissingIdIsBadRequest(trackId: Option<string>, replies: Replies)
    requires !Truthy(trackId)
    ensures PostRun(trackId, replies) == Fail(400, "Missing spotifyTrackId", [])
  {
  }

  /** No search result: 404 after the lookup and the search for "name artist", with nothing written to disk. */
  lemma NoVideoIsNotFound(files: set<string>, trackId: string, t: TrackInfo, replies: Replies)
    requires trackId != "" && replies.trackInfo == Resolved(t) && replies.search == Resolved(None)
    ensures PostRun(Some(trackId), replies) == Fail(404, "No YouTube video found", [LookUpTrack(trackId), SearchVideo(t.name + " " + t.artist)])
    ensures Replay(files, PostRun(Some(trackId), replies).calls) == files
  {
    NoDownloadLeavesFiles(files, Some(trackId), replies);
  }

  /** A request that never downloads removes nothing and leaves the files as they were. */
  lemma NoDownloadLeavesFiles(files: set<string>, trackId: Option<string>, replies: Replies)
    requires !StartsDownload(trackId, replies)
    ensures NoUnlink(PostRun(trackId, replies).calls)
    ensures Replay(files, PostRun(trackId, replies).calls) == files
  {
    var calls := PostRun(trackId, replies).calls;
    assert Inert(calls);
    ReplayInert(files, calls);
  }

  /** The calls end with the removal of `path`, and no call before it creates or removes a file. */
  predicate CleansUp(calls: seq<Call>, path: string)
  {
    |calls| > 0 && calls[|calls| - 1] == Unlink(path) && Inert(calls[..|calls| - 1])
  }

  lemma CleansUpReplay(files: set<string>, calls: seq<Call>, path: string)
    requires CleansUp(calls, path)
    ensures Replay(files, calls) == files - {path}
  {
    var head := calls[..|calls| - 1];
    assert calls == head + [Unlink(path)];
    ReplayInert(files, head);
    ReplayConcat(files, head, [Unlink(path)]);
    ReplayCons(files, Unlink(path), []);
    assert [Unlink(path)] + [] == [Unlink(path)];
  }

  /** Inert calls in front keep both the inertness and the final clean-up of what follows. */
  lemma InertThen(head: seq<Call>, rest: seq<Call>, path: string)
    requires Inert(head)
    ensures Inert(rest) ==> Inert(head + rest)
    ensures CleansUp(rest, path) ==> CleansUp(head + rest, path)
  {
    if CleansUp(rest, path) {
      assert (head + rest)[..|head + rest| - 1] == head + rest[..|rest| - 1];
    }
  }

  /** From the upload on, the calls clean up exactly when polling ends without a throw. */
  lemma CallsAfterUpload(t: TrackInfo, job: JobInfo, replies: Replies)
    requires replies.upload.Resolved?
    ensures PollFrom(replies.poll, 0).outcome.PollThrew? ==> Inert(AfterUpload(t, job, replies).calls)
    ensures !PollFrom(replies.poll, 0).outcome.PollThrew? ==> CleansUp(AfterUpload(t, job, replies).calls, TempPath(t))
  {
    var polled := PollFrom(replies.poll, 0);
    InertThen(PollCalls(job.id, polled.attempts), AfterPolling(t, polled.outcome).calls, TempPath(t));
  }

  /** From the download on, the calls clean up exactly when every later step succeeds and polling does not throw. */
  lemma CallsAfterDownload(t: TrackInfo, replies: Replies)
    ensures var cleaned := replies.download.Resolved? && Truthy(replies.apiKey) && replies.job.Resolved? &&
      replies.upload.Resolved? && !PollFrom(replies.poll, 0).outcome.PollThrew?;
      (cleaned ==> CleansUp(AfterDownload(t, replies).calls, TempPath(t))) &&
      (!cleaned ==> Inert(AfterDownload(t, replies).calls))
  {
    if replies.download.Resolved? && Truthy(replies.apiKey) && replies.job.Resolved? {
      var job := replies.job.value;
      if replies.upload.Resolved? {
        CallsAfterUpload(t, job, replies);
      }
      InertThen([Upload(job.uploadUrl, TempPath(t))], AfterUpload(t, job, replies).calls, TempPath(t));
      InertThen([CreateJob("Bearer " + replies.apiKey.value)], AfterJob(t, replies).calls, TempPath(t));
    }
  }

  /** The calls of a request that started a download: the download, then the calls after it. */
  lemma CallsOfDownload(trackId: Option<string>, replies: Replies)
    requires StartsDownload(trackId, replies)
    ensures var t := replies.trackInfo.value;
      PostRun(trackId, replies).calls ==
        [LookUpTrack(trackId.value), SearchVideo(SearchQuery(t)), DownloadVideo(replies.search.value.value.url, TempPath(t))] +
        AfterDownload(t, replies).calls
  {
  }

  /** Replaying the lookup, the search and the download adds the temporary file. */
  lemma ReplayDownloadHead(files: set<string>, trackId: string, query: string, url: string, path: string, rest: seq<Call>)
    ensures Replay(files, [LookUpTrack(trackId), SearchVideo(query), DownloadVideo(url, path)] + rest) == Replay(files + {path}, rest)
  {
    var calls := [LookUpTrack(trackId), SearchVideo(query), DownloadVideo(url, path)] + rest;
    assert calls == [LookUpTrack(trackId)] + ([SearchVideo(query)] + ([DownloadVideo(url, path)] + rest));
    ReplayCons(files, LookUpTrack(trackId), [SearchVideo(query)] + ([DownloadVideo(url, path)] + rest));
    ReplayCons(files, SearchVideo(query), [DownloadVideo(url, path)] + rest);
    ReplayCons(files, DownloadVideo(url, path), rest);
  }

  /** A request that downloaded and then met a throw or a missing API key removes nothing and leaves the temporary file on disk. */
  lemma LeakAfterDownload(files: set<string>, trackId: Option<string>, replies: Replies)
    requires StartsDownload(trackId, replies) && !ReachesCleanup(trackId, replies)
    ensures NoUnlink(PostRun(trackId, replies).calls)
    ensures Replay(files, PostRun(trackId, replies).calls) == files + {TempPath(replies.trackInfo.value)}
  {
    var t := replies.trackInfo.value;
    var rest := AfterDownload(t, replies).calls;
    CallsOfDownload(trackId, replies);
    CallsAfterDownload(t, replies);
    ReplayDownloadHead(files, trackId.value, SearchQuery(t), replies.search.value.value.url, TempPath(t), rest);
    ReplayInert(files + {TempPath(t)}, rest);
  }

  /** A request that polled to the end without a throw removes the temporary file with its last call, and only then. */
  lemma CleanupAfterPolling(files: set<string>, trackId: Option<string>, replies: Replies)
    requires ReachesCleanup(trackId, replies)
    ensures var run := PostRun(trackId, replies);
      |run.calls| > 0 && run.calls[|run.calls| - 1] == Unlink(TempPath(replies.trackInfo.value)) &&
      NoUnlink(run.calls[..|run.calls| - 1]) && Replay(files, run.calls) == files - {TempPath(replies.trackInfo.value)}
  {
    var t := replies.trackInfo.value;
    var head := [LookUpTrack(trackId.value), SearchVideo(SearchQuery(t)), DownloadVideo(replies.search.value.value.url, TempPath(t))];
    var rest := AfterDownload(t, replies).calls;
    CallsOfDownload(trackId, replies);
    CallsAfterDownload(t, replies);
    ReplayDownloadHead(files, trackId.value, SearchQuery(t), replies.search.value.value.url, TempPath(t), rest);
    CleansUpReplay(files + {TempPath(t)}, rest, TempPath(t));
    assert (head + rest)[..|head + rest| - 1] == head + rest[..|rest| - 1];
  }

  /**
   * The life of the temporary file: a request that never downloads leaves
   * the files as they were and removes nothing; one that reaches the
   * clean-up removes the file with its last call and only then; every other
   * request that downloaded (a missing API key, a throw while downloading,
   * creating the job, uploading or polling) leaves the file on disk.
   */
  lemma TempFileLifecycle(files: set<string>, trackId: Option<string>, replies: Replies)
    ensures var run := PostRun(trackId, replies);
      !StartsDownload(trackId, replies) ==> Replay(files, run.calls) == files && NoUnlink(run.calls)
    ensures var run := PostRun(trackId, replies);
      ReachesCleanup(trackId, replies) ==>
        |run.calls| > 0 && run.calls[|run.calls| - 1] == Unlink(TempPath(replies.trackInfo.value)) &&
        NoUnlink(run.calls[..|run.calls| - 1]) && Replay(files, run.calls) == files - {TempPath(replies.trackInfo.value)}
    ensures var run := PostRun(trackId, replies);
      StartsDownload(trackId, replies) && !ReachesCleanup(trackId, replies) ==>
        NoUnlink(run.calls) && Replay(files, run.calls) == files + {TempPath(replies.trackInfo.value)}
  {
    if !StartsDownload(trackId, replies) {
      NoDownloadLeavesFiles(files, trackId, replies);
    } else if ReachesCleanup(trackId, replies) {
      CleanupAfterPolling(files, trackId, replies);
    } else {
      LeakAfterDownload(files, trackId, replies);
    }
  }

  /** With the API key missing, the downloaded video stays on disk. */
  lemma MissingKeyLeavesTempFile(files: set<string>, trackId: string, t: TrackInfo, video: Video, replies: Replies)
    requires trackId != "" && replies.trackInfo == Resolved(t) && replies.search == Resolved(Some(video))
    requires replies.download.Resolved? && !Truthy(replies.apiKey)
    ensures PostRun(Some(trackId), replies).response == Response(500, ErrorBody("Missing CloudConvert API key"))
    ensures TempPath(t) in Replay(files, PostRun(Some(trackId), replies).calls)
  {
    LeakAfterDownload(files, Some(trackId), replies);
  }

  /** A successful answer comes only after the clean-up, with the delivered address and the "title - artist" name. */
  lemma SuccessShape(trackId: Option<string>, replies: Replies)
    ensures var run := PostRun(trackId, replies);
      run.response.status == 200 <==>
        ReachesCleanup(trackId, replies) && PollFrom(replies.poll, 0).outcome.Found? && Truthy(PollFrom(replies.poll, 0).outcome.url)
    ensures var run := PostRun(trackId, replies);
      run.response.status == 200 ==>
        run.response.body == Converted(PollFrom(replies.poll, 0).outcome.url.value, OutputFileName(replies.trackInfo.value))
  {
  }

  /** A time-out and a delivered answer without a file address give the same 500 answer. */
  lemma ConversionFailureIndistinct(trackId: Option<string>, replies: Replies)
    requires ReachesCleanup(trackId, replies)
    requires PollFrom(replies.poll, 0).outcome.TimedOut? ||
      (PollFrom(replies.poll, 0).outcome.Found? && !Truthy(PollFrom(replies.poll, 0).outcome.url))
    ensures PostRun(trackId, replies).response == Response(500, ErrorBody("MP3 conversion failed"))
  {
  }

  /**
   * The suggested file name puts the title first: for a title without '-',
   * the text before the first '-' is the title and the space after it.
   */
  lemma FileNameTitleFirst(t: TrackInfo)
    requires '-' !in t.name
    ensures Text.Split(OutputFileName(t), '-')[0] == t.name + " "
  {
    assert OutputFileName(t) == (t.name + " ") + ['-'] + (" " + t.artist + ".mp3");
    Text.SplitAtSeparator(t.name + " ", " " + t.artist + ".mp3", '-');
  }

  // ---------------------------------------------------------------------
  // The handler with the clean-up on every path

  /** The handler with the temporary file removed on every path after the download started (a `finally`). */
  function PostRunWithCleanup(trackId: Option<string>, replies: Replies): Run
  {
    var run := PostRun(trackId, replies);
    if StartsDownload(trackId, replies) && !ReachesCleanup(trackId, replies)
    then Run(run.response, run.calls + [Unlink(TempPath(replies.trackInfo.value))])
    else run
  }

  /** With the clean-up on every path, the same answers are given and no request leaves its temporary file behind. */
  lemma CleanupLeavesNoTempFile(files: set<string>, trackId: Option<string>, replies: Replies)
    ensures PostRunWithCleanup(trackId, replies).response == PostRun(trackId, replies).response
    ensures StartsDownload(trackId, replies) ==>
      Replay(files, PostRunWithCleanup(trackId, replies).calls) == files - {TempPath(replies.trackInfo.value)}
    ensures !StartsDownload(trackId, replies) ==> Replay(files, PostRunWithCleanup(trackId, replies).calls) == files
    ensures StartsDownload(trackId, replies) && TempPath(replies.trackInfo.value) !in files ==>
      Replay(files, PostRunWithCleanup(trackId, replies).calls) == files
  {
    TempFileLifecycle(files, trackId, replies);
    if StartsDownload(trackId, replies) && !ReachesCleanup(trackId, replies) {
      var path := TempPath(replies.trackInfo.value);
      ReplayConcat(files, PostRun(trackId, replies).calls, [Unlink(path)]);
      ReplayCons(files + {path}, Unlink(path), []);
      assert [Unlink(path)] + [] == [Unlink(path)];
    }
  }

  // ---------------------------------------------------------------------
  // The handler as a server with a call log and a disk

  class ConversionServer {
    /** Every outgoing call and file operation so far, in order. */
    var calls: seq<Call>
    /** The temporary files on disk. */
    ghost var files: set<string>

    constructor (ghost onDisk: set<string>)
      ensures calls == [] && files == onDisk
    {
      calls := [];
      files := onDisk;
    }

    /** Make a list of calls: log them and apply their effect on the files. */
    method Perform(cs: seq<Call>)
      modifies this
      ensures calls == old(calls) + cs && files == Replay(old(files), cs)
    {
      calls := calls + cs;
      files := Replay(files, cs);
    }

    /**
     * `POST`: handle one request, logging its calls and changing the files
     * as it goes; a throw ends the handling with the catch-all's answer.
     */
    method Post(trackId: Option<string>, replies: Replies) returns (response: Response)
      modifies this
      ensures response == PostRun(trackId, replies).response
      ensures calls == old(calls) + PostRun(trackId, replies).calls
      ensures files == Replay(old(files), PostRun(trackId, replies).calls)
    {
      if !Truthy(trackId) {
        response := Response(400, ErrorBody("Missing spotifyTrackId"));
        assert PostRun(trackId, replies).calls == [];
        return;
      }
      var step := [LookUpTrack(trackId.value)];
      Perform(step);
      response := HandleLookup(replies);
      ReplayConcat(old(files), step, AfterLookup(replies).calls);
      Sequences.Associative(old(calls), step, AfterLookup(replies).calls);
    }

    /** The rest of the handling once the track lookup has settled. */
    method HandleLookup(replies: Replies) returns (response: Response)
      modifies this
      ensures response == AfterLookup(replies).response
      ensures calls == old(calls) + AfterLookup(replies).calls
      ensures files == Replay(old(files), AfterLookup(replies).calls)
    {
      if replies.trackInfo.Rejected? {
        response := Caught(replies.trackInfo.message).response;
        assert AfterLookup(replies).calls == [];
        return;
      }
      var t := replies.trackInfo.value;
      var step := [SearchVideo(SearchQuery(t))];
      Perform(step);
      response := HandleSearch(t, replies);
      ReplayConcat(old(files), step, AfterSearch(t, replies).calls);
      Sequences.Associative(old(calls), step, AfterSearch(t, replies).calls);
    }

    /** The rest of the handling once the video search has settled. */
    method HandleSearch(t: TrackInfo, replies: Replies) returns (response: Response)
      modifies this
      ensures response == AfterSearch(t, replies).response
      ensures calls == old(calls) + AfterSearch(t, replies).calls
      ensures files == Replay(old(files), AfterSearch(t, replies).calls)
    {
      if replies.search.Rejected? {
        response := Caught(replies.search.message).response;
        assert AfterSearch(t, replies).calls == [];
        return;
      }
      if replies.search.value.None? {
        response := Response(404, ErrorBody("No YouTube video found"));
        assert AfterSearch(t, replies).calls == [];
        return;
      }
      var step := [DownloadVideo(replies.search.value.value.url, TempPath(t))];
      Perform(step);
      response := HandleDownload(t, replies);
      ReplayConcat(old(files), step, AfterDownload(t, replies).calls);
      Sequences.Associative(old(calls), step, AfterDownload(t, replies).calls);
    }

    /** The rest of the handling once the video download has settled. */
    method HandleDownload(t: TrackInfo, replies: Replies) returns (response: Response)
      modifies this
      ensures response == AfterDownload(t, replies).response
      ensures calls == old(calls) + AfterDownload(t, replies).calls
      ensures files == Replay(old(files), AfterDownload(t, replies).calls)
    {
      if replies.download.Rejected? {
        response := Caught(replies.download.message).response;
        assert AfterDownload(t, replies).calls == [];
        return;
      }
      if !Truthy(replies.apiKey) {
        response := Response(500, ErrorBody("Missing CloudConvert API key"));
        assert AfterDownload(t, replies).calls == [];
        return;
      }
      var step := [CreateJob("Bearer " + replies.apiKey.value)];
      Perform(step);
      response := HandleJob(t, replies);
      ReplayConcat(old(files), step, AfterJob(t, replies).calls);
      Sequences.Associative(old(calls), step, AfterJob(t, replies).calls);
    }

    /** The rest of the handling once the job creation has settled. */
    method HandleJob(t: TrackInfo, replies: Replies) returns (response: Response)
      modifies this
      ensures response == AfterJob(t, replies).response
      ensures calls == old(calls) + AfterJob(t, replies).calls
      ensures files == Replay(old(files), AfterJob(t, replies).calls)
    {
      if replies.job.Rejected? {
        response := Caught(replies.job.message).response;
        assert AfterJob(t, replies).calls == [];
        return;
      }
      var job := replies.job.value;
      var step := [Upload(job.uploadUrl, TempPath(t))];
      Perform(step);
      response := HandleUpload(t, job, replies);
      ReplayConcat(old(files), step, AfterUpload(t, job, replies).calls);
      Sequences.Associative(old(calls), step, AfterUpload(t, job, replies).calls);
    }

    /** The rest of the handling once the upload has settled: poll, clean up, answer. */
    method HandleUpload(t: TrackInfo, job: JobInfo, replies: Replies) returns (response: Response)
      modifies this
      ensures response == AfterUpload(t, job, replies).response
      ensures calls == old(calls) + AfterUpload(t, job, replies).calls
      ensures files == Replay(old(files), AfterUpload(t, job, replies).calls)
    {
      if replies.upload.Rejected? {
        response := Caught(replies.upload.message).response;
        assert AfterUpload(t, job, replies).calls == [];
        return;
      }
      var outcome, attempts := PollJobUntilDelivered(replies.poll);
      var polls := PollCalls(job.id, attempts);
      Perform(polls);
      ReplayConcat(old(files), polls, AfterPolling(t, outcome).calls);
      if outcome.PollThrew? {
        response := Caught(outcome.message).response;
        return;
      }
      var step := [Unlink(TempPath(t))];
      Perform(step);
      if outcome.Found? && Truthy(outcome.url) {
        response := Response(200, Converted(outcome.url.value, OutputFileName(t)));
      } else {
        response := Response(500, ErrorBody("MP3 conversion failed"));
      }
      assert AfterPolling(t, outcome).calls == step + [];
      assert calls == old(calls) + (polls + step);
    }
  }
}
