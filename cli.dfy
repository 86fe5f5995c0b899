/**
 * The example command-line workflow: create a job with clamped parameters,
 * poll it, download what it produced with a soft failure for GIFs, and
 * delete it. Every service call is replaced by the outcome it had, given as
 * input; logging, argument parsing and the clock are not modelled (the
 * timestamps in file names are inputs).
 */
module Cli {
  import opened Wrappers
  import opened Values
  import opened Validation
  import opened Models
  import opened Client

  // ----- create_video_job -----

  /** An exception create_video_job lets through. */
  datatype Escaped = ValueErrorEscaped(message: string) | TypeErrorEscaped | AttributeErrorEscaped(message: string)

  /** x, lowered to limit when it exceeds it. */
  function Clamp(x: int, limit: int): (r: int)
    ensures r <= limit
    ensures x <= limit ==> r == x
    ensures x > limit ==> r == limit
  {
    if x > limit then limit else x
  }

  /** What create_video_job returns for the outcome of create_video_generation_job. */
  function Reported(outcome: Result<Job, Raised>): Result<Option<Job>, Escaped>
  {
    match outcome
    case Success(job) => Success(Some(job))
    case Failure(ClientFailure(_)) => Success(None)
    case Failure(TypeErrorRaised) => Failure(TypeErrorEscaped)
  }

  /**
   * create_video_job: the resolution gate, clamping of duration and
   * variants, the request's own checks (a ValueError escapes) and the
   * creation call as written (on a typed request it runs like the corrected
   * one, by Client.TypedRequestsAreSent); sent is the payload that went out,
   * if any.
   */
  method CreateVideoJob(deploymentName: string, prompt: string, width: int, height: int,
                        duration: int, variants: int, exchange: Exchange)
    returns (job: Result<Option<Job>, Escaped>, sent: Option<Entries>)
    ensures (width, height) !in SupportedResolutions ==> job == Success(None) && sent == None
    ensures (width, height) in SupportedResolutions ==>
      var request := NewRequest(prompt, height, width, Clamp(duration, MaxDurationFor(width, height)),
                                Clamp(variants, MaxVariantsFor(width, height)));
      && (request.Failure? ==> job == Failure(ValueErrorEscaped(ConstructionMessage(request.error))) && sent == None)
      && (request.Success? ==>
            sent == CreateJobAsWritten(deploymentName, Typed(request.value), exchange).sent &&
            job == Reported(CreateJobAsWritten(deploymentName, Typed(request.value), exchange).outcome))
  {
    if ValidateResolution(VInt(width), VInt(height)).Failure? {
      return Success(None), None;
    }
    var maxDuration := MaxDurationFor(width, height);
    var maxVariants := MaxVariantsFor(width, height);
    var seconds := duration;
    var count := variants;
    if seconds > maxDuration {
      seconds := maxDuration;
    }
    if count > maxVariants {
      count := maxVariants;
    }
    match NewRequest(prompt, height, width, seconds, count)
    case Failure(e) =>
      job, sent := Failure(ValueErrorEscaped(ConstructionMessage(e))), None;
    case Success(request) =>
      var run := CreateJobAsWritten(deploymentName, Typed(request), exchange);
      job, sent := Reported(run.outcome), run.sent;
  }

  /**
   * Clamping makes every positive request acceptable: on a supported
   * resolution with duration and variants at least 1, the request is built
   * and its payload is sent, carrying the clamped values.
   */
  lemma ClampedRequestsAreSent(deploymentName: string, prompt: string, width: int, height: int,
                               duration: int, variants: int, exchange: Exchange)
    requires (width, height) in SupportedResolutions && duration >= 1 && variants >= 1
    ensures
      var seconds := Clamp(duration, MaxDurationFor(width, height));
      var count := Clamp(variants, MaxVariantsFor(width, height));
      var request := NewRequest(prompt, height, width, seconds, count);
      && request == Success(CreateRequest(prompt, height, width, seconds, count))
      && CreateJobAsWritten(deploymentName, Typed(request.value), exchange).sent.Some?
      && 1 <= seconds <= MaxDuration && 1 <= count <= MaxVariantsFor(width, height)
      && (duration <= MaxDuration ==> seconds == duration)
      && (variants <= MaxVariantsFor(width, height) ==> count == variants)
  {
    var seconds := Clamp(duration, MaxDurationFor(width, height));
    var count := Clamp(variants, MaxVariantsFor(width, height));
    var request := CreateRequest(prompt, height, width, seconds, count);
    ToDictValidates(request);
    TypedRequestsAreSent(deploymentName, request, exchange);
  }

  // ----- monitor_job -----

  /**
   * What monitor_job returns: the job (None when polling raised) and the
   * generations to download; Unfinished when the supplied fetches ran out
   * while the job was still running.
   */
  datatype Monitored = Monitored(job: Option<Job>, generations: seq<Generation>) | Unfinished

  /** monitor_job, polling without a limit. */
  function MonitorJob(fetches: seq<Result<Job, ClientError>>): (m: Monitored)
    ensures PollFrom(fetches, None, 0).outcome.Raised? <==> m == Monitored(None, [])
    ensures PollFrom(fetches, None, 0).outcome.Returned? <==> m.Monitored? && m.job.Some?
    ensures m.Unfinished? <==> PollFrom(fetches, None, 0).outcome.InputExhausted?
    ensures m.Monitored? && m.job.Some? ==>
      && m.job.value == PollFrom(fetches, None, 0).outcome.job
      && m.job.value.status in {Known(Succeeded), Known(Cancelled)}
      && (m.job.value.status == Known(Succeeded) ==> m.generations == m.job.value.generations)
      && (m.job.value.status == Known(Cancelled) ==> m.generations == [])
  {
    match PollFrom(fetches, None, 0).outcome
    case Raised(_) => Monitored(None, [])
    case Returned(job, generations) =>
      if job.status == Known(Succeeded) then Monitored(Some(job), generations) else Monitored(Some(job), [])
    case _ => Unfinished
  }

  /** Unlimited polling never times out; a FAILED job reaches monitor_job as an error, never as a job. */
  lemma MonitorNeverSeesFailedJob(fetches: seq<Result<Job, ClientError>>)
    ensures !PollFrom(fetches, None, 0).outcome.TimedOut?
    ensures MonitorJob(fetches).Monitored? && MonitorJob(fetches).job.Some? ==>
      MonitorJob(fetches).job.value.status != Known(Failed)
  {
  }

  // ----- download_videos -----

  /** os.path.join(directory, name) for a relative name. */
  function JoinPath(directory: string, name: string): string
  {
    if directory == "" || EndsWithSlash(directory) then directory + name else directory + "/" + name
  }

  /**
   * The two save calls for one generation: each one's response, the text
   * of the exception writing the file raised (if any), and the timestamp
   * its file name was built with.
   */
  datatype SaveAttempt = SaveAttempt(
    videoStamp: string, video: Exchange, videoWrite: Option<string>,
    gifStamp: string, gif: Exchange, gifWrite: Option<string>)

  function VideoPath(directory: string, g: Generation, a: SaveAttempt): string
  {
    JoinPath(directory, "video_" + PyStr(g.id) + "_" + a.videoStamp + ".mp4")
  }

  function GifPath(directory: string, g: Generation, a: SaveAttempt): string
  {
    JoinPath(directory, "gif_" + PyStr(g.id) + "_" + a.gifStamp + ".gif")
  }

  predicate VideoSaved(directory: string, g: Generation, a: SaveAttempt)
  {
    SaveContent(Video, a.video, VideoPath(directory, g, a), a.videoWrite).Success?
  }

  predicate GifSaved(directory: string, g: Generation, a: SaveAttempt)
  {
    SaveContent(Gif, a.gif, GifPath(directory, g, a), a.gifWrite).Success?
  }

  /** The paths one generation adds: its video once saved, then its GIF if that was saved too. */
  function GenerationFiles(directory: string, g: Generation, a: SaveAttempt): (files: seq<string>)
    ensures |files| > 0 <==> VideoSaved(directory, g, a)
    ensures |files| > 0 ==> files[0] == VideoPath(directory, g, a)
    ensures GifSaved(directory, g, a) && VideoSaved(directory, g, a) ==>
      files == [VideoPath(directory, g, a), GifPath(directory, g, a)]
    ensures !GifSaved(directory, g, a) && VideoSaved(directory, g, a) ==> files == [VideoPath(directory, g, a)]
  {
    if !VideoSaved(directory, g, a) then []
    else if GifSaved(directory, g, a) then [VideoPath(directory, g, a), GifPath(directory, g, a)]
    else [VideoPath(directory, g, a)]
  }

  /** The list download_videos returns, generation by generation. */
  function Downloads(directory: string, work: seq<(Generation, SaveAttempt)>): seq<string>
  {
    if |work| == 0 then []
    else Downloads(directory, work[..|work| - 1]) + GenerationFiles(directory, work[|work| - 1].0, work[|work| - 1].1)
  }

  /** download_videos: generations paired with the outcomes of their save calls. */
  method DownloadVideos(directory: string, work: seq<(Generation, SaveAttempt)>) returns (files: seq<string>)
    ensures files == Downloads(directory, work)
  {
    if |work| == 0 {
      return [];
    }
    files := [];
    var i := 0;
    while i < |work|
      invariant 0 <= i <= |work|
      invariant files == Downloads(directory, work[..i])
    {
      var (g, a) := work[i];
      assert work[..i + 1][..i] == work[..i];
      var videoPath := VideoPath(directory, g, a);
      if SaveContent(Video, a.video, videoPath, a.videoWrite).Success? {
        files := files + [videoPath];
        var gifPath := GifPath(directory, g, a);
        if SaveContent(Gif, a.gif, gifPath, a.gifWrite).Success? {
          files := files + [gifPath];
        }
      }
      i := i + 1;
    }
    assert work[..i] == work;
  }

  /**
   * Generations are independent: the downloads of a concatenation are the
   * downloads of each part, so a failed generation never stops the ones after it.
   */
  lemma {:induction false} DownloadsCompose(directory: string, front: seq<(Generation, SaveAttempt)>,
                                            back: seq<(Generation, SaveAttempt)>)
    ensures Downloads(directory, front + back) == Downloads(directory, front) + Downloads(directory, back)
  {
    if |back| == 0 {
      assert front + back == front;
    } else {
      var init, last := back[..|back| - 1], back[|back| - 1];
      assert (front + back)[..|front + back| - 1] == front + init;
      assert (front + back)[|front + back| - 1] == last;
      var files := GenerationFiles(directory, last.0, last.1);
      assert Downloads(directory, front + back) == Downloads(directory, front + init) + files;
      assert Downloads(directory, back) == Downloads(directory, init) + files;
      DownloadsCompose(directory, front, init);
    }
  }

  /**
   * One generation's files appear in the result exactly as GenerationFiles
   * says: its video path whenever the video was saved, whatever became of the GIF.
   */
  lemma GenerationContributes(directory: string, work: seq<(Generation, SaveAttempt)>, k: nat)
    requires k < |work|
    ensures Downloads(directory, work) ==
      Downloads(directory, work[..k]) + GenerationFiles(directory, work[k].0, work[k].1) +
      Downloads(directory, work[k + 1..])
    ensures VideoSaved(directory, work[k].0, work[k].1) ==>
      VideoPath(directory, work[k].0, work[k].1) in Downloads(directory, work)
  {
    assert work == work[..k] + [work[k]] + work[k + 1..];
    DownloadsCompose(directory, work[..k] + [work[k]], work[k + 1..]);
    DownloadsCompose(directory, work[..k], [work[k]]);
    assert Downloads(directory, [work[k]]) == GenerationFiles(directory, work[k].0, work[k].1) by {
      assert [work[k]][..0] == [];
    }
    var files := Downloads(directory, work);
    if VideoSaved(directory, work[k].0, work[k].1) {
      assert files[|Downloads(directory, work[..k])|] == VideoPath(directory, work[k].0, work[k].1);
    }
  }

  // ----- main -----

  /** The options of the example after parsing. */
  datatype ExampleArgs = ExampleArgs(
    prompt: string, width: int, height: int, nSeconds: int, nVariants: int, outputDir: string,
    listOnly: bool, jobId: Option<string>, deleteJob: Option<string>)

  /** The outcomes of every service call main makes, in the order it makes them. */
  datatype Service = Service(
    deploymentName: string, create: Exchange, fetches: seq<Result<Job, ClientError>>,
    saves: seq<SaveAttempt>, listing: Exchange)

  /** What main did, in order. */
  datatype Step = Submitted(payload: Entries) | Monitoring(fetches: nat) | Saved(path: string) | Deleted(jobId: Value) | Listed

  /** The save outcomes for the i-th generation (a failed exchange when the input names none). */
  function AttemptAt(saves: seq<SaveAttempt>, i: nat): SaveAttempt
  {
    if i < |saves| then saves[i] else SaveAttempt("", Broken(""), None, "", Broken(""), None)
  }

  function Pairing(generations: seq<Generation>, saves: seq<SaveAttempt>): (work: seq<(Generation, SaveAttempt)>)
    ensures |work| == |generations|
  {
    seq(|generations|, i requires 0 <= i < |generations| => (generations[i], AttemptAt(saves, i)))
  }

  function SavedSteps(files: seq<string>): (steps: seq<Step>)
    ensures |steps| == |files|
    ensures forall i :: 0 <= i < |steps| ==> steps[i] == Saved(files[i])
  {
    seq(|files|, i requires 0 <= i < |files| => Saved(files[i]))
  }

  /** Nothing is deleted before the last download. */
  predicate DownloadsBeforeDelete(trace: seq<Step>)
  {
    forall i, j :: 0 <= i < j < |trace| && trace[i].Deleted? ==> !trace[j].Saved?
  }

  /** At most one deletion. */
  predicate DeletesOnce(trace: seq<Step>)
  {
    forall i, j :: 0 <= i < j < |trace| && trace[i].Deleted? ==> !trace[j].Deleted?
  }

  /** A trace that runs up to the downloads, then the downloads, then at most the deletion, keeps the order. */
  lemma WorkflowOrder(prefix: seq<Step>, files: seq<string>, tail: seq<Step>)
    requires forall i :: 0 <= i < |prefix| ==> !prefix[i].Deleted?
    requires |tail| <= 1
    ensures DownloadsBeforeDelete(prefix + SavedSteps(files) + tail)
    ensures DeletesOnce(prefix + SavedSteps(files) + tail)
  {
    var trace := prefix + SavedSteps(files) + tail;
    assert forall i :: 0 <= i < |trace| && trace[i].Deleted? ==> i == |trace| - 1 by {
      forall i | 0 <= i < |trace|
        ensures trace[i].Deleted? ==> i == |trace| - 1
      {
        if i < |prefix| {
          assert trace[i] == prefix[i];
        } else if i < |prefix| + |files| {
          assert trace[i] == Saved(files[i - |prefix|]);
        }
      }
    }
  }

  /**
   * list_jobs reads job.created_at, which a VideoGenerationJob does not
   * have: any non-empty listing raises AttributeError, and only
   * SoraClientError is caught on the way out of main.
   */
  const MissingCreatedAt: string := "'VideoGenerationJob' object has no attribute 'created_at'"

  /** What escapes list_jobs: nothing for a failed or empty listing, the AttributeError otherwise. */
  function ListingEscape(listed: Result<JobList, ClientError>): (r: Option<Escaped>)
    ensures r.Some? <==> listed.Success? && |listed.value.data| > 0
    ensures r.Some? ==> r.value == AttributeErrorEscaped(MissingCreatedAt)
  {
    if listed.Success? && |listed.value.data| > 0 then Some(AttributeErrorEscaped(MissingCreatedAt)) else None
  }

  /** The steps before the downloads: the submission, if one was sent, and the monitoring. */
  function Setup(submitted: Option<Entries>, fetches: nat): (steps: seq<Step>)
    ensures forall i :: 0 <= i < |steps| ==> !steps[i].Deleted? && !steps[i].Saved?
  {
    (if submitted.Some? then [Submitted(submitted.value)] else []) + [Monitoring(fetches)]
  }

  /** main, after the client has been built. */
  method RunExample(args: ExampleArgs, service: Service) returns (trace: seq<Step>, escaped: Option<Escaped>)
    ensures ValidateResolution(VInt(args.width), VInt(args.height)).Failure? ==> trace == [] && escaped == None
    ensures ValidateResolution(VInt(args.width), VInt(args.height)).Success? && Present(args.deleteJob) ==>
      trace == [Deleted(VStr(args.deleteJob.value))] && escaped == None
    ensures (ValidateResolution(VInt(args.width), VInt(args.height)).Success? && !Present(args.deleteJob) &&
             args.listOnly) ==>
      && trace == [Listed]
      && (escaped.Some? <==> ListJobs(service.listing).Success? && |ListJobs(service.listing).value.data| > 0)
      && (escaped.Some? ==> escaped.value == AttributeErrorEscaped(MissingCreatedAt))
    ensures DownloadsBeforeDelete(trace)
    ensures DeletesOnce(trace)
  {
    trace, escaped := [], None;
    if ValidateResolution(VInt(args.width), VInt(args.height)).Failure? {
      return;
    }
    if Present(args.deleteJob) {
      trace := [Deleted(VStr(args.deleteJob.value))];
      return;
    }
    if args.listOnly {
      trace := [Listed];
      escaped := ListingEscape(ListJobs(service.listing));
      return;
    }
    var submitted: Option<Entries> := None;
    var jobId: Value;
    if Present(args.jobId) {
      jobId := VStr(args.jobId.value);
    } else {
      var created, sent := CreateVideoJob(service.deploymentName, args.prompt, args.width, args.height,
                                          args.nSeconds, args.nVariants, service.create);
      submitted := sent;
      if created.Failure? || created.value.None? {
        trace := if sent.Some? then [Submitted(sent.value)] else [];
        escaped := if created.Failure? then Some(created.error) else None;
        return;
      }
      jobId := created.value.value.id;
    }
    // the fetches of get_video_generation_job for jobId
    var prefix := Setup(submitted, PollFrom(service.fetches, None, 0).fetches);
    var monitored := MonitorJob(service.fetches);
    if monitored.Unfinished? || monitored.job.None? {
      WorkflowOrder(prefix, [], []);
      trace := prefix + SavedSteps([]) + [];
      return;
    }
    var job := monitored.job.value;
    var files := DownloadVideos(args.outputDir, Pairing(monitored.generations, service.saves));
    var tail := if Truthy(job.id) then [Deleted(job.id)] else [];
    WorkflowOrder(prefix, files, tail);
    trace := prefix + SavedSteps(files) + tail;
  }
}
