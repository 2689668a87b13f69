/** The in-memory job store of audioscribe/core/jobs.py: a job keeps the
    non-blank URLs it was created with; processing a job downloads its first
    URL with an external downloader and reports the path the downloader
    printed last. Job ids are passed in; the downloader run and the file
    system check are inputs. */
module Jobs {
  import opened Text

  /** A stored job; it is never changed after creation. */
  datatype Job = Job(jobId: string, urls: seq<string>)

  /** What `create_job` returns; `ok` is always true. */
  datatype CreateResponse = CreateResponse(jobId: string, count: nat)

  /** What `get_job_status` returns (`found` is its `exists` entry); `ok` is
      always true. */
  datatype StatusResponse = StatusResponse(jobId: string, found: bool)

  /** What running the downloader on the job's first URL gave: the program
      is missing, it exited non-zero (with its standard error), or it
      completed (with its standard output). */
  datatype Download =
    | DownloaderMissing
    | DownloaderFailed(stderr: string)
    | DownloaderDone(stdout: string)

  /** What `process_job` returns; `ok` holds only for `Downloaded`. */
  datatype ProcessResponse =
    | JobNotFound(jobId: string)                 // "job not found"
    | NoUrlsInJob(jobId: string)                 // "no urls in job"
    | DownloaderNotFound(jobId: string)          // "yt-dlp not found. ..."
    | DownloadFailed(jobId: string, stderrTail: string)  // "yt-dlp failed"
    | Downloaded(jobId: string, url: string, mp3Path: string, mp3Exists: bool)
  {
    predicate Ok() {
      Downloaded?
    }
  }

  /** At most this many trailing characters of the downloader's standard
      error are reported. */
  const StderrTailLength: nat := 800

  /** The URL filter of `create_job`: every URL that is not blank, stripped,
      in the order given. */
  function KeepNonBlank(urls: seq<string>): (kept: seq<string>)
    ensures |kept| <= |urls|
  {
    if urls == [] then []
    else (if Strip(urls[0]) != [] then [Strip(urls[0])] else []) + KeepNonBlank(urls[1..])
  }

  /** The filter works URL by URL: filtering a concatenation concatenates
      the filtered parts, so the kept URLs stay in their original order. */
  lemma {:induction false} KeepNonBlankAppend(a: seq<string>, b: seq<string>)
    ensures KeepNonBlank(a + b) == KeepNonBlank(a) + KeepNonBlank(b)
  {
    if a == [] {
      assert a + b == b;
    } else {
      assert (a + b)[0] == a[0] && (a + b)[1..] == a[1..] + b;
      KeepNonBlankAppend(a[1..], b);
    }
  }

  /** A URL is kept exactly when it is the stripped form of some input URL
      and is not empty; every kept URL is already stripped. */
  lemma {:induction false} KeepNonBlankMembers(urls: seq<string>, x: string)
    ensures x in KeepNonBlank(urls) <==> x != [] && exists u :: u in urls && Strip(u) == x
    ensures x in KeepNonBlank(urls) ==> Strip(x) == x
  {
    if urls != [] {
      KeepNonBlankMembers(urls[1..], x);
      StripIdempotent(urls[0]);
      if x != [] && Strip(urls[0]) != x {
        if exists u :: u in urls && Strip(u) == x {
          var u :| u in urls && Strip(u) == x;
          assert u in urls[1..];
        }
      }
    }
  }

  /** The path `process_job` reports: the last line of the downloader's
      stripped output, or the empty string when the output is blank. */
  function Mp3Path(stdout: string): string {
    var t := Strip(stdout);
    if t == [] then [] else LastLine(t)
  }

  /** The reported path is empty exactly for blank output; otherwise it is
      the final segment of the stripped output after its last line boundary
      (so it holds no line boundary), and it does not end with whitespace. */
  lemma Mp3PathSpec(stdout: string)
    ensures Mp3Path(stdout) == [] <==> AllSpace(stdout)
    ensures Mp3Path(stdout) != [] ==> IsFinalSegment(Strip(stdout), Mp3Path(stdout))
    ensures Mp3Path(stdout) != [] ==> !IsSpace(Mp3Path(stdout)[|Mp3Path(stdout)| - 1])
  {
    StripSpec(stdout);
    var t := Strip(stdout);
    if t != [] {
      LineBreakIsSpace(t[|t| - 1]);
      LastLineIsFinalSegment(t);
      var p := LastLine(t);
      assert p[|p| - 1] == t[|t| - 1];
    }
  }

  class JobStore {
    var jobs: map<string, Job>

    constructor ()
      ensures jobs == map[]
    {
      jobs := map[];
    }

    /** `create_job`: the job holding the non-blank URLs, stripped and in
        order, is stored under `newId` (replacing any job stored there), and
        the answer reports that id and how many URLs were kept. */
    method CreateJob(urls: seq<string>, newId: string) returns (r: CreateResponse)
      modifies this
      ensures jobs == old(jobs)[newId := Job(newId, KeepNonBlank(urls))]
      ensures r == CreateResponse(newId, |KeepNonBlank(urls)|)
      ensures GetJobStatus(newId).found
    {
      var kept := KeepNonBlank(urls);
      jobs := jobs[newId := Job(newId, kept)];
      r := CreateResponse(newId, |kept|);
    }

    /** `get_job_status`: whether a job is stored under the id. */
    function GetJobStatus(id: string): (r: StatusResponse)
      reads this
      ensures r.jobId == id
      ensures r.found <==> id in jobs
    {
      StatusResponse(id, id in jobs)
    }

    /** `process_job`: an unknown id and a job without URLs are refused
        before anything runs; otherwise only the job's first URL is handed to
        the downloader, whose failures are reported as values, and a
        completed download reports the path `Mp3Path` picks from its output.
        `pathExists` is what the file system answers for that path. */
    function ProcessJob(id: string, download: Download, pathExists: string -> bool): (r: ProcessResponse)
      reads this
      ensures r.jobId == id
      ensures r.JobNotFound? <==> id !in jobs
      ensures r.NoUrlsInJob? <==> id in jobs && jobs[id].urls == []
      ensures r.Ok() <==> id in jobs && jobs[id].urls != [] && download.DownloaderDone?
      ensures id in jobs && jobs[id].urls != [] ==>
                match download
                case DownloaderMissing => r.DownloaderNotFound?
                case DownloaderFailed(stderr) =>
                  r.DownloadFailed? && r.stderrTail == Tail(stderr, StderrTailLength)
                case DownloaderDone(stdout) =>
                  r.Downloaded? && r.url == jobs[id].urls[0] && r.mp3Path == Mp3Path(stdout)
                  && (r.mp3Exists <==> r.mp3Path != [] && pathExists(r.mp3Path))
    {
      if id !in jobs then JobNotFound(id)
      else if jobs[id].urls == [] then NoUrlsInJob(id)
      else
        var url := jobs[id].urls[0];
        match download
        case DownloaderMissing => DownloaderNotFound(id)
        case DownloaderFailed(stderr) => DownloadFailed(id, Tail(stderr, StderrTailLength))
        case DownloaderDone(stdout) =>
          var path := Mp3Path(stdout);
          Downloaded(id, url, path, path != [] && pathExists(path))
    }
  }
}
