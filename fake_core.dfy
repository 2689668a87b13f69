/** The prototype in-memory job store (audioscribe_core_fake.py): jobs are
    created from a list of URLs, processed one URL after the other, and
    summarised. The module-level dictionary is the `jobs` field of a store
    object; each job is an object whose status and progress map are updated
    in place. Job ids and timestamps are passed in. */
module FakeCore {
  import opened Wrappers
  import opened Text

  /** A job's status: "created", "running" or "done". */
  datatype JobState = Created | Running | Done

  /** A URL's progress: "queued", "processing" or "done". */
  datatype UrlState = Queued | Processing | Finished

  /** An element of the argument list, which may not be a string at all. */
  datatype Item = Str(s: string) | NotStr

  /** The argument of `create_job`, which may not be a list at all. */
  datatype UrlsArg = List(items: seq<Item>) | NotList

  /** The two `ValueError`s of `create_job`. */
  datatype CreateError = NotNonEmptyList | BlankOrNonStringUrl

  /** The `KeyError` raised for an unknown job id. */
  datatype KeyError = NoSuchJob(jobId: string)

  /** What `process_job` raises: the `KeyError` of an unknown id, or the
      error `time.sleep` raises for a step delay it refuses (negative, NaN or
      too large). */
  datatype ProcessError = UnknownJob(key: KeyError) | DelayRefused

  /** What `get_job_summary` returns. */
  datatype Summary = Summary(
    jobId: string,
    createdAt: string,
    status: JobState,
    totalUrls: nat,
    doneUrls: nat,
    progress: map<string, UrlState>)

  function Elems(urls: seq<string>): set<string> {
    set u | u in urls
  }

  /** An item `create_job` refuses: not a string, or blank once stripped. */
  predicate Rejected(item: Item) {
    item.NotStr? || Strip(item.s) == []
  }

  /** The progress map with each of `urls` set to done, in order. */
  function MarkDone(p: map<string, UrlState>, urls: seq<string>): map<string, UrlState>
    decreases |urls|
  {
    if urls == [] then p else MarkDone(p, urls[..|urls| - 1])[urls[|urls| - 1] := Finished]
  }

  /** Marking URLs done adds them to the keys, sets each of them to done and
      leaves every other entry as it was. */
  lemma {:induction false} MarkDoneSpec(p: map<string, UrlState>, urls: seq<string>)
    ensures MarkDone(p, urls).Keys == p.Keys + Elems(urls)
    ensures forall u :: u in urls ==> MarkDone(p, urls)[u] == Finished
    ensures forall u :: u in p && u !in urls ==> MarkDone(p, urls)[u] == p[u]
    decreases |urls|
  {
    if urls != [] {
      var init := urls[..|urls| - 1];
      MarkDoneSpec(p, init);
      assert urls == init + [urls[|urls| - 1]];
      assert Elems(urls) == Elems(init) + {urls[|urls| - 1]};
    }
  }

  /** Number of progress entries that are done. */
  function DoneCount(p: map<string, UrlState>): (n: nat)
    ensures n <= |p|
  {
    var done := set u | u in p && p[u] == Finished;
    assert done <= p.Keys;
    CardinalityMonotone(done, p.Keys);
    |done|
  }

  lemma CardinalityMonotone(a: set<string>, b: set<string>)
    requires a <= b
    ensures |a| <= |b|
  {
    assert b == a + (b - a);
  }

  predicate NoDuplicates(urls: seq<string>) {
    forall i, j :: 0 <= i < j < |urls| ==> urls[i] != urls[j]
  }

  /** A sequence without repeats is one whose head does not recur and whose
      tail has no repeats; its elements are the head and the tail's. */
  lemma Uncons(urls: seq<string>)
    requires urls != []
    ensures Elems(urls) == {urls[0]} + Elems(urls[1..])
    ensures NoDuplicates(urls) <==> urls[0] !in urls[1..] && NoDuplicates(urls[1..])
  {
    var rest := urls[1..];
    assert urls == [urls[0]] + rest;
    if urls[0] in rest {
      var j :| 0 <= j < |rest| && rest[j] == urls[0];
      assert urls[0] == urls[j + 1];
    }
    if !NoDuplicates(rest) {
      var i, j :| 0 <= i < j < |rest| && rest[i] == rest[j];
      assert urls[i + 1] == urls[j + 1];
    }
  }

  /** A sequence has at most as many distinct elements as entries, and
      exactly as many when no entry repeats. */
  lemma {:induction false} DistinctCount(urls: seq<string>)
    ensures |Elems(urls)| <= |urls|
    ensures |Elems(urls)| == |urls| <==> NoDuplicates(urls)
  {
    if urls != [] {
      var rest := urls[1..];
      DistinctCount(rest);
      Uncons(urls);
      if urls[0] in rest {
        assert Elems(urls) == Elems(rest);
      } else {
        assert |Elems(urls)| == 1 + |Elems(rest)|;
      }
    }
  }

  /** The cleaning loop of `create_job`: the argument must be a non-empty
      list, and every element a string that is not blank once stripped; the
      cleaned list holds the stripped elements, in order. */
  method CleanUrls(arg: UrlsArg) returns (r: Result<seq<string>, CreateError>)
    ensures r == Failure(NotNonEmptyList) <==> arg.NotList? || arg.items == []
    ensures r == Failure(BlankOrNonStringUrl) <==>
              arg.List? && arg.items != [] && exists i :: 0 <= i < |arg.items| && Rejected(arg.items[i])
    ensures r.Success? ==> arg.List? && |r.value| == |arg.items|
    ensures r.Success? ==> forall i :: 0 <= i < |r.value| ==> r.value[i] == Strip(arg.items[i].s) != []
  {
    if arg.NotList? || arg.items == [] {
      return Failure(NotNonEmptyList);
    }
    var items := arg.items;
    var cleaned: seq<string> := [];
    var i := 0;
    while i < |items|
      invariant 0 <= i <= |items| && |cleaned| == i
      invariant forall k :: 0 <= k < i ==> !Rejected(items[k])
      invariant forall k :: 0 <= k < i ==> cleaned[k] == Strip(items[k].s)
    {
      if Rejected(items[i]) {
        return Failure(BlankOrNonStringUrl);
      }
      var url := Strip(items[i].s);
      cleaned := cleaned + [url];
      i := i + 1;
    }
    return Success(cleaned);
  }

  class Job {
    const jobId: string
    const urls: seq<string>
    const createdAt: string
    var status: JobState
    var progress: map<string, UrlState>

    constructor (jobId: string, urls: seq<string>, createdAt: string, progress: map<string, UrlState>)
      ensures this.jobId == jobId && this.urls == urls && this.createdAt == createdAt
      ensures status == Created && this.progress == progress
    {
      this.jobId := jobId;
      this.urls := urls;
      this.createdAt := createdAt;
      status := Created;
      this.progress := progress;
    }
  }

  /** The process-wide job dictionary. */
  class FakeStore {
    var jobs: map<string, Job>

    /** Every job is stored under its own id, its progress map is keyed by
        exactly its URLs, and no job object is stored under two ids. */
    ghost predicate Valid()
      reads this, jobs.Values
    {
      && (forall id :: id in jobs ==> jobs[id].jobId == id && jobs[id].progress.Keys == Elems(jobs[id].urls))
      && (forall a, b :: a in jobs && b in jobs && a != b ==> jobs[a] != jobs[b])
    }

    constructor ()
      ensures Valid() && jobs == map[]
    {
      jobs := map[];
    }

    /** Changing one job's progress without changing its keys keeps the
        store valid. */
    twostate lemma ProgressUpdateKeepsValid(job: Job)
      requires old(Valid()) && unchanged(this)
      requires job in old(jobs.Values) && job.progress.Keys == old(job.progress.Keys)
      requires forall k :: k in jobs && jobs[k] != job ==> unchanged(jobs[k])
      ensures Valid()
    {
    }

    /** `create_job`: on success a fresh job, created, with every cleaned URL
        queued, is stored under `newId` and nothing else changes; on a
        `ValueError` nothing is stored. */
    method CreateJob(arg: UrlsArg, newId: string, now: string) returns (r: Result<string, CreateError>)
      requires Valid()
      modifies this
      ensures Valid()
      ensures r.Failure? ==> jobs == old(jobs)
      ensures r.Failure? <==> arg.NotList? || arg.items == [] || exists i :: 0 <= i < |arg.items| && Rejected(arg.items[i])
      ensures r == Failure(NotNonEmptyList) <==> arg.NotList? || arg.items == []
      ensures r.Success? ==>
                && r.value == newId && arg.List?
                && jobs.Keys == old(jobs).Keys + {newId}
                && (forall id :: id in old(jobs) && id != newId ==> jobs[id] == old(jobs)[id])
                && fresh(jobs[newId])
                && jobs[newId].createdAt == now && jobs[newId].status == Created
                && |jobs[newId].urls| == |arg.items|
                && (forall i :: 0 <= i < |arg.items| ==> jobs[newId].urls[i] == Strip(arg.items[i].s))
                && (forall u :: u in jobs[newId].progress ==> jobs[newId].progress[u] == Queued)
    {
      var cleaned := CleanUrls(arg);
      if cleaned.Failure? {
        assert cleaned.error == NotNonEmptyList || cleaned.error == BlankOrNonStringUrl;
        return Failure(cleaned.error);
      }
      var urls := cleaned.value;
      var job := new Job(newId, urls, now, map u | u in urls :: Queued);
      jobs := jobs[newId := job];
      return Success(newId);
    }

    /** `process_job`: an unknown id raises `KeyError` and changes nothing;
        otherwise the job is set running and every URL goes through
        processing to done, the job ends done, and no other job changes.
        `sleepAccepts` says whether `time.sleep` accepts `step_delay_seconds`;
        when it does not, the first sleep raises just after the first URL was
        set processing, and the job is left in that partial state. A job
        without URLs never sleeps. */
    method ProcessJob(id: string, sleepAccepts: bool) returns (r: Outcome<ProcessError>)
      requires Valid()
      modifies if id in jobs then {jobs[id]} else {}
      ensures Valid() && jobs == old(jobs)
      ensures id !in jobs ==> r == Fail(UnknownJob(NoSuchJob(id)))
      ensures id in jobs && (sleepAccepts || jobs[id].urls == []) ==>
                && r == Pass && jobs[id].status == Done
                && jobs[id].progress == MarkDone(old(jobs[id].progress), jobs[id].urls)
                && (forall u :: u in jobs[id].urls ==> jobs[id].progress[u] == Finished)
      ensures id in jobs && !sleepAccepts && jobs[id].urls != [] ==>
                && r == Fail(DelayRefused) && jobs[id].status == Running
                && jobs[id].progress == old(jobs[id].progress)[jobs[id].urls[0] := Processing]
      ensures forall k :: k in jobs && k != id ==> unchanged(jobs[k])
    {
      if id !in jobs {
        return Fail(UnknownJob(NoSuchJob(id)));
      }
      var job := jobs[id];
      job.status := Running;
      ghost var p0 := job.progress;
      var i := 0;
      while i < |job.urls|
        invariant 0 <= i <= |job.urls|
        invariant job.progress == MarkDone(p0, job.urls[..i])
        invariant job.status == Running
        invariant !sleepAccepts ==> i == 0
      {
        var url := job.urls[i];
        job.progress := job.progress[url := Processing];
        if !sleepAccepts {
          assert job.urls[..i] == [];
          assert job.progress.Keys == p0.Keys;
          ProgressUpdateKeepsValid(job);
          return Fail(DelayRefused);
        }
        job.progress := job.progress[url := Finished];
        assert job.urls[..i + 1][..i] == job.urls[..i];
        i := i + 1;
      }
      job.status := Done;
      assert job.urls[..i] == job.urls;
      MarkDoneSpec(p0, job.urls);
      assert job.progress.Keys == p0.Keys;
      ProgressUpdateKeepsValid(job);
      r := Pass;
    }

    /** `get_job_summary`: an unknown id raises `KeyError`; otherwise the
        total is the number of URLs, the done count is the number of progress
        entries that are done, and in a valid store it never exceeds the
        total (it is smaller when a URL is repeated, since progress is keyed
        by URL). */
    function GetJobSummary(id: string): (r: Result<Summary, KeyError>)
      reads this, jobs.Values
      ensures id !in jobs <==> r == Failure(NoSuchJob(id))
      ensures r.Success? ==>
                && r.value.jobId == jobs[id].jobId && r.value.createdAt == jobs[id].createdAt
                && r.value.status == jobs[id].status && r.value.progress == jobs[id].progress
                && r.value.totalUrls == |jobs[id].urls|
                && r.value.doneUrls == |set u | u in jobs[id].progress && jobs[id].progress[u] == Finished|
                && r.value.doneUrls <= |jobs[id].progress|
      ensures r.Success? && Valid() ==> r.value.doneUrls <= r.value.totalUrls
    {
      if id !in jobs then Failure(NoSuchJob(id))
      else
        var job := jobs[id];
        var s := Summary(job.jobId, job.createdAt, job.status, |job.urls|, DoneCount(job.progress), job.progress);
        assert Valid() ==> s.doneUrls <= s.totalUrls by {
          if Valid() { DistinctCount(job.urls); }
        }
        Success(s)
    }
  }

  /** Once a job of a valid store has been processed, every distinct URL is
      counted done: the summary reports all URLs done exactly when none of
      them repeats. */
  lemma {:induction false} DoneAfterProcessing(p: map<string, UrlState>, urls: seq<string>)
    requires p.Keys == Elems(urls)
    ensures DoneCount(MarkDone(p, urls)) == |Elems(urls)|
    ensures DoneCount(MarkDone(p, urls)) == |urls| <==> NoDuplicates(urls)
  {
    MarkDoneSpec(p, urls);
    DistinctCount(urls);
    var m := MarkDone(p, urls);
    assert (set u | u in m && m[u] == Finished) == m.Keys;
    assert DoneCount(m) == |m.Keys|;
    assert m.Keys == Elems(urls);
  }
}
