/**
 The report that the main thread writes and the waiting workers read
 (src/downloader/jobs/reporters.py): dictionaries and sets that change in place, each method
 tied to what it means in module Tags.
 */
module Reporters {
  import opened Prelude
  import opened Scheduler
  import opened Tags

  class JobTagTracking {
    var inProgress: map<string, set<Job>>
    var initiated: set<Job>
    var ended: set<Job>

    constructor ()
      ensures View() == NoReport.tracker
    {
      inProgress, initiated, ended := map[], {}, {};
    }

    ghost function View(): Tracker
      reads this
    {
      Tracker(inProgress, initiated, ended)
    }

    method AddJobInProgress(job: Job)
      modifies this
      ensures View() == Enter(old(View()), job)
    {
      initiated := initiated + {job};
      if job in ended {
        return;
      }
      ghost var was := old(View());
      var rest := job.tags;
      while rest != {}
        invariant rest <= job.tags && initiated == was.initiated + {job} && ended == was.ended
        invariant inProgress.Keys == was.inProgress.Keys + (job.tags - rest)
        invariant forall t :: t in inProgress ==>
                    inProgress[t] == if t in job.tags - rest then Members(was, t) + {job} else Members(was, t)
        decreases rest
      {
        var t :| t in rest;
        inProgress := inProgress[t := (if t in inProgress then inProgress[t] else {}) + {job}];
        rest := rest - {t};
      }
      assert inProgress == Enter(was, job).inProgress;
    }

    method RemoveJobInProgress(job: Job)
      modifies this
      ensures View() == Leave(old(View()), job)
    {
      ended := ended + {job};
      if job !in initiated {
        return;
      }
      ghost var was := old(View());
      var rest := job.tags;
      while rest != {}
        invariant rest <= job.tags && initiated == was.initiated && ended == was.ended + {job}
        invariant inProgress.Keys == was.inProgress.Keys + (job.tags - rest)
        invariant forall t :: t in inProgress ==>
                    inProgress[t] == if t in job.tags - rest then Members(was, t) - {job} else Members(was, t)
        decreases rest
      {
        var t :| t in rest;
        inProgress := inProgress[t := (if t in inProgress then inProgress[t] else {}) - {job}];
        rest := rest - {t};
      }
      assert inProgress == Leave(was, job).inProgress;
    }

    method ResetLifecycle(job: Job)
      modifies this
      ensures View() == Reset(old(View()), job)
    {
      initiated := initiated - {job};
      ended := ended - {job};
    }

    method AddJobCompleted(job: Job, next: seq<Job>)
      modifies this
      ensures View() == Track(old(View()), JobCompleted(job, next))
    {
      var autoSpawn := false;
      for i := 0 to |next|
        invariant Announce(View(), job, next[i..]) == Announce(old(View()), job, next)
        invariant autoSpawn <==> job in next[..i]
      {
        assert next[i..] == [next[i]] + next[i + 1..];
        if next[i] == job {
          autoSpawn := true;
        } else {
          ResetLifecycle(next[i]);
          AddJobInProgress(next[i]);
        }
      }
      assert next[..|next|] == next;
      if !autoSpawn {
        RemoveJobInProgress(job);
      }
    }

    method AddJobRetried(job: Job, retry: Job)
      modifies this
      ensures View() == Track(old(View()), JobRetried(job, retry))
    {
      if job != retry {
        ResetLifecycle(retry);
        AddJobInProgress(retry);
        RemoveJobInProgress(job);
      }
    }

    method AddJobsCancelled(jobs: seq<Job>)
      modifies this
      ensures View() == Track(old(View()), JobsCancelled(jobs))
    {
      for i := 0 to |jobs|
        invariant LeaveAll(View(), jobs[i..]) == LeaveAll(old(View()), jobs)
      {
        assert jobs[i..] == [jobs[i]] + jobs[i + 1..];
        RemoveJobInProgress(jobs[i]);
      }
    }
  }

  /** Appends the job to the list of each of its tags. */
  method AppendUnderTags(lists: map<string, seq<Job>>, job: Job) returns (r: map<string, seq<Job>>)
    ensures r == ListUnder(lists, job)
  {
    r := lists;
    var rest := job.tags;
    while rest != {}
      invariant rest <= job.tags && r.Keys == lists.Keys + (job.tags - rest)
      invariant forall t :: t in r ==> r[t] == if t in job.tags - rest then Listed(lists, t) + [job] else Listed(lists, t)
      decreases rest
    {
      var t :| t in rest;
      r := r[t := (if t in r then r[t] else []) + [job]];
      rest := rest - {t};
    }
  }

  function NotIn(known: set<string>): string -> bool { (p: string) => p !in known }

  class InstallationReport {
    const tracking: JobTagTracking
    var completed: map<string, seq<Job>>
    var failed: map<string, seq<Job>>
    var processedFiles: set<string>
    ghost var handed: seq<seq<string>>

    constructor ()
      ensures View() == NoReport && fresh(tracking) && handed == [] && processedFiles == {}
    {
      tracking := new JobTagTracking();
      completed, failed, processedFiles, handed := map[], map[], {}, [];
    }

    ghost function View(): Report
      reads this, tracking
    {
      Report(tracking.View(), completed, failed)
    }

    /** Each call to the reporter turns the report into what module Tags says it means. */
    method Notify(r: Record)
      modifies this`completed, this`failed, tracking
      ensures View() == Reported(old(View()), r)
    {
      match r
      case JobStarted(job) =>
        tracking.AddJobInProgress(job);
      case JobCompleted(job, next) =>
        tracking.AddJobCompleted(job, next);
        completed := AppendUnderTags(completed, job);
      case JobFailed(job) =>
        tracking.RemoveJobInProgress(job);
        failed := AppendUnderTags(failed, job);
      case JobRetried(job, retry) =>
        tracking.AddJobRetried(job, retry);
      case JobsCancelled(jobs) =>
        tracking.AddJobsCancelled(jobs);
    }

    /** True exactly when some job under one of the tags is initiated and not ended. */
    method AnyInProgressJobWithTags(tags: seq<string>) returns (any: bool)
      requires Exact(tracking.View())
      ensures any <==> exists t, j: Job :: t in tags && t in j.tags && j in tracking.initiated && j !in tracking.ended
    {
      for i := 0 to |tags|
        invariant forall t :: t in tags[..i] ==> Members(tracking.View(), t) == {}
      {
        if tags[i] in tracking.inProgress && tracking.inProgress[tags[i]] != {} {
          var busy := tracking.inProgress[tags[i]];
          ghost var j: Job :| j in busy;
          assert j in Members(tracking.View(), tags[i]);
          assert tags[i] in tags && tags[i] in j.tags;
          return true;
        }
      }
      any := false;
      forall t, j: Job | t in tags && t in j.tags
        ensures !(j in tracking.initiated && j !in tracking.ended)
      {
        assert t in tags[..|tags|];
        assert j !in Members(tracking.View(), t);
      }
    }

    /** What was handed out so far, without repetition between calls. */
    ghost predicate HandedOnce()
      reads this
    {
      && (forall b, p :: 0 <= b < |handed| && p in handed[b] ==> p in processedFiles)
      && (forall a, b, p :: 0 <= a < b < |handed| && p in handed[a] ==> p !in handed[b])
    }

    /**
     Hands a path to the first caller that asks for it, over all databases of the run: the new ones
     in the order given and as often, the known ones once each in no order.
     */
    method AddProcessedFiles(files: seq<string>) returns (nonDuplicates: seq<string>, duplicates: set<string>)
      requires HandedOnce()
      modifies this`processedFiles, this`handed
      ensures HandedOnce() && handed == old(handed) + [nonDuplicates]
      ensures processedFiles == old(processedFiles) + set p | p in files
      ensures nonDuplicates == Keep(files, NotIn(old(processedFiles)))
      ensures duplicates == (set p | p in files) * old(processedFiles)
    {
      if |files| == 0 {
        handed := handed + [[]];
        return [], {};
      }
      var filesSet := set p | p in files;
      duplicates := filesSet * processedFiles;
      processedFiles := processedFiles + filesSet;
      nonDuplicates := NotAmong(files, duplicates);
      SameKept(files, duplicates, old(processedFiles));
      KeepIn(files, NotIn(old(processedFiles)));
      handed := handed + [nonDuplicates];
    }

    static method NotAmong(files: seq<string>, duplicates: set<string>) returns (others: seq<string>)
      ensures others == Keep(files, NotIn(duplicates))
    {
      others := [];
      for i := 0 to |files|
        invariant others == Keep(files[..i], NotIn(duplicates))
      {
        assert files[..i + 1] == files[..i] + [files[i]];
        KeepPush(files[..i], files[i], NotIn(duplicates));
        if files[i] !in duplicates {
          others := others + [files[i]];
        }
      }
      assert files[..|files|] == files;
    }
  }

  lemma {:induction false} SameKept(files: seq<string>, duplicates: set<string>, known: set<string>)
    requires forall p :: p in files ==> (p in duplicates <==> p in known)
    ensures Keep(files, NotIn(duplicates)) == Keep(files, NotIn(known))
  {
    if files != [] {
      assert files[0] in files;
      SameKept(files[1..], duplicates, known);
    }
  }
}
