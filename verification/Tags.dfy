/**
 Which tagged jobs are in progress, and which ended how (src/downloader/jobs/reporters.py).
 The functions give the meaning of each report; the classes do what the source does.
 */
module Tags {
  import opened Scheduler

  datatype Tracker = Tracker(inProgress: map<string, set<Job>>, initiated: set<Job>, ended: set<Job>)
  datatype Report = Report(tracker: Tracker, completed: map<string, seq<Job>>, failed: map<string, seq<Job>>)

  const NoReport := Report(Tracker(map[], {}, {}), map[], map[])

  function Members(tr: Tracker, tag: string): set<Job> {
    if tag in tr.inProgress then tr.inProgress[tag] else {}
  }

  function Listed(m: map<string, seq<Job>>, tag: string): seq<Job> {
    if tag in m then m[tag] else []
  }

  /* ---- JobTagTracking ---- */

  function Enter(tr: Tracker, job: Job): Tracker {
    var tr' := tr.(initiated := tr.initiated + {job});
    if job in tr.ended then tr'
    else tr'.(inProgress := map t | t in tr.inProgress.Keys + job.tags ::
                              if t in job.tags then Members(tr, t) + {job} else Members(tr, t))
  }

  function Leave(tr: Tracker, job: Job): Tracker {
    var tr' := tr.(ended := tr.ended + {job});
    if job !in tr.initiated then tr'
    else tr'.(inProgress := map t | t in tr.inProgress.Keys + job.tags ::
                              if t in job.tags then Members(tr, t) - {job} else Members(tr, t))
  }

  function Reset(tr: Tracker, job: Job): Tracker {
    tr.(initiated := tr.initiated - {job}, ended := tr.ended - {job})
  }

  function Announce(tr: Tracker, job: Job, next: seq<Job>): Tracker
    decreases |next|
  {
    if next == [] then tr
    else Announce(if next[0] == job then tr else Enter(Reset(tr, next[0]), next[0]), job, next[1..])
  }

  function LeaveAll(tr: Tracker, jobs: seq<Job>): Tracker
    decreases |jobs|
  {
    if jobs == [] then tr else LeaveAll(Leave(tr, jobs[0]), jobs[1..])
  }

  function Track(tr: Tracker, r: Record): Tracker {
    match r
    case JobStarted(job) => Enter(tr, job)
    case JobCompleted(job, next) => (
      var tr' := Announce(tr, job, next);
      if job in next then tr' else Leave(tr', job))
    case JobFailed(job) => Leave(tr, job)
    case JobRetried(job, retry) =>
      if job == retry then tr else Leave(Enter(Reset(tr, retry), retry), job)
    case JobsCancelled(jobs) => LeaveAll(tr, jobs)
  }

  /* ---- InstallationReportImpl ---- */

  function ListUnder(m: map<string, seq<Job>>, job: Job): map<string, seq<Job>> {
    map t | t in m.Keys + job.tags :: if t in job.tags then Listed(m, t) + [job] else Listed(m, t)
  }

  function Reported(rep: Report, r: Record): Report {
    Report(Track(rep.tracker, r),
           if r.JobCompleted? then ListUnder(rep.completed, r.job) else rep.completed,
           if r.JobFailed? then ListUnder(rep.failed, r.job) else rep.failed)
  }

  /** The report after all calls to the reporter so far. */
  function ReportOf(records: seq<Record>): Report {
    if records == [] then NoReport else Reported(ReportOf(records[..|records| - 1]), records[|records| - 1])
  }

  /* ---- What the sets mean ---- */

  /** A job is in progress under a tag exactly when it carries it, was initiated and has not ended. */
  ghost predicate Exact(tr: Tracker) {
    forall t, j :: j in Members(tr, t) <==> t in j.tags && j in tr.initiated && j !in tr.ended
  }

  function InitiatedAfter(init: set<Job>, r: Record): set<Job> {
    match r
    case JobStarted(job) => init + {job}
    case JobCompleted(job, next) => init + (set j | j in next && j != job)
    case JobRetried(job, retry) => if job == retry then init else init + {retry}
    case _ => init
  }

  function EndedAfter(ended: set<Job>, r: Record): set<Job> {
    match r
    case JobStarted(_) => ended
    case JobCompleted(job, next) => ended - (set j | j in next && j != job) + if job in next then {} else {job}
    case JobFailed(job) => ended + {job}
    case JobRetried(job, retry) => if job == retry then ended else ended - {retry} + {job}
    case JobsCancelled(jobs) => ended + (set j | j in jobs)
  }

  lemma EnterMembers(tr: Tracker, job: Job, t: string)
    ensures Members(Enter(tr, job), t) == Members(tr, t) + if t in job.tags && job !in tr.ended then {job} else {}
  {
  }

  lemma LeaveMembers(tr: Tracker, job: Job, t: string)
    ensures Members(Leave(tr, job), t) == Members(tr, t) - if t in job.tags && job in tr.initiated then {job} else {}
  {
  }

  lemma EnterExact(tr: Tracker, job: Job)
    requires Exact(tr)
    ensures Exact(Enter(tr, job))
  {
    forall t { EnterMembers(tr, job, t); }
  }

  lemma LeaveExact(tr: Tracker, job: Job)
    requires Exact(tr)
    ensures Exact(Leave(tr, job))
  {
    forall t { LeaveMembers(tr, job, t); }
  }

  lemma RenewExact(tr: Tracker, job: Job)
    requires Exact(tr)
    ensures Exact(Enter(Reset(tr, job), job))
  {
    forall t
      ensures Members(Reset(tr, job), t) == Members(tr, t)
    {
    }
    forall t { EnterMembers(Reset(tr, job), job, t); }
  }

  lemma {:induction false} AnnounceExact(tr: Tracker, job: Job, next: seq<Job>)
    requires Exact(tr)
    ensures var tr' := Announce(tr, job, next);
            && Exact(tr')
            && tr'.initiated == tr.initiated + (set j | j in next && j != job)
            && tr'.ended == tr.ended - (set j | j in next && j != job)
    decreases |next|
  {
    if next != [] {
      var u := if next[0] == job then tr else Enter(Reset(tr, next[0]), next[0]);
      RenewExact(tr, next[0]);
      AnnounceExact(u, job, next[1..]);
      assert (set j | j in next && j != job)
          == (set j | j in next[1..] && j != job) + (if next[0] == job then {} else {next[0]});
    }
  }

  lemma {:induction false} LeaveAllExact(tr: Tracker, jobs: seq<Job>)
    requires Exact(tr)
    ensures var tr' := LeaveAll(tr, jobs);
            Exact(tr') && tr'.initiated == tr.initiated && tr'.ended == tr.ended + (set j | j in jobs)
    decreases |jobs|
  {
    if jobs != [] {
      LeaveExact(tr, jobs[0]);
      LeaveAllExact(Leave(tr, jobs[0]), jobs[1..]);
      assert (set j | j in jobs) == {jobs[0]} + (set j | j in jobs[1..]);
    }
  }

  lemma TrackExact(tr: Tracker, r: Record)
    requires Exact(tr)
    ensures var tr' := Track(tr, r);
            && Exact(tr')
            && tr'.initiated == InitiatedAfter(tr.initiated, r)
            && tr'.ended == EndedAfter(tr.ended, r)
  {
    match r
    case JobStarted(job) => EnterExact(tr, job);
    case JobCompleted(job, next) =>
      AnnounceExact(tr, job, next);
      LeaveExact(Announce(tr, job, next), job);
    case JobFailed(job) => LeaveExact(tr, job);
    case JobRetried(job, retry) =>
      RenewExact(tr, retry);
      LeaveExact(Enter(Reset(tr, retry), retry), job);
    case JobsCancelled(jobs) => LeaveAllExact(tr, jobs);
  }

  /** Over any sequence of reports, in any order and with any repetition. */
  lemma {:induction false} InProgressIsExact(records: seq<Record>)
    ensures Exact(ReportOf(records).tracker)
  {
    if records != [] {
      InProgressIsExact(records[..|records| - 1]);
      TrackExact(ReportOf(records[..|records| - 1]).tracker, records[|records| - 1]);
    }
  }

  lemma ReportPush(records: seq<Record>, r: Record)
    ensures ReportOf(records + [r]) == Reported(ReportOf(records), r)
  {
  }
}
