/** The job manager: one worker at a time, a bounded history, and an orderly shutdown. */
module Jobs {
  import opened Prelude
  import Presentation

  type BundlePresentation = Presentation.BundlePresentation

  datatype JobStatus = Queued | Running | Completed | Failed

  datatype JobError = StartFailed | InternalError

  datatype JobRecord = JobRecord(
    id: string,
    status: JobStatus,
    createdAt: string,
    startedAt: Option<string>,
    finishedAt: Option<string>,
    result: Option<BundlePresentation>,
    error: Option<JobError>)

  /* ---- The job dictionary: insertion order, one record per id ---- */

  type Jobs = seq<JobRecord>

  predicate Unique(jobs: Jobs) {
    forall i, j | 0 <= i < j < |jobs| :: jobs[i].id != jobs[j].id
  }

  /** Assignment to a key: a known id keeps its place, a new one goes last. */
  function Put(jobs: Jobs, r: JobRecord): Jobs {
    if jobs == [] then [r]
    else if jobs[0].id == r.id then [r] + jobs[1..]
    else [jobs[0]] + Put(jobs[1..], r)
  }

  /** `pop(key, None)`. */
  function Drop(jobs: Jobs, id: string): Jobs {
    if jobs == [] then []
    else if jobs[0].id == id then jobs[1..]
    else [jobs[0]] + Drop(jobs[1..], id)
  }

  function Find(jobs: Jobs, id: string): (r: Option<JobRecord>)
    ensures r.Some? ==> r.value in jobs && r.value.id == id
    ensures r.None? <==> forall x | x in jobs :: x.id != id
  {
    if jobs == [] then None else if jobs[0].id == id then Some(jobs[0]) else Find(jobs[1..], id)
  }

  function Ids(jobs: Jobs): seq<string> {
    seq(|jobs|, i requires 0 <= i < |jobs| => jobs[i].id)
  }

  predicate IsFinished(r: JobRecord) {
    r.status == Completed || r.status == Failed
  }

  /** The comprehension at the head of `_trim_finished_locked`. */
  function FinishedIds(jobs: Jobs, active: Option<string>): seq<string> {
    if jobs == [] then []
    else (if IsFinished(jobs[0]) && active != Some(jobs[0].id) then [jobs[0].id] else []) + FinishedIds(jobs[1..], active)
  }

  const MAX_FINISHED := 10

  /** Dropping from the front of a list of ids until ten are left. */
  function DropOldest(jobs: Jobs, ids: seq<string>): Jobs
    decreases |ids|
  {
    if |ids| <= MAX_FINISHED then jobs else DropOldest(Drop(jobs, ids[0]), ids[1..])
  }

  function Trim(jobs: Jobs, active: Option<string>): Jobs {
    DropOldest(jobs, FinishedIds(jobs, active))
  }

  /* ---- The manager ---- */

  /** A thread is known by its number, because a job id can be drawn again. */
  datatype State = State(jobs: Jobs, active: Option<string>, worker: Option<nat>, shuttingDown: bool)

  const INITIAL := State([], None, None, false)

  function Opened(id: string, now: string): JobRecord {
    JobRecord(id, Running, now, Some(now), None, None, None)
  }

  datatype StartError = ShuttingDown | AlreadyRunning | ThreadFailed

  /** What a start request does, and what it answers. */
  function StartIn(s: State, id: string, now: string, thread: nat, starts: bool): (State, Result<string, StartError>) {
    if s.shuttingDown then (s, Err(ShuttingDown))
    else if s.active.Some? then (s, Err(AlreadyRunning))
    else if !starts then (s.(jobs := Drop(Put(s.jobs, Opened(id, now)), id), active := None, worker := None), Err(ThreadFailed))
    else (s.(jobs := Put(s.jobs, Opened(id, now)), active := Some(id), worker := Some(thread)), Ok(id))
  }

  datatype Ending = Success(result: BundlePresentation) | Failure(error: JobError)

  function Ended(r: JobRecord, now: string, ending: Ending): JobRecord {
    match ending
    case Success(p) => r.(status := Completed, finishedAt := Some(now), result := Some(p), error := None)
    case Failure(e) => r.(status := Failed, finishedAt := Some(now), result := None, error := Some(e))
  }

  /** What the end of a worker does; nothing is the answer to a job that is not in the dictionary. */
  function FinishIn(s: State, id: string, now: string, ending: Ending): Option<State> {
    match Find(s.jobs, id)
    case None => None
    case Some(r) => Some(s.(jobs := Trim(Put(s.jobs, Ended(r, now, ending)), None), active := None, worker := None))
  }

  /** The record after its job's end: its id and first two times stay, and it holds what the ending brought. */
  predicate EndedAs(was: JobRecord, end: JobRecord, now: string, ending: Ending) {
    && end.id == was.id && end.createdAt == was.createdAt && end.startedAt == was.startedAt && end.finishedAt == Some(now)
    && match ending
       case Success(p) => end.status == Completed && end.result == Some(p) && end.error == None
       case Failure(e) => end.status == Failed && end.result == None && end.error == Some(e)
  }

  /** Apart from one id the two dictionaries hold the same records. */
  ghost predicate SameOthers(a: Jobs, b: Jobs, id: string) {
    forall x: JobRecord | x.id != id :: x in a <==> x in b
  }

  /** Each method is one critical section of the manager's lock. */
  class VerificationJobManager {
    var jobs: Jobs
    var activeJobId: Option<string>
    var worker: Option<nat>
    var shuttingDown: bool

    function Now(): State
      reads this
    {
      State(jobs, activeJobId, worker, shuttingDown)
    }

    constructor ()
      ensures Now() == INITIAL
    {
      jobs, activeJobId, worker, shuttingDown := [], None, None, false;
    }

    /** `start_job`; whether the host starts the thread is not the manager's choice. */
    method StartJob(id: string, now: string, thread: nat, starts: bool) returns (r: Result<string, StartError>)
      modifies this
      ensures (Now(), r) == StartIn(old(Now()), id, now, thread, starts)
      ensures r == Err(ShuttingDown) <==> old(shuttingDown)
      ensures r == Err(AlreadyRunning) <==> !old(shuttingDown) && old(activeJobId).Some?
      ensures r == Err(ThreadFailed) <==> !old(shuttingDown) && old(activeJobId).None? && !starts
      ensures r.Ok? ==> r.value == id && activeJobId == Some(id) && worker == Some(thread) && shuttingDown == old(shuttingDown)
      ensures r == Err(ThreadFailed) ==> activeJobId == None && worker == None && shuttingDown == old(shuttingDown)
      ensures r == Err(ShuttingDown) || r == Err(AlreadyRunning) ==> Now() == old(Now())
      ensures Unique(old(jobs)) && r.Ok? ==>
                Unique(jobs) && JobRecord(id, Running, now, Some(now), None, None, None) in jobs && SameOthers(jobs, old(jobs), id)
      ensures Unique(old(jobs)) && r == Err(ThreadFailed) ==>
                Unique(jobs) && (forall x | x in jobs :: x.id != id) && SameOthers(jobs, old(jobs), id)
    {
      StartedJobs(jobs, id, now);
      if shuttingDown {
        return Err(ShuttingDown);
      }
      if activeJobId.Some? {
        return Err(AlreadyRunning);
      }
      jobs := Put(jobs, Opened(id, now));
      activeJobId := Some(id);
      worker := Some(thread);
      if !starts {
        jobs := Drop(jobs, id);
        activeJobId := None;
        worker := None;
        return Err(ThreadFailed);
      }
      return Ok(id);
    }

    /** `get_job`. */
    method GetJob(id: string) returns (r: Option<JobRecord>)
      ensures r.Some? ==> r.value in jobs && r.value.id == id
      ensures r.None? <==> forall x | x in jobs :: x.id != id
    {
      r := Find(jobs, id);
    }

    /** The locked end of `_run_job`, and `_finish_failed`. */
    method Finish(id: string, now: string, ending: Ending) returns (found: bool)
      modifies this
      ensures found <==> FinishIn(old(Now()), id, now, ending).Some?
      ensures Now() == if found then FinishIn(old(Now()), id, now, ending).value else old(Now())
      ensures found <==> exists x :: x in old(jobs) && x.id == id
      ensures found ==> activeJobId == None && worker == None && shuttingDown == old(shuttingDown)
      ensures !found ==> Now() == old(Now())
      ensures Unique(old(jobs)) && found ==>
                && Unique(jobs)
                && (forall x, y | x in old(jobs) && x.id == id && y in jobs && y.id == id :: EndedAs(x, y, now, ending))
                && (forall x | x in jobs && x.id != id :: x in old(jobs))
                && (forall x | x in old(jobs) && x.id != id && x !in jobs :: IsFinished(x))
    {
      if Find(jobs, id).Some? {
        FinishedJobs(jobs, id, now, ending);
      }
      var record := Find(jobs, id);
      if record.None? {
        return false;
      }
      jobs := Put(jobs, Ended(record.value, now, ending));
      activeJobId := None;
      worker := None;
      TrimFinished();
      return true;
    }

    /** `_trim_finished_locked`. */
    method TrimFinished()
      modifies `jobs
      ensures jobs == Trim(old(jobs), activeJobId)
    {
      var finished := FinishedIds(jobs, activeJobId);
      while |finished| > MAX_FINISHED
        invariant DropOldest(jobs, finished) == Trim(old(jobs), activeJobId)
      {
        var oldest := finished[0];
        finished := finished[1..];
        jobs := Drop(jobs, oldest);
      }
    }

    /** The locked part of `shutdown`: the thread that a waiting caller then joins. */
    method BeginShutdown() returns (joined: Option<nat>)
      modifies `shuttingDown
      ensures Now() == old(Now()).(shuttingDown := true) && joined == worker
    {
      shuttingDown := true;
      joined := worker;
    }
  }

  /* ---- Facts about the dictionary ---- */

  lemma HeadThenRest(head: JobRecord, rest: Jobs)
    requires Unique(rest) && forall x | x in rest :: x.id != head.id
    ensures Unique([head] + rest)
    ensures forall x :: x in [head] + rest <==> x == head || x in rest
  {
  }

  lemma {:induction false} PutMembers(jobs: Jobs, r: JobRecord)
    requires Unique(jobs)
    ensures Unique(Put(jobs, r))
    ensures forall x :: x in Put(jobs, r) <==> x == r || (x in jobs && x.id != r.id)
  {
    if jobs != [] {
      var rest := jobs[1..];
      PutMembers(rest, r);
      assert forall x :: x in jobs <==> x == jobs[0] || x in rest;
      assert forall x | x in rest :: x.id != jobs[0].id;
      if jobs[0].id == r.id {
        assert Put(jobs, r) == [r] + rest;
        HeadThenRest(r, rest);
      } else {
        HeadThenRest(jobs[0], Put(rest, r));
      }
    }
  }

  lemma {:induction false} DropMembers(jobs: Jobs, id: string)
    requires Unique(jobs)
    ensures Unique(Drop(jobs, id))
    ensures forall x :: x in Drop(jobs, id) <==> x in jobs && x.id != id
  {
    if jobs != [] {
      var rest := jobs[1..];
      DropMembers(rest, id);
      assert forall x :: x in jobs <==> x == jobs[0] || x in rest;
      assert forall x | x in rest :: x.id != jobs[0].id;
      if jobs[0].id != id {
        assert Drop(jobs, id) == [jobs[0]] + Drop(rest, id);
      }
    }
  }

  lemma StartedJobs(jobs: Jobs, id: string, now: string)
    ensures Unique(jobs) ==>
              var put := Put(jobs, Opened(id, now));
              && Unique(put) && JobRecord(id, Running, now, Some(now), None, None, None) in put && SameOthers(put, jobs, id)
              && Unique(Drop(put, id)) && (forall x | x in Drop(put, id) :: x.id != id) && SameOthers(Drop(put, id), jobs, id)
  {
    hide Unique, Put, Drop;
    if Unique(jobs) {
      PutMembers(jobs, Opened(id, now));
      DropMembers(Put(jobs, Opened(id, now)), id);
    }
  }

  lemma FinishedJobs(jobs: Jobs, id: string, now: string, ending: Ending)
    requires Find(jobs, id).Some?
    ensures Unique(jobs) ==>
              var end := Trim(Put(jobs, Ended(Find(jobs, id).value, now, ending)), None);
              && Unique(end)
              && (forall x, y | x in jobs && x.id == id && y in end && y.id == id :: EndedAs(x, y, now, ending))
              && (forall x | x in end && x.id != id :: x in jobs)
              && (forall x | x in jobs && x.id != id && x !in end :: IsFinished(x))
  {
    hide Unique, Put, Trim, Find, FinishedIds;
    if Unique(jobs) {
      var r := Ended(Find(jobs, id).value, now, ending);
      PutMembers(jobs, r);
      TrimKeeps(Put(jobs, r));
      forall x | x in jobs && x.id == id ensures x == Find(jobs, id).value {
        FindUnique(jobs, x);
      }
    }
  }

  lemma {:induction false} FindUnique(jobs: Jobs, r: JobRecord)
    requires Unique(jobs) && r in jobs
    ensures Find(jobs, r.id) == Some(r)
  {
    if jobs[0] != r {
      assert r in jobs[1..];
      FindUnique(jobs[1..], r);
    }
  }

  /** Storing a running record never adds to the finished ones. */
  lemma {:induction false} FinishedAfterStart(jobs: Jobs, r: JobRecord)
    requires r.status == Running
    ensures |FinishedIds(Put(jobs, r), Some(r.id))| <= |FinishedIds(jobs, None)|
  {
    if jobs != [] {
      if jobs[0].id == r.id {
        assert Put(jobs, r)[1..] == jobs[1..];
        FinishedExcluding(jobs[1..], r.id);
      } else {
        assert Put(jobs, r)[1..] == Put(jobs[1..], r);
        FinishedAfterStart(jobs[1..], r);
      }
    }
  }

  lemma {:induction false} FinishedExcluding(jobs: Jobs, id: string)
    ensures |FinishedIds(jobs, Some(id))| <= |FinishedIds(jobs, None)|
    ensures (forall x | x in jobs :: x.id != id) ==> FinishedIds(jobs, Some(id)) == FinishedIds(jobs, None)
  {
    if jobs != [] {
      FinishedExcluding(jobs[1..], id);
    }
  }

  lemma {:induction false} FinishedAreIds(jobs: Jobs, id: string)
    ensures id in FinishedIds(jobs, None) ==> exists x :: x in jobs && x.id == id
  {
    if jobs != [] {
      FinishedAreIds(jobs[1..], id);
    }
  }

  /** Dropping the oldest finished record leaves the others in order. */
  lemma {:induction false} FinishedAfterDrop(jobs: Jobs)
    requires Unique(jobs) && FinishedIds(jobs, None) != []
    ensures FinishedIds(Drop(jobs, FinishedIds(jobs, None)[0]), None) == FinishedIds(jobs, None)[1..]
  {
    var id := FinishedIds(jobs, None)[0];
    if IsFinished(jobs[0]) {
      assert FinishedIds(jobs, None) == [jobs[0].id] + FinishedIds(jobs[1..], None);
    } else {
      assert FinishedIds(jobs, None) == FinishedIds(jobs[1..], None);
      FinishedAreIds(jobs[1..], id);
      assert jobs[0].id != id;
      assert Drop(jobs, id)[1..] == Drop(jobs[1..], id);
      FinishedAfterDrop(jobs[1..]);
    }
  }

  /** What trimming keeps: at most ten finished records, each one it had before. */
  lemma {:induction false} TrimKeeps(jobs: Jobs)
    requires Unique(jobs)
    ensures var t := Trim(jobs, None);
            && Unique(t) && |FinishedIds(t, None)| <= 10
            && (forall x | x in t :: x in jobs)
            && (forall x | x in jobs && x !in t :: IsFinished(x))
    decreases |FinishedIds(jobs, None)|
  {
    var ids := FinishedIds(jobs, None);
    if |ids| > MAX_FINISHED {
      FinishedAfterDrop(jobs);
      DropMembers(jobs, ids[0]);
      TrimKeeps(Drop(jobs, ids[0]));
      FirstIsFinished(jobs);
    }
  }

  lemma {:induction false} FirstIsFinished(jobs: Jobs)
    requires Unique(jobs) && FinishedIds(jobs, None) != []
    ensures forall x | x in jobs && x.id == FinishedIds(jobs, None)[0] :: IsFinished(x)
  {
    if IsFinished(jobs[0]) {
      assert forall x | x in jobs[1..] :: x.id != jobs[0].id;
    } else {
      FinishedAreIds(jobs[1..], FinishedIds(jobs, None)[0]);
      FirstIsFinished(jobs[1..]);
    }
  }
}
