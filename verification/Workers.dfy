/** The job manager under threads: every interleaving of requests, workers and shutdowns. */
module Workers {
  import opened Prelude
  import opened Jobs

  /** How far a worker thread has got in `_run_job`. */
  datatype Thread =
    | Executing(id: string)
    | Ran(id: string)
    | Registered(id: string)
    | Presented(id: string, presentation: BundlePresentation)
    | Raised(id: string, error: JobError)
    | Over(id: string)

  /** What a worker can be stopped by: the exceptions it expects, and all others. */
  datatype Exception = BundleRefused | VerificationFailed | PresentationFailed | HostFailed | ValueRefused | Unexpected

  /** Which error the two handlers of `_run_job` record. */
  function ErrorFor(e: Exception): JobError {
    if e == Unexpected then InternalError else StartFailed
  }

  /** A caller of `shutdown`: detached, waiting for the thread it saw (if it saw one), or returned. */
  datatype Caller = Detached | Joining(thread: Option<nat>) | Returned

  /** `finished` lists the ids of ended jobs in order, `used` the ids ever drawn; both are history. */
  datatype World = World(
    state: State,
    threads: seq<Thread>,
    registry: set<string>,
    callers: seq<Caller>,
    lookupFailed: bool,
    finished: seq<string>,
    used: set<string>)

  const START := World(INITIAL, [], {}, [], false, [], {})

  datatype Event =
    | Start(id: string, now: string, starts: bool)
    | RunReturns(thread: nat)
    | Registers(thread: nat)
    | Presents(thread: nat, presentation: BundlePresentation)
    | Raises(thread: nat, exception: Exception)
    | Finishes(thread: nat, now: string)
    | ShutsDown(wait: bool)
    | JoinReturns(caller: nat)

  function EndingOf(t: Thread): Option<Ending> {
    match t
    case Presented(_, p) => Some(Success(p))
    case Raised(_, e) => Some(Failure(e))
    case _ => None
  }

  /** A start request draws an id only when it gets past its two refusals. */
  predicate DrawsId(s: State) {
    !s.shuttingDown && s.active.None?
  }

  /** One atomic step of somebody; an event whose turn it is not changes nothing. */
  function Step(w: World, e: Event): World {
    match e
    case Start(id, now, starts) =>
      var (s, r) := StartIn(w.state, id, now, |w.threads|, starts);
      w.(state := s,
         threads := if r.Ok? then w.threads + [Executing(id)] else w.threads,
         used := if DrawsId(w.state) then w.used + {id} else w.used)
    case RunReturns(t) =>
      if t < |w.threads| && w.threads[t].Executing? then w.(threads := w.threads[t := Ran(w.threads[t].id)]) else w
    case Registers(t) =>
      if t < |w.threads| && w.threads[t].Ran? then
        w.(threads := w.threads[t := Registered(w.threads[t].id)], registry := w.registry + {w.threads[t].id})
      else w
    case Presents(t, p) =>
      if t < |w.threads| && w.threads[t].Registered? then w.(threads := w.threads[t := Presented(w.threads[t].id, p)]) else w
    case Raises(t, exception) =>
      if t < |w.threads| && (w.threads[t].Executing? || w.threads[t].Ran? || w.threads[t].Registered?) then
        w.(threads := w.threads[t := Raised(w.threads[t].id, ErrorFor(exception))])
      else w
    case Finishes(t, now) =>
      if t < |w.threads| && EndingOf(w.threads[t]).Some? then FinishThread(w, t, now, EndingOf(w.threads[t]).value) else w
    case ShutsDown(wait) =>
      w.(state := w.state.(shuttingDown := true), callers := w.callers + [if wait then Joining(w.state.worker) else Detached])
    case JoinReturns(c) =>
      if c < |w.callers| && w.callers[c].Joining? && CanReturn(w, w.callers[c].thread) then
        w.(callers := w.callers[c := Returned])
      else w
  }

  /** `join` returns when the thread is over; there may be no thread to join. */
  predicate CanReturn(w: World, thread: Option<nat>) {
    thread.Some? ==> thread.value < |w.threads| && w.threads[thread.value].Over?
  }

  function FinishThread(w: World, t: nat, now: string, ending: Ending): World
    requires t < |w.threads|
  {
    var id := w.threads[t].id;
    match FinishIn(w.state, id, now, ending)
    case None => w.(threads := w.threads[t := Over(id)], lookupFailed := true)
    case Some(s) => w.(state := s, threads := w.threads[t := Over(id)], finished := w.finished + [id])
  }

  function Run(w: World, events: seq<Event>): World
    decreases |events|
  {
    if events == [] then w else Run(Step(w, events[0]), events[1..])
  }

  /* ---- Safety, with reused ids allowed ---- */

  /** What a record's status says about the rest of it. */
  predicate RecordSound(r: JobRecord, active: Option<string>, registry: set<string>) {
    match r.status
    case Queued => false
    case Running => active == Some(r.id) && r.result.None? && r.error.None? && r.finishedAt.None?
    case Completed => active != Some(r.id) && r.result.Some? && r.error.None? && r.finishedAt.Some? && r.id in registry
    case Failed => active != Some(r.id) && r.result.None? && r.error.Some? && r.finishedAt.Some?
  }

  predicate RecordsSound(jobs: Jobs, active: Option<string>, registry: set<string>) {
    forall r | r in jobs :: RecordSound(r, active, registry)
  }

  /** The active job is in the dictionary, and its thread is the only one not over. */
  predicate ThreadsSound(w: World) {
    && (w.state.active.Some? <==> w.state.worker.Some?)
    && (w.state.worker.Some? ==>
          && w.state.worker.value < |w.threads|
          && !w.threads[w.state.worker.value].Over?
          && w.threads[w.state.worker.value].id == w.state.active.value
          && Find(w.state.jobs, w.state.active.value).Some?)
    && (forall t | 0 <= t < |w.threads| && w.state.worker != Some(t) :: w.threads[t].Over?)
    && (forall t | 0 <= t < |w.threads| && (w.threads[t].Registered? || w.threads[t].Presented?) :: w.threads[t].id in w.registry)
  }

  /** Whoever waits, waits for the last thread there will be. */
  predicate CallersSound(w: World) {
    && (w.callers != [] ==> w.state.shuttingDown)
    && (forall c | 0 <= c < |w.callers| && w.callers[c].Joining? ::
          && (w.callers[c].thread.Some? ==> w.callers[c].thread.value < |w.threads|)
          && (w.state.worker.Some? ==> w.callers[c].thread == w.state.worker))
    && (forall c | 0 <= c < |w.callers| && w.callers[c].Returned? :: w.state.worker.None?)
  }

  predicate Invariant(w: World) {
    && Unique(w.state.jobs)
    && RecordsSound(w.state.jobs, w.state.active, w.registry)
    && |FinishedIds(w.state.jobs, w.state.active)| <= MAX_FINISHED
    && ThreadsSound(w) && CallersSound(w)
    && !w.lookupFailed
  }

  /** A start: the new record is the only running one, and no finished record is added. */
  lemma StartKeepsRecords(jobs: Jobs, registry: set<string>, id: string, now: string)
    requires Unique(jobs) && RecordsSound(jobs, None, registry) && |FinishedIds(jobs, None)| <= MAX_FINISHED
    ensures var put := Put(jobs, Opened(id, now));
            && Unique(put) && RecordsSound(put, Some(id), registry) && Find(put, id).Some?
            && |FinishedIds(put, Some(id))| <= MAX_FINISHED
  {
    hide Unique, FinishedIds, Put, Find;
    PutMembers(jobs, Opened(id, now));
    FinishedAfterStart(jobs, Opened(id, now));
    FindUnique(Put(jobs, Opened(id, now)), Opened(id, now));
  }

  /** A start whose thread the host refuses. */
  lemma RollbackKeepsRecords(jobs: Jobs, registry: set<string>, id: string, now: string)
    requires Unique(jobs) && RecordsSound(jobs, None, registry) && |FinishedIds(jobs, None)| <= MAX_FINISHED
    ensures var undone := Drop(Put(jobs, Opened(id, now)), id);
            && Unique(undone) && RecordsSound(undone, None, registry)
            && |FinishedIds(undone, None)| <= MAX_FINISHED
  {
    hide Unique, FinishedIds, Put, Drop;
    PutMembers(jobs, Opened(id, now));
    DropMembers(Put(jobs, Opened(id, now)), id);
    UndoneFinished(jobs, Opened(id, now));
  }

  lemma {:induction false} UndoneFinished(jobs: Jobs, r: JobRecord)
    requires r.status == Running
    ensures |FinishedIds(Drop(Put(jobs, r), r.id), None)| <= |FinishedIds(jobs, None)|
  {
    if jobs == [] {
      assert Drop(Put(jobs, r), r.id) == [];
    } else if jobs[0].id == r.id {
      assert Drop(Put(jobs, r), r.id) == jobs[1..];
    } else {
      var rest := jobs[1..];
      assert Put(jobs, r)[1..] == Put(rest, r);
      assert Drop(Put(jobs, r), r.id)[1..] == Drop(Put(rest, r), r.id);
      UndoneFinished(rest, r);
    }
  }

  lemma EndedIsSound(jobs: Jobs, registry: set<string>, r: JobRecord)
    requires Unique(jobs) && RecordsSound(jobs, Some(r.id), registry) && RecordSound(r, None, registry)
    ensures Unique(Put(jobs, r)) && RecordsSound(Put(jobs, r), None, registry)
  {
    hide Unique, Put;
    PutMembers(jobs, r);
  }

  lemma TrimmedIsSound(jobs: Jobs, registry: set<string>)
    requires Unique(jobs) && RecordsSound(jobs, None, registry)
    ensures Unique(Trim(jobs, None)) && RecordsSound(Trim(jobs, None), None, registry)
    ensures |FinishedIds(Trim(jobs, None), None)| <= MAX_FINISHED
  {
    hide Unique, Trim, FinishedIds, RecordSound;
    TrimKeeps(jobs);
  }

  /** An end: nothing is running any more, and the history is within its bound again. */
  lemma FinishKeepsRecords(jobs: Jobs, registry: set<string>, id: string, now: string, ending: Ending)
    requires Unique(jobs) && RecordsSound(jobs, Some(id), registry)
    requires Find(jobs, id).Some? && (ending.Success? ==> id in registry)
    ensures var end := Trim(Put(jobs, Ended(Find(jobs, id).value, now, ending)), None);
            Unique(end) && RecordsSound(end, None, registry) && |FinishedIds(end, None)| <= MAX_FINISHED
  {
    hide Unique, FinishedIds, Put, Trim, Find, RecordsSound;
    var r := Ended(Find(jobs, id).value, now, ending);
    EndedIsSound(jobs, registry, r);
    TrimmedIsSound(Put(jobs, r), registry);
  }

  lemma StartKeepsInvariant(w: World, id: string, now: string, starts: bool)
    requires Invariant(w)
    ensures Invariant(Step(w, Start(id, now, starts)))
  {
    hide Unique, RecordsSound, FinishedIds, Put, Drop, Trim, Find;
    if w.state.active.None? {
      StartKeepsRecords(w.state.jobs, w.registry, id, now);
      RollbackKeepsRecords(w.state.jobs, w.registry, id, now);
    }
  }

  lemma FinishKeepsInvariant(w: World, t: nat, now: string)
    requires Invariant(w)
    ensures Invariant(Step(w, Finishes(t, now)))
  {
    hide Unique, RecordsSound, FinishedIds, Put, Drop, Trim, Find;
    if t < |w.threads| && EndingOf(w.threads[t]).Some? {
      FinishKeepsRecords(w.state.jobs, w.registry, w.threads[t].id, now, EndingOf(w.threads[t]).value);
    }
  }

  lemma ShutdownKeepsInvariant(w: World, wait: bool)
    requires Invariant(w)
    ensures Invariant(Step(w, ShutsDown(wait)))
  {
    hide Unique, RecordsSound, FinishedIds, Put, Drop, Trim, Find;
  }

  lemma ReturnKeepsInvariant(w: World, c: nat)
    requires Invariant(w)
    ensures Invariant(Step(w, JoinReturns(c)))
  {
    hide Unique, RecordsSound, FinishedIds, Put, Drop, Trim, Find;
  }

  /** What a worker does between its start and its end. */
  lemma WorkerKeepsInvariant(w: World, e: Event)
    requires Invariant(w) && (e.RunReturns? || e.Registers? || e.Presents? || e.Raises?)
    ensures Invariant(Step(w, e))
  {
    hide Unique, RecordsSound, FinishedIds, Put, Drop, Trim, Find, StartIn, FinishThread;
    if e.Registers? {
      RegistryGrows(w.state.jobs, w.state.active, w.registry, Step(w, e).registry);
    }
  }

  lemma StepKeepsInvariant(w: World, e: Event)
    requires Invariant(w)
    ensures Invariant(Step(w, e))
  {
    hide Invariant, Step;
    match e
    case Start(id, now, starts) => StartKeepsInvariant(w, id, now, starts);
    case Finishes(t, now) => FinishKeepsInvariant(w, t, now);
    case ShutsDown(wait) => ShutdownKeepsInvariant(w, wait);
    case JoinReturns(c) => ReturnKeepsInvariant(w, c);
    case _ => WorkerKeepsInvariant(w, e);
  }

  lemma RegistryGrows(jobs: Jobs, active: Option<string>, before: set<string>, after: set<string>)
    requires RecordsSound(jobs, active, before) && before <= after
    ensures RecordsSound(jobs, active, after)
  {
  }

  lemma {:induction false} RunKeepsInvariant(w: World, events: seq<Event>)
    requires Invariant(w)
    ensures Invariant(Run(w, events))
    decreases |events|
  {
    hide Invariant, Step;
    if events != [] {
      StepKeepsInvariant(w, events[0]);
      RunKeepsInvariant(Step(w, events[0]), events[1..]);
    }
  }

  /* ---- What the invariant means ---- */

  lemma {:induction false} HistoryBound(jobs: Jobs, active: Option<string>, registry: set<string>)
    requires Unique(jobs) && RecordsSound(jobs, active, registry)
    ensures |jobs| <= |FinishedIds(jobs, active)| + 1
    ensures (forall r | r in jobs :: active != Some(r.id)) ==> |jobs| == |FinishedIds(jobs, active)|
    decreases |jobs|
  {
    if jobs != [] {
      assert RecordSound(jobs[0], active, registry);
      assert forall r | r in jobs[1..] :: r.id != jobs[0].id;
      HistoryBound(jobs[1..], active, registry);
    }
  }

  lemma StartIsSound()
    ensures Invariant(START)
  {
  }

  /**
    * After every interleaving of requests, workers and shutdowns, with job ids drawn again or not:
    * one record at most is running, and it is the active one; the lookups in the dictionary never
    * fail; ended jobs have a result or an error, not both; and the history is bounded.
    */
  lemma EveryInterleavingIsSafe(events: seq<Event>)
    ensures var w := Run(START, events);
            && !w.lookupFailed
            && (forall r, q | r in w.state.jobs && q in w.state.jobs && r.status == q.status == Running :: r == q)
            && (w.state.active.Some? <==> w.state.worker.Some?)
            && (w.state.active.Some? <==> exists r :: r in w.state.jobs && r.status == Running)
            && (forall r | r in w.state.jobs :: r.status != Queued)
            && (forall r | r in w.state.jobs && r.status == Running :: w.state.active == Some(r.id))
            && (forall r | r in w.state.jobs && r.status == Completed :: r.result.Some? && r.error.None? && r.id in w.registry)
            && (forall r | r in w.state.jobs && r.status == Failed :: r.error.Some? && r.result.None?)
            && |FinishedIds(w.state.jobs, w.state.active)| <= 10 && |w.state.jobs| <= 11
  {
    StartIsSound();
    RunKeepsInvariant(START, events);
    var w := Run(START, events);
    hide Run, FinishedIds, CallersSound;
    HistoryBound(w.state.jobs, w.state.active, w.registry);
    forall r, q | r in w.state.jobs && q in w.state.jobs && r.status == q.status == Running ensures r == q {
      FindUnique(w.state.jobs, r);
      FindUnique(w.state.jobs, q);
    }
  }

  /** A lookup that finds nothing is noticed; this is what never happens. */
  lemma LookupNoticed(w: World, t: nat, now: string)
    requires t < |w.threads| && (w.threads[t].Raised? || w.threads[t].Presented?)
    ensures Step(w, Finishes(t, now)).lookupFailed <==> w.lookupFailed || forall r | r in w.state.jobs :: r.id != w.threads[t].id
  {
    hide Trim, Put;
  }

  /* ---- Shutdown ---- */

  /** A caller that waits returns exactly when there is no thread to wait for or that thread is over. */
  lemma JoinExactly(w: World, c: nat)
    requires c < |w.callers| && w.callers[c].Joining?
    ensures Step(w, JoinReturns(c)).callers[c] == Returned <==>
            w.callers[c].thread.None? || (w.callers[c].thread.value < |w.threads| && w.threads[w.callers[c].thread.value].Over?)
    ensures forall wait :: Step(w, ShutsDown(wait)).callers == w.callers + [if wait then Joining(w.state.worker) else Detached]
    ensures forall wait :: Step(w, ShutsDown(wait)).state.shuttingDown
  {
  }

  predicate Quiet(w: World) {
    w.state.worker.None? && forall r | r in w.state.jobs :: r.status != Running
  }

  predicate SomeoneReturned(w: World) {
    exists c :: 0 <= c < |w.callers| && w.callers[c].Returned?
  }

  lemma ReturnedIsQuiet(w: World)
    requires Invariant(w) && SomeoneReturned(w)
    ensures Quiet(w) && w.state.shuttingDown
  {
  }

  lemma {:induction false} ReturnedStays(w: World, events: seq<Event>)
    requires SomeoneReturned(w)
    ensures SomeoneReturned(Run(w, events))
    decreases |events|
  {
    if events != [] {
      var c :| 0 <= c < |w.callers| && w.callers[c].Returned?;
      assert Step(w, events[0]).callers[c].Returned?;
      ReturnedStays(Step(w, events[0]), events[1..]);
    }
  }

  /**
    * Once a waiting shutdown has returned, nothing is running, and whatever happens later nothing
    * ever runs again: every later start is refused.
    */
  lemma ShutdownIsFinal(events: seq<Event>, later: seq<Event>, id: string, now: string, thread: nat, starts: bool)
    requires SomeoneReturned(Run(START, events))
    ensures Quiet(Run(START, events)) && Quiet(Run(Run(START, events), later))
    ensures StartIn(Run(Run(START, events), later).state, id, now, thread, starts) ==
            (Run(Run(START, events), later).state, Err(ShuttingDown))
  {
    hide Invariant, Quiet, SomeoneReturned, Run;
    var w := Run(START, events);
    StartIsSound();
    RunKeepsInvariant(START, events);
    RunKeepsInvariant(w, later);
    ReturnedStays(w, later);
    ReturnedIsQuiet(w);
    ReturnedIsQuiet(Run(w, later));
  }
}
