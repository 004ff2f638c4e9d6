/** What the job history keeps when job ids are not drawn twice, and exactly what reuse costs. */
module JobHistory {
  import opened Prelude
  import opened Jobs
  import opened Workers

  /* ---- A start that fails ---- */

  lemma {:induction false} PutThenDrop(jobs: Jobs, r: JobRecord)
    ensures Find(jobs, r.id).None? ==> Put(jobs, r) == jobs + [r] && Drop(Put(jobs, r), r.id) == jobs
    ensures Find(jobs, r.id).Some? ==> |Drop(Put(jobs, r), r.id)| == |jobs| - 1
  {
    if jobs != [] && jobs[0].id != r.id {
      assert Put(jobs, r)[1..] == Put(jobs[1..], r);
      PutThenDrop(jobs[1..], r);
    }
  }

  /** A start whose thread is refused leaves the manager as it was exactly when its id was a new one. */
  lemma RollbackExactly(s: State, id: string, now: string, thread: nat)
    requires !s.shuttingDown && s.active.None? && s.worker.None?
    ensures StartIn(s, id, now, thread, false).0 == s <==> Find(s.jobs, id).None?
  {
    PutThenDrop(s.jobs, Opened(id, now));
  }

  /* ---- Ended jobs ---- */

  lemma TrimmedOut(jobs: Jobs, x: JobRecord)
    requires Unique(jobs) && x in jobs
    ensures x in Trim(jobs, None) || Find(Trim(jobs, None), x.id).None?
  {
    hide Trim, FinishedIds;
    TrimKeeps(jobs);
    if Find(Trim(jobs, None), x.id).Some? {
      FindUnique(jobs, x);
      FindUnique(jobs, Find(Trim(jobs, None), x.id).value);
    }
  }

  /** The event draws the id. */
  predicate Draws(s: State, e: Event, id: string) {
    e.Start? && DrawsId(s) && e.id == id
  }

  /** None of the events draws the id, each in the world it meets. */
  predicate NeverDrawn(w: World, events: seq<Event>, id: string)
    decreases |events|
  {
    events == [] || (!Draws(w.state, events[0], id) && NeverDrawn(Step(w, events[0]), events[1..], id))
  }

  lemma EndedStays(w: World, e: Event, x: JobRecord)
    requires Invariant(w) && x in w.state.jobs && IsFinished(x) && !Draws(w.state, e, x.id)
    ensures var next := Step(w, e).state.jobs; x in next || Find(next, x.id).None?
  {
    hide Unique, FinishedIds, Put, Drop, Trim, Find, CallersSound;
    match e
    case Start(id, now, starts) =>
      PutMembers(w.state.jobs, Opened(id, now));
      DropMembers(Put(w.state.jobs, Opened(id, now)), id);
    case Finishes(t, now) =>
      if t < |w.threads| && EndingOf(w.threads[t]).Some? {
        EndedSurvives(w, t, now, x);
      }
    case _ =>
  }

  lemma EndedSurvives(w: World, t: nat, now: string, x: JobRecord)
    requires Invariant(w) && x in w.state.jobs && IsFinished(x)
    requires t < |w.threads| && EndingOf(w.threads[t]).Some?
    ensures var next := FinishThread(w, t, now, EndingOf(w.threads[t]).value).state.jobs; x in next || Find(next, x.id).None?
  {
    hide Unique, FinishedIds, Put, Trim, Find, CallersSound;
    var id := w.threads[t].id;
    assert w.state.worker == Some(t) && w.state.active == Some(id);
    var r := Ended(Find(w.state.jobs, id).value, now, EndingOf(w.threads[t]).value);
    assert RecordSound(x, w.state.active, w.registry);
    PutMembers(w.state.jobs, r);
    TrimmedOut(Put(w.state.jobs, r), x);
  }

  lemma AbsentStays(w: World, e: Event, id: string)
    requires Invariant(w) && Find(w.state.jobs, id).None? && !Draws(w.state, e, id)
    ensures Find(Step(w, e).state.jobs, id).None?
  {
    hide Unique, FinishedIds, Put, Drop, Trim, CallersSound;
    match e
    case Start(other, now, starts) =>
      PutMembers(w.state.jobs, Opened(other, now));
      DropMembers(Put(w.state.jobs, Opened(other, now)), other);
    case Finishes(t, now) =>
      if t < |w.threads| && EndingOf(w.threads[t]).Some? {
        var r := Ended(Find(w.state.jobs, w.threads[t].id).value, now, EndingOf(w.threads[t]).value);
        PutMembers(w.state.jobs, r);
        TrimKeeps(Put(w.state.jobs, r));
      }
    case _ =>
  }

  /** An id that is not in the dictionary, an evicted one among them, appears there only by being drawn. */
  lemma {:induction false} AbsentUntilDrawn(w: World, events: seq<Event>, id: string)
    requires Invariant(w) && Find(w.state.jobs, id).None? && NeverDrawn(w, events, id)
    ensures Find(Run(w, events).state.jobs, id).None?
    decreases |events|
  {
    hide Invariant, Step, Find, Draws;
    if events != [] {
      StepKeepsInvariant(w, events[0]);
      AbsentStays(w, events[0], id);
      AbsentUntilDrawn(Step(w, events[0]), events[1..], id);
    }
  }

  /**
    * Whatever happens, as long as its id is not drawn again an ended job's record is in the
    * dictionary unchanged or, once evicted, its id is not there at all.
    */
  lemma {:induction false} EndedUntilEvicted(w: World, events: seq<Event>, x: JobRecord)
    requires Invariant(w) && x in w.state.jobs && IsFinished(x) && NeverDrawn(w, events, x.id)
    ensures var now := Run(w, events).state.jobs; x in now || Find(now, x.id).None?
    decreases |events|
  {
    hide Invariant, Step, Find, Draws;
    if events != [] {
      StepKeepsInvariant(w, events[0]);
      EndedStays(w, events[0], x);
      var next := Step(w, events[0]);
      if x in next.state.jobs {
        EndedUntilEvicted(next, events[1..], x);
      } else {
        AbsentUntilDrawn(next, events[1..], x.id);
      }
    }
  }

  /* ---- From the start of a job to its end ---- */

  /** The thread's own last step is not among the events. */
  predicate Spared(events: seq<Event>, t: nat) {
    forall e | e in events :: !(e.Finishes? && e.thread == t)
  }

  /** The record a job has as long as its thread is at work. */
  predicate AtWork(w: World, t: nat, id: string, created: string) {
    && w.state.worker == Some(t) && t < |w.threads| && w.threads[t].id == id && w.state.active == Some(id)
    && JobRecord(id, Running, created, Some(created), None, None, None) in w.state.jobs
  }

  lemma StartIsAtWork(w: World, id: string, created: string)
    requires Invariant(w) && DrawsId(w.state)
    ensures AtWork(Step(w, Start(id, created, true)), |w.threads|, id, created)
  {
    hide Unique, Put, Drop, FinishedIds, Find, CallersSound;
    StartedJobs(w.state.jobs, id, created);
  }

  lemma StepKeepsAtWork(w: World, e: Event, t: nat, id: string, created: string)
    requires Invariant(w) && AtWork(w, t, id, created) && !(e.Finishes? && e.thread == t)
    ensures AtWork(Step(w, e), t, id, created)
    ensures w.threads[t].Raised? || w.threads[t].Presented? ==> Step(w, e).threads[t] == w.threads[t]
  {
    hide Unique, RecordsSound, FinishedIds, Find, CallersSound, FinishThread, Put, Drop;
  }

  lemma {:induction false} RunKeepsAtWork(w: World, events: seq<Event>, t: nat, id: string, created: string)
    requires Invariant(w) && AtWork(w, t, id, created) && Spared(events, t)
    ensures Invariant(Run(w, events)) && AtWork(Run(w, events), t, id, created)
    ensures w.threads[t].Raised? || w.threads[t].Presented? ==> Run(w, events).threads[t] == w.threads[t]
    decreases |events|
  {
    hide Invariant, Step;
    if events != [] {
      assert events[0] in events;
      StepKeepsInvariant(w, events[0]);
      StepKeepsAtWork(w, events[0], t, id, created);
      RunKeepsAtWork(Step(w, events[0]), events[1..], t, id, created);
    }
  }

  /** What stops a worker decides its error: VERIFICATION_START_FAILED for what is expected, INTERNAL_ERROR for the rest. */
  lemma RaisedIsKept(w: World, t: nat, exception: Exception, events: seq<Event>, id: string, created: string)
    requires Invariant(w) && AtWork(w, t, id, created) && Spared(events, t)
    requires w.threads[t].Executing? || w.threads[t].Ran? || w.threads[t].Registered?
    ensures t < |Run(Step(w, Raises(t, exception)), events).threads|
    ensures Run(Step(w, Raises(t, exception)), events).threads[t] ==
            Raised(id, if exception == Unexpected then InternalError else StartFailed)
  {
    hide Invariant, Run;
    StepKeepsInvariant(w, Raises(t, exception));
    StepKeepsAtWork(w, Raises(t, exception), t, id, created);
    RunKeepsAtWork(Step(w, Raises(t, exception)), events, t, id, created);
  }

  /** A presentation is made only of a registered bundle, and is kept. */
  lemma PresentedIsKept(w: World, t: nat, p: BundlePresentation, events: seq<Event>, id: string, created: string)
    requires Invariant(w) && AtWork(w, t, id, created) && Spared(events, t) && w.threads[t].Registered?
    ensures t < |Run(Step(w, Presents(t, p)), events).threads|
    ensures Run(Step(w, Presents(t, p)), events).threads[t] == Presented(id, p)
  {
    hide Invariant, Run;
    StepKeepsInvariant(w, Presents(t, p));
    StepKeepsAtWork(w, Presents(t, p), t, id, created);
    RunKeepsAtWork(Step(w, Presents(t, p)), events, t, id, created);
  }

  /** What became of the worker, as the job's record tells it. */
  predicate Tells(x: JobRecord, thread: Thread, id: string, created: string, now: string) {
    match thread
    case Raised(_, error) => x == JobRecord(id, Failed, created, Some(created), Some(now), None, Some(error))
    case Presented(_, p) => x == JobRecord(id, Completed, created, Some(created), Some(now), Some(p), None)
    case _ => false
  }

  /**
    * The life of a job: from its start until its thread's last step, whatever happens in between, its
    * record is the running one it was opened with; the last step leaves a record of exactly what the
    * thread raised or presented, unless it evicts it at once, and no other record changes.
    */
  lemma JobLife(w: World, id: string, created: string, events: seq<Event>, now: string)
    requires Invariant(w) && DrawsId(w.state) && Spared(events, |w.threads|)
    ensures var t, v := |w.threads|, Run(Step(w, Start(id, created, true)), events);
            && AtWork(v, t, id, created)
            && (v.threads[t].Raised? || v.threads[t].Presented? ==>
                  var jobs := Step(v, Finishes(t, now)).state.jobs;
                  && Step(v, Finishes(t, now)).threads[t] == Over(id)
                  && (forall x | x in jobs && x.id == id :: Tells(x, v.threads[t], id, created, now))
                  && (forall x | x in jobs && x.id != id :: x in v.state.jobs)
                  && (forall x | x in v.state.jobs && x !in jobs && x.id != id :: IsFinished(x)))
  {
    hide Invariant, Step, Run, AtWork;
    var t, v := |w.threads|, Run(Step(w, Start(id, created, true)), events);
    StartIsAtWork(w, id, created);
    StepKeepsInvariant(w, Start(id, created, true));
    RunKeepsAtWork(Step(w, Start(id, created, true)), events, t, id, created);
    WorkerOf(v, t, id, created);
    if v.threads[t].Raised? || v.threads[t].Presented? {
      LastStep(v, t, id, created, now);
    }
  }

  lemma WorkerOf(w: World, t: nat, id: string, created: string)
    requires AtWork(w, t, id, created)
    ensures t < |w.threads|
  {
  }

  lemma LastStep(w: World, t: nat, id: string, created: string, now: string)
    requires Invariant(w) && AtWork(w, t, id, created) && t < |w.threads|
    requires w.threads[t].Raised? || w.threads[t].Presented?
    ensures var next := Step(w, Finishes(t, now));
            && t < |next.threads| && next.threads[t] == Over(id)
            && (forall x | x in next.state.jobs && x.id == id :: Tells(x, w.threads[t], id, created, now))
            && (forall x | x in next.state.jobs && x.id != id :: x in w.state.jobs)
            && (forall x | x in w.state.jobs && x !in next.state.jobs && x.id != id :: IsFinished(x))
  {
    hide Unique, Put, Trim, Find, FinishedIds, CallersSound, RecordsSound;
    var ending := EndingOf(w.threads[t]).value;
    FinishedJobs(w.state.jobs, id, now, ending);
    var was := JobRecord(id, Running, created, Some(created), None, None, None);
    forall x | x in Step(w, Finishes(t, now)).state.jobs && x.id == id ensures Tells(x, w.threads[t], id, created, now) {
      assert EndedAs(was, x, now, ending);
    }
  }

  /** The other half: when its id is drawn again, an ended job's record is lost at once. */
  lemma ReuseOverwrites(w: World, x: JobRecord, now: string)
    requires Invariant(w) && x in w.state.jobs && IsFinished(x)
    requires DrawsId(w.state)
    ensures Find(Step(w, Start(x.id, now, true)).state.jobs, x.id) == Some(Opened(x.id, now))
    ensures Find(Step(w, Start(x.id, now, false)).state.jobs, x.id).None?
  {
    hide FinishedIds, CallersSound, RecordsSound, Find, Put, Drop, Unique;
    var r := Opened(x.id, now);
    PutMembers(w.state.jobs, r);
    FindUnique(Put(w.state.jobs, r), r);
    DropMembers(Put(w.state.jobs, r), x.id);
  }

  /* ---- First in, first out ---- */

  /** No id is drawn twice. */
  predicate FreshFrom(w: World, events: seq<Event>)
    decreases |events|
  {
    events == [] || ((events[0].Start? && DrawsId(w.state) ==> events[0].id !in w.used) && FreshFrom(Step(w, events[0]), events[1..]))
  }

  function Recent(log: seq<string>): seq<string> {
    if |log| <= MAX_FINISHED then log else log[|log| - MAX_FINISHED..]
  }

  function ActiveIds(active: Option<string>): seq<string> {
    if active.Some? then [active.value] else []
  }

  /** The dictionary holds the ten last ended jobs, in the order they ended, and the active one. */
  predicate InOrder(w: World) {
    && Ids(w.state.jobs) == Recent(w.finished) + ActiveIds(w.state.active)
    && (forall id | id in w.finished :: id in w.used)
    && (w.state.active.Some? ==> w.state.active.value in w.used)
  }

  lemma IdsOf(jobs: Jobs, id: string)
    ensures id in Ids(jobs) <==> Find(jobs, id).Some?
  {
    if Find(jobs, id).Some? {
      var x := Find(jobs, id).value;
      var i :| 0 <= i < |jobs| && jobs[i] == x;
      assert Ids(jobs)[i] == id;
    }
    if id in Ids(jobs) {
      var i :| 0 <= i < |jobs| && Ids(jobs)[i] == id;
      assert jobs[i] in jobs;
    }
  }

  lemma {:induction false} PutKeepsIds(jobs: Jobs, r: JobRecord)
    requires Find(jobs, r.id).Some?
    ensures Ids(Put(jobs, r)) == Ids(jobs)
  {
    if jobs[0].id == r.id {
      assert Put(jobs, r) == [r] + jobs[1..];
    } else {
      PutKeepsIds(jobs[1..], r);
      assert Put(jobs, r) == [jobs[0]] + Put(jobs[1..], r);
      assert Ids(jobs) == [jobs[0].id] + Ids(jobs[1..]);
      assert Ids(Put(jobs, r)) == [jobs[0].id] + Ids(Put(jobs[1..], r));
    }
  }

  /** When every job has ended, trimming keeps the last ten. */
  lemma {:induction false} TrimAllEnded(jobs: Jobs)
    requires forall x | x in jobs :: IsFinished(x)
    ensures FinishedIds(jobs, None) == Ids(jobs)
    ensures Trim(jobs, None) == if |jobs| <= MAX_FINISHED then jobs else jobs[|jobs| - MAX_FINISHED..]
  {
    AllEndedIds(jobs);
    if |jobs| > MAX_FINISHED {
      AllEndedIds(jobs[1..]);
      TrimAllEnded(jobs[1..]);
      assert Ids(jobs)[1..] == Ids(jobs[1..]);
    }
  }

  lemma {:induction false} AllEndedIds(jobs: Jobs)
    requires forall x | x in jobs :: IsFinished(x)
    ensures FinishedIds(jobs, None) == Ids(jobs)
  {
    if jobs != [] {
      AllEndedIds(jobs[1..]);
      assert Ids(jobs) == [jobs[0].id] + Ids(jobs[1..]);
    }
  }

  lemma RecentOfRecent(log: seq<string>, id: string)
    ensures Recent(Recent(log) + [id]) == Recent(log + [id])
  {
  }

  lemma FinishIsInOrder(w: World, t: nat, now: string)
    requires Invariant(w) && InOrder(w) && t < |w.threads| && EndingOf(w.threads[t]).Some?
    ensures InOrder(FinishThread(w, t, now, EndingOf(w.threads[t]).value))
  {
    hide Unique, FinishedIds, Put, Trim, Find, CallersSound, Recent, Ids;
    var id := w.threads[t].id;
    assert w.state.worker == Some(t) && w.state.active == Some(id);
    var r := Ended(Find(w.state.jobs, id).value, now, EndingOf(w.threads[t]).value);
    var put := Put(w.state.jobs, r);
    PutKeepsIds(w.state.jobs, r);
    PutMembers(w.state.jobs, r);
    forall x | x in put ensures IsFinished(x) {
      if x != r {
        assert RecordSound(x, w.state.active, w.registry);
      }
    }
    TrimAllEnded(put);
    TrimmedIds(put);
    RecentOfRecent(w.finished, id);
  }

  lemma TrimmedIds(jobs: Jobs)
    ensures Ids(if |jobs| <= MAX_FINISHED then jobs else jobs[|jobs| - MAX_FINISHED..]) == Recent(Ids(jobs))
  {
  }

  lemma StepIsInOrder(w: World, e: Event)
    requires Invariant(w) && InOrder(w) && (e.Start? && DrawsId(w.state) ==> e.id !in w.used)
    ensures InOrder(Step(w, e))
  {
    hide Unique, FinishedIds, Put, Drop, Trim, CallersSound, Find;
    match e
    case Start(id, now, starts) =>
      IdsOf(w.state.jobs, id);
      PutThenDrop(w.state.jobs, Opened(id, now));
      assert Ids(w.state.jobs + [Opened(id, now)]) == Ids(w.state.jobs) + [id];
    case Finishes(t, now) =>
      if t < |w.threads| && EndingOf(w.threads[t]).Some? {
        FinishIsInOrder(w, t, now);
      }
    case _ =>
  }

  lemma {:induction false} RunIsInOrder(w: World, events: seq<Event>)
    requires Invariant(w) && InOrder(w) && FreshFrom(w, events)
    ensures InOrder(Run(w, events))
    decreases |events|
  {
    hide Invariant, InOrder, Step;
    if events != [] {
      StepKeepsInvariant(w, events[0]);
      StepIsInOrder(w, events[0]);
      RunIsInOrder(Step(w, events[0]), events[1..]);
    }
  }

  /** With fresh ids, eviction is strictly oldest-ended-first: the dictionary is a window on the log. */
  lemma HistoryIsFirstInFirstOut(events: seq<Event>)
    requires FreshFrom(START, events)
    ensures var w := Run(START, events);
            && Ids(w.state.jobs) == (if |w.finished| <= 10 then w.finished else w.finished[|w.finished| - 10..]) + ActiveIds(w.state.active)
            && (w.state.active.Some? ==> ActiveIds(w.state.active) == [w.state.active.value])
  {
    StartIsSound();
    RunIsInOrder(START, events);
    hide Run, Ids;
  }
}
