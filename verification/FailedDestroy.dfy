/** A TfRun can go away although no destroy Job ever succeeded: a failed Job is adopted again, and once it is removed
    it looks like one that is over. */
module FailedDestroy {
  import opened Types
  import opened Machine
  import opened Turns
  import opened Rules
  import opened JobInvariants
  import opened DeletionInvariants
  import opened AllInvariants
  import opened Schedules
  import opened Theorems

  predicate NoSuccess(es: seq<Event>) { forall e | e in es && e.Progress? :: e.report.succeeded == 0 }

  /** Some events, among them no success of a Job, lead from one world to the other. */
  ghost predicate Reaches(cfg: Config, w: World, w': World) { exists es :: NoSuccess(es) && Run(cfg, w, es) == w' }

  lemma ReachesOn(cfg: Config, w: World, w': World, e: Event)
    requires Reaches(cfg, w, w') && (e.Progress? ==> e.report.succeeded == 0)
    ensures Reaches(cfg, w, Step(cfg, w', e))
  {
    var es :| NoSuccess(es) && Run(cfg, w, es) == w';
    assert (es + [e])[..|es|] == es;
    assert NoSuccess(es + [e]) && Run(cfg, w, es + [e]) == Step(cfg, w', e);
  }

  /** Between reconciles, with an object under deletion. */
  predicate Deleting(w: World, t: TfRun, jobs: map<string, Job>) {
    w.worker.call.Idle? && w.stored == Some(t) && w.jobs == jobs && t.deleting && t.finalizer && Supported(t.spec)
  }

  /* ---------- single steps ---------- */

  lemma DeletionRead(cfg: Config, w: World, t: TfRun)
    requires Deleting(w, t, w.jobs)
    ensures Answer(cfg, w, "") ==
              w.(worker := Worker(if t.status.activeDestroyJobName == "" then ProbeDestroyJob else FetchDestroyJob, t,
                                  t.status.workspaceID != "", false, false))
  {
  }

  lemma ProbeAnswered(cfg: Config, w: World)
    requires w.worker.call.ProbeDestroyJob? && Supported(w.worker.mem.spec)
    ensures Answer(cfg, w, "") ==
              w.(worker := w.worker.(call := if cfg.destroyName in w.jobs then RefetchForDestroy
                                             else FetchDestroySecret))
  {
  }

  lemma DestroySecretAnswered(cfg: Config, w: World)
    requires w.worker.call.FetchDestroySecret?
    ensures Answer(cfg, w, "") == w.(worker := w.worker.(call := CreateDestroyJob))
  {
  }

  lemma DestroyCreated(cfg: Config, w: World)
    requires w.worker.call.CreateDestroyJob? && cfg.destroyName !in w.jobs
    ensures var t, w' := w.worker.mem, Answer(cfg, w, "");
            var built := SpecHash(cfg, t.spec);
            && w'.stored == w.stored
            && w'.jobs == w.jobs[cfg.destroyName := Job(Destroy, t.generation, built, built, 0, 0, 0, false)]
            && w'.worker == Take(w.worker, Write(t.status.(activeDestroyJobName := cfg.destroyName, phase := Pending,
                                                            observedGeneration := t.generation), Note))
  {
  }

  lemma FailedJobRead(cfg: Config, w: World)
    requires w.worker.call.FetchDestroyJob? && w.worker.mem.status.activeDestroyJobName in w.jobs
    requires var j := w.jobs[w.worker.mem.status.activeDestroyJobName];
             j.active == 0 && j.succeeded == 0 && j.failed > 0
    ensures Answer(cfg, w, "") ==
              w.(worker := Take(w.worker,
                                Write(w.worker.mem.status.(activeDestroyJobName := "", phase := Failed), Note)))
  {
  }

  lemma DestroyRefetched(cfg: Config, w: World, t: TfRun)
    requires w.worker.call.RefetchForDestroy? && w.stored == Some(t)
    ensures Answer(cfg, w, "") ==
              w.(worker := Take(w.worker.(mem := t),
                                Write(t.status.(activeDestroyJobName := cfg.destroyName, phase := Pending), Note)))
  {
  }

  lemma JobGone(cfg: Config, w: World)
    requires w.worker.call.FetchDestroyJob? && w.worker.mem.status.activeDestroyJobName !in w.jobs
    ensures Answer(cfg, w, "") ==
              w.(worker := Take(w.worker, Write(w.worker.mem.status.(activeDestroyJobName := ""), Cleanup)))
  {
  }

  lemma CleanupAnswered(cfg: Config, w: World, t: TfRun)
    requires w.worker.call == WriteStatus(Cleanup) && w.stored == Some(t)
    requires w.worker.mem == t.(status := w.worker.mem.status) && Supported(t.spec)
    ensures var w' := Answer(cfg, w, "");
            && w'.stored == Some(Bump(t).(status := w.worker.mem.status))
            && (w'.worker.call.DeleteWorkspace? || w'.worker.call.RefetchForFinalizer?)
  {
  }

  lemma WorkspaceDeleted(cfg: Config, w: World)
    requires w.worker.call.DeleteWorkspace?
    ensures Answer(cfg, w, "").stored == w.stored && Answer(cfg, w, "").worker.call.RefetchForFinalizer?
  {
  }

  lemma FinalizerRefetched(cfg: Config, w: World, t: TfRun)
    requires w.worker.call.RefetchForFinalizer? && w.stored == Some(t) && t.finalizer
    ensures Answer(cfg, w, "") == w.(worker := w.worker.(call := RemoveFinalizer, mem := t))
  {
  }

  lemma FinalizerRemoved(cfg: Config, w: World, t: TfRun)
    requires w.worker.call.RemoveFinalizer? && w.stored == Some(t) && w.worker.mem == t && t.deleting
    ensures Answer(cfg, w, "").stored.None?
  {
  }

  /* ---------- the four reconciles ---------- */

  /** The destroy Job is created and recorded. */
  lemma DestroyStarts(cfg: Config, w0: World, w: World, t: TfRun) returns (w': World)
    requires Reaches(cfg, w0, w) && Deleting(w, t, w.jobs)
    requires t.status.activeDestroyJobName == "" && cfg.destroyName !in w.jobs
    ensures Reaches(cfg, w0, w') && w'.stored.Some? && w'.stored.value.status.activeDestroyJobName == cfg.destroyName
    ensures Deleting(w', w'.stored.value, w'.jobs)
    ensures cfg.destroyName in w'.jobs && !w'.jobs[cfg.destroyName].finished
  {
    DeletionRead(cfg, w, t);
    ReachesOn(cfg, w0, w, Serve(Done, ""));
    var a := Answer(cfg, w, "");
    ProbeAnswered(cfg, a);
    ReachesOn(cfg, w0, a, Serve(Done, ""));
    var b := Answer(cfg, a, "");
    DestroySecretAnswered(cfg, b);
    ReachesOn(cfg, w0, b, Serve(Done, ""));
    var c := Answer(cfg, b, "");
    DestroyCreated(cfg, c);
    ReachesOn(cfg, w0, c, Serve(Done, ""));
    var d := Answer(cfg, c, "");
    NoteAnswered(cfg, d, "");
    ReachesOn(cfg, w0, d, Serve(Done, ""));
    w' := Answer(cfg, d, "");
  }

  lemma JobFails(cfg: Config, w: World)
    requires cfg.destroyName in w.jobs && !w.jobs[cfg.destroyName].finished
    ensures var w' := Step(cfg, w, Progress(cfg.destroyName, Report(0, 0, 1, true)));
            && w'.stored == w.stored && w'.worker == w.worker
            && w'.jobs == w.jobs[cfg.destroyName := w.jobs[cfg.destroyName].(active := 0, succeeded := 0, failed := 1,
                                                                            finished := true)]
  {
  }

  predicate Over(j: Job) { j.active == 0 && j.succeeded == 0 && j.failed > 0 && j.finished }

  /** The failure is noted, and the Job's name cleared. */
  lemma FailureNoted(cfg: Config, w0: World, w: World, t: TfRun) returns (w': World)
    requires Reaches(cfg, w0, w) && Deleting(w, t, w.jobs)
    requires t.status.activeDestroyJobName == cfg.destroyName != "" && cfg.destroyName in w.jobs
             && Over(w.jobs[cfg.destroyName])
    ensures Reaches(cfg, w0, w') && w'.stored.Some? && w'.stored.value.status.activeDestroyJobName == ""
    ensures Deleting(w', w'.stored.value, w.jobs)
  {
    DeletionRead(cfg, w, t);
    ReachesOn(cfg, w0, w, Serve(Done, ""));
    var a := Answer(cfg, w, "");
    FailedJobRead(cfg, a);
    ReachesOn(cfg, w0, a, Serve(Done, ""));
    var b := Answer(cfg, a, "");
    NoteAnswered(cfg, b, "");
    ReachesOn(cfg, w0, b, Serve(Done, ""));
    w' := Answer(cfg, b, "");
  }

  /** The failed Job is found and recorded again. */
  lemma FailureAdopted(cfg: Config, w0: World, w: World, t: TfRun) returns (w': World)
    requires Reaches(cfg, w0, w) && Deleting(w, t, w.jobs)
    requires t.status.activeDestroyJobName == "" && cfg.destroyName in w.jobs
    ensures Reaches(cfg, w0, w') && w'.stored.Some? && w'.stored.value.status.activeDestroyJobName == cfg.destroyName
    ensures Deleting(w', w'.stored.value, w.jobs)
  {
    DeletionRead(cfg, w, t);
    ReachesOn(cfg, w0, w, Serve(Done, ""));
    var a := Answer(cfg, w, "");
    ProbeAnswered(cfg, a);
    ReachesOn(cfg, w0, a, Serve(Done, ""));
    var b := Answer(cfg, a, "");
    DestroyRefetched(cfg, b, t);
    ReachesOn(cfg, w0, b, Serve(Done, ""));
    var c := Answer(cfg, b, "");
    NoteAnswered(cfg, c, "");
    ReachesOn(cfg, w0, c, Serve(Done, ""));
    w' := Answer(cfg, c, "");
  }

  /** With the recorded Job gone the workspace is deleted and the finalizer removed. */
  lemma FinalizerGoes(cfg: Config, w0: World, w: World, t: TfRun) returns (w': World)
    requires Reaches(cfg, w0, w) && Deleting(w, t, w.jobs)
    requires t.status.activeDestroyJobName == cfg.destroyName != "" && cfg.destroyName !in w.jobs
    ensures Reaches(cfg, w0, w') && w'.stored.None?
  {
    DeletionRead(cfg, w, t);
    ReachesOn(cfg, w0, w, Serve(Done, ""));
    var a := Answer(cfg, w, "");
    JobGone(cfg, a);
    ReachesOn(cfg, w0, a, Serve(Done, ""));
    var b := Answer(cfg, a, "");
    CleanupAnswered(cfg, b, t);
    ReachesOn(cfg, w0, b, Serve(Done, ""));
    w' := FinalizerGoesNow(cfg, w0, Answer(cfg, b, ""), Answer(cfg, b, "").stored.value);
  }

  lemma FinalizerGoesNow(cfg: Config, w0: World, w: World, t: TfRun) returns (w': World)
    requires Reaches(cfg, w0, w) && w.stored == Some(t) && t.deleting && t.finalizer
    requires w.worker.call.DeleteWorkspace? || w.worker.call.RefetchForFinalizer?
    ensures Reaches(cfg, w0, w') && w'.stored.None?
  {
    var a := w;
    if w.worker.call.DeleteWorkspace? {
      WorkspaceDeleted(cfg, w);
      ReachesOn(cfg, w0, w, Serve(Done, ""));
      a := Answer(cfg, w, "");
    }
    FinalizerRefetched(cfg, a, t);
    ReachesOn(cfg, w0, a, Serve(Done, ""));
    var b := Answer(cfg, a, "");
    FinalizerRemoved(cfg, b, t);
    ReachesOn(cfg, w0, b, Serve(Done, ""));
    w' := Answer(cfg, b, "");
  }

  lemma JobRemoved(cfg: Config, w: World)
    requires cfg.destroyName in w.jobs && w.jobs[cfg.destroyName].finished
    ensures var w' := Step(cfg, w, Expire(cfg.destroyName));
            w'.stored == w.stored && w'.worker == w.worker && w'.jobs == w.jobs - {cfg.destroyName}
  {
  }

  /** From every state in which the deletion has not created its destroy Job yet. */
  lemma ObjectGoesWithoutSuccess(cfg: Config, w: World)
    requires cfg.destroyName != "" && w.stored.Some? && Deleting(w, w.stored.value, w.jobs)
    requires w.stored.value.status.activeDestroyJobName == "" && cfg.destroyName !in w.jobs
    ensures exists es :: NoSuccess(es) && Run(cfg, w, es).stored.None?
  {
    assert NoSuccess([]) && Run(cfg, w, []) == w;
    var a := DestroyStarts(cfg, w, w, w.stored.value);
    JobFails(cfg, a);
    var failure := Progress(cfg.destroyName, Report(0, 0, 1, true));
    ReachesOn(cfg, w, a, failure);
    var b := Step(cfg, a, failure);
    var c := FailureNoted(cfg, w, b, b.stored.value);
    var d := FailureAdopted(cfg, w, c, c.stored.value);
    JobRemoved(cfg, d);
    ReachesOn(cfg, w, d, Expire(cfg.destroyName));
    var e := Step(cfg, d, Expire(cfg.destroyName));
    var end := FinalizerGoes(cfg, w, e, e.stored.value);
    var es :| NoSuccess(es) && Run(cfg, w, es) == end;
  }

  /* ---------- when it cannot ---------- */

  predicate Succeeding(cfg: Config, w: World) {
    cfg.destroyName in w.jobs && w.jobs[cfg.destroyName].succeeded > 0
  }

  /** At some point of the run the destroy Job has reported a success. */
  ghost predicate SuccessSeen(cfg: Config, w0: World, es: seq<Event>) {
    exists n :: 0 <= n <= |es| && Succeeding(cfg, Run(cfg, w0, es[..n]))
  }

  /** A recorded destroy Job is still there or has been seen to succeed; the clean-up has seen a success. */
  predicate SuccessOk(cfg: Config, w: World, seen: bool) {
    && (DestroyRecorded(w) ==> cfg.destroyName in w.jobs || seen)
    && (CleaningUp(w.worker.call) ==> seen)
  }

  lemma CleanUpSeesSuccess(cfg: Config, w: World, o: Outcome, id: string, turn: Turn, seen: bool)
    requires DestroyNamesOk(cfg, w.stored, w.worker, w.hist)
    requires SuccessOk(cfg, w, seen) && (Succeeding(cfg, w) ==> seen)
    requires Route(cfg, w, o, turn) && WriteReasons(cfg, w, o, id, turn)
    ensures CleaningUp(turn.call) ==> seen
  {
  }

  lemma WrittenDestroyName(cfg: Config, w: World, o: Outcome, id: string, t: TfRun, s: Status, p: Purpose)
    requires StatusFor(cfg, w, o, id, t, s, p)
    ensures s.activeDestroyJobName in ["", t.status.activeDestroyJobName]
            || w.worker.call.RefetchForDestroy? || (p.Note? && w.worker.call.CreateDestroyJob?)
  {
  }

  /** A name that is newly on its way to being recorded is that of a Job that is there. */
  lemma RecordedIsThere(cfg: Config, w: World, o: Outcome, id: string, turn: Turn)
    requires Route(cfg, w, o, turn) && WriteReasons(cfg, w, o, id, turn) && !turn.call.Idle? && !turn.call.Panicked?
    ensures turn.status.activeDestroyJobName != "" || turn.call.RefetchForDestroy? ==>
              DestroyRecorded(w) || cfg.destroyName in JobsAfter(cfg, w, Serve(o, id))
  {
    hide ServedTurn, StatusFor;
    if turn.call.WriteStatus? {
      WrittenDestroyName(cfg, w, o, id, Resumed(w, o).mem, turn.status, turn.call.purpose);
    }
  }

  lemma ServedJobsStay(cfg: Config, w: World, o: Outcome, id: string)
    ensures w.jobs.Keys <= JobsAfter(cfg, w, Serve(o, id)).Keys
  {
  }

  lemma ServedSuccess(cfg: Config, w: World, o: Outcome, id: string, seen: bool)
    requires DeletionCore(cfg, w) && SuccessOk(cfg, w, seen) && (Succeeding(cfg, w) ==> seen)
    ensures SuccessOk(cfg, Step(cfg, w, Serve(o, id)), seen)
  {
    hide ServedTurn, JobsAfter, HistoryAfter, WorkspacesAfter;
    var turn := ServedTurn(cfg, w, o, id);
    ServedMoves(cfg, w, o, id);
    ServedJobsStay(cfg, w, o, id);
    CleanUpSeesSuccess(cfg, w, o, id, turn, seen);
    if !turn.call.Idle? && !turn.call.Panicked? {
      RecordedIsThere(cfg, w, o, id, turn);
    }
  }

  lemma SuccessKept(cfg: Config, w: World, e: Event, seen: bool)
    requires DeletionCore(cfg, w) && SuccessOk(cfg, w, seen) && (Succeeding(cfg, w) ==> seen)
    requires Permits(cfg, KeepsRecordedDestroyJobs, w, e)
    ensures SuccessOk(cfg, Step(cfg, w, e), seen)
  {
    if e.Serve? {
      ServedSuccess(cfg, w, e.outcome, e.id, seen);
    }
  }

  lemma {:induction false} SuccessHolds(cfg: Config, w0: World, es: seq<Event>)
    requires WellNamed(cfg) && Initial(cfg, w0) && Obeys(cfg, {KeepsRecordedDestroyJobs}, w0, es)
    ensures SuccessOk(cfg, Run(cfg, w0, es), SuccessSeen(cfg, w0, es))
  {
    if es != [] {
      var m := |es| - 1;
      SuccessHolds(cfg, w0, es[..m]);
      CoreHolds(cfg, w0, es[..m]);
      assert forall n | 0 <= n <= m :: es[..m][..n] == es[..n];
      SuccessKept(cfg, Run(cfg, w0, es[..m]), es[m], SuccessSeen(cfg, w0, es));
    }
  }

  /** When no destroy Job is removed before it has succeeded while its name is recorded or on its way to being recorded,
      the finalizer goes only after a destroy Job succeeded. */
  lemma ObjectGoesAfterSuccess(cfg: Config, w0: World, es: seq<Event>, e: Event)
    requires WellNamed(cfg) && Initial(cfg, w0) && Obeys(cfg, {KeepsRecordedDestroyJobs}, w0, es)
    requires var w := Run(cfg, w0, es); w.stored.Some? && w.stored.value.finalizer
    requires var w' := Run(cfg, w0, es + [e]); w'.stored.None? || !w'.stored.value.finalizer
    ensures SuccessSeen(cfg, w0, es)
  {
    SuccessHolds(cfg, w0, es);
    RunAppends(cfg, w0, es, e);
    FinalizerCall(cfg, Run(cfg, w0, es), e);
  }

  lemma FinalizerCall(cfg: Config, w: World, e: Event)
    requires w.stored.Some? && w.stored.value.finalizer
    requires StoredAfter(w, e).None? || !StoredAfter(w, e).value.finalizer
    ensures w.worker.call.RemoveFinalizer?
  {
  }
}
