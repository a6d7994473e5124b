/** What every run of the controller keeps, stated on the stored object and the cluster. */
module Theorems {
  import opened Types
  import opened Machine
  import opened Turns
  import opened Rules
  import opened CopyInvariants
  import opened StatusInvariants
  import opened JobInvariants
  import opened DeletionInvariants
  import opened AllInvariants

  lemma RunAppends(cfg: Config, w: World, es: seq<Event>, e: Event)
    ensures Run(cfg, w, es + [e]) == Step(cfg, Run(cfg, w, es), e)
  {
    assert (es + [e])[..|es|] == es;
  }

  /* ---------- the stored status ---------- */

  /** A stored pending hash is the hash of a spec the object has had, and not that of the last run; so the hash a run
      id is cut from is always long enough. */
  lemma PendingState(cfg: Config, w0: World, es: seq<Event>)
    requires WellNamed(cfg) && Initial(cfg, w0)
    ensures var w := Run(cfg, w0, es);
            && !w.worker.call.Panicked?
            && (w.stored.Some? ==>
                  var s := w.stored.value.status;
                  && (s.pendingExecHash != "" <==> s.pendingReason != "")
                  && (s.pendingExecHash != "" ==> IsHash(s.pendingExecHash) && s.pendingExecHash in w.hist.hashes
                                                  && s.pendingExecHash != s.lastSpecHash))
  {
    CoreHolds(cfg, w0, es);
  }

  /** What the status says was run was run. */
  lemma Provenance(cfg: Config, w0: World, es: seq<Event>)
    requires WellNamed(cfg) && Initial(cfg, w0)
    ensures var w := Run(cfg, w0, es);
            w.stored.Some? ==>
              var s := w.stored.value.status;
              && (s.lastSpecHash != "" ==> exists r :: r in w.hist.runs && r.hash == s.lastSpecHash)
              && (s.activeJobName != "" ==> exists r :: r in w.hist.runs && r.name == s.activeJobName)
              && (if w.hist.lastRecorded.Some? then RecordedAs(cfg, s, w.hist.lastRecorded.value) else s.runID == "")
              && (s.activeDestroyJobName != "" ==> s.activeDestroyJobName == cfg.destroyName && w.hist.destroyJobs >= 1)
  {
    CoreHolds(cfg, w0, es);
    var w := Run(cfg, w0, es);
    if w.stored.Some? {
      assert Sourced(w.stored.value.status, w.hist.runs);
    }
  }

  lemma WorkspaceAndPhase(cfg: Config, w0: World, es: seq<Event>)
    requires WellNamed(cfg) && Initial(cfg, w0)
    ensures var w := Run(cfg, w0, es);
            w.stored.Some? ==>
              var s := w.stored.value.status;
              (s.workspaceReady ==> s.workspaceID != "") && s.phase in [NoPhase, Pending, Running, Succeeded, Failed]
  {
    CoreHolds(cfg, w0, es);
  }

  lemma ObservedStep(cfg: Config, w: World, e: Event)
    requires Base(w) && ObservedOk(w.stored, w.worker)
    ensures StoredAfter(w, e).Some? ==>
              && w.stored.Some?
              && w.stored.value.status.observedGeneration <= StoredAfter(w, e).value.status.observedGeneration
  {
    StoredLinks(w, e);
  }

  lemma {:induction false} ObservedGrows(cfg: Config, w: World, es: seq<Event>)
    requires WellNamed(cfg) && Core(cfg, w)
    ensures var w' := Run(cfg, w, es);
            w'.stored.Some? ==>
              && w.stored.Some?
              && w.stored.value.status.observedGeneration <= w'.stored.value.status.observedGeneration
                 <= w'.stored.value.generation
  {
    CoreStays(cfg, w, es);
    if es != [] {
      var m := |es| - 1;
      ObservedGrows(cfg, w, es[..m]);
      CoreStays(cfg, w, es[..m]);
      ObservedStep(cfg, Run(cfg, w, es[..m]), es[m]);
    }
  }

  /** The observed generation never exceeds the generation and never falls. */
  lemma ObservedGenerationGrows(cfg: Config, w0: World, before: seq<Event>, after: seq<Event>)
    requires WellNamed(cfg) && Initial(cfg, w0)
    ensures var w := Run(cfg, w0, before);
            var w' := Run(cfg, w, after);
            w'.stored.Some? ==>
              && w.stored.Some?
              && w.stored.value.status.observedGeneration <= w'.stored.value.status.observedGeneration
                 <= w'.stored.value.generation
  {
    CoreHolds(cfg, w0, before);
    ObservedGrows(cfg, Run(cfg, w0, before), after);
  }

  /* ---------- deletion ---------- */

  /** The finalizer goes only from an object under deletion, after every destroy Job created, at least one, has
      finished; a ready workspace in the status is gone by then. */
  lemma FinalizerGoesLast(cfg: Config, w0: World, es: seq<Event>, e: Event)
    requires WellNamed(cfg) && Initial(cfg, w0)
    requires var w := Run(cfg, w0, es); w.stored.Some? && w.stored.value.finalizer
    requires var w' := Run(cfg, w0, es + [e]); w'.stored.None? || !w'.stored.value.finalizer
    ensures var w := Run(cfg, w0, es);
            && w.stored.value.deleting
            && w.hist.destroyJobs >= 1 && w.hist.destroyFinished == w.hist.destroyJobs
            && (w.stored.value.status.workspaceReady ==> w.stored.value.status.workspaceID !in w.workspaces)
  {
    CoreHolds(cfg, w0, es);
    RunAppends(cfg, w0, es, e);
    FinalizerStep(cfg, Run(cfg, w0, es), e);
  }

  lemma FinalizerStep(cfg: Config, w: World, e: Event)
    requires Core(cfg, w) && w.stored.Some? && w.stored.value.finalizer
    requires StoredAfter(w, e).None? || !StoredAfter(w, e).value.finalizer
    ensures w.stored.value.deleting && DestroyOver(w.hist) && WorkspaceGone(w.stored, w.workspaces)
  {
  }

  /** The remote workspace is deleted only when every destroy Job created, at least one, has finished. */
  lemma WorkspaceOutlivesDestroyJob(cfg: Config, w0: World, es: seq<Event>)
    requires WellNamed(cfg) && Initial(cfg, w0)
    ensures var w := Run(cfg, w0, es);
            w.worker.call.DeleteWorkspace? ==>
              && w.hist.destroyJobs >= 1 && w.hist.destroyFinished == w.hist.destroyJobs
              && (cfg.destroyName in w.jobs ==> w.jobs[cfg.destroyName].finished)
  {
    CoreHolds(cfg, w0, es);
  }

  predicate NotServed(es: seq<Event>) { forall e | e in es :: !e.Serve? && !e.Crash? }

  lemma {:induction false} WorkerWaits(cfg: Config, w: World, es: seq<Event>)
    requires NotServed(es)
    ensures Run(cfg, w, es).worker == w.worker
  {
    if es != [] {
      WorkerWaits(cfg, w, es[..|es| - 1]);
    }
  }

  lemma NoteEndsReconcile(cfg: Config, w: World, e: Event)
    requires w.worker.call == WriteStatus(Note) && (e.Serve? || e.Crash?)
    ensures var w' := Step(cfg, w, e);
            && w'.worker.call.Idle? && w'.workspaces == w.workspaces && w'.jobs == w.jobs
            && (w.stored.Some? ==> w'.stored.Some? && w'.stored.value.finalizer == w.stored.value.finalizer)
  {
  }

  /** A reconcile that finds the destroy Job failed neither deletes the workspace nor removes the finalizer: the read
      itself changes neither, and after whatever happens meanwhile its next call, landing, lost or cut off by a crash,
      changes neither and ends it. */
  lemma FailedDestroyIsOnlyNoted(cfg: Config, w: World, id: string, meanwhile: seq<Event>, e: Event)
    requires w.worker.call.FetchDestroyJob? && w.worker.mem.status.activeDestroyJobName in w.jobs
    requires var j := w.jobs[w.worker.mem.status.activeDestroyJobName];
             IsJobFailed(j) && !IsJobActive(j) && !IsJobSucceeded(j)
    requires NotServed(meanwhile) && (e.Serve? || e.Crash?)
    ensures var read := Step(cfg, w, Serve(Done, id));
            read.workspaces == w.workspaces && read.stored == w.stored
    ensures var before := Run(cfg, Step(cfg, w, Serve(Done, id)), meanwhile);
            var w' := Step(cfg, before, e);
            && w'.worker.call.Idle? && w'.workspaces == before.workspaces
            && (before.stored.Some? ==>
                  w'.stored.Some? && w'.stored.value.finalizer == before.stored.value.finalizer)
  {
    var read := Step(cfg, w, Serve(Done, id));
    assert read.worker.call == WriteStatus(Note);
    WorkerWaits(cfg, read, meanwhile);
    NoteEndsReconcile(cfg, Run(cfg, read, meanwhile), e);
  }

  lemma FrozenStep(cfg: Config, w: World, e: Event)
    requires Base(w) && FrozenOk(w.stored, w.worker) && w.stored.Some? && w.stored.value.deleting
    ensures StoredAfter(w, e).Some? ==>
              StoredAfter(w, e).value.deleting && Frozen(StoredAfter(w, e).value.status, w.stored.value.status)
  {
  }

  /** A reconcile that may still create an apply Job. */
  predicate MayCreate(c: Call) {
    c.AddFinalizer? || ResumesAfterWorkspace(c) || (ApplySide(c) && !c.RefetchToAdopt?)
  }

  lemma MayCreateStep(cfg: Config, w: World, e: Event)
    requires Base(w) && w.stored.Some? && w.stored.value.deleting
    ensures |RunsAfter(cfg, w, e)| + Count(MayCreate(WorkerAfter(cfg, w, e).call))
            <= |w.hist.runs| + Count(MayCreate(w.worker.call))
  {
    if e.Serve? {
      ServedMoves(cfg, w, e.outcome, e.id);
    }
  }

  lemma GoneStaysGone(cfg: Config, w: World, e: Event)
    requires Base(w) && w.stored.None?
    ensures StoredAfter(w, e).None? && RunsAfter(cfg, w, e) == w.hist.runs
  {
  }

  lemma {:induction false} DeletionFreezes(cfg: Config, w: World, es: seq<Event>)
    requires WellNamed(cfg) && Core(cfg, w) && w.stored.Some? && w.stored.value.deleting
    ensures var w' := Run(cfg, w, es);
            && (w'.stored.Some? ==> w'.stored.value.deleting && Frozen(w'.stored.value.status, w.stored.value.status))
            && |w'.hist.runs| + Count(w'.stored.Some? && MayCreate(w'.worker.call))
               <= |w.hist.runs| + Count(MayCreate(w.worker.call))
  {
    if es != [] {
      var m := |es| - 1;
      DeletionFreezes(cfg, w, es[..m]);
      CoreStays(cfg, w, es[..m]);
      var w' := Run(cfg, w, es[..m]);
      if w'.stored.Some? {
        FrozenStep(cfg, w', es[m]);
        MayCreateStep(cfg, w', es[m]);
      } else {
        GoneStaysGone(cfg, w', es[m]);
      }
    }
  }

  /** Once the deletion is stored, the record of the apply side does not change any more.  A reconcile in flight may
      create one more apply Job; one that reads the object afterwards creates none. */
  lemma DeletionFreezesApplySide(cfg: Config, w0: World, before: seq<Event>, after: seq<Event>)
    requires WellNamed(cfg) && Initial(cfg, w0)
    requires var w := Run(cfg, w0, before); w.stored.Some? && w.stored.value.deleting
    ensures var w := Run(cfg, w0, before);
            var w' := Run(cfg, w, after);
            && (w'.stored.Some? ==> w'.stored.value.deleting && Frozen(w'.stored.value.status, w.stored.value.status))
            && |w'.hist.runs| <= |w.hist.runs| + Count(MayCreate(w.worker.call))
  {
    CoreHolds(cfg, w0, before);
    DeletionFreezes(cfg, Run(cfg, w0, before), after);
  }

  /* ---------- remote workspaces ---------- */

  /** Every workspace created or imported has been stored once, was lost on the way, or is about to be stored; ids are
      stored at most once more than they are cleared. */
  lemma WorkspaceAccounts(cfg: Config, w0: World, es: seq<Event>)
    requires WellNamed(cfg) && Initial(cfg, w0)
    ensures var w := Run(cfg, w0, es);
            var h := w.hist;
            && h.workspacesCreated + h.imports ==
                 h.recorded + h.lostWorkspaces + Count(w.worker.call == WriteStatus(NewWorkspace))
            && h.clears <= h.recorded <= h.clears + 1
            && (w.stored.Some? ==> h.recorded == h.clears + Count(w.stored.value.status.workspaceID != ""))
            && h.workspacesCreated <= 1 + h.clears + h.lostWorkspaces
  {
    CoreHolds(cfg, w0, es);
    var w := Run(cfg, w0, es);
    if w.worker.call == WriteStatus(NewWorkspace) {
      assert w.stored.Some? && WriteDiffers(NewWorkspace, w.worker.mem.status, w.stored.value.status);
    }
  }

  predicate Imports(stored: Option<TfRun>, k: Worker) {
    && (stored.Some? ==> stored.value.importId != "")
    && (InReconcile(k) ==> k.mem.importId != "")
    && !k.call.EnsureWorkspace?
  }

  lemma ImportsKept(cfg: Config, w: World, e: Event)
    requires Base(w) && Imports(w.stored, w.worker) && Permits(cfg, ImportStaysSet, w, e)
    ensures Imports(StoredAfter(w, e), WorkerAfter(cfg, w, e))
  {
    WorkerLinks(cfg, w, e);
    if e.Serve? {
      ServedMoves(cfg, w, e.outcome, e.id);
    }
  }

  /** A TfRun that imports its workspace creates none. */
  lemma {:induction false} ImportCreatesNone(cfg: Config, w0: World, es: seq<Event>)
    requires WellNamed(cfg) && Initial(cfg, w0) && w0.stored.value.importId != ""
             && Obeys(cfg, {ImportStaysSet}, w0, es)
    ensures var w := Run(cfg, w0, es); Imports(w.stored, w.worker) && w.hist.workspacesCreated == 0
  {
    if es != [] {
      var m := |es| - 1;
      ImportCreatesNone(cfg, w0, es[..m]);
      CoreHolds(cfg, w0, es[..m]);
      ImportsKept(cfg, Run(cfg, w0, es[..m]), es[m]);
    }
  }

  /** A reconcile that began with a workspace id creates an apply Job only after its remote check succeeded. */
  lemma CheckedBeforeRun(cfg: Config, w0: World, es: seq<Event>)
    requires WellNamed(cfg) && Initial(cfg, w0)
    ensures var k := Run(cfg, w0, es).worker;
            k.call.CreateJob? ==> k.mem.spec.backend.cloud.Some? && (k.hadWorkspace ==> k.verified)
  {
    CoreHolds(cfg, w0, es);
  }

  /** An apply Job is created without a recorded workspace exactly by a reconcile that has gone on from a workspace it
      could not get. */
  lemma WorkspaceBeforeRunUnlessUnsettled(cfg: Config, w0: World, es: seq<Event>)
    requires WellNamed(cfg) && Initial(cfg, w0)
    ensures var k := Run(cfg, w0, es).worker;
            k.call.CreateJob? ==> (k.mem.status.workspaceID == "" <==> k.unsettled)
  {
    CoreHolds(cfg, w0, es);
  }

  predicate Provided(stored: Option<TfRun>, k: Worker) {
    && (stored.Some? ==> UsesSupportedProvider(stored.value.spec))
    && (InReconcile(k) ==> UsesSupportedProvider(k.mem.spec) && !k.unsettled)
    && k.call != WriteStatus(Resume)
  }

  /** The calls that may be followed by a note on the workspace. */
  predicate SettlesWorkspace(c: Call) { c.Idle? || c.AddFinalizer? || c.EnsureWorkspace? || c.ImportWorkspace? }

  lemma ServedWorkspaceSettles(cfg: Config, w: World, o: Outcome, id: string)
    requires Provided(w.stored, w.worker) && Permits(cfg, WorkspacesServed, w, Serve(o, id))
    requires SettlesWorkspace(w.worker.call)
    ensures ServedTurn(cfg, w, o, id).call != WriteStatus(Resume)
  {
  }

  lemma OnlySettlersResume(cfg: Config, w: World, o: Outcome, turn: Turn)
    requires Route(cfg, w, o, turn) && !SettlesWorkspace(w.worker.call)
    ensures turn.call != WriteStatus(Resume)
  {
  }

  lemma ResumedProvided(w: World, o: Outcome)
    requires Provided(w.stored, w.worker)
    ensures var k := Resumed(w, o);
            InReconcile(w.worker) || (w.worker.call.Idle? && o.Done? && w.stored.Some?) ==>
              UsesSupportedProvider(k.mem.spec) && !k.unsettled
  {
  }

  lemma ProvidedKept(cfg: Config, w: World, e: Event)
    requires Provided(w.stored, w.worker) && Permits(cfg, WorkspacesServed, w, e)
    ensures Provided(StoredAfter(w, e), WorkerAfter(cfg, w, e))
  {
    hide ServedTurn, Resumed, UsesSupportedProvider;
    if e.Serve? {
      ServedMoves(cfg, w, e.outcome, e.id);
      ResumedProvided(w, e.outcome);
      RouteHoldsObject(cfg, w, e.outcome, ServedTurn(cfg, w, e.outcome, e.id));
      if SettlesWorkspace(w.worker.call) {
        ServedWorkspaceSettles(cfg, w, e.outcome, e.id);
      } else {
        OnlySettlersResume(cfg, w, e.outcome, ServedTurn(cfg, w, e.outcome, e.id));
      }
    }
  }

  lemma {:induction false} ProvidedHolds(cfg: Config, w0: World, es: seq<Event>)
    requires Initial(cfg, w0) && UsesSupportedProvider(w0.stored.value.spec) && Obeys(cfg, {WorkspacesServed}, w0, es)
    ensures var w := Run(cfg, w0, es); Provided(w.stored, w.worker)
  {
    if es != [] {
      var m := |es| - 1;
      ProvidedHolds(cfg, w0, es[..m]);
      ProvidedKept(cfg, Run(cfg, w0, es[..m]), es[m]);
    }
  }

  /** When workspaces are created and found when asked for, no apply Job is created without one. */
  lemma ServedWorkspacesComeFirst(cfg: Config, w0: World, es: seq<Event>)
    requires WellNamed(cfg) && Initial(cfg, w0) && UsesSupportedProvider(w0.stored.value.spec)
    requires Obeys(cfg, {WorkspacesServed}, w0, es)
    ensures var k := Run(cfg, w0, es).worker; k.call.CreateJob? ==> k.mem.status.workspaceID != ""
  {
    CoreHolds(cfg, w0, es);
    ProvidedHolds(cfg, w0, es);
  }

  predicate WithoutCloud(stored: Option<TfRun>, k: Worker, h: History) {
    && (stored.Some? ==> stored.value.spec.backend.cloud.None?)
    && (InReconcile(k) ==> k.mem.spec.backend.cloud.None?)
    && h.runs == [] && h.destroyJobs == 0
  }

  lemma WithoutCloudKept(cfg: Config, w: World, e: Event)
    requires RunOnItsWay(cfg, w.worker, w.clock) && WithoutCloud(w.stored, w.worker, w.hist)
    requires Permits(cfg, StaysWithoutCloud, w, e)
    ensures WithoutCloud(StoredAfter(w, e), WorkerAfter(cfg, w, e), HistoryAfter(cfg, w, e))
    ensures JobsAfter(cfg, w, e) == map[] || w.jobs != map[]
  {
    WorkerLinks(cfg, w, e);
  }

  /** No Job of either kind is created for a TfRun without a cloud backend. */
  lemma {:induction false} NoCloudNoJob(cfg: Config, w0: World, es: seq<Event>)
    requires WellNamed(cfg) && Initial(cfg, w0) && w0.stored.value.spec.backend.cloud.None?
    requires Obeys(cfg, {StaysWithoutCloud}, w0, es)
    ensures var w := Run(cfg, w0, es); WithoutCloud(w.stored, w.worker, w.hist) && w.jobs == map[]
  {
    if es != [] {
      var m := |es| - 1;
      NoCloudNoJob(cfg, w0, es[..m]);
      CoreHolds(cfg, w0, es[..m]);
      WithoutCloudKept(cfg, Run(cfg, w0, es[..m]), es[m]);
    }
  }
}
