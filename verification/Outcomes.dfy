/** What the stored outcome of a run is worth, and that a destroy Job is waited for. */
module Outcomes {
  import opened Types
  import opened Machine
  import opened Turns
  import opened Rules
  import opened CopyInvariants
  import opened JobInvariants
  import opened DeletionInvariants
  import opened AllInvariants
  import opened Theorems
  import opened Replies

  /* ---------- a stored success ---------- */

  /** A reconcile reads the recorded Job here, and the Job is over and has succeeded without a failed pod. */
  predicate SeesSuccess(w: World, e: Event) {
    e.Serve? && e.outcome.Done? && w.worker.call.FetchJob? && JobSucceeded(w, w.worker.mem.status.activeJobName)
  }

  /** The names under which a successful Job has been read so far. */
  function SeenSucceeded(cfg: Config, w: World, es: seq<Event>): set<string> {
    if es == [] then {}
    else
      var m := |es| - 1;
      var before := Run(cfg, w, es[..m]);
      SeenSucceeded(cfg, w, es[..m])
      + if SeesSuccess(before, es[m]) then {before.worker.mem.status.activeJobName} else {}
  }

  predicate SuccessOk(stored: Option<TfRun>, k: Worker, seen: set<string>) {
    && (stored.Some? && stored.value.status.phase.Succeeded? ==> stored.value.status.activeJobName in seen)
    && (InReconcile(k) && k.mem.status.phase.Succeeded? ==> k.mem.status.activeJobName in seen)
  }

  lemma WrittenSuccess(cfg: Config, w: World, o: Outcome, id: string, t: TfRun, s: Status, p: Purpose)
    requires StatusFor(cfg, w, o, id, t, s, p) && s.phase.Succeeded?
    requires w.worker.call.FetchJob? ==> t == w.worker.mem
    ensures s.activeJobName == t.status.activeJobName
    ensures t.status.phase.Succeeded? || SeesSuccess(w, Serve(o, id))
  {
  }

  lemma SuccessKept(cfg: Config, w: World, e: Event, seen: set<string>)
    requires Base(w) && SuccessOk(w.stored, w.worker, seen)
    ensures SuccessOk(StoredAfter(w, e), WorkerAfter(cfg, w, e),
                      seen + if SeesSuccess(w, e) then {w.worker.mem.status.activeJobName} else {})
  {
    hide StoredAfter, WorkerAfter, StatusFor, Route;
    StoredLinks(w, e);
    WorkerLinks(cfg, w, e);
    var k := WorkerAfter(cfg, w, e);
    if InReconcile(k) && k != w.worker && k.mem.status.phase.Succeeded? {
      var t := Resumed(w, e.outcome).mem;
      if k.mem.status != t.status {
        WrittenSuccess(cfg, w, e.outcome, e.id, t, k.mem.status, k.call.purpose);
      }
    }
  }

  lemma {:induction false} SuccessHolds(cfg: Config, w0: World, es: seq<Event>)
    requires WellNamed(cfg) && Initial(cfg, w0)
    ensures var w := Run(cfg, w0, es); SuccessOk(w.stored, w.worker, SeenSucceeded(cfg, w0, es))
  {
    hide StoredAfter, WorkerAfter, JobsAfter, WorkspacesAfter, HistoryAfter;
    if es != [] {
      var m := |es| - 1;
      SuccessHolds(cfg, w0, es[..m]);
      CoreHolds(cfg, w0, es[..m]);
      SuccessKept(cfg, Run(cfg, w0, es[..m]), es[m], SeenSucceeded(cfg, w0, es[..m]));
    }
  }

  /** At this point of the run the recorded Job is read under this name: it is finished and has succeeded. */
  predicate ReadAsSucceeded(cfg: Config, w0: World, es: seq<Event>, i: nat, name: string)
    requires i < |es|
  {
    var w := Run(cfg, w0, es[..i]);
    && SeesSuccess(w, es[i]) && w.worker.mem.status.activeJobName == name
    && w.jobs[name].finished
  }

  lemma {:induction false} SeenWasRead(cfg: Config, w0: World, es: seq<Event>, name: string) returns (i: nat)
    requires WellNamed(cfg) && Initial(cfg, w0) && name in SeenSucceeded(cfg, w0, es)
    ensures i < |es| && ReadAsSucceeded(cfg, w0, es, i, name)
  {
    hide Step;
    var m := |es| - 1;
    if name in SeenSucceeded(cfg, w0, es[..m]) {
      i := SeenWasRead(cfg, w0, es[..m], name);
      assert es[..m][..i] == es[..i];
    } else {
      i := m;
      CoreHolds(cfg, w0, es[..m]);
    }
  }

  /** In every run the stored phase is Succeeded only if the very Job that is recorded as the active one was read, at an
      earlier point of the run, as finished with a success and without a failed or active pod. */
  lemma SucceededIsTrue(cfg: Config, w0: World, es: seq<Event>)
    requires WellNamed(cfg) && Initial(cfg, w0)
    ensures var w := Run(cfg, w0, es);
            w.stored.Some? && w.stored.value.status.phase.Succeeded? ==>
              exists i | 0 <= i < |es| :: ReadAsSucceeded(cfg, w0, es, i, w.stored.value.status.activeJobName)
  {
    hide Step;
    SuccessHolds(cfg, w0, es);
    var w := Run(cfg, w0, es);
    if w.stored.Some? && w.stored.value.status.phase.Succeeded? {
      var i := SeenWasRead(cfg, w0, es, w.stored.value.status.activeJobName);
    }
  }

  /* ---------- a destroy Job that runs ---------- */

  /** The object is under deletion, with this status, and its recorded destroy Job still runs; no reconcile has got
      further than to the read of that Job. */
  predicate Awaits(cfg: Config, w: World, s: Status) {
    && w.stored.Some? && w.stored.value.deleting && w.stored.value.finalizer && w.stored.value.status == s
    && s.activeDestroyJobName in w.jobs && s.activeDestroyJobName != ""
    && StillRuns(w.jobs[s.activeDestroyJobName]) && !w.jobs[s.activeDestroyJobName].finished
    && (w.worker.call.Idle? || (w.worker.call.FetchDestroyJob? && w.worker.mem.status == s))
  }

  /** The recorded destroy Job goes on running, and no workspace is lost. */
  predicate DestroyGoesOn(s: Status, e: Event) {
    && (e.Progress? && e.name == s.activeDestroyJobName ==>
          e.report.active > 0 || (e.report.succeeded == 0 && e.report.failed == 0))
    && !e.LoseWorkspace?
  }

  lemma AwaitsKept(cfg: Config, w: World, e: Event, s: Status)
    requires Awaits(cfg, w, s) && DestroyGoesOn(s, e)
    ensures Awaits(cfg, Step(cfg, w, e), s)
    ensures WorkspacesAfter(w, e) == w.workspaces && RunsAfter(cfg, w, e) == w.hist.runs
    ensures JobsAfter(cfg, w, e).Keys <= w.jobs.Keys
  {
    hide HistoryAfter;
  }

  /** As long as the recorded destroy Job runs, no number of reconciles does anything, whatever else is done to the
      object and whichever reads fail: the status stays, with the Job's name in it, the finalizer and the workspaces
      stay, and no Job is created. */
  lemma {:induction false} RunningDestroyJobIsAwaited(cfg: Config, w: World, es: seq<Event>, s: Status)
    requires Awaits(cfg, w, s) && forall e | e in es :: DestroyGoesOn(s, e)
    ensures var w' := Run(cfg, w, es);
            && Awaits(cfg, w', s) && w'.workspaces == w.workspaces && w'.hist.runs == w.hist.runs
            && w'.jobs.Keys <= w.jobs.Keys
  {
    hide Awaits;
    if es != [] {
      var m := |es| - 1;
      RunningDestroyJobIsAwaited(cfg, w, es[..m], s);
      AwaitsKept(cfg, Run(cfg, w, es[..m]), es[m], s);
    }
  }
}
