/** After the last edit that matters, every fair run comes to rest, and stays there. */
module FairRuns {
  import opened Types
  import opened Machine
  import opened Turns
  import opened Rules
  import opened CopyInvariants
  import opened StatusInvariants
  import opened JobInvariants
  import opened WorkspaceInvariants
  import opened AllInvariants
  import opened Convergence
  import opened Schedules
  import opened Theorems

  /* ---------- how far a state is from rest ---------- */

  /** What is to be done for the object: its runs, or else a next run time to clear; and a workspace to record. */
  function Todo(cfg: Config, t: TfRun): nat {
    (if RunsLeft(cfg, t) > 0 then RunsLeft(cfg, t) else Count(t.status.nextRunTime.Some?))
    + Count(t.status.workspaceID == "")
  }

  /** The object with the coming write counted as stored. */
  function Coming(w: World): TfRun
    requires w.stored.Some?
  {
    if w.worker.call.WriteStatus? then w.worker.mem else w.stored.value
  }

  /** Nothing is left to do, no reconcile is in flight, and no recorded Job is left to report on. */
  predicate AtRest(cfg: Config, w: World) {
    && w.stored.Some? && w.worker.call.Idle?
    && Todo(cfg, w.stored.value) == 0 && w.stored.value.finalizer && w.stored.value.status.activeJobName !in w.jobs
  }

  /** Calls to go until a run is recorded or the reconcile ends; more when the workspace could not be got. */
  function CallsToGo(cfg: Config, w: World): (n: nat)
    ensures n <= 17
  {
    var delay := if w.worker.unsettled then 10 else 0;
    match w.worker.call
    case Idle => if AtRest(cfg, w) then 0 else 10
    case AddFinalizer => 9
    case CheckWorkspace | EnsureWorkspace | ImportWorkspace => 8
    case FetchJob => 6 + delay
    case FetchSecret(_, _) => 5 + delay
    case CreateJob(_, _) => 4 + delay
    case RefetchToAdopt(_) => 12
    case WriteStatus(p) => if p.Resume? then 17 else if p.NewWorkspace? || p.Imported? then 7 else 11
    case _ => 0
  }

  function Distance(cfg: Config, w: World): nat
    requires w.stored.Some?
  {
    18 * Todo(cfg, Coming(w)) + CallsToGo(cfg, w)
  }

  /** The pending call is answered and meets no obstacle. */
  predicate Smooth(cfg: Config, w: World, e: Event) {
    && e.Serve? && e.outcome.Done?
    && match w.worker.call
       case AddFinalizer => Current(w)
       case WriteStatus(_) => Current(w)
       case CheckWorkspace => w.worker.mem.status.workspaceID in w.workspaces
       case EnsureWorkspace => e.id != "" && e.id !in w.hist.workspaceIds
       case ImportWorkspace => e.id != "" && e.id in w.workspaces
       case FetchJob => w.worker.mem.status.activeJobName !in w.jobs
       case CreateJob(_, _) => JobNameCreated(cfg, w.worker) !in w.jobs
       case _ => true
  }

  /** A call that fails or meets an obstacle, or a crash. */
  predicate Obstacle(cfg: Config, w: World, e: Event) { e.Crash? || (e.Serve? && !Smooth(cfg, w, e)) }

  /** The object is wanted: not under deletion, with a supported spec and no interval; the copy is not behind. */
  predicate Wanted(w: World) {
    && w.stored.Some? && !w.stored.value.deleting && Supported(w.stored.value.spec)
    && SameSpec(w.stored, w.worker)
    && (InReconcile(w.worker) ==> !w.worker.mem.deleting && Supported(w.worker.mem.spec))
  }

  const SETTLING: set<Rule> := {OnlyUnhashedEdits, StaysWanted, EditsStaySupported}

  ghost predicate Settling(cfg: Config, w: World, e: Event) {
    && Permits(cfg, OnlyUnhashedEdits, w, e)
    && Permits(cfg, StaysWanted, w, e)
    && Permits(cfg, EditsStaySupported, w, e)
  }

  lemma WantedKept(cfg: Config, w: World, e: Event)
    requires Base(w) && Wanted(w) && Settling(cfg, w, e)
    ensures Wanted(Step(cfg, w, e))
  {
    SameSpecKept(cfg, w, e);
    WantedStored(w, e);
    WorkerLinks(cfg, w, e);
  }

  lemma WantedStored(w: World, e: Event)
    requires Base(w) && w.stored.Some? && !w.stored.value.deleting && Supported(w.stored.value.spec)
    requires !e.RequestDelete? && (e.Edit? ==> Supported(e.spec))
    ensures var stored := StoredAfter(w, e); stored.Some? && !stored.value.deleting && Supported(stored.value.spec)
  {
  }

  /* ---------- what a served call does to what is to be done ---------- */

  /** After the decision of a reconcile that sees no Job. */
  predicate DecisionFalls(cfg: Config, t: TfRun, turn: Turn) {
    || (turn.call.FetchSecret? && turn.status == t.status)
    || (turn.call == WriteStatus(Note) && Todo(cfg, t.(status := turn.status)) < Todo(cfg, t))
    || (turn.call.Idle? && Todo(cfg, t) == Count(t.status.workspaceID == ""))
  }

  lemma DecideFalls(cfg: Config, t: TfRun, now: int)
    requires Supported(t.spec) && t.spec.runInterval.None?
    requires t.status.pendingExecHash != "" ==> 8 <= |t.status.pendingExecHash|
    ensures DecisionFalls(cfg, t, Decide(cfg, t, None, now))
  {
  }

  lemma AfterWorkspaceFalls(cfg: Config, t: TfRun, now: int)
    requires Supported(t.spec) && t.spec.runInterval.None?
    requires t.status.pendingExecHash != "" ==> 8 <= |t.status.pendingExecHash|
    ensures var turn := AfterWorkspace(cfg, t, now);
            if t.status.activeJobName == "" then DecisionFalls(cfg, t, turn) else turn == Go(t, FetchJob)
  {
    DecideFalls(cfg, t, now);
  }

  /* ---------- every smooth call comes nearer to rest ---------- */

  /** The worker is nearer to rest after this turn. */
  predicate Nearer(cfg: Config, w: World, w': World) {
    w.stored.Some? && w'.stored.Some? && Distance(cfg, w') < Distance(cfg, w)
  }

  lemma ReadNearer(cfg: Config, w: World, id: string)
    requires Base(w) && Wanted(w) && w.worker.call.Idle? && !AtRest(cfg, w)
    ensures Nearer(cfg, w, Step(cfg, w, Serve(Done, id)))
  {
  }

  lemma FinalizerNearer(cfg: Config, w: World, id: string)
    requires Base(w) && Wanted(w) && w.worker.call.AddFinalizer? && Smooth(cfg, w, Serve(Done, id))
    ensures Nearer(cfg, w, Step(cfg, w, Serve(Done, id)))
  {
  }

  lemma MadeNearer(cfg: Config, w: World, id: string)
    requires Base(w) && Wanted(w) && (w.worker.call.EnsureWorkspace? || w.worker.call.ImportWorkspace?)
    requires Smooth(cfg, w, Serve(Done, id))
    ensures Nearer(cfg, w, Step(cfg, w, Serve(Done, id)))
  {
  }

  lemma SecretNearer(cfg: Config, w: World, id: string)
    requires Base(w) && Wanted(w) && w.worker.call.FetchSecret?
    ensures Nearer(cfg, w, Step(cfg, w, Serve(Done, id)))
  {
  }

  lemma CreateNearer(cfg: Config, w: World, id: string)
    requires Base(w) && Wanted(w) && RunOnItsWay(cfg, w.worker, w.clock)
    requires w.worker.call.CreateJob? && Smooth(cfg, w, Serve(Done, id))
    ensures Nearer(cfg, w, Step(cfg, w, Serve(Done, id)))
  {
  }

  lemma AdoptNearer(cfg: Config, w: World, id: string)
    requires Base(w) && Wanted(w) && w.worker.call.RefetchToAdopt?
    ensures Nearer(cfg, w, Step(cfg, w, Serve(Done, id)))
  {
  }

  lemma EndingWriteNearer(cfg: Config, w: World, id: string)
    requires Base(w) && Wanted(w) && w.worker.call.WriteStatus? && !ResumesAfterWorkspace(w.worker.call)
    requires Smooth(cfg, w, Serve(Done, id))
    ensures Nearer(cfg, w, Step(cfg, w, Serve(Done, id)))
  {
  }

  lemma JobNearer(cfg: Config, w: World, id: string)
    requires Base(w) && Wanted(w) && PendingOk(w.stored, w.worker, w.hist.hashes) && SettledOk(w.worker)
    requires w.worker.call.FetchJob? && Smooth(cfg, w, Serve(Done, id))
    ensures Nearer(cfg, w, Step(cfg, w, Serve(Done, id)))
  {
    hide Step;
    FetchAnswered(cfg, w, id);
    DecideFalls(cfg, w.worker.mem, w.clock);
    NoJobNearer(cfg, w, Decide(cfg, w.worker.mem, None, w.clock));
  }

  lemma NoJobNearer(cfg: Config, w: World, turn: Turn)
    requires w.stored.Some? && w.stored.value.finalizer && SameSpec(w.stored, w.worker) && SettledOk(w.worker)
    requires w.worker.call.FetchJob? && w.worker.mem.status == w.stored.value.status
    requires w.worker.mem.spec.backend.cloud.Some? && w.worker.mem.status.activeJobName !in w.jobs
    requires DecisionFalls(cfg, w.worker.mem, turn)
    ensures Nearer(cfg, w, w.(worker := Take(w.worker, turn)))
  {
  }

  lemma CheckNearer(cfg: Config, w: World, id: string)
    requires Base(w) && Wanted(w) && PendingOk(w.stored, w.worker, w.hist.hashes) && SettledOk(w.worker)
             && "" !in w.jobs
    requires w.worker.call.CheckWorkspace? && Smooth(cfg, w, Serve(Done, id))
    ensures Nearer(cfg, w, Step(cfg, w, Serve(Done, id)))
  {
    AfterWorkspaceFalls(cfg, w.worker.mem, w.clock);
  }

  lemma ResumingWriteServed(cfg: Config, w: World, id: string)
    requires ResumesAfterWorkspace(w.worker.call) && Current(w)
    ensures var k, w' := w.worker, Step(cfg, w, Serve(Done, id));
            && w'.stored == Some(Bump(w.stored.value).(status := k.mem.status)) && w'.jobs == w.jobs
            && w'.worker == Take(k.(mem := Bump(k.mem), unsettled := k.unsettled || k.call.purpose.Resume?),
                                 AfterWorkspace(cfg, Bump(k.mem), w.clock))
  {
  }

  lemma ResumingWriteNearer(cfg: Config, w: World, id: string)
    requires Base(w) && Wanted(w) && PendingOk(w.stored, w.worker, w.hist.hashes) && SettledOk(w.worker)
             && "" !in w.jobs
    requires ResumesAfterWorkspace(w.worker.call) && Smooth(cfg, w, Serve(Done, id))
    ensures Nearer(cfg, w, Step(cfg, w, Serve(Done, id)))
  {
    hide Step;
    ResumingWriteServed(cfg, w, id);
    AfterWorkspaceFalls(cfg, Bump(w.worker.mem), w.clock);
    ResumingNearer(cfg, w, Step(cfg, w, Serve(Done, id)), AfterWorkspace(cfg, Bump(w.worker.mem), w.clock));
  }

  lemma ResumingNearer(cfg: Config, w: World, w': World, turn: Turn)
    requires w.stored.Some? && w.stored.value.finalizer && SameSpec(w.stored, w.worker) && SettledOk(w.worker)
    requires "" !in w.jobs && ResumesAfterWorkspace(w.worker.call) && !w.worker.mem.deleting
    requires var k, t := w.worker, Bump(w.worker.mem);
             && w'.stored == Some(Bump(w.stored.value).(status := k.mem.status)) && w'.jobs == w.jobs
             && w'.worker == Take(k.(mem := t, unsettled := k.unsettled || k.call.purpose.Resume?), turn)
             && if t.status.activeJobName == "" then DecisionFalls(cfg, t, turn) else turn == Go(t, FetchJob)
    ensures Nearer(cfg, w, w')
  {
  }

  lemma NoJobWithoutName(cfg: Config, w: World)
    requires WellNamed(cfg) && JobsSound(cfg, w.jobs, w.hist.runs) && RunsSound(cfg, w.hist.runs)
    ensures "" !in w.jobs
  {
    forall n | n in w.jobs
      ensures n != ""
    {
      assert JobSound(cfg, n, w.jobs[n], w.hist.runs);
    }
  }

  lemma SmoothIsNearer(cfg: Config, w: World, e: Event)
    requires WellNamed(cfg) && Core(cfg, w) && Wanted(w) && !AtRest(cfg, w) && Smooth(cfg, w, e)
    ensures Nearer(cfg, w, Step(cfg, w, e))
  {
    hide Step;
    NoJobWithoutName(cfg, w);
    match w.worker.call
    case Idle => ReadNearer(cfg, w, e.id);
    case AddFinalizer => FinalizerNearer(cfg, w, e.id);
    case CheckWorkspace => CheckNearer(cfg, w, e.id);
    case EnsureWorkspace | ImportWorkspace => MadeNearer(cfg, w, e.id);
    case FetchJob => JobNearer(cfg, w, e.id);
    case FetchSecret(_, _) => SecretNearer(cfg, w, e.id);
    case CreateJob(_, _) => CreateNearer(cfg, w, e.id);
    case RefetchToAdopt(_) => AdoptNearer(cfg, w, e.id);
    case WriteStatus(_) =>
      if ResumesAfterWorkspace(w.worker.call) {
        ResumingWriteNearer(cfg, w, e.id);
      } else {
        EndingWriteNearer(cfg, w, e.id);
      }
    case _ =>
  }

  /* ---------- no step leads far away ---------- */

  /** Rest is never farther than this. */
  lemma DistanceIsBounded(cfg: Config, w: World)
    requires w.stored.Some?
    ensures Distance(cfg, w) <= 71
  {
  }

  /** Time, Job reports, removed Jobs, lost workspaces and edits of what is not hashed lead no farther away. */
  lemma EnvironmentIsNoFarther(cfg: Config, w: World, e: Event)
    requires Base(w) && Wanted(w) && Settling(cfg, w, e) && !e.Serve? && !e.Crash?
    ensures var w' := Step(cfg, w, e); w'.stored.Some? && Distance(cfg, w') <= Distance(cfg, w)
  {
    hide HistoryAfter, Todo, JobsAfter, WorkspacesAfter, Base, CallsToGo;
    EnvironmentKeepsTodo(cfg, w, e);
    EnvironmentKeepsCalls(cfg, w, e);
  }

  lemma EnvironmentKeepsTodo(cfg: Config, w: World, e: Event)
    requires Base(w) && Wanted(w) && Settling(cfg, w, e) && !e.Serve? && !e.Crash?
    ensures var stored := StoredAfter(w, e);
            && stored.Some? && Todo(cfg, stored.value) == Todo(cfg, w.stored.value)
            && stored.value.status == w.stored.value.status && stored.value.finalizer == w.stored.value.finalizer
  {
  }

  lemma EnvironmentKeepsCalls(cfg: Config, w: World, e: Event)
    requires w.stored.Some? && !e.Serve? && !e.Crash?
    requires var stored := StoredAfter(w, e);
             && stored.Some? && Todo(cfg, stored.value) == Todo(cfg, w.stored.value)
             && stored.value.status == w.stored.value.status && stored.value.finalizer == w.stored.value.finalizer
    ensures CallsToGo(cfg, Step(cfg, w, e)) <= CallsToGo(cfg, w)
  {
    hide HistoryAfter, Todo, StoredAfter;
  }

  /* ---------- whole runs ---------- */

  /** How many calls of the run are smooth, and how many obstacles it meets. */
  function Smooths(cfg: Config, w: World, es: seq<Event>): nat {
    if es == [] then 0
    else var m := |es| - 1; Smooths(cfg, w, es[..m]) + Count(Smooth(cfg, Run(cfg, w, es[..m]), es[m]))
  }

  function Obstacles(cfg: Config, w: World, es: seq<Event>): nat {
    if es == [] then 0
    else var m := |es| - 1; Obstacles(cfg, w, es[..m]) + Count(Obstacle(cfg, Run(cfg, w, es[..m]), es[m]))
  }

  lemma {:induction false} WantedHolds(cfg: Config, w: World, es: seq<Event>)
    requires WellNamed(cfg) && Core(cfg, w) && Wanted(w) && Obeys(cfg, SETTLING, w, es)
    ensures Wanted(Run(cfg, w, es))
  {
    if es != [] {
      var m := |es| - 1;
      WantedHolds(cfg, w, es[..m]);
      CoreStays(cfg, w, es[..m]);
      WantedKept(cfg, Run(cfg, w, es[..m]), es[m]);
    }
  }

  lemma StepCounts(cfg: Config, w: World, e: Event)
    requires WellNamed(cfg) && Core(cfg, w) && Wanted(w) && Settling(cfg, w, e) && !AtRest(cfg, w)
    ensures var w' := Step(cfg, w, e);
            && w'.stored.Some?
            && Distance(cfg, w') + Count(Smooth(cfg, w, e)) <= Distance(cfg, w) + 71 * Count(Obstacle(cfg, w, e))
  {
    hide Step;
    if Smooth(cfg, w, e) {
      SmoothIsNearer(cfg, w, e);
    } else if Obstacle(cfg, w, e) {
      WantedKept(cfg, w, e);
      DistanceIsBounded(cfg, Step(cfg, w, e));
    } else {
      EnvironmentIsNoFarther(cfg, w, e);
    }
  }

  lemma {:induction false} DistanceFalls(cfg: Config, w: World, es: seq<Event>)
    requires WellNamed(cfg) && Core(cfg, w) && Wanted(w) && Obeys(cfg, SETTLING, w, es)
    requires forall n | 0 <= n <= |es| :: !AtRest(cfg, Run(cfg, w, es[..n]))
    ensures var w' := Run(cfg, w, es);
            && w'.stored.Some?
            && Distance(cfg, w') + Smooths(cfg, w, es) <= Distance(cfg, w) + 71 * Obstacles(cfg, w, es)
  {
    hide Step, Core, Permits, Smooth, Obstacle, WellNamed, Distance;
    if es != [] {
      var m := |es| - 1;
      assert forall n | 0 <= n <= m :: es[..m][..n] == es[..n];
      DistanceFalls(cfg, w, es[..m]);
      CoreStays(cfg, w, es[..m]);
      WantedHolds(cfg, w, es[..m]);
      StepCounts(cfg, Run(cfg, w, es[..m]), es[m]);
    }
  }

  /** From any point of any run on, with a wanted object and a copy that is not behind, while hashed fields are not
      edited: however calls, lost and conflicting writes, crashes, Job reports, removed Jobs, edits and time are
      interleaved, the state comes to rest as soon as enough calls are smooth, seventy-one and seventy-one more for each
      obstacle met. */
  lemma FairRunsComeToRest(cfg: Config, w0: World, before: seq<Event>, after: seq<Event>)
    requires WellNamed(cfg) && Initial(cfg, w0)
    requires var w := Run(cfg, w0, before);
             && Wanted(w) && Obeys(cfg, SETTLING, w, after)
             && Smooths(cfg, w, after) > 71 + 71 * Obstacles(cfg, w, after)
    ensures var w := Run(cfg, w0, before);
            exists n :: 0 <= n <= |after| && AtRest(cfg, Run(cfg, w, after[..n]))
  {
    hide Step, Obeys, Initial;
    var w := Run(cfg, w0, before);
    CoreHolds(cfg, w0, before);
    if forall n | 0 <= n <= |after| :: !AtRest(cfg, Run(cfg, w, after[..n])) {
      DistanceFalls(cfg, w, after);
    }
  }

  /* ---------- rest lasts ---------- */

  predicate Resting(cfg: Config, w: World, s: Status) {
    && Wanted(w) && w.stored.value.finalizer && w.stored.value.status == s && Todo(cfg, w.stored.value) == 0
    && s.activeJobName !in w.jobs && s.workspaceID in w.workspaces
    && (w.worker.call.Idle? || w.worker.call.CheckWorkspace? || w.worker.call.FetchJob?)
    && (!w.worker.call.Idle? ==> w.worker.mem.status == s)
  }

  ghost predicate LeavesAtRest(cfg: Config, w: World, e: Event) {
    Settling(cfg, w, e) && Permits(cfg, WorkspaceStays, w, e)
  }

  /** A reconcile looks at the workspace and the Job, and ends. */
  lemma RestingTurn(cfg: Config, w: World, o: Outcome, id: string, s: Status)
    requires Resting(cfg, w, s) && LeavesAtRest(cfg, w, Serve(o, id))
    ensures var c := ServedTurn(cfg, w, o, id).call; c.Idle? || c.CheckWorkspace? || c.FetchJob?
    ensures !ServedTurn(cfg, w, o, id).call.Idle? ==> ServedTurn(cfg, w, o, id).status == s
    ensures StoredServed(w, o) == w.stored
  {
  }

  lemma RestingCopy(cfg: Config, w: World, o: Outcome, id: string, s: Status)
    requires Resting(cfg, w, s) && !ServedTurn(cfg, w, o, id).call.Idle?
    ensures var t := Resumed(w, o).mem;
            !t.deleting && Supported(t.spec) && SameHashedFields(t.spec, w.stored.value.spec)
            && t.spec.runInterval.None?
  {
  }

  /** Nothing is created or removed but by time or by the cluster, and the object keeps its status. */
  lemma RestingCluster(cfg: Config, w: World, e: Event, s: Status)
    requires Resting(cfg, w, s) && LeavesAtRest(cfg, w, e)
    ensures JobsAfter(cfg, w, e).Keys <= w.jobs.Keys && w.workspaces <= WorkspacesAfter(w, e)
    ensures RunsAfter(cfg, w, e) == w.hist.runs
  {
  }

  lemma RestingObject(cfg: Config, w: World, e: Event, s: Status)
    requires Resting(cfg, w, s) && LeavesAtRest(cfg, w, e)
    ensures var stored := StoredAfter(w, e);
            && stored.Some? && !stored.value.deleting && Supported(stored.value.spec) && stored.value.finalizer
            && stored.value.status == s && Todo(cfg, stored.value) == 0 && stored.value.spec.runInterval.None?
            && SameHashedFields(stored.value.spec, w.stored.value.spec)
  {
    hide Supported;
  }

  lemma RestingWorker(cfg: Config, w: World, e: Event, s: Status)
    requires Resting(cfg, w, s) && LeavesAtRest(cfg, w, e)
    ensures var k := WorkerAfter(cfg, w, e);
            && (k.call.Idle? || k.call.CheckWorkspace? || k.call.FetchJob?)
            && (!k.call.Idle? ==>
                  && k.mem.status == s && !k.mem.deleting && Supported(k.mem.spec) && k.mem.spec.runInterval.None?
                  && SameHashedFields(k.mem.spec, w.stored.value.spec))
  {
    hide ServedTurn, Resumed, StoredServed;
    if e.Serve? {
      RestingTurn(cfg, w, e.outcome, e.id, s);
      if !ServedTurn(cfg, w, e.outcome, e.id).call.Idle? {
        RestingCopy(cfg, w, e.outcome, e.id, s);
      }
    }
  }

  lemma RestKept(cfg: Config, w: World, e: Event, s: Status)
    requires Resting(cfg, w, s) && LeavesAtRest(cfg, w, e)
    ensures Resting(cfg, Step(cfg, w, e), s)
    ensures Step(cfg, w, e).hist.runs == w.hist.runs && Step(cfg, w, e).jobs.Keys <= w.jobs.Keys
  {
    hide StoredAfter, WorkerAfter, JobsAfter, WorkspacesAfter, RunsAfter, Todo, Supported;
    RestingCluster(cfg, w, e, s);
    RestingObject(cfg, w, e, s);
    RestingWorker(cfg, w, e, s);
  }

  /** At rest, with its workspace there, nothing is created and nothing written any more: not by any number of
      reconciles, answered or failing, whatever else happens but a hashed edit, a deletion or the loss of the
      workspace. */
  lemma {:induction false} RestLasts(cfg: Config, w: World, es: seq<Event>)
    requires AtRest(cfg, w) && Wanted(w) && w.stored.value.status.workspaceID in w.workspaces
    requires Obeys(cfg, SETTLING + {WorkspaceStays}, w, es)
    ensures var w' := Run(cfg, w, es);
            && Resting(cfg, w', w.stored.value.status)
            && w'.hist.runs == w.hist.runs && w'.jobs.Keys <= w.jobs.Keys && !w'.worker.call.WriteStatus?
  {
    if es != [] {
      var m := |es| - 1;
      RestLasts(cfg, w, es[..m]);
      RestKept(cfg, Run(cfg, w, es[..m]), es[m], w.stored.value.status);
    }
  }

  /* ---------- what an edit brings about ---------- */

  /** The digest tells these two specs apart if their hashed fields differ. */
  predicate NoCollision(cfg: Config, s: Spec, u: Spec) {
    SpecHash(cfg, s) == SpecHash(cfg, u) ==> HashInputOf(s) == HashInputOf(u)
  }

  /** At rest, an edit leaves a run to do exactly when it changes the module, ref, path, variables, arguments or
      backend. */
  lemma EditAtRest(cfg: Config, w: World, spec: Spec)
    requires AtRest(cfg, w) && NoCollision(cfg, spec, w.stored.value.spec)
    ensures var w' := Step(cfg, w, Edit(spec));
            && w'.stored.Some? && w'.stored.value.spec == spec && w'.worker == w.worker
            && w'.hist.runs == w.hist.runs
            && RunsLeft(cfg, w'.stored.value) == Count(!SameHashedFields(spec, w.stored.value.spec))
  {
    HashedFieldsExactly(spec, w.stored.value.spec);
  }

  /** A TfRun at rest is edited and, whatever happens and fails meanwhile, comes to rest again: then exactly one Job
      was created for an edit of the module, ref, path, variables, arguments or backend, and none for any other edit,
      but for one more per record that was lost. */
  lemma EditRunsExactlyOnce(cfg: Config, w0: World, before: seq<Event>, spec: Spec, after: seq<Event>)
    requires WellNamed(cfg) && Initial(cfg, w0)
    requires var w := Run(cfg, w0, before);
             && AtRest(cfg, w) && NoCollision(cfg, spec, w.stored.value.spec) && spec.runInterval.None?
             && Obeys(cfg, {OnlyUnhashedEdits}, Step(cfg, w, Edit(spec)), after)
             && AtRest(cfg, Run(cfg, Step(cfg, w, Edit(spec)), after))
    ensures var w := Run(cfg, w0, before);
            var edited := Step(cfg, w, Edit(spec));
            |Run(cfg, edited, after).hist.runs| ==
              |w.hist.runs| + Count(!SameHashedFields(spec, w.stored.value.spec)) + LostRecords(cfg, edited, after)
  {
    hide Step, Obeys;
    var w := Run(cfg, w0, before);
    RunAppends(cfg, w0, before, Edit(spec));
    EditAtRest(cfg, w, spec);
    JobsAreAccountedFor(cfg, w0, before + [Edit(spec)], after);
  }
}
