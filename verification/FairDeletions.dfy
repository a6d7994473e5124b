/** A deletion comes to its end in every fair run. */
module FairDeletions {
  import opened Types
  import opened Machine
  import opened Turns
  import opened Rules
  import opened CopyInvariants
  import opened JobInvariants
  import opened DeletionInvariants
  import opened AllInvariants

  /** Under deletion, with a supported spec, also in the copy of a reconcile in flight. */
  predicate Leaving(w: World) {
    && w.stored.Some? && w.stored.value.deleting && Supported(w.stored.value.spec)
    && (InReconcile(w.worker) ==> Supported(w.worker.mem.spec))
  }

  /** How many smooth calls the object is away from its end: clean-up last, before it the look at the recorded destroy
      Job, before it the creation or adoption of one, and first of all whatever reconcile began before the deletion. */
  function CallsToEnd(w: World): (n: nat)
    ensures n <= 20
  {
    var k := w.worker;
    if w.stored.None? then 0
    else match k.call
      case RemoveFinalizer => 1
      case RefetchForFinalizer => 2
      case DeleteWorkspace => 3
      case FetchDestroyJob => 5
      case Idle => if w.stored.value.status.activeDestroyJobName != "" then 6 else 11
      case RefetchForDestroy => 8
      case CreateDestroyJob => 8
      case FetchDestroySecret => 9
      case ProbeDestroyJob => 10
      case RefetchToAdopt(_) => 14
      case CreateJob(_, _) => 15
      case FetchSecret(_, _) => 16
      case FetchJob => 17
      case CheckWorkspace | EnsureWorkspace | ImportWorkspace => 19
      case AddFinalizer | Panicked(_, _) => 20
      case WriteStatus(p) =>
        if p.Cleanup? then 4
        else if ResumesAfterWorkspace(k.call) then 18
        else if p.Note? && k.mem.status.activeDestroyJobName != "" then 7
        else 13
  }

  /** The pending call is answered and meets no obstacle: a write is made on the stored version, and the recorded
      destroy Job is gone or has succeeded. */
  predicate SmoothForEnd(w: World, e: Event) {
    && e.Serve? && e.outcome.Done?
    && match w.worker.call
       case AddFinalizer => Current(w)
       case RemoveFinalizer => Current(w)
       case WriteStatus(_) => Current(w)
       case CheckWorkspace => w.worker.mem.status.workspaceID in w.workspaces
       case FetchDestroyJob =>
         var name := w.worker.mem.status.activeDestroyJobName;
         name in w.jobs ==> !IsJobActive(w.jobs[name]) && IsJobSucceeded(w.jobs[name])
       case _ => true
  }

  predicate ObstacleToEnd(w: World, e: Event) { e.Crash? || (e.Serve? && !SmoothForEnd(w, e)) }

  lemma LeavingKept(cfg: Config, w: World, e: Event)
    requires Base(w) && Leaving(w) && Permits(cfg, EditsStaySupported, w, e)
    ensures StoredAfter(w, e).Some? ==> Leaving(Step(cfg, w, e))
  {
    WorkerLinks(cfg, w, e);
  }

  predicate NearerEnd(w: World, w': World) { CallsToEnd(w') < CallsToEnd(w) }

  lemma ReadNearsEnd(cfg: Config, w: World, id: string)
    requires Base(w) && Leaving(w) && w.worker.call.Idle?
    ensures NearerEnd(w, Step(cfg, w, Serve(Done, id)))
  {
  }

  lemma DestroyNearsEnd(cfg: Config, w: World, id: string)
    requires WellNamed(cfg) && Base(w) && Leaving(w) && SmoothForEnd(w, Serve(Done, id))
    requires DestroySide(w.worker.call) && !CleaningUp(w.worker.call)
    ensures NearerEnd(w, Step(cfg, w, Serve(Done, id)))
  {
  }

  lemma CleanUpBegins(cfg: Config, w: World, id: string)
    requires Base(w) && Leaving(w) && w.worker.call == WriteStatus(Cleanup)
    ensures NearerEnd(w, Step(cfg, w, Serve(Done, id)))
  {
    hide HistoryAfter, JobsAfter, WorkspacesAfter, Supported;
    CleanUpGoesOn(cfg, w, id);
  }

  lemma CleanUpGoesOn(cfg: Config, w: World, id: string)
    requires w.worker.call == WriteStatus(Cleanup) && Supported(w.worker.mem.spec)
    ensures var c := ServedTurn(cfg, w, Done, id).call; c.DeleteWorkspace? || c.RefetchForFinalizer?
  {
  }

  lemma CleanUpNearsEnd(cfg: Config, w: World, id: string)
    requires Base(w) && Leaving(w) && SmoothForEnd(w, Serve(Done, id))
    requires w.worker.call.DeleteWorkspace? || w.worker.call.RefetchForFinalizer? || w.worker.call.RemoveFinalizer?
    ensures NearerEnd(w, Step(cfg, w, Serve(Done, id)))
  {
    hide HistoryAfter, JobsAfter, WorkspacesAfter, Supported;
  }

  lemma EndingWriteNearsEnd(cfg: Config, w: World, id: string)
    requires Base(w) && Leaving(w) && SmoothForEnd(w, Serve(Done, id))
    requires w.worker.call.WriteStatus? && !w.worker.call.purpose.Cleanup?
    ensures NearerEnd(w, Step(cfg, w, Serve(Done, id)))
  {
    hide HistoryAfter, JobsAfter, WorkspacesAfter, Supported;
  }

  /** A reconcile of the apply side, begun before the deletion, goes on towards its end whatever it is answered. */
  lemma ApplySideNearsEnd(cfg: Config, w: World, id: string)
    requires Base(w) && Leaving(w) && RunOnItsWay(cfg, w.worker, w.clock)
    requires ApplySide(w.worker.call) || w.worker.call.AddFinalizer?
    requires SmoothForEnd(w, Serve(Done, id))
    requires !ServedTurn(cfg, w, Done, id).call.Panicked?
    ensures NearerEnd(w, Step(cfg, w, Serve(Done, id)))
  {
    hide ServedTurn, HistoryAfter, JobsAfter, WorkspacesAfter, Supported;
    ServedMoves(cfg, w, Done, id);
    ApplySideRoute(cfg, w, ServedTurn(cfg, w, Done, id));
  }

  lemma ApplySideRoute(cfg: Config, w: World, turn: Turn)
    requires Base(w) && Leaving(w) && (ApplySide(w.worker.call) || w.worker.call.AddFinalizer?)
    requires SmoothForEnd(w, Serve(Done, "")) && Route(cfg, w, Done, turn) && !turn.call.Panicked?
    ensures StoredServed(w, Done) == w.stored
    ensures NearerEnd(w, w.(worker := Take(Resumed(w, Done), turn)))
  {
  }

  lemma SmoothNearsEnd(cfg: Config, w: World, e: Event)
    requires WellNamed(cfg) && Core(cfg, w) && Leaving(w) && SmoothForEnd(w, e)
    requires !WorkerAfter(cfg, w, e).call.Panicked?
    ensures NearerEnd(w, Step(cfg, w, e))
  {
    hide Step;
    if w.worker.call.Idle? {
      ReadNearsEnd(cfg, w, e.id);
    } else if w.worker.call == WriteStatus(Cleanup) {
      CleanUpBegins(cfg, w, e.id);
    } else if w.worker.call.WriteStatus? {
      EndingWriteNearsEnd(cfg, w, e.id);
    } else if CleaningUp(w.worker.call) {
      CleanUpNearsEnd(cfg, w, e.id);
    } else if DestroySide(w.worker.call) {
      DestroyNearsEnd(cfg, w, e.id);
    } else {
      ApplySideNearsEnd(cfg, w, e.id);
    }
  }

  lemma EnvironmentKeepsEnd(cfg: Config, w: World, e: Event)
    requires Leaving(w) && !e.Serve? && !e.Crash?
    ensures CallsToEnd(Step(cfg, w, e)) <= CallsToEnd(w)
  {
  }

  /* ---------- whole runs ---------- */

  function SmoothsForEnd(cfg: Config, w: World, es: seq<Event>): nat {
    if es == [] then 0
    else var m := |es| - 1; SmoothsForEnd(cfg, w, es[..m]) + Count(SmoothForEnd(Run(cfg, w, es[..m]), es[m]))
  }

  function ObstaclesToEnd(cfg: Config, w: World, es: seq<Event>): nat {
    if es == [] then 0
    else var m := |es| - 1; ObstaclesToEnd(cfg, w, es[..m]) + Count(ObstacleToEnd(Run(cfg, w, es[..m]), es[m]))
  }

  lemma StepCountsForEnd(cfg: Config, w: World, e: Event)
    requires WellNamed(cfg) && Core(cfg, w) && Leaving(w) && !WorkerAfter(cfg, w, e).call.Panicked?
    ensures CallsToEnd(Step(cfg, w, e)) + Count(SmoothForEnd(w, e)) <= CallsToEnd(w) + 20 * Count(ObstacleToEnd(w, e))
  {
    hide Step;
    if SmoothForEnd(w, e) {
      SmoothNearsEnd(cfg, w, e);
    } else if !ObstacleToEnd(w, e) {
      EnvironmentKeepsEnd(cfg, w, e);
    }
  }

  lemma NeverPanicked(cfg: Config, w: World, e: Event)
    requires WellNamed(cfg) && Core(cfg, w)
    ensures !WorkerAfter(cfg, w, e).call.Panicked?
  {
    StepKeepsCore(cfg, w, e);
  }

  lemma {:induction false} EndComesNearer(cfg: Config, w: World, es: seq<Event>)
    requires WellNamed(cfg) && Core(cfg, w) && Leaving(w) && Obeys(cfg, {EditsStaySupported}, w, es)
    requires forall n | 0 <= n <= |es| :: Run(cfg, w, es[..n]).stored.Some?
    ensures Leaving(Run(cfg, w, es))
    ensures CallsToEnd(Run(cfg, w, es)) + SmoothsForEnd(cfg, w, es) <= CallsToEnd(w) + 20 * ObstaclesToEnd(cfg, w, es)
  {
    hide Step, Core, Permits, SmoothForEnd, ObstacleToEnd, WellNamed, Leaving, CallsToEnd;
    if es != [] {
      var m := |es| - 1;
      assert forall n | 0 <= n <= m :: es[..m][..n] == es[..n];
      EndComesNearer(cfg, w, es[..m]);
      CoreStays(cfg, w, es[..m]);
      assert es[..|es|] == es;
      EndStep(cfg, Run(cfg, w, es[..m]), es[m]);
    }
  }

  lemma EndStep(cfg: Config, w: World, e: Event)
    requires WellNamed(cfg) && Core(cfg, w) && Leaving(w) && Permits(cfg, EditsStaySupported, w, e)
    requires Step(cfg, w, e).stored.Some?
    ensures Leaving(Step(cfg, w, e))
    ensures CallsToEnd(Step(cfg, w, e)) + Count(SmoothForEnd(w, e)) <= CallsToEnd(w) + 20 * Count(ObstacleToEnd(w, e))
  {
    hide StoredAfter, WorkerAfter, JobsAfter, WorkspacesAfter, HistoryAfter, CallsToEnd, SmoothForEnd, ObstacleToEnd;
    LeavingKept(cfg, w, e);
    NeverPanicked(cfg, w, e);
    StepCountsForEnd(cfg, w, e);
  }

  /** From any point of any run on at which the object is under deletion, while its spec stays supported, and however
      calls, lost writes, crashes, Job reports, edits and time are interleaved: the object is gone as soon as enough
      calls are smooth, twenty and twenty more for each obstacle met, such as a destroy Job that has not succeeded and
      is not gone. */
  lemma FairDeletionsEnd(cfg: Config, w0: World, before: seq<Event>, after: seq<Event>)
    requires WellNamed(cfg) && Initial(cfg, w0)
    requires var w := Run(cfg, w0, before);
             && Leaving(w) && Obeys(cfg, {EditsStaySupported}, w, after)
             && SmoothsForEnd(cfg, w, after) > 20 + 20 * ObstaclesToEnd(cfg, w, after)
    ensures var w := Run(cfg, w0, before);
            exists n :: 0 <= n <= |after| && Run(cfg, w, after[..n]).stored.None?
  {
    hide Step, Obeys, Initial;
    var w := Run(cfg, w0, before);
    CoreHolds(cfg, w0, before);
    if forall n | 0 <= n <= |after| :: Run(cfg, w, after[..n]).stored.Some? {
      EndComesNearer(cfg, w, after);
    }
  }
}
