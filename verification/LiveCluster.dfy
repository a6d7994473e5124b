/** The world the controller talks to: the API server, the Jobs, the remote workspaces and the clock, changed in
    place.  Before a call is served anything may happen to it; its history is a run of the state machine. */
module LiveCluster {
  import opened Types
  import opened Machine
  import opened Theorems
  import opened Names
  import opened Turns
  import opened Bootstrap

  /** The controller's own copy of a TfRun, which its handlers update field by field. */
  class LiveTfRun {
    var resourceVersion: nat
    var generation: nat
    var spec: Spec
    var status: Status
    var importId: string
    var finalizer: bool
    var deleting: bool

    function Value(): TfRun
      reads this
    {
      TfRun(resourceVersion, generation, spec, status, importId, finalizer, deleting)
    }

    constructor (t: TfRun)
      ensures Value() == t
    {
      resourceVersion, generation, spec, status := t.resourceVersion, t.generation, t.spec, t.status;
      importId, finalizer, deleting := t.importId, t.finalizer, t.deleting;
    }

    method Become(t: TfRun)
      modifies this
      ensures Value() == t
    {
      resourceVersion, generation, spec, status := t.resourceVersion, t.generation, t.spec, t.status;
      importId, finalizer, deleting := t.importId, t.finalizer, t.deleting;
    }
  }

  datatype ReadReply = Ok(run: TfRun) | NotFound | ReadError

  // The answer to an update of the finalizers: the object may be a later version by then, or be gone.
  datatype UpdateReply = Updated | Conflict | Vanished | UpdateError

  /** This world is where these events lead from an initial one, under the names the controller builds. */
  ghost predicate IsHistory(cfg: Config, name: string, digest: HashInput -> Hash, genesis: World, past: seq<Event>,
                            w: World) {
    cfg == ControllerConfig(name, digest) && Initial(cfg, genesis) && Run(cfg, genesis, past) == w
  }

  /** The world after this event, field by field, is where the longer run leads. */
  lemma HistoryExtended(cfg: Config, name: string, digest: HashInput -> Hash, genesis: World, past: seq<Event>,
                        w: World,
                        e: Event, w': World)
    requires IsHistory(cfg, name, digest, genesis, past, w)
    requires w'.stored == StoredAfter(w, e) && w'.jobs == JobsAfter(cfg, w, e) && w'.workspaces == WorkspacesAfter(w, e)
    requires w'.clock == ClockAfter(w, e) && w'.worker == WorkerAfter(cfg, w, e) && w'.hist == HistoryAfter(cfg, w, e)
    ensures IsHistory(cfg, name, digest, genesis, past + [e], w')
  {
    RunAppends(cfg, genesis, past, e);
  }

  predicate EndsReconcile(p: Purpose) { p.Note? || p.ClearWorkspace? || p.RecordJob? || p.AdoptJob? }

  predicate ReadsObject(c: Call) { c.Idle? || c.RefetchToAdopt? || c.RefetchForDestroy? || c.RefetchForFinalizer? }

  predicate ReadsJob(c: Call) { c.FetchJob? || c.FetchDestroyJob? || c.ProbeDestroyJob? }

  function JobFound(reply: JobReply): Option<Job> { if reply.Found? then Some(reply.job) else None }

  /** Serving this leaves the Jobs, the workspaces and the clock as they are, and creates nothing. */
  predicate Quiet(cfg: Config, w: World, e: Event) {
    && JobsAfter(cfg, w, e) == w.jobs && WorkspacesAfter(w, e) == w.workspaces && ClockAfter(w, e) == w.clock
    && HistoryAfter(cfg, w, e).workspaceIds == w.hist.workspaceIds && RunsAfter(cfg, w, e) == w.hist.runs
  }

  predicate Standing(k: Worker, t: TfRun, turn: Turn) { k.call == turn.call && k.mem == t.(status := turn.status) }

  /** Where a read of the object takes the worker. */
  predicate ReadTaken(cfg: Config, was: Call, k: Worker, t: TfRun, now: int) {
    && (was.Idle? ==> if t.finalizer then Standing(k, t, Start(cfg, t, now)) else Standing(k, t, Go(t, AddFinalizer)))
    && (was.RefetchToAdopt? ==> Standing(k, t, AfterAdopt(t, was.jobName)))
    && (was.RefetchForDestroy? ==>
          Standing(k, t, Write(t.status.(activeDestroyJobName := cfg.destroyName, phase := Pending), Note)))
    && (was.RefetchForFinalizer? ==> if t.finalizer then Standing(k, t, Go(t, RemoveFinalizer)) else k.call.Idle?)
  }

  lemma ReadServed(cfg: Config, w: World, o: Outcome)
    requires ReadsObject(w.worker.call)
    ensures var e := Serve(o, "");
            var k := WorkerAfter(cfg, w, e);
            && Quiet(cfg, w, e) && StoredAfter(w, e) == w.stored
            && (if o.Done? && w.stored.Some? then ReadTaken(cfg, w.worker.call, k, w.stored.value, w.clock)
                else k.call.Idle?)
  {
    hide Start;
  }

  /** The stored object after its finalizer was updated. */
  lemma FinalizerServed(cfg: Config, w: World, o: Outcome)
    requires w.worker.call.AddFinalizer? || w.worker.call.RemoveFinalizer?
    ensures var e := Serve(o, "");
            var k := WorkerAfter(cfg, w, e);
            && Quiet(cfg, w, e)
            && StoredAfter(w, e) == (if !Lands(w, o) then w.stored
                                     else if w.stored.value.deleting && w.worker.call.RemoveFinalizer? then None
                                     else Some(WithFinalizer(w)))
            && (if w.worker.call.AddFinalizer? && Lands(w, o) && o.Done? then
                  Standing(k, WithFinalizer(w), Start(cfg, WithFinalizer(w), w.clock))
                else k.call.Idle?)
  {
  }

  /** Where a status update takes the worker, with its copy t. */
  predicate WriteTaken(cfg: Config, p: Purpose, ok: bool, k: Worker, t: TfRun, now: int) {
    && (EndsReconcile(p) ==> k.call.Idle?)
    && (ResumesAfterWorkspace(WriteStatus(p)) ==>
        if ok then Standing(k, t, AfterWorkspace(cfg, t, now)) else k.call.Idle?)
    && (p.Cleanup? ==> Standing(k, t, CleanUp(t)))
  }

  lemma WriteServed(cfg: Config, w: World, o: Outcome)
    requires w.worker.call.WriteStatus?
    ensures var e := Serve(o, "");
            var k, ok, p := w.worker, Lands(w, o) && o.Done?, w.worker.call.purpose;
            var t := if ok then Bump(k.mem) else k.mem;
            && Quiet(cfg, w, e)
            && StoredAfter(w, e) ==
                 (if Lands(w, o) then Some(Bump(w.stored.value).(status := k.mem.status)) else w.stored)
            && WriteTaken(cfg, p, ok, WorkerAfter(cfg, w, e), t, w.clock)
  {
  }

  /** Where a read of a Job takes the worker. */
  predicate JobTaken(cfg: Config, was: Worker, k: Worker, reply: JobReply, now: int) {
    && (was.call.FetchJob? ==> Standing(k, was.mem, Decide(cfg, was.mem, JobFound(reply), now)))
    && (was.call.FetchDestroyJob? ==> Standing(k, was.mem, AfterDestroyJobRead(was.mem, reply)))
    && (was.call.ProbeDestroyJob? ==>
          Standing(k, was.mem, if reply.Found? then Go(was.mem, RefetchForDestroy) else BuildDestroy(was.mem)))
  }

  lemma JobReadServed(cfg: Config, w: World, o: Outcome)
    requires ReadsJob(w.worker.call)
    ensures var e := Serve(o, "");
            && Quiet(cfg, w, e) && StoredAfter(w, e) == w.stored
            && JobTaken(cfg, w.worker, WorkerAfter(cfg, w, e), JobReplyTo(cfg, w, o), w.clock)
  {
    hide Decide, AfterDestroyJobRead;
  }

  /** Where the creation of a Job takes the worker. */
  predicate CreateTaken(cfg: Config, was: Worker, k: Worker, reply: CreateReply, now: int) {
    && (was.call.CreateJob? ==> Standing(k, was.mem, AfterJobCreate(cfg, was.mem, was.call.hash, reply, now)))
    && (was.call.CreateDestroyJob? ==> Standing(k, was.mem, AfterDestroyCreate(cfg, was.mem, reply)))
  }

  lemma CreateServed(cfg: Config, w: World, o: Outcome)
    requires w.worker.call.CreateJob? || w.worker.call.CreateDestroyJob?
    ensures var e, k := Serve(o, ""), w.worker;
            && StoredAfter(w, e) == w.stored && WorkspacesAfter(w, e) == w.workspaces && ClockAfter(w, e) == w.clock
            && JobsAfter(cfg, w, e) ==
                 (if Creates(cfg, w, o) then w.jobs[JobNameCreated(cfg, k) := NewJob(cfg, k)] else w.jobs)
            && HistoryAfter(cfg, w, e).workspaceIds == w.hist.workspaceIds
            && (if k.call.CreateJob? && Creates(cfg, w, o) then RunsAfter(cfg, w, e) == w.hist.runs + [NewRun(cfg, w)]
                else RunsAfter(cfg, w, e) == w.hist.runs)
            && CreateTaken(cfg, k, WorkerAfter(cfg, w, e), CreateReplyTo(cfg, w, o), w.clock)
  {
  }

  function AfterSecretRead(k: Worker, ok: bool): Turn {
    AfterSecret(k.mem, ok, if k.call.FetchSecret? then CreateJob(k.call.hash, k.call.cause) else CreateDestroyJob)
  }

  lemma SecretServed(cfg: Config, w: World, o: Outcome)
    requires w.worker.call.FetchSecret? || w.worker.call.FetchDestroySecret?
    ensures var e := Serve(o, "");
            && Quiet(cfg, w, e) && StoredAfter(w, e) == w.stored
            && Standing(WorkerAfter(cfg, w, e), w.worker.mem, AfterSecretRead(w.worker, o.Done?))
  {
  }

  /** Where the look-up of a workspace takes the worker. */
  predicate LookupTaken(cfg: Config, was: Worker, k: Worker, found: Option<string>, now: int) {
    && (was.call.CheckWorkspace? ==> Standing(k, was.mem, AfterCheck(cfg, was.mem, found.Some?, now)))
    && (was.call.ImportWorkspace? ==> Standing(k, was.mem, AfterImport(was.mem, found)))
  }

  lemma LookupServed(cfg: Config, w: World, o: Outcome, id: string)
    requires (w.worker.call.CheckWorkspace? && id == w.worker.mem.status.workspaceID) || w.worker.call.ImportWorkspace?
    requires id != ""
    ensures var e := Serve(o, id);
            && Quiet(cfg, w, e) && StoredAfter(w, e) == w.stored
            && LookupTaken(cfg, w.worker, WorkerAfter(cfg, w, e),
                           if o.Done? && id in w.workspaces then Some(id) else None, w.clock)
  {
  }

  lemma EnsureServed(cfg: Config, w: World, o: Outcome, id: string)
    requires w.worker.call.EnsureWorkspace?
    ensures var e := Serve(o, id);
            var created := if !o.Refused? && id != "" && id !in w.hist.workspaceIds then {id} else {};
            && StoredAfter(w, e) == w.stored && JobsAfter(cfg, w, e) == w.jobs && ClockAfter(w, e) == w.clock
            && WorkspacesAfter(w, e) == w.workspaces + created
            && HistoryAfter(cfg, w, e).workspaceIds == w.hist.workspaceIds + created
            && RunsAfter(cfg, w, e) == w.hist.runs
            && Standing(WorkerAfter(cfg, w, e), w.worker.mem, AfterEnsure(w.worker.mem, EnsureReply(w, o, id)))
  {
  }

  lemma DeleteServed(cfg: Config, w: World, o: Outcome)
    requires w.worker.call.DeleteWorkspace?
    ensures var e := Serve(o, "");
            && StoredAfter(w, e) == w.stored && JobsAfter(cfg, w, e) == w.jobs && ClockAfter(w, e) == w.clock
            && WorkspacesAfter(w, e) ==
                 w.workspaces - (if o.Refused? then {} else {w.worker.mem.status.workspaceID})
            && HistoryAfter(cfg, w, e).workspaceIds == w.hist.workspaceIds && RunsAfter(cfg, w, e) == w.hist.runs
            && Standing(WorkerAfter(cfg, w, e), w.worker.mem,
                        if o.Done? then Go(w.worker.mem, RefetchForFinalizer) else Stop(w.worker.mem))
  {
  }

  class Cluster {
    const name: string
    const digest: HashInput -> Hash
    const cfg: Config
    ghost const genesis: World

    var stored: Option<TfRun>
    var jobs: map<string, Job>
    var workspaces: set<string>
    var issued: set<string>
    var clock: int
    ghost var worker: Worker
    ghost var hist: History
    ghost var past: seq<Event>

    ghost function Now(): World
      reads this
    {
      World(stored, jobs, workspaces, clock, worker, hist)
    }

    /** Everything that has happened is a run from an initial state. */
    ghost predicate Valid()
      reads this
    {
      IsHistory(cfg, name, digest, genesis, past, Now()) && issued == hist.workspaceIds
    }

    /** The worker stands before this call, with this status in its copy. */
    ghost predicate Stands(t: TfRun, turn: Turn)
      reads this
    {
      Standing(worker, t, turn)
    }

    constructor (name: string, digest: HashInput -> Hash, t: TfRun, workspaces: set<string>, start: int)
      requires t.generation == 1 && t.status == EMPTY_STATUS && !t.finalizer && !t.deleting && "" !in workspaces
      ensures Valid() && worker.call.Idle? && past == [] && this.name == name && this.digest == digest
      ensures stored == Some(t) && jobs == map[] && this.workspaces == workspaces && clock == start
    {
      this.name, this.digest := name, digest;
      var config := ControllerConfig(name, digest);
      cfg := config;
      var k := Worker(Idle, t, false, false, false);
      var h := History({SpecHash(config, t.spec)}, [], None, workspaces, 0, 0, 0, 0, 0, 0, 0);
      stored, jobs, this.workspaces, issued, clock := Some(t), map[], workspaces, workspaces, start;
      worker, hist, past := k, h, [];
      genesis := World(Some(t), map[], workspaces, start, k, h);
    }

    /* ---------- the environment ---------- */

    ghost method Record(w: World, e: Event)
      requires Recorded(w)
      requires stored == StoredAfter(w, e) && jobs == JobsAfter(cfg, w, e) && workspaces == WorkspacesAfter(w, e)
      requires clock == ClockAfter(w, e) && issued == HistoryAfter(cfg, w, e).workspaceIds
      modifies `worker, `hist, `past
      ensures Valid() && past == old(past) + [e]
      ensures worker == WorkerAfter(cfg, w, e) && hist == HistoryAfter(cfg, w, e)
    {
      hide IsHistory;
      HistoryExtended(cfg, name, digest, genesis, past, w, e,
                      World(stored, jobs, workspaces, clock, WorkerAfter(cfg, w, e), HistoryAfter(cfg, w, e)));
      worker, hist, past := WorkerAfter(cfg, w, e), HistoryAfter(cfg, w, e), past + [e];
    }

    method EditSpec(spec: Spec)
      requires Valid()
      modifies this
      ensures Valid() && past == old(past) + [Edit(spec)]
      ensures worker == old(worker) && hist.runs == old(hist.runs)
    {
      hide IsHistory;
      ghost var w := Now();
      if stored.Some? && stored.value.spec != spec {
        var t := stored.value;
        stored := Some(Bump(t).(generation := t.generation + 1, spec := spec));
      }
      Record(w, Edit(spec));
    }

    method SetAnnotation(importId: string)
      requires Valid()
      modifies this
      ensures Valid() && past == old(past) + [Annotate(importId)]
      ensures worker == old(worker) && hist.runs == old(hist.runs)
    {
      hide IsHistory;
      ghost var w := Now();
      if stored.Some? {
        stored := Some(Bump(stored.value).(importId := importId));
      }
      Record(w, Annotate(importId));
    }

    method Delete()
      requires Valid()
      modifies this
      ensures Valid() && past == old(past) + [RequestDelete]
      ensures worker == old(worker) && hist.runs == old(hist.runs)
    {
      hide IsHistory;
      ghost var w := Now();
      if stored.Some? && !stored.value.deleting {
        var t := stored.value;
        stored := if t.finalizer then Some(Bump(t).(generation := t.generation + 1, deleting := true)) else None;
      }
      Record(w, RequestDelete);
    }

    method ReportJob(job: string, r: Report)
      requires Valid()
      modifies this
      ensures Valid() && past == old(past) + [Progress(job, r)]
      ensures worker == old(worker) && hist.runs == old(hist.runs)
    {
      hide IsHistory;
      ghost var w := Now();
      if job in jobs && CanReport(jobs[job], r) {
        jobs := jobs[job := jobs[job].(active := r.active, succeeded := r.succeeded, failed := r.failed,
                                       finished := r.finished)];
      }
      Record(w, Progress(job, r));
    }

    method ExpireJob(job: string)
      requires Valid()
      modifies this
      ensures Valid() && past == old(past) + [Expire(job)]
      ensures worker == old(worker) && hist.runs == old(hist.runs)
    {
      hide IsHistory;
      ghost var w := Now();
      if job in jobs && jobs[job].finished {
        jobs := jobs - {job};
      }
      Record(w, Expire(job));
    }

    method PassTime(elapsed: nat)
      requires Valid()
      modifies this
      ensures Valid() && past == old(past) + [Tick(elapsed)]
      ensures worker == old(worker) && hist.runs == old(hist.runs)
    {
      hide IsHistory;
      ghost var w := Now();
      clock := clock + elapsed;
      Record(w, Tick(elapsed));
    }

    method DropWorkspace(id: string)
      requires Valid()
      modifies this
      ensures Valid() && past == old(past) + [LoseWorkspace(id)]
      ensures worker == old(worker) && hist.runs == old(hist.runs)
    {
      hide IsHistory;
      ghost var w := Now();
      workspaces := workspaces - {id};
      Record(w, LoseWorkspace(id));
    }

    method Happen(e: Event)
      requires Valid() && !e.Serve? && !e.Crash?
      modifies this
      ensures Valid() && past == old(past) + [e]
      ensures worker == old(worker) && hist.runs == old(hist.runs)
    {
      match e
      case Edit(spec) => EditSpec(spec);
      case Annotate(importId) => SetAnnotation(importId);
      case RequestDelete => Delete();
      case Progress(job, r) => ReportJob(job, r);
      case Expire(job) => ExpireJob(job);
      case Tick(elapsed) => PassTime(elapsed);
      case LoseWorkspace(id) => DropWorkspace(id);
    }

    /** Anything, any number of times. */
    method Interfere()
      requires Valid()
      modifies this
      ensures Valid() && old(past) <= past
      ensures worker == old(worker) && hist.runs == old(hist.runs)
    {
      var n: int := *;
      while 0 < n
        invariant Valid() && old(past) <= past
        invariant worker == old(worker) && hist.runs == old(hist.runs)
      {
        n := n - 1;
        var e: Event := *;
        if !e.Serve? && !e.Crash? {
          Happen(e);
        }
      }
    }

    /** The cluster's fields still are those of w, and the history is that of w. */
    ghost predicate Recorded(w: World)
      reads this
    {
      IsHistory(cfg, name, digest, genesis, past, w) && w.worker == worker && w.hist == hist
    }

    ghost method RecordFinalizer(w: World, o: Outcome)
      requires Recorded(w) && (worker.call.AddFinalizer? || worker.call.RemoveFinalizer?)
      requires stored == (if !Lands(w, o) then w.stored
                          else if w.stored.value.deleting && worker.call.RemoveFinalizer? then None
                          else Some(WithFinalizer(w)))
      requires jobs == w.jobs && workspaces == w.workspaces && clock == w.clock && issued == hist.workspaceIds
      modifies `worker, `hist, `past
      ensures Valid() && old(past) <= past && hist.runs == old(hist.runs)
      ensures if old(worker.call.AddFinalizer?) && Lands(w, o) && o.Done? then
                Stands(WithFinalizer(w), Start(cfg, WithFinalizer(w), clock))
              else worker.call.Idle?
    {
      hide IsHistory;
      FinalizerServed(cfg, w, o);
      Record(w, Serve(o, ""));
    }

    ghost method RecordWrite(w: World, o: Outcome, t: TfRun, ok: bool)
      requires Recorded(w) && worker.call.WriteStatus?
      requires stored == if Lands(w, o) then Some(Bump(w.stored.value).(status := worker.mem.status)) else w.stored
      requires ok == (Lands(w, o) && o.Done?) && t == if ok then Bump(worker.mem) else worker.mem
      requires jobs == w.jobs && workspaces == w.workspaces && clock == w.clock && issued == hist.workspaceIds
      modifies `worker, `hist, `past
      ensures Valid() && old(past) <= past && hist.runs == old(hist.runs)
      ensures WriteTaken(cfg, old(worker.call.purpose), ok, worker, t, clock)
    {
      hide IsHistory;
      WriteServed(cfg, w, o);
      Record(w, Serve(o, ""));
    }

    ghost method RecordEnsure(w: World, o: Outcome, id: string, created: set<string>)
      requires Recorded(w) && worker.call.EnsureWorkspace?
      requires created == if !o.Refused? && id != "" && id !in hist.workspaceIds then {id} else {}
      requires stored == w.stored && jobs == w.jobs && clock == w.clock
      requires workspaces == w.workspaces + created && issued == hist.workspaceIds + created
      modifies `worker, `hist, `past
      ensures Valid() && old(past) <= past && hist.runs == old(hist.runs)
      ensures Stands(old(worker.mem), AfterEnsure(old(worker.mem), EnsureReply(w, o, id)))
    {
      hide IsHistory;
      EnsureServed(cfg, w, o, id);
      Record(w, Serve(o, id));
    }

    /* ---------- the object ---------- */

    method Get() returns (reply: ReadReply)
      requires Valid() && ReadsObject(worker.call)
      modifies this
      ensures Valid() && old(past) < past && hist.runs == old(hist.runs)
      ensures reply.Ok? ==> stored == Some(reply.run)
      ensures reply.NotFound? ==> stored.None?
      ensures !reply.Ok? ==> worker.call.Idle?
      ensures reply.Ok? ==> ReadTaken(cfg, old(worker.call), worker, reply.run, clock)
    {
      hide IsHistory;
      Interfere();
      ghost var w := Now();
      var o: Outcome := *;
      reply := if !o.Done? then ReadError else if stored.None? then NotFound else ReadReply.Ok(stored.value);
      ReadServed(cfg, w, o);
      Record(w, Serve(o, ""));
    }

    /** The copy is of the stored version. */
    predicate Accepts(t: LiveTfRun)
      reads this, t
    {
      stored.Some? && stored.value.resourceVersion == t.resourceVersion
    }

    method StoreFinalizer(t: LiveTfRun, o: Outcome) returns (reply: UpdateReply)
      modifies `stored, t
      ensures reply.Updated? <==> old(Accepts(t)) && o.Done?
      ensures reply.Conflict? ==> stored.Some?
      ensures reply.Vanished? ==> stored.None?
      ensures reply.Updated? ==> t.Value() == Bump(old(stored).value).(finalizer := old(t.finalizer))
      ensures stored == if !old(Accepts(t)) || o.Refused? then old(stored)
                        else if old(stored).value.deleting && !old(t.finalizer) then None
                        else Some(Bump(old(stored).value).(finalizer := old(t.finalizer)))
    {
      reply := if !o.Done? then UpdateError else if stored.None? then Vanished else Conflict;
      if Accepts(t) && !o.Refused? {
        var updated := Bump(stored.value).(finalizer := t.finalizer);
        stored := if updated.deleting && !updated.finalizer then None else Some(updated);
        if o.Done? {
          t.Become(updated);
          reply := Updated;
        }
      }
    }

    method StoreStatus(t: LiveTfRun, o: Outcome) returns (ok: bool)
      modifies `stored, t
      ensures ok == (old(Accepts(t)) && o.Done?)
      ensures t.Value() == if ok then Bump(old(t.Value())) else old(t.Value())
      ensures stored == if !old(Accepts(t)) || o.Refused? then old(stored)
                        else Some(Bump(old(stored).value).(status := old(t.status)))
    {
      ok := false;
      if Accepts(t) && !o.Refused? {
        stored := Some(Bump(stored.value).(status := t.status));
        if o.Done? {
          t.resourceVersion := t.resourceVersion + 1;
          ok := true;
        }
      }
    }

    /** An update of the finalizers: it stores the copy's, if the copy is of the stored version, and it says whether the
        object has gone on or is gone. */
    method UpdateFinalizer(t: LiveTfRun) returns (reply: UpdateReply)
      requires Valid() && (worker.call.AddFinalizer? || worker.call.RemoveFinalizer?)
      requires t.Value() == worker.mem.(finalizer := worker.call.AddFinalizer?)
      modifies this, t
      ensures Valid() && old(past) <= past && hist.runs == old(hist.runs)
      ensures old(worker.call.AddFinalizer?) && reply.Updated? ==> Stands(t.Value(), Start(cfg, t.Value(), clock))
      ensures !(old(worker.call.AddFinalizer?) && reply.Updated?) ==> worker.call.Idle?
      ensures reply.Updated? && stored.Some? ==> stored.value.finalizer == old(t.finalizer)
      ensures reply.Conflict? ==> stored.Some?
      ensures reply.Vanished? ==> stored.None?
    {
      hide IsHistory;
      Interfere();
      ghost var w := Now();
      var o: Outcome := *;
      reply := StoreFinalizer(t, o);
      RecordFinalizer(w, o);
    }

    /** A status update: it stores the copy's status, if the copy is of the stored version. */
    method UpdateStatus(t: LiveTfRun) returns (ok: bool)
      requires Valid() && worker.call.WriteStatus? && t.Value() == worker.mem
      modifies this, t
      ensures Valid() && old(past) <= past && hist.runs == old(hist.runs)
      ensures t.Value() == if ok then Bump(old(t.Value())) else old(t.Value())
      ensures ok ==> stored.Some? && stored.value.status == old(t.status)
      ensures WriteTaken(cfg, old(worker.call.purpose), ok, worker, t.Value(), clock)
    {
      hide IsHistory;
      Interfere();
      ghost var w := Now();
      var o: Outcome := *;
      ok := StoreStatus(t, o);
      RecordWrite(w, o, t.Value(), ok);
    }

    /* ---------- Jobs and secrets ---------- */

    method GetJob(jobName: string) returns (reply: JobReply)
      requires Valid() && ReadsJob(worker.call) && jobName == JobNameRead(cfg, worker)
      modifies this
      ensures Valid() && old(past) <= past && hist.runs == old(hist.runs)
      ensures reply.Found? ==> jobName in jobs && jobs[jobName] == reply.job
      ensures reply.Absent? ==> jobName !in jobs
      ensures JobTaken(cfg, old(worker), worker, reply, clock)
    {
      hide IsHistory;
      Interfere();
      ghost var w := Now();
      var o: Outcome := *;
      reply := if !o.Done? then Unreadable else if jobName in jobs then Found(jobs[jobName]) else Absent;
      JobReadServed(cfg, w, o);
      Record(w, Serve(o, ""));
    }

    /** The creation of a Job from this template; job says what is known of it. */
    method CreateJob(template: Template, job: Job) returns (reply: CreateReply)
      requires Valid() && (worker.call.CreateJob? || worker.call.CreateDestroyJob?)
      requires template.jobName == JobNameCreated(cfg, worker) && job == NewJob(cfg, worker)
      modifies this
      ensures Valid() && old(past) <= past
      ensures |hist.runs| <= |old(hist.runs)| + 1
      ensures old(worker.call.CreateDestroyJob?) || reply.Exists? ==> hist.runs == old(hist.runs)
      ensures old(worker.call.CreateJob?) && reply.Created? ==> |hist.runs| == |old(hist.runs)| + 1
      ensures reply.Created? ==> template.jobName in jobs && jobs[template.jobName] == job
      ensures reply.Exists? ==> template.jobName in jobs
      ensures CreateTaken(cfg, old(worker), worker, reply, clock)
    {
      hide IsHistory;
      Interfere();
      ghost var w := Now();
      var o: Outcome := *;
      reply := if !o.Done? then NotCreated else if template.jobName in jobs then Exists else Created;
      if !o.Refused? && template.jobName !in jobs {
        jobs := jobs[template.jobName := job];
      }
      CreateServed(cfg, w, o);
      Record(w, Serve(o, ""));
    }

    /** The git token of a Job's secret, if it can be read. */
    method ReadToken() returns (token: Option<string>)
      requires Valid() && (worker.call.FetchSecret? || worker.call.FetchDestroySecret?)
      modifies this
      ensures Valid() && old(past) <= past && hist.runs == old(hist.runs)
      ensures Stands(old(worker.mem), AfterSecretRead(old(worker), token.Some?))
    {
      hide IsHistory;
      Interfere();
      ghost var w := Now();
      var o: Outcome := *;
      var found: string := *;
      token := if o.Done? then Some(found) else None;
      SecretServed(cfg, w, o);
      Record(w, Serve(o, ""));
    }

    /* ---------- the remote workspaces ---------- */

    method GetWorkspace(id: string) returns (found: Option<string>)
      requires Valid() && id != ""
      requires (worker.call.CheckWorkspace? && id == worker.mem.status.workspaceID) || worker.call.ImportWorkspace?
      modifies this
      ensures Valid() && old(past) <= past && hist.runs == old(hist.runs)
      ensures LookupTaken(cfg, old(worker), worker, found, clock)
    {
      hide IsHistory;
      Interfere();
      ghost var w := Now();
      var o: Outcome := *;
      found := if o.Done? && id in workspaces then Some(id) else None;
      LookupServed(cfg, w, o, id);
      Record(w, Serve(o, id));
    }

    method EnsureWorkspace() returns (reply: Option<string>)
      requires Valid() && worker.call.EnsureWorkspace?
      modifies this
      ensures Valid() && old(past) <= past && hist.runs == old(hist.runs)
      ensures Stands(old(worker.mem), AfterEnsure(old(worker.mem), reply))
    {
      hide IsHistory;
      Interfere();
      ghost var w := Now();
      var o: Outcome := *;
      var id: string := *;
      reply := if o.Done? && id !in issued then Some(id) else None;
      var created := if !o.Refused? && id != "" && id !in issued then {id} else {};
      workspaces, issued := workspaces + created, issued + created;
      RecordEnsure(w, o, id, created);
    }

    method DeleteWorkspace(id: string) returns (ok: bool)
      requires Valid() && worker.call.DeleteWorkspace? && id == worker.mem.status.workspaceID
      modifies this
      ensures Valid() && old(past) <= past && hist.runs == old(hist.runs)
      ensures ok ==> Stands(old(worker.mem), Go(old(worker.mem), RefetchForFinalizer))
      ensures !ok ==> worker.call.Idle?
    {
      hide IsHistory;
      Interfere();
      ghost var w := Now();
      var o: Outcome := *;
      if !o.Refused? {
        workspaces := workspaces - {id};
      }
      ok := o.Done?;
      DeleteServed(cfg, w, o);
      Record(w, Serve(o, ""));
    }
  }
}
