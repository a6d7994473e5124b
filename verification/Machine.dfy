/** The reconcile protocol as a state machine.  A worker stands before one API call; serving the call
    performs it on the cluster and runs the controller's own code up to its next call.
    Between two calls anything the environment can do may happen. */
module Machine {
  import opened Types

  datatype Cause = SpecChange | PendingRun | IntervalDue

  // Why a status write is made; it decides how the reconcile goes on.
  datatype Purpose =
    | Note            // write, then return
    | ClearWorkspace  // drop a workspace id that failed its remote check, then return
    | Resume          // a workspace failure or delay was noted, then the Job logic follows
    | NewWorkspace    // record a created workspace, then the Job logic follows
    | Imported        // record an imported workspace, then the Job logic follows
    | RecordJob       // record a created apply Job, then return
    | AdoptJob        // record an apply Job that already existed, then return
    | Cleanup         // clear the destroy Job; the clean-up follows whether or not the write lands

  datatype Call =
    | Idle
    | Panicked(hash: string, cause: Cause)
    | AddFinalizer
    | CheckWorkspace
    | EnsureWorkspace
    | ImportWorkspace
    | FetchJob
    | FetchSecret(hash: string, cause: Cause)
    | CreateJob(hash: string, cause: Cause)
    | RefetchToAdopt(jobName: string)
    | WriteStatus(purpose: Purpose)
    | FetchDestroyJob
    | ProbeDestroyJob
    | RefetchForDestroy
    | FetchDestroySecret
    | CreateDestroyJob
    | DeleteWorkspace
    | RefetchForFinalizer
    | RemoveFinalizer

  // mem is the reconcile's own copy of the object.  The other fields look back at this reconcile: whether that copy
  // came with a workspace id, whether its remote check has succeeded, and whether the reconcile has gone on from a
  // failed or delayed workspace.
  datatype Worker = Worker(call: Call, mem: TfRun, hadWorkspace: bool, verified: bool, unsettled: bool)

  datatype RunRecord = RunRecord(name: string, generation: nat, hash: string, built: string, cause: Cause,
                                 at: int, interval: Option<int>)

  // What has happened so far.  recorded counts the times a workspace id was stored in an empty field,
  // imports those of them that came from an import, clears the times it was emptied,
  // lostWorkspaces the created workspaces whose id never reached the stored status.
  datatype History = History(hashes: set<string>, runs: seq<RunRecord>, lastRecorded: Option<RunRecord>,
                             workspaceIds: set<string>, workspacesCreated: nat, recorded: nat, imports: nat,
                             clears: nat, lostWorkspaces: nat, destroyJobs: nat, destroyFinished: nat)

  datatype World = World(stored: Option<TfRun>, jobs: map<string, Job>, workspaces: set<string>, clock: int,
                         worker: Worker, hist: History)

  // Done: performed and answered.  Refused: not performed, error.  Unanswered: performed, but the caller sees an error.
  datatype Outcome = Done | Refused | Unanswered

  datatype Report = Report(active: nat, succeeded: nat, failed: nat, finished: bool)

  datatype Event =
    | Serve(outcome: Outcome, id: string)  // the pending call is served; id is the workspace id where one is returned
    | Crash
    | Edit(spec: Spec)
    | Annotate(importId: string)
    | RequestDelete
    | Progress(name: string, report: Report)
    | Expire(name: string)
    | Tick(elapsed: nat)
    | LoseWorkspace(id: string)

  /* ---------- the controller's own code between two calls ---------- */

  // Where the code gets to with its copy of the object: the next call, and the status the copy then has.
  datatype Turn = Turn(call: Call, status: Status)

  function Stop(t: TfRun): Turn { Turn(Idle, t.status) }

  function Go(t: TfRun, call: Call): Turn { Turn(call, t.status) }

  function Write(s: Status, p: Purpose): Turn { Turn(WriteStatus(p), s) }

  /** From the finalizer on. */
  function Start(cfg: Config, t: TfRun, now: int): Turn {
    if t.deleting then BeginDeletion(t) else EnsureWorkspaceIfNeeded(cfg, t, now)
  }

  function EnsureWorkspaceIfNeeded(cfg: Config, t: TfRun, now: int): Turn {
    match t.spec.backend.cloud
    case None => AfterWorkspace(cfg, t, now)
    case Some(c) =>
      if t.status.workspaceID != "" then
        if ProviderSupported(c) then Go(t, CheckWorkspace)
        else Write(t.status.(phase := Failed, workspaceReady := false), Note)
      else if !ProviderSupported(c) then Write(t.status.(phase := Failed, workspaceReady := false), Resume)
      else if t.importId != "" then Go(t, ImportWorkspace)
      else Go(t, EnsureWorkspace)
  }

  function AfterWorkspace(cfg: Config, t: TfRun, now: int): Turn {
    if t.status.activeJobName == "" then Decide(cfg, t, None, now) else Go(t, FetchJob)
  }

  /** With the workspace settled and the active Job read: what this reconcile does. */
  function Decide(cfg: Config, t: TfRun, job: Option<Job>, now: int): Turn {
    if t.status.lastSpecHash != SpecHash(cfg, t.spec) then AfterSpecChange(cfg, t, job)
    else if job.Some? then
      if IsJobActive(job.value) then Stop(t) else ReportCompletion(t, job.value, now)
    else if PendingExists(t.status) then StartRun(t, t.status.pendingExecHash, PendingRun)
    else AfterInterval(cfg, t, now)
  }

  function AfterSpecChange(cfg: Config, t: TfRun, job: Option<Job>): Turn {
    var current := SpecHash(cfg, t.spec);
    if job.Some? && IsJobActive(job.value) then
      Write(t.status.(pendingExecHash := current, pendingReason := "SpecChange"), Note)
    else
      StartRun(t, current, SpecChange)
  }

  predicate PendingExists(s: Status) {
    s.pendingExecHash != "" && s.pendingExecHash != s.lastSpecHash
  }

  function ReportCompletion(t: TfRun, job: Job, now: int): Turn {
    var s := if IsJobSucceeded(job) then t.status.(phase := Succeeded, lastRunTime := Some(now)) else t.status;
    Write(if IsJobFailed(job) then s.(phase := Failed) else s, Note)
  }

  function AfterInterval(cfg: Config, t: TfRun, now: int): Turn {
    match t.spec.runInterval
    case None => if t.status.nextRunTime.Some? then Write(t.status.(nextRunTime := None), Note) else Stop(t)
    case Some(interval) =>
      if interval < MIN_INTERVAL then Write(t.status.(phase := Failed), Note)
      else if t.status.nextRunTime.Some? && now < t.status.nextRunTime.value then Stop(t)
      else StartRun(t, SpecHash(cfg, t.spec), IntervalDue)
  }

  /** Up to the first call of a new apply run; slicing a hash shorter than eight characters panics. */
  function StartRun(t: TfRun, hash: string, cause: Cause): Turn {
    if !EngineSupported(t.spec) then Stop(t)
    else if |hash| < 8 then Go(t, Panicked(hash, cause))
    else if t.spec.backend.cloud.None? then Write(t.status.(phase := Failed), Note)
    else Go(t, FetchSecret(hash, cause))
  }

  function BeginDeletion(t: TfRun): Turn {
    if t.status.activeDestroyJobName != "" then Go(t, FetchDestroyJob)
    else if !EngineSupported(t.spec) then Stop(t)
    else Go(t, ProbeDestroyJob)
  }

  function BuildDestroy(t: TfRun): Turn {
    if t.spec.backend.cloud.None? then Write(t.status.(phase := Failed), Note) else Go(t, FetchDestroySecret)
  }

  function CleanUp(t: TfRun): Turn {
    if t.status.workspaceReady && t.status.workspaceID != "" then
      match t.spec.backend.cloud
      case Some(c) => if ProviderSupported(c) then Go(t, DeleteWorkspace) else Stop(t)
      case None => Stop(t)
    else Go(t, RefetchForFinalizer)
  }

  /* ---------- what follows the answer to each call ---------- */

  function AfterCheck(cfg: Config, t: TfRun, ok: bool, now: int): Turn {
    if ok then AfterWorkspace(cfg, t, now)
    else Write(t.status.(phase := Failed, workspaceID := "", workspaceReady := false), ClearWorkspace)
  }

  function AfterEnsure(t: TfRun, reply: Option<string>): Turn {
    match reply
    case None => Write(t.status.(phase := Failed, workspaceReady := false), Resume)
    case Some(id) =>
      if id == "" then
        Write(t.status.(phase := Pending, workspaceReady := false, observedGeneration := t.generation), Resume)
      else
        Write(t.status.(workspaceID := id, workspaceReady := true, phase := Pending,
                        observedGeneration := t.generation), NewWorkspace)
  }

  function AfterImport(t: TfRun, reply: Option<string>): Turn {
    match reply
    case None => Write(t.status.(phase := Failed, workspaceReady := false), Resume)
    case Some(id) =>
      Write(t.status.(workspaceID := id, workspaceReady := true, workspaceImport := true, phase := Pending,
                      observedGeneration := t.generation), Imported)
  }

  datatype JobReply = Found(job: Job) | Absent | Unreadable

  function AfterDestroyJobRead(t: TfRun, reply: JobReply): Turn {
    var cleared := t.status.(activeDestroyJobName := "");
    match reply
    case Unreadable => Stop(t)
    case Absent => Write(cleared, Cleanup)
    case Found(job) =>
      if IsJobActive(job) then Turn(Idle, t.status.(phase := Destroying))
      else if IsJobSucceeded(job) then Write(cleared, Cleanup)
      else if IsJobFailed(job) then Write(cleared.(phase := Failed), Note)
      else Stop(t)
  }

  function AfterSecret(t: TfRun, ok: bool, next: Call): Turn {
    if ok then Go(t, next) else Write(t.status.(phase := Failed), Note)
  }

  datatype CreateReply = Created | Exists | NotCreated

  function AfterJobCreate(cfg: Config, t: TfRun, hash: string, reply: CreateReply, now: int): Turn {
    match reply
    case Exists => Go(t, RefetchToAdopt(cfg.jobName(t.generation, hash)))
    case NotCreated => Write(t.status.(phase := Failed), Note)
    case Created => Write(RecordRun(cfg, t, hash, now), RecordJob)
  }

  /** The status after a created apply Job. */
  function RecordRun(cfg: Config, t: TfRun, hash: string, now: int): Status {
    var s := t.status.(activeJobName := cfg.jobName(t.generation, hash), runID := cfg.runId(t.generation, hash),
                       lastSpecHash := hash, phase := Running, observedGeneration := t.generation,
                       pendingExecHash := "", pendingReason := "");
    match t.spec.runInterval
    case Some(interval) => s.(lastRunTime := Some(now), nextRunTime := Some(now + interval))
    case None => s.(nextRunTime := None)
  }

  function AfterAdopt(t: TfRun, jobName: string): Turn {
    Write(t.status.(activeJobName := jobName, phase := Running, observedGeneration := t.generation), AdoptJob)
  }

  function AfterDestroyCreate(cfg: Config, t: TfRun, reply: CreateReply): Turn {
    if reply.NotCreated? then Stop(t)
    else Write(t.status.(activeDestroyJobName := cfg.destroyName, phase := Pending,
                         observedGeneration := t.generation), Note)
  }

  function AfterStatusWrite(cfg: Config, t: TfRun, p: Purpose, ok: bool, now: int): Turn {
    match p
    case Cleanup => CleanUp(t)
    case Resume | NewWorkspace | Imported => if ok then AfterWorkspace(cfg, t, now) else Stop(t)
    case _ => Stop(t)
  }

  /* ---------- what the cluster answers ---------- */

  /** The stored object still is the version the worker read. */
  predicate Current(w: World) {
    w.stored.Some? && w.stored.value.resourceVersion == w.worker.mem.resourceVersion
  }

  function Bump(t: TfRun): TfRun { t.(resourceVersion := t.resourceVersion + 1) }

  /** A write lands if it is performed on the version that was read. */
  predicate Lands(w: World, o: Outcome) { Current(w) && !o.Refused? }

  function WithFinalizer(w: World): TfRun
    requires w.stored.Some?
  {
    Bump(w.stored.value).(finalizer := w.worker.call.AddFinalizer?)
  }

  /** The recorded workspace is found remotely. */
  predicate WorkspaceFound(w: World, o: Outcome) {
    o.Done? && w.worker.mem.status.workspaceID in w.workspaces
  }

  function ImportReply(w: World, o: Outcome, id: string): Option<string> {
    if o.Done? && id != "" && id in w.workspaces then Some(id) else None
  }

  /** A workspace is created under an id never seen before; an empty id stands for one still being created. */
  function EnsureReply(w: World, o: Outcome, id: string): Option<string> {
    if o.Done? && id !in w.hist.workspaceIds then Some(id) else None
  }

  function JobNameRead(cfg: Config, k: Worker): string {
    match k.call
    case FetchJob => k.mem.status.activeJobName
    case FetchDestroyJob => k.mem.status.activeDestroyJobName
    case _ => cfg.destroyName
  }

  function JobReplyTo(cfg: Config, w: World, o: Outcome): JobReply {
    var name := JobNameRead(cfg, w.worker);
    if !o.Done? then Unreadable else if name in w.jobs then Found(w.jobs[name]) else Absent
  }

  function JobNameCreated(cfg: Config, k: Worker): string {
    if k.call.CreateJob? then cfg.jobName(k.mem.generation, k.call.hash) else cfg.destroyName
  }

  /** The Job comes into being. */
  predicate Creates(cfg: Config, w: World, o: Outcome) {
    !o.Refused? && JobNameCreated(cfg, w.worker) !in w.jobs
  }

  function CreateReplyTo(cfg: Config, w: World, o: Outcome): CreateReply {
    if !o.Done? then NotCreated else if Creates(cfg, w, o) then Created else Exists
  }

  /** The worker's copy and record when its code goes on after the served call. */
  function Resumed(w: World, o: Outcome): Worker {
    var k := w.worker;
    match k.call
    case Idle => if o.Done? && w.stored.Some? then Begun(w.stored.value) else k
    case RefetchToAdopt(_) | RefetchForDestroy | RefetchForFinalizer =>
      if o.Done? && w.stored.Some? then k.(mem := w.stored.value) else k
    case AddFinalizer => if Lands(w, o) && o.Done? then k.(mem := WithFinalizer(w)) else k
    case CheckWorkspace => k.(verified := WorkspaceFound(w, o))
    case WriteStatus(p) =>
      if Lands(w, o) && o.Done? then k.(mem := Bump(k.mem), unsettled := k.unsettled || p.Resume?) else k
    case _ => k
  }

  function Begun(t: TfRun): Worker { Worker(Idle, t, t.status.workspaceID != "", false, false) }

  function ServedTurn(cfg: Config, w: World, o: Outcome, id: string): Turn {
    var t, now := Resumed(w, o).mem, w.clock;
    match w.worker.call
    case Panicked(_, _) => Go(t, w.worker.call)
    case Idle =>
      if !o.Done? || w.stored.None? then Stop(t)
      else if t.finalizer then Start(cfg, t, now) else Go(t, AddFinalizer)
    case AddFinalizer => if Lands(w, o) && o.Done? then Start(cfg, t, now) else Stop(t)
    case CheckWorkspace => AfterCheck(cfg, t, WorkspaceFound(w, o), now)
    case EnsureWorkspace => AfterEnsure(t, EnsureReply(w, o, id))
    case ImportWorkspace => AfterImport(t, ImportReply(w, o, id))
    case FetchJob =>
      var reply := JobReplyTo(cfg, w, o);
      Decide(cfg, t, if reply.Found? then Some(reply.job) else None, now)
    case FetchSecret(hash, cause) => AfterSecret(t, o.Done?, CreateJob(hash, cause))
    case CreateJob(hash, _) => AfterJobCreate(cfg, t, hash, CreateReplyTo(cfg, w, o), now)
    case RefetchToAdopt(jobName) => if o.Done? && w.stored.Some? then AfterAdopt(t, jobName) else Stop(t)
    case WriteStatus(p) => AfterStatusWrite(cfg, t, p, Lands(w, o) && o.Done?, now)
    case FetchDestroyJob => AfterDestroyJobRead(t, JobReplyTo(cfg, w, o))
    case ProbeDestroyJob => if JobReplyTo(cfg, w, o).Found? then Go(t, RefetchForDestroy) else BuildDestroy(t)
    case RefetchForDestroy =>
      if o.Done? && w.stored.Some? then
        Write(t.status.(activeDestroyJobName := cfg.destroyName, phase := Pending), Note)
      else Stop(t)
    case FetchDestroySecret => AfterSecret(t, o.Done?, CreateDestroyJob)
    case CreateDestroyJob => AfterDestroyCreate(cfg, t, CreateReplyTo(cfg, w, o))
    case DeleteWorkspace => if o.Done? then Go(t, RefetchForFinalizer) else Stop(t)
    case RefetchForFinalizer => if o.Done? && w.stored.Some? && t.finalizer then Go(t, RemoveFinalizer) else Stop(t)
    case RemoveFinalizer => Stop(t)
  }

  /** The worker takes its turn: its next call, and its copy with the new status. */
  function Take(k: Worker, turn: Turn): Worker {
    k.(call := turn.call, mem := k.mem.(status := turn.status))
  }

  /* ---------- what an event does to the cluster ---------- */

  /** The stored object after a served call. */
  function StoredServed(w: World, o: Outcome): Option<TfRun> {
    if !Lands(w, o) then w.stored
    else match w.worker.call
      case WriteStatus(_) => Some(Bump(w.stored.value).(status := w.worker.mem.status))
      case AddFinalizer | RemoveFinalizer =>
        // an object under deletion goes away with its last finalizer
        var t := WithFinalizer(w);
        if t.deleting && !t.finalizer then None else Some(t)
      case _ => w.stored
  }

  function StoredAfter(w: World, e: Event): Option<TfRun> {
    if e.Serve? then StoredServed(w, e.outcome)
    else if w.stored.None? then None
    else
      var t := w.stored.value;
      match e
      case Edit(spec) =>
        if t.spec == spec then w.stored else Some(Bump(t).(generation := t.generation + 1, spec := spec))
      case Annotate(importId) => Some(Bump(t).(importId := importId))
      case RequestDelete =>
        if t.deleting then w.stored
        else if !t.finalizer then None
        else Some(Bump(t).(generation := t.generation + 1, deleting := true))
      case _ => w.stored
  }

  predicate CreatesApplyJob(cfg: Config, w: World, e: Event) {
    e.Serve? && w.worker.call.CreateJob? && Creates(cfg, w, e.outcome)
  }

  predicate CreatesDestroyJob(cfg: Config, w: World, e: Event) {
    e.Serve? && w.worker.call.CreateDestroyJob? && Creates(cfg, w, e.outcome)
  }

  function NewJob(cfg: Config, k: Worker): Job {
    var built := SpecHash(cfg, k.mem.spec);
    if k.call.CreateJob? then Job(Apply, k.mem.generation, k.call.hash, built, 0, 0, 0, false)
    else Job(Destroy, k.mem.generation, built, built, 0, 0, 0, false)
  }

  /** A Job reports while it runs; it is finished once, with no active pod left and a success or a failure,
      and a success with no active pod left finishes it. */
  predicate CanReport(j: Job, r: Report) {
    && !j.finished
    && (r.finished ==> r.active == 0 && (r.succeeded > 0 || r.failed > 0))
    && (r.succeeded > 0 && r.active == 0 ==> r.finished)
  }

  predicate Progresses(w: World, e: Event) {
    e.Progress? && e.name in w.jobs && CanReport(w.jobs[e.name], e.report)
  }

  function JobsAfter(cfg: Config, w: World, e: Event): map<string, Job> {
    if CreatesApplyJob(cfg, w, e) || CreatesDestroyJob(cfg, w, e) then
      w.jobs[JobNameCreated(cfg, w.worker) := NewJob(cfg, w.worker)]
    else if Progresses(w, e) then
      var r := e.report;
      w.jobs[e.name := w.jobs[e.name].(active := r.active, succeeded := r.succeeded, failed := r.failed,
                                       finished := r.finished)]
    else if e.Expire? && e.name in w.jobs && w.jobs[e.name].finished then w.jobs - {e.name}
    else w.jobs
  }

  predicate CreatesWorkspace(w: World, e: Event) {
    e.Serve? && w.worker.call.EnsureWorkspace? && !e.outcome.Refused? && e.id != "" && e.id !in w.hist.workspaceIds
  }

  function WorkspacesAfter(w: World, e: Event): set<string> {
    if CreatesWorkspace(w, e) then w.workspaces + {e.id}
    else if e.Serve? && w.worker.call.DeleteWorkspace? && !e.outcome.Refused? then
      w.workspaces - {w.worker.mem.status.workspaceID}
    else if e.LoseWorkspace? then w.workspaces - {e.id}
    else w.workspaces
  }

  /** The write the worker is about to make for this purpose lands. */
  predicate Stores(w: World, e: Event, p: Purpose) {
    e.Serve? && w.worker.call == WriteStatus(p) && Lands(w, e.outcome)
  }

  /** A created workspace whose id will not be stored: its creation went unanswered, or its write is lost. */
  predicate LosesNewWorkspace(w: World, e: Event) {
    || (CreatesWorkspace(w, e) && !e.outcome.Done?)
    || (w.worker.call == WriteStatus(NewWorkspace) && (e.Crash? || (e.Serve? && !Lands(w, e.outcome))))
  }

  function NewRun(cfg: Config, w: World): RunRecord
    requires w.worker.call.CreateJob?
  {
    var k := w.worker;
    RunRecord(JobNameCreated(cfg, k), k.mem.generation, k.call.hash, SpecHash(cfg, k.mem.spec), k.call.cause, w.clock,
              k.mem.spec.runInterval)
  }

  function RunsAfter(cfg: Config, w: World, e: Event): seq<RunRecord> {
    if CreatesApplyJob(cfg, w, e) then w.hist.runs + [NewRun(cfg, w)] else w.hist.runs
  }

  function Count(b: bool): nat { if b then 1 else 0 }

  function HistoryAfter(cfg: Config, w: World, e: Event): History {
    var h := w.hist;
    History(if e.Edit? && w.stored.Some? then h.hashes + {SpecHash(cfg, e.spec)} else h.hashes,
            RunsAfter(cfg, w, e),
            if Stores(w, e, RecordJob) && h.runs != [] then Some(h.runs[|h.runs| - 1]) else h.lastRecorded,
            if CreatesWorkspace(w, e) then h.workspaceIds + {e.id} else h.workspaceIds,
            h.workspacesCreated + Count(CreatesWorkspace(w, e)),
            h.recorded + Count(Stores(w, e, NewWorkspace) || Stores(w, e, Imported)),
            h.imports + Count(Stores(w, e, Imported)),
            h.clears + Count(Stores(w, e, ClearWorkspace)),
            h.lostWorkspaces + Count(LosesNewWorkspace(w, e)),
            h.destroyJobs + Count(CreatesDestroyJob(cfg, w, e)),
            h.destroyFinished + Count(Progresses(w, e) && w.jobs[e.name].kind.Destroy? && e.report.finished))
  }

  function ClockAfter(w: World, e: Event): int { if e.Tick? then w.clock + e.elapsed else w.clock }

  function WorkerAfter(cfg: Config, w: World, e: Event): Worker {
    match e
    case Serve(o, id) => Take(Resumed(w, o), ServedTurn(cfg, w, o, id))
    case Crash => w.worker.(call := Idle)
    case _ => w.worker
  }

  function Step(cfg: Config, w: World, e: Event): World {
    World(StoredAfter(w, e), JobsAfter(cfg, w, e), WorkspacesAfter(w, e),
          ClockAfter(w, e),
          WorkerAfter(cfg, w, e), HistoryAfter(cfg, w, e))
  }

  function Run(cfg: Config, w: World, es: seq<Event>): World {
    if es == [] then w else Step(cfg, Run(cfg, w, es[..|es|-1]), es[|es|-1])
  }

  /** A TfRun as its user creates it, with no Job yet and any workspaces already there. */
  predicate Initial(cfg: Config, w: World) {
    && w.stored.Some?
    && var t := w.stored.value;
       && t.generation == 1 && t.status == EMPTY_STATUS && !t.finalizer && !t.deleting
       && w.jobs == map[]
       && w.worker.call == Idle
       && "" !in w.workspaces
       && w.hist == History({SpecHash(cfg, t.spec)}, [], None, w.workspaces, 0, 0, 0, 0, 0, 0, 0)
  }
}
