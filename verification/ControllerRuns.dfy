/** The results that depend on Job names, for the names the controller really builds. */
module ControllerRuns {
  import opened Types
  import opened Machine
  import opened Rules
  import opened Exclusion
  import opened FreshNames
  import opened Names

  /** The names of all generations so far fit, and no two hashes seen so far share their first eight digits. */
  ghost predicate ShortAndApart(name: string, w: World) {
    && (w.stored.Some? ==> Fits(name, w.stored.value.generation))
    && forall h, h' | h in w.hist.hashes && h' in w.hist.hashes && 8 <= |h| && 8 <= |h'| && h[..8] == h'[..8] :: h == h'
  }

  predicate AllHashes(hashes: set<string>) { forall h | h in hashes :: IsHash(h) }

  lemma NamesAreApart(name: string, digest: HashInput -> Hash, w: World)
    requires Lowercase(name) && ShortAndApart(name, w) && AllHashes(w.hist.hashes)
    ensures NamesApart(ControllerConfig(name, digest), w)
  {
    var cfg := ControllerConfig(name, digest);
    if w.stored.Some? {
      var last := w.stored.value.generation;
      forall g: nat, g': nat, h, h' | g <= last && g' <= last && h in w.hist.hashes && h' in w.hist.hashes
                                      && cfg.jobName(g, h) == cfg.jobName(g', h')
        ensures g == g' && h == h'
      {
        DecimalGrows(g, last);
        DecimalGrows(g', last);
        JobNamesAreDistinct(name, name, g, g', h, h');
      }
    }
  }

  lemma {:induction false} HashesAreHashes(cfg: Config, w0: World, es: seq<Event>)
    requires Initial(cfg, w0)
    ensures AllHashes(Run(cfg, w0, es).hist.hashes)
  {
    if es != [] {
      HashesAreHashes(cfg, w0, es[..|es| - 1]);
    }
  }

  lemma {:induction false} NamesStayApart(name: string, digest: HashInput -> Hash, w0: World, es: seq<Event>)
    requires var cfg := ControllerConfig(name, digest);
             && Initial(cfg, w0) && Obeys(cfg, {RecordsLandInTime, ReliableJobReads}, w0, es)
             && Lowercase(name) && forall n | 0 <= n <= |es| :: ShortAndApart(name, Run(cfg, w0, es[..n]))
    ensures Obeys(ControllerConfig(name, digest), RELIABLE_NAMES, w0, es)
  {
    hide Step, Initial, NamesApart, ShortAndApart, AllHashes, ControllerConfig;
    if es != [] {
      var cfg, m := ControllerConfig(name, digest), |es| - 1;
      assert forall n | 0 <= n <= m :: es[..m][..n] == es[..n];
      NamesStayApart(name, digest, w0, es[..m]);
      HashesAreHashes(cfg, w0, es[..m]);
      HashesAreHashes(cfg, w0, es);
      assert es[..|es|] == es;
      NamesAreApart(name, digest, Run(cfg, w0, es[..m]));
      NamesAreApart(name, digest, Run(cfg, w0, es));
    }
  }

  /** With no record lost at an unchanged generation, names that are not cut and hashes that differ in their first eight
      digits, the controller never meets its own Job. */
  lemma ControllerNeverMeetsItsJob(name: string, digest: HashInput -> Hash, w0: World, es: seq<Event>)
    requires var cfg := ControllerConfig(name, digest);
             && Initial(cfg, w0) && Obeys(cfg, {RecordsLandInTime, ReliableJobReads}, w0, es)
             && Lowercase(name) && forall n | 0 <= n <= |es| :: ShortAndApart(name, Run(cfg, w0, es[..n]))
    ensures var cfg := ControllerConfig(name, digest);
            var w := Run(cfg, w0, es);
            && (w.worker.call.CreateJob? ==> JobNameCreated(cfg, w.worker) !in w.jobs)
            && !w.worker.call.RefetchToAdopt?
  {
    ControllerIsWellNamed(name, digest);
    NamesStayApart(name, digest, w0, es);
    CreationNeverMeetsAJob(ControllerConfig(name, digest), w0, es);
  }

  /** Mutual exclusion needs nothing of the names: it holds for every TfRun name, cut or not. */
  lemma ControllerExcludes(name: string, digest: HashInput -> Hash, w0: World, es: seq<Event>)
    requires var cfg := ControllerConfig(name, digest); Initial(cfg, w0) && Obeys(cfg, CAREFUL, w0, es)
    ensures |Unfinished(Run(ControllerConfig(name, digest), w0, es))| <= 1
  {
    ControllerIsWellNamed(name, digest);
    MutualExclusion(ControllerConfig(name, digest), w0, es);
  }
}
