/** What holds of the tables at every point of every history. */
module Invariants {
  import opened Options
  import opened Planning
  import opened Waves
  import opened Tables
  import R = Runs
  import S = RunSafety

  // ---------------------------------------------------------------- identities and codes

  /** Ids are never reused. */
  ghost predicate IdsFresh(db: DB) {
    && (forall a :: a in db.artifacts ==> 0 < a < db.nextArtifact) && db.nextArtifact > 0
    && (forall r :: r in db.releases ==> 0 < r < db.nextRelease) && db.nextRelease > 0
    && (forall v :: v in db.revisions ==> v < db.nextRevision)
    && (forall r :: r in db.flows ==> 0 < r < db.nextRun) && db.nextRun > 0
    && (forall e :: e in db.latest ==> db.latest[e] < db.nextRun)
  }

  /** Version codes grow with every unit release of a unit, and no unit has a version twice. */
  ghost predicate UnitCodes(artifacts: map<int, Artifact>, codes: map<int, int>) {
    && (forall a :: a in artifacts ==> FIRST_CODE <= artifacts[a].code < NextCode(codes, artifacts[a].unit))
    && (forall a, b :: a in artifacts && b in artifacts && a < b && artifacts[a].unit == artifacts[b].unit ==>
          artifacts[a].code < artifacts[b].code && artifacts[a].version != artifacts[b].version)
    && (forall u :: u in codes ==> codes[u] >= FIRST_CODE)
  }

  /** ... and with every release of an application. */
  ghost predicate AppCodes(releases: map<int, Release>, codes: map<int, int>) {
    && (forall r :: r in releases ==> FIRST_CODE <= releases[r].code < NextCode(codes, releases[r].app))
    && (forall r, q :: r in releases && q in releases && r < q && releases[r].app == releases[q].app ==>
          releases[r].code < releases[q].code && releases[r].version != releases[q].version)
    && (forall u :: u in codes ==> codes[u] >= FIRST_CODE)
  }

  /** No two releases have the same manifest. */
  ghost predicate ManifestsDiffer(releases: map<int, Release>) {
    forall r, q :: r in releases && q in releases && r < q ==> !SameManifest(releases[r], releases[q].entries, releases[q].configs)
  }

  // ---------------------------------------------------------------- manifests

  predicate ArtifactOf(artifacts: map<int, Artifact>, a: int, u: int) { a in artifacts && artifacts[a].unit == u }

  /** An active entry names a release of its own unit; the fingerprint digests the status and that release's checksum. */
  ghost predicate EntryOk(db: DB, app: int, u: int, e: Entry) {
    && u in db.units && db.units[u].app == app
    && !e.desired.Unsupported?
    && (e.desired == Active <==> e.release.Some?)
    && (e.release.Some? ==> ArtifactOf(db.artifacts, e.release.value, u))
    && e.fingerprint == Fingerprinted(db, e.desired, e.release)
  }

  ghost predicate EntriesOk(db: DB, app: int, entries: map<int, Entry>) {
    forall u :: u in entries ==> EntryOk(db, app, u, entries[u])
  }

  ghost predicate BaseOf(releases: map<int, Release>, b: int, x: Release) {
    && b in releases && releases[b].app == x.app
    && (forall u :: u in x.entries && u !in x.changed ==>
          u in releases[b].entries && releases[b].entries[u] == x.entries[u])
  }

  /** Entries that the creation of a release did not change are those of its base. */
  ghost predicate Inherits(releases: map<int, Release>, r: int, x: Release) {
    && (x.base.Some? ==> x.base.value < r && BaseOf(releases, x.base.value, x))
    && (x.base.None? ==> x.entries.Keys <= x.changed)
    && x.changed <= x.entries.Keys
  }

  ghost predicate ConfigsOk(db: DB, app: int, configs: map<int, int>) {
    forall e :: e in configs ==> e in db.envs && db.envs[e].app == app && RevisionOf(db.revisions, configs[e], app)
  }

  ghost predicate ManifestsOk(db: DB) {
    forall r :: r in db.releases ==>
      && EntriesOk(db, db.releases[r].app, db.releases[r].entries)
      && ConfigsOk(db, db.releases[r].app, db.releases[r].configs)
      && Inherits(db.releases, r, db.releases[r])
  }

  // ---------------------------------------------------------------- runs

  ghost predicate FlowsOk(flows: map<int, R.Flow>) {
    forall r :: r in flows ==> S.FlowOk(flows[r])
  }

  /** A run that is not over is the last one created in its environment. */
  ghost predicate Locked(flows: map<int, R.Flow>, latest: map<int, int>) {
    forall r :: r in flows && R.Ongoing(flows[r].run.status) ==>
      flows[r].run.plan.environmentId in latest && latest[flows[r].run.plan.environmentId] == r
  }

  ghost predicate KeyedTargets(targets: map<int, TargetUnit>) {
    forall u :: u in targets ==> targets[u].unitId == u
  }

  ghost predicate KeyedStates(observed: StateIndex) {
    forall p :: p in observed ==> p == (observed[p].unitId, observed[p].nodeId)
  }

  function NodeSet(p: Plan): set<int> { set n | n in p.nodes }

  /** The run's plan is what the planner made of the targets and the states it was given. */
  ghost predicate Made(run: R.Run) {
    var p := run.plan;
    && KeyedTargets(run.targets) && KeyedStates(run.observed)
    && BuildPlan(InputOf(p.appId, p.environmentId, p.releaseId, p.configId, p.mode, NodeSet(p),
                         run.targets, run.observed)) == Ok(p)
  }

  /** The run's release and configuration are still there, and say what they said when the run was planned. */
  ghost predicate Rooted(db: DB, p: Plan, targets: map<int, TargetUnit>) {
    && p.environmentId in db.envs && db.envs[p.environmentId].app == p.appId
    && p.releaseId in db.releases && db.releases[p.releaseId].app == p.appId
    && p.environmentId in db.releases[p.releaseId].configs
    && db.releases[p.releaseId].configs[p.environmentId] == p.configId
    && targets == TargetsOf(db, db.releases[p.releaseId], HashAt(db.revisions, p.configId))
    && RevisionOf(db.revisions, p.configId, p.appId)
  }

  ghost predicate RunsRooted(db: DB) {
    forall r :: r in db.flows ==>
      Made(db.flows[r].run) && Rooted(db, db.flows[r].run.plan, db.flows[r].run.targets)
  }

  /** The release of a run that is not over is ready ... */
  ghost predicate DeployedReady(flows: map<int, R.Flow>, releases: map<int, Release>) {
    forall r :: r in flows && R.Ongoing(flows[r].run.status) ==>
      flows[r].run.plan.releaseId in releases && !releases[flows[r].run.plan.releaseId].archived
  }

  /** ... and so is every environment's current release. */
  ghost predicate CurrentReady(envs: map<int, Env>, releases: map<int, Release>) {
    forall e :: e in envs && envs[e].current.Some? ==> ReadyOf(releases, envs[e].current.value, envs[e].app)
  }

  predicate ReadyOf(releases: map<int, Release>, r: int, app: int) {
    r in releases && releases[r].app == app && !releases[r].archived
  }

  // ---------------------------------------------------------------- artifacts

  predicate IsPresent(artifacts: map<int, Artifact>, release: Option<int>) {
    release.Some? ==> PresentAt(artifacts, release.value)
  }

  predicate PresentAt(artifacts: map<int, Artifact>, a: int) { a in artifacts && artifacts[a].status == Present }

  ghost predicate EntriesPresent(artifacts: map<int, Artifact>, entries: map<int, Entry>) {
    forall u :: u in entries ==> IsPresent(artifacts, entries[u].release)
  }

  ghost predicate ReleasesPresent(artifacts: map<int, Artifact>, releases: map<int, Release>) {
    forall r :: r in releases ==> EntriesPresent(artifacts, releases[r].entries)
  }

  ghost predicate StatesPresent(artifacts: map<int, Artifact>, states: map<Spot, State>) {
    forall p :: p in states ==> IsPresent(artifacts, states[p].release)
  }

  ghost predicate RowsPresent(artifacts: map<int, Artifact>, rows: R.Rows) {
    forall u :: u in rows ==> IsPresent(artifacts, rows[u].release)
  }

  ghost predicate RunsPresent(artifacts: map<int, Artifact>, flows: map<int, R.Flow>) {
    forall r :: r in flows && flows[r].run.snapshot ==> RowsPresent(artifacts, flows[r].run.rows)
  }

  // ---------------------------------------------------------------- runtime states

  /** What the last run of an environment left at one node: what its success wrote, or what it was planned from. */
  ghost predicate LeftAt(artifacts: map<int, Artifact>, states: map<Spot, State>, run: R.Run, x: Item, n: int) {
    var p := Spot(run.plan.environmentId, x.unitId, n);
    if R.StatusOf(run.rows, x.unitId) == R.Succeeded then p in states && states[p] == Written(x)
    else
      && (p in states <==> (x.unitId, n) in run.observed)
      && (p in states ==> Observe(artifacts, p, states[p]) == run.observed[(x.unitId, n)])
  }

  ghost predicate LeftBy(artifacts: map<int, Artifact>, states: map<Spot, State>, run: R.Run) {
    forall x, n :: x in run.plan.items && n in run.plan.nodes ==> LeftAt(artifacts, states, run, x, n)
  }

  ghost predicate WrittenBack(artifacts: map<int, Artifact>, states: map<Spot, State>, flows: map<int, R.Flow>,
                              latest: map<int, int>) {
    forall e :: e in latest ==> LastLeft(artifacts, states, flows, e, latest[e])
  }

  ghost predicate LastLeft(artifacts: map<int, Artifact>, states: map<Spot, State>, flows: map<int, R.Flow>, e: int,
                           r: int) {
    r in flows ==> flows[r].run.plan.environmentId == e && LeftBy(artifacts, states, flows[r].run)
  }

  // ---------------------------------------------------------------- together

  /** Catalogue, runs and references. */
  ghost predicate Catalogued(db: DB) {
    && IdsFresh(db) && UnitCodes(db.artifacts, db.unitCodes) && AppCodes(db.releases, db.appCodes) && ManifestsOk(db)
    && ManifestsDiffer(db.releases)
  }

  ghost predicate RunsOk(db: DB) {
    && FlowsOk(db.flows) && Locked(db.flows, db.latest) && RunsRooted(db)
    && DeployedReady(db.flows, db.releases) && CurrentReady(db.envs, db.releases)
  }

  ghost predicate Reachable(db: DB) {
    && ReleasesPresent(db.artifacts, db.releases) && StatesPresent(db.artifacts, db.states)
    && RunsPresent(db.artifacts, db.flows)
  }

  ghost predicate Inv(db: DB) {
    && Catalogued(db) && RunsOk(db) && Reachable(db)
    && WrittenBack(db.artifacts, db.states, db.flows, db.latest)
  }

  lemma FreshInv()
    ensures Inv(Fresh())
  {
  }

  // ---------------------------------------------------------------- what never goes away

  predicate SameArtifact(a: Artifact, b: Artifact) {
    a.unit == b.unit && a.version == b.version && a.code == b.code && a.checksum == b.checksum
  }

  ghost predicate KeepsArtifacts(a: map<int, Artifact>, b: map<int, Artifact>) {
    forall x :: x in a ==> x in b && SameArtifact(a[x], b[x])
  }

  predicate SameUnit(a: Unit, b: Unit) { a.app == b.app && a.key == b.key }

  ghost predicate KeepsUnits(a: map<int, Unit>, b: map<int, Unit>) {
    forall u :: u in a ==> u in b && SameUnit(a[u], b[u])
  }

  ghost predicate KeepsEnvs(a: map<int, Env>, b: map<int, Env>) {
    forall e :: e in a ==> e in b && a[e].app == b[e].app
  }

  ghost predicate KeepsRevisions(a: map<int, Revision>, b: map<int, Revision>) {
    forall v :: v in a ==> v in b && a[v] == b[v]
  }

  /** Artifacts, units, environments and revisions stay what they are. */
  ghost predicate Grows(a: DB, b: DB) {
    && KeepsArtifacts(a.artifacts, b.artifacts) && KeepsUnits(a.units, b.units)
    && KeepsEnvs(a.envs, b.envs) && KeepsRevisions(a.revisions, b.revisions)
  }

  lemma EntriesStay(a: DB, b: DB, app: int, entries: map<int, Entry>)
    requires Grows(a, b) && EntriesOk(a, app, entries)
    ensures EntriesOk(b, app, entries)
  {
    forall u | u in entries ensures EntryOk(b, app, u, entries[u]) {
      assert EntryOk(a, app, u, entries[u]);
    }
  }

  lemma ConfigsStay(a: DB, b: DB, app: int, configs: map<int, int>)
    requires Grows(a, b) && ConfigsOk(a, app, configs)
    ensures ConfigsOk(b, app, configs)
  {
  }

  lemma ManifestsStay(a: DB, b: DB)
    requires Grows(a, b) && ManifestsOk(a) && a.releases == b.releases
    ensures ManifestsOk(b)
  {
    hide Grows, EntriesOk, ConfigsOk, Inherits;
    forall r | r in b.releases ensures EntriesOk(b, b.releases[r].app, b.releases[r].entries)
                                 && ConfigsOk(b, b.releases[r].app, b.releases[r].configs) {
      EntriesStay(a, b, b.releases[r].app, b.releases[r].entries);
      ConfigsStay(a, b, b.releases[r].app, b.releases[r].configs);
    }
  }

  /** The targets of a release are the same forever. */
  lemma TargetsStay(a: DB, b: DB, x: Release, hash: string)
    requires Grows(a, b) && EntriesOk(a, x.app, x.entries)
    ensures TargetsOf(a, x, hash) == TargetsOf(b, x, hash)
  {
    forall u | u in x.entries
      ensures u in a.units && u in b.units && TargetOf(a, u, x.entries[u], hash) == TargetOf(b, u, x.entries[u], hash)
    {
      assert EntryOk(a, x.app, u, x.entries[u]);
    }
  }

  lemma RootStays(a: DB, b: DB, p: Plan, targets: map<int, TargetUnit>)
    requires Grows(a, b) && ManifestsOk(a) && Rooted(a, p, targets)
    requires p.releaseId in b.releases && SameRelease(a.releases[p.releaseId], b.releases[p.releaseId])
    ensures Rooted(b, p, targets)
  {
    hide EntriesOk, ConfigsOk, Inherits, TargetsOf;
    var x, y := a.releases[p.releaseId], b.releases[p.releaseId];
    TargetsStay(a, b, x, HashAt(a.revisions, p.configId));
    SameReleaseTargets(b, x, y, HashAt(a.revisions, p.configId));
  }

  predicate SameRelease(x: Release, y: Release) {
    x.app == y.app && x.entries == y.entries && x.configs == y.configs
  }

  lemma SameReleaseTargets(db: DB, x: Release, y: Release, hash: string)
    requires SameRelease(x, y)
    ensures TargetsOf(db, x, hash) == TargetsOf(db, y, hash)
  {
  }

  ghost predicate KeepsReleases(flows: map<int, R.Flow>, a: map<int, Release>, b: map<int, Release>) {
    forall r :: r in flows && flows[r].run.plan.releaseId in a ==>
      flows[r].run.plan.releaseId in b && SameRelease(a[flows[r].run.plan.releaseId], b[flows[r].run.plan.releaseId])
  }

  lemma SameTables(a: DB, b: DB)
    requires a.artifacts == b.artifacts && a.units == b.units && a.envs == b.envs && a.revisions == b.revisions
    ensures Grows(a, b)
    ensures a.releases == b.releases ==>
              KeepsReleases(b.flows, a.releases, b.releases) && (ManifestsOk(a) ==> ManifestsOk(b))
  {
    hide EntryOk, Inherits;
    if a.releases == b.releases && ManifestsOk(a) { ManifestsStay(a, b); }
  }

  predicate SamePlanning(a: R.Run, b: R.Run) {
    a.plan == b.plan && a.targets == b.targets && a.observed == b.observed
  }

  ghost predicate SamePlans(a: map<int, R.Flow>, b: map<int, R.Flow>) {
    forall r :: r in b ==> r in a && SamePlanning(a[r].run, b[r].run)
  }

  lemma RunsStayRooted(a: DB, b: DB)
    requires Grows(a, b) && ManifestsOk(a) && RunsRooted(a) && SamePlans(a.flows, b.flows)
    requires KeepsReleases(b.flows, a.releases, b.releases)
    ensures RunsRooted(b)
  {
    hide Grows, ManifestsOk, Rooted, Made, SameRelease;
    forall r | r in b.flows ensures Made(b.flows[r].run) && Rooted(b, b.flows[r].run.plan, b.flows[r].run.targets) {
      var x, y := a.flows[r].run, b.flows[r].run;
      assert Made(x) && Rooted(a, x.plan, x.targets);
      MadeStays(x, y);
      RootedRelease(a, x.plan, x.targets);
      RootStays(a, b, y.plan, y.targets);
    }
  }

  lemma MadeStays(x: R.Run, y: R.Run)
    requires Made(x) && SamePlanning(x, y)
    ensures Made(y)
  {
  }

  lemma RootedRelease(db: DB, p: Plan, targets: map<int, TargetUnit>)
    requires Rooted(db, p, targets)
    ensures p.releaseId in db.releases
  {
  }

  // ---------------------------------------------------------------- references stay good

  ghost predicate KeepsPresent(a: map<int, Artifact>, b: map<int, Artifact>) {
    forall x :: x in a && a[x].status == Present ==> x in b && b[x].status == Present
  }

  lemma PresentStays(a: DB, b: DB)
    requires Reachable(a) && KeepsPresent(a.artifacts, b.artifacts)
    ensures ReleasesPresent(b.artifacts, a.releases) && StatesPresent(b.artifacts, a.states) && RunsPresent(b.artifacts, a.flows)
  {
    forall r | r in a.releases ensures EntriesPresent(b.artifacts, a.releases[r].entries) {
      assert EntriesPresent(a.artifacts, a.releases[r].entries);
    }
    forall r | r in a.flows && a.flows[r].run.snapshot ensures RowsPresent(b.artifacts, a.flows[r].run.rows) {
      assert RowsPresent(a.artifacts, a.flows[r].run.rows);
    }
  }

  // ---------------------------------------------------------------- runtime states stay

  /** The same units have succeeded. */
  ghost predicate SameSuccesses(a: R.Rows, b: R.Rows) {
    forall u :: (R.StatusOf(a, u) == R.Succeeded) == (R.StatusOf(b, u) == R.Succeeded)
  }

  lemma LeftStays(a: map<int, Artifact>, b: map<int, Artifact>, states: map<Spot, State>, x: R.Run, y: R.Run)
    requires KeepsArtifacts(a, b) && StatesPresent(a, states) && LeftBy(a, states, x)
    requires SamePlanning(x, y) && SameSuccesses(x.rows, y.rows)
    ensures LeftBy(b, states, y)
  {
    hide R.StatusOf, KeepsArtifacts, StatesPresent;
    forall i, n | i in y.plan.items && n in y.plan.nodes ensures LeftAt(b, states, y, i, n) {
      assert LeftAt(a, states, x, i, n);
      var p := Spot(y.plan.environmentId, i.unitId, n);
      if p in states { ObserveStays(a, b, states, p); }
    }
  }

  lemma ObserveStays(a: map<int, Artifact>, b: map<int, Artifact>, states: map<Spot, State>, p: Spot)
    requires KeepsArtifacts(a, b) && StatesPresent(a, states) && p in states
    ensures Observe(a, p, states[p]) == Observe(b, p, states[p])
  {
    assert IsPresent(a, states[p].release);
  }

  ghost predicate Follows(a: map<int, R.Flow>, b: map<int, R.Flow>) {
    forall r :: r in b ==> r in a && SamePlanning(a[r].run, b[r].run) && SameSuccesses(a[r].run.rows, b[r].run.rows)
  }

  lemma WrittenStays(a: DB, b: DB)
    requires WrittenBack(a.artifacts, a.states, a.flows, a.latest) && StatesPresent(a.artifacts, a.states)
    requires KeepsArtifacts(a.artifacts, b.artifacts) && a.states == b.states && a.latest == b.latest && Follows(a.flows, b.flows)
    ensures WrittenBack(b.artifacts, b.states, b.flows, b.latest)
  {
    hide SameSuccesses, StatesPresent, KeepsArtifacts, LeftBy;
    forall e | e in b.latest ensures LastLeft(b.artifacts, b.states, b.flows, e, b.latest[e]) {
      var r: int := b.latest[e];
      assert LastLeft(a.artifacts, a.states, a.flows, e, r);
      if r in b.flows {
        LeftStays(a.artifacts, b.artifacts, a.states, a.flows[r].run, b.flows[r].run);
      }
    }
  }
}
