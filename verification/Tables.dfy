/** The tables behind releases, deployments and artifact cleanup, and what each transaction does to them. */
module Tables {
  import opened Options
  import opened Planning
  import opened Waves
  import R = Runs

  datatype ArtifactStatus = Present | Deleting | DeleteFailed | Deleted

  /** A unit release and the state of its package. */
  datatype Artifact = Artifact(unit: int, version: string, code: int, checksum: string, status: ArtifactStatus)

  datatype Entry = Entry(release: Option<int>, desired: Desired, stage: int, order: int, removal: int,
                         fingerprint: UnitFingerprint)

  /** An application release with its manifest. changed is history: the units its creation changed. */
  datatype Release = Release(app: int, version: string, code: int, archived: bool, base: Option<int>,
                             entries: map<int, Entry>, configs: map<int, int>, changed: set<int>)

  datatype Unit = Unit(app: int, key: string, stage: int, order: int, removal: int)

  datatype Env = Env(app: int, enabled: bool, limit: int, nodes: set<int>, current: Option<int>)

  datatype Revision = Revision(app: int, hash: string)

  datatype Spot = Spot(env: int, unit: int, node: int)

  datatype State = State(status: RuntimeStatus, release: Option<int>, fingerprint: Fingerprint, versionLabel: string)

  /** All tables. latest is history: the last run created in each environment. */
  datatype DB = DB(artifacts: map<int, Artifact>, releases: map<int, Release>, units: map<int, Unit>, envs: map<int, Env>,
                   revisions: map<int, Revision>, states: map<Spot, State>, flows: map<int, R.Flow>,
                   unitCodes: map<int, int>, appCodes: map<int, int>,
                   nextArtifact: int, nextRelease: int, nextRevision: int, nextRun: int, latest: map<int, int>)

  datatype Error = Validation | Conflict | NotFound | InvalidState

  const FIRST_CODE := 100

  /** The code a scope hands out next. */
  function NextCode(codes: map<int, int>, scope: int): int { if scope in codes then codes[scope] else FIRST_CODE }

  // ---------------------------------------------------------------- unit releases

  predicate SameVersion(a: Artifact, unit: int, version: string) { a.unit == unit && a.version == version }

  predicate Registered(db: DB, unit: int, version: string) {
    exists a :: a in db.artifacts && SameVersion(db.artifacts[a], unit, version)
  }

  function AddArtifact(db: DB, unit: int, version: string, checksum: string): DB {
    var code := NextCode(db.unitCodes, unit);
    db.(artifacts := db.artifacts[db.nextArtifact := Artifact(unit, version, code, checksum, Present)],
        unitCodes := db.unitCodes[unit := code + 1], nextArtifact := db.nextArtifact + 1)
  }

  function MarkArtifact(db: DB, a: int, status: ArtifactStatus): DB
    requires a in db.artifacts
  {
    db.(artifacts := db.artifacts[a := db.artifacts[a].(status := status)])
  }

  /** A unit release is registered once per version; the same package may be registered again. */
  ghost function Register(db: DB, unit: int, version: string, checksum: string): (DB, Result<int, Error>) {
    if unit !in db.units then (db, Err(NotFound))
    else if Registered(db, unit, version) then
      var a :| a in db.artifacts && SameVersion(db.artifacts[a], unit, version);
      (db, if db.artifacts[a].checksum == checksum then Ok(a) else Err(Conflict))
    else (AddArtifact(db, unit, version, checksum), Ok(db.nextArtifact))
  }

  // ---------------------------------------------------------------- application releases

  datatype Change = Change(unit: int, release: Option<int>, desired: Desired)

  datatype Selection = Selection(env: int, revision: int)

  predicate Selectable(db: DB, unit: int, release: int) {
    release in db.artifacts && db.artifacts[release].unit == unit && db.artifacts[release].status == Present
  }

  function ChecksumAt(artifacts: map<int, Artifact>, a: int): string {
    if a in artifacts then artifacts[a].checksum else ""
  }

  function Fingerprinted(db: DB, desired: Desired, release: Option<int>): UnitFingerprint {
    UnitFingerprint(desired, if release.Some? then ChecksumAt(db.artifacts, release.value) else "")
  }

  /** The manifest entry a change asks for. */
  function EntryOf(db: DB, app: int, c: Change): Result<Entry, Error> {
    if c.unit !in db.units || db.units[c.unit].app != app then Err(Validation)
    else if c.desired.Unsupported? then Err(Validation)
    else if c.desired == Active && (c.release == None || !Selectable(db, c.unit, c.release.value)) then Err(Validation)
    else
      var u := db.units[c.unit];
      var release := if c.desired == Active then c.release else None;
      Ok(Entry(release, c.desired, u.stage, u.order, u.removal, Fingerprinted(db, c.desired, release)))
  }

  function ApplyChanges(db: DB, app: int, changes: seq<Change>, seen: set<int>, entries: map<int, Entry>)
    : Result<map<int, Entry>, Error>
    decreases |changes|
  {
    if changes == [] then Ok(entries)
    else
      var c := changes[0];
      if c.unit in seen || EntryOf(db, app, c).Err? then Err(Validation)
      else ApplyChanges(db, app, changes[1..], seen + {c.unit}, entries[c.unit := EntryOf(db, app, c).value])
  }

  predicate Configurable(db: DB, app: int, s: Selection) {
    && s.env in db.envs && db.envs[s.env].app == app && db.envs[s.env].enabled
    && s.revision in db.revisions && db.revisions[s.revision].app == app
  }

  function ApplySelections(db: DB, app: int, selections: seq<Selection>, seen: set<int>, configs: map<int, int>)
    : Result<map<int, int>, Error>
    decreases |selections|
  {
    if selections == [] then Ok(configs)
    else
      var s := selections[0];
      if s.env in seen || !Configurable(db, app, s) then Err(Validation)
      else ApplySelections(db, app, selections[1..], seen + {s.env}, configs[s.env := s.revision])
  }

  function UnitsOfApp(db: DB, app: int): set<int> { set u | u in db.units && db.units[u].app == app }

  function EnvsOfApp(db: DB, app: int): set<int> { set e | e in db.envs && db.envs[e].app == app && db.envs[e].enabled }

  predicate BaseReady(db: DB, app: int, base: int) {
    base in db.releases && db.releases[base].app == app && !db.releases[base].archived
  }

  predicate SameManifest(r: Release, entries: map<int, Entry>, configs: map<int, int>) {
    r.entries == entries && r.configs == configs
  }

  function ChangedUnits(changes: seq<Change>): set<int> { set i | 0 <= i < |changes| :: changes[i].unit }

  /** What a new release resolves to: its base, overwritten by the changes and selections, complete for the units and the
      enabled environments of the application, and unlike every release there is. */
  function ResolveRelease(db: DB, app: int, version: string, base: Option<int>, changes: seq<Change>,
                          selections: seq<Selection>)
    : Result<(map<int, Entry>, map<int, int>), Error>
  {
    if exists r :: r in db.releases && db.releases[r].app == app && db.releases[r].version == version then Err(Conflict)
    else if UnitsOfApp(db, app) == {} then Err(Validation)
    else if base.Some? && !BaseReady(db, app, base.value) then Err(Validation)
    else
      var entries := ApplyChanges(db, app, changes, {}, if base.Some? then db.releases[base.value].entries else map[]);
      if entries.Err? || entries.value.Keys != UnitsOfApp(db, app) then Err(Validation)
      else
        var configs := ApplySelections(db, app, selections, {}, if base.Some? then db.releases[base.value].configs else map[]);
        if configs.Err? || configs.value.Keys != EnvsOfApp(db, app) then Err(Validation)
        else if exists r :: r in db.releases && SameManifest(db.releases[r], entries.value, configs.value) then Err(Conflict)
        else Ok((entries.value, configs.value))
  }

  function AddRelease(db: DB, app: int, version: string, base: Option<int>, entries: map<int, Entry>,
                      configs: map<int, int>, changed: set<int>): DB
  {
    var code := NextCode(db.appCodes, app);
    db.(releases := db.releases[db.nextRelease := Release(app, version, code, false, base, entries, configs, changed)],
        appCodes := db.appCodes[app := code + 1], nextRelease := db.nextRelease + 1)
  }

  function CreateRelease(db: DB, app: int, version: string, base: Option<int>, changes: seq<Change>,
                         selections: seq<Selection>)
    : (DB, Result<int, Error>)
  {
    var resolved := ResolveRelease(db, app, version, base, changes, selections);
    if resolved.Err? then (db, Err(resolved.error))
    else (AddRelease(db, app, version, base, resolved.value.0, resolved.value.1, ChangedUnits(changes)), Ok(db.nextRelease))
  }

  // ---------------------------------------------------------------- planning

  /** Some listing of a set. */
  ghost function Enumerate<T(!new)>(s: set<T>): seq<T> {
    if s == {} then [] else var x :| x in s; [x] + Enumerate(s - {x})
  }

  function TargetsIn(targets: map<int, TargetUnit>): set<TargetUnit> { set u | u in targets :: targets[u] }

  function StatesIn(observed: StateIndex): set<NodeState> { set p | p in observed :: observed[p] }

  function CodeAt(artifacts: map<int, Artifact>, a: int): Option<int> {
    if a in artifacts then Some(artifacts[a].code) else None
  }

  function CodeOf(artifacts: map<int, Artifact>, release: Option<int>): Option<int> {
    if release.Some? then CodeAt(artifacts, release.value) else None
  }

  function VersionAt(artifacts: map<int, Artifact>, a: int): Option<string> {
    if a in artifacts then Some(artifacts[a].version) else None
  }

  function VersionOf(artifacts: map<int, Artifact>, release: Option<int>): Option<string> {
    if release.Some? then VersionAt(artifacts, release.value) else None
  }

  function TargetOf(db: DB, u: int, e: Entry, hash: string): TargetUnit
    requires u in db.units
  {
    TargetUnit(u, db.units[u].key, e.release, VersionOf(db.artifacts, e.release), CodeOf(db.artifacts, e.release),
               e.desired, e.stage, e.order, e.removal, Fingerprint(e.fingerprint, hash))
  }

  function TargetsOf(db: DB, r: Release, hash: string): map<int, TargetUnit> {
    map u | u in r.entries && u in db.units && db.units[u].app == r.app :: TargetOf(db, u, r.entries[u], hash)
  }

  function Observe(artifacts: map<int, Artifact>, p: Spot, s: State): NodeState {
    NodeState(p.unit, p.node, s.status, s.release, CodeOf(artifacts, s.release), s.fingerprint, s.versionLabel)
  }

  /** What is known about the nodes of an environment, unit by unit. */
  function ObservedIn(db: DB, env: int, nodes: set<int>): StateIndex {
    map p | p in db.states && p.env == env && p.node in nodes :: (p.unit, p.node) := Observe(db.artifacts, p, db.states[p])
  }

  ghost function InputOf(app: int, env: int, release: int, config: int, mode: Mode, nodes: set<int>,
                         targets: map<int, TargetUnit>, observed: StateIndex): PlanInput
  {
    PlanInput(app, env, release, config, mode, Enumerate(nodes), Enumerate(TargetsIn(targets)), Enumerate(StatesIn(observed)))
  }

  predicate Deployable(db: DB, env: int, release: int) {
    && env in db.envs && db.envs[env].enabled
    && release in db.releases && db.releases[release].app == db.envs[env].app && !db.releases[release].archived
    && env in db.releases[release].configs
    && RevisionOf(db.revisions, db.releases[release].configs[env], db.envs[env].app)
  }

  predicate RevisionOf(revisions: map<int, Revision>, v: int, app: int) { v in revisions && revisions[v].app == app }

  function HashAt(revisions: map<int, Revision>, v: int): string { if v in revisions then revisions[v].hash else "" }

  function TargetsFor(db: DB, env: int, release: int): map<int, TargetUnit>
    requires Deployable(db, env, release)
  {
    TargetsOf(db, db.releases[release], HashAt(db.revisions, db.releases[release].configs[env]))
  }

  ghost function LoadPlan(db: DB, env: int, release: int, mode: Mode): Result<Plan, Error> {
    if !Deployable(db, env, release) then Err(NotFound) else
    var nodes := db.envs[env].nodes;
    var plan := BuildPlan(InputOf(db.envs[env].app, env, release, db.releases[release].configs[env], mode, nodes,
                                  TargetsFor(db, env, release), ObservedIn(db, env, nodes)));
    if plan.Ok? then Ok(plan.value) else Err(Validation)
  }

  // ---------------------------------------------------------------- runs

  predicate Busy(flows: map<int, R.Flow>, env: int) {
    exists r :: r in flows && flows[r].run.plan.environmentId == env && R.Ongoing(flows[r].run.status)
  }

  function AddRun(db: DB, env: int, f: R.Flow): DB {
    db.(flows := db.flows[db.nextRun := f], nextRun := db.nextRun + 1, latest := db.latest[env := db.nextRun])
  }

  function PutFlow(db: DB, r: int, f: R.Flow): DB { db.(flows := db.flows[r := f]) }

  ghost function CreateRun(db: DB, env: int, release: int, mode: Mode, expected: Document): (DB, Result<int, Error>) {
    if Busy(db.flows, env) then (db, Err(Conflict)) else
    var plan := LoadPlan(db, env, release, mode);
    if plan.Err? then (db, Err(plan.error))
    else if plan.value.hash != expected then (db, Err(Conflict))
    else
      (AddRun(db, env, R.NewFlow(plan.value, TargetsFor(db, env, release), ObservedIn(db, env, db.envs[env].nodes))),
       Ok(db.nextRun))
  }

  function FindItem(items: seq<Item>, u: int): Option<Item> {
    if items == [] then None else if items[0].unitId == u then Some(items[0]) else FindItem(items[1..], u)
  }

  /** What a success writes for each node of the plan. */
  function Written(x: Item): State {
    if x.action == Stop then State(Stopped, None, NoFingerprint, "")
    else State(Healthy, x.release, x.fingerprint, if x.version.Some? then x.version.value else "")
  }

  function Spots(env: int, u: int, nodes: seq<int>): set<Spot> { set n | n in nodes :: Spot(env, u, n) }

  function WriteStates(states: map<Spot, State>, env: int, u: int, nodes: seq<int>, s: State): map<Spot, State> {
    states + map p | p in Spots(env, u, nodes) :: s
  }

  /** A unit of run r comes back; a success is written to the runtime states in the same transaction. */
  function JoinUnit(db: DB, r: int, u: int, o: R.Outcome): DB
    requires r in db.flows
  {
    var f := db.flows[r];
    var x := FindItem(f.run.plan.items, u);
    if !R.Joinable(f, u) || x == None then db
    else db.(flows := db.flows[r := R.Join(f, u, o)],
             states := if o == R.Worked
                       then WriteStates(db.states, f.run.plan.environmentId, u, f.run.plan.nodes, Written(x.value))
                       else db.states)
  }

  /** The executor is about to close the run, and finds every unit well. */
  predicate EndsWell(f: R.Flow) {
    f.driver.Live? && f.driver.exec.phase == R.Finalizing && R.Advance(f).run.status == R.Success
  }

  function WithCurrent(envs: map<int, Env>, env: int, release: int): map<int, Env> {
    if env in envs then envs[env := envs[env].(current := Some(release))] else envs
  }

  /** Run r's executor takes its next step; a run that ends in success becomes the environment's current release. */
  function AdvanceRun(db: DB, r: int): DB
    requires r in db.flows
  {
    var f := db.flows[r];
    db.(flows := db.flows[r := R.Advance(f)],
        envs := if EndsWell(f) then WithCurrent(db.envs, f.run.plan.environmentId, f.run.plan.releaseId) else db.envs)
  }

  function LimitOf(db: DB, env: int): int { if env in db.envs then db.envs[env].limit else 1 }

  function RunStep(db: DB, r: int, e: R.FlowEvent): DB
    requires r in db.flows
  {
    match e
    case DoClaim(_, signaled) =>
      PutFlow(db, r, R.Claim(db.flows[r], LimitOf(db, db.flows[r].run.plan.environmentId), signaled))
    case DoAdvance => AdvanceRun(db, r)
    case DoJoin(u, o) => JoinUnit(db, r, u, o)
    case DoCrash => db
    case DoRecover => db
    case _ => PutFlow(db, r, R.Step(db.flows[r], e))
  }

  /** The process dies, and with it every spawned task. */
  function CrashAll(db: DB): DB { db.(flows := map r | r in db.flows :: R.Crash(db.flows[r])) }

  predicate NoDrivers(flows: map<int, R.Flow>) { forall r :: r in flows ==> flows[r].driver == R.Gone }

  /** A new process looks through the runs it finds. */
  function RecoverAll(db: DB): DB {
    if NoDrivers(db.flows) then db.(flows := map r | r in db.flows :: R.Recover(db.flows[r])) else db
  }

  // ---------------------------------------------------------------- cleanup

  predicate ReferencedByRelease(db: DB, a: int) {
    exists r, u :: r in db.releases && u in db.releases[r].entries && db.releases[r].entries[u].release == Some(a)
  }

  predicate ReferencedByState(db: DB, a: int) {
    exists p :: p in db.states && db.states[p].release == Some(a)
  }

  predicate ReferencedByRun(db: DB, a: int) {
    exists r, u :: r in db.flows && u in db.flows[r].run.rows && db.flows[r].run.snapshot
                   && db.flows[r].run.rows[u].release == Some(a)
  }

  predicate Referenced(db: DB, a: int) {
    ReferencedByRelease(db, a) || ReferencedByState(db, a) || ReferencedByRun(db, a)
  }

  predicate Cleanable(db: DB, a: int) {
    a in db.artifacts && db.artifacts[a].status != Deleted && !Referenced(db, a)
  }

  /** Cleanup marks the artifact ... */
  function BeginCleanup(db: DB, a: int): (DB, Result<bool, Error>) {
    if a !in db.artifacts then (db, Err(NotFound))
    else if !Cleanable(db, a) then (db, Err(InvalidState))
    else (MarkArtifact(db, a, Deleting), Ok(true))
  }

  /** ... and, when the package has been removed or not, says so. */
  function EndCleanup(db: DB, a: int, removed: bool): DB {
    if a in db.artifacts && db.artifacts[a].status == Deleting
    then MarkArtifact(db, a, if removed then Deleted else DeleteFailed) else db
  }

  predicate CurrentSomewhere(db: DB, release: int) { exists e :: e in db.envs && db.envs[e].current == Some(release) }

  predicate DeployedNow(db: DB, release: int) {
    exists r :: r in db.flows && db.flows[r].run.plan.releaseId == release && R.Ongoing(db.flows[r].run.status)
  }

  predicate DeployedEver(db: DB, release: int) {
    exists r :: r in db.flows && db.flows[r].run.plan.releaseId == release
  }

  predicate BaseOfSome(db: DB, release: int) { exists r :: r in db.releases && db.releases[r].base == Some(release) }

  predicate OfApp(db: DB, app: int, release: int) { release in db.releases && db.releases[release].app == app }

  /** held stands for the references from tables left out here. */
  function ArchiveRelease(db: DB, app: int, release: int, held: bool): (DB, Result<bool, Error>) {
    if !OfApp(db, app, release) then (db, Err(NotFound))
    else if db.releases[release].archived || CurrentSomewhere(db, release) || DeployedNow(db, release) || held
    then (db, Err(InvalidState))
    else (db.(releases := db.releases[release := db.releases[release].(archived := true)]), Ok(true))
  }

  function DeleteRelease(db: DB, app: int, release: int, held: bool): (DB, Result<bool, Error>) {
    if !OfApp(db, app, release) then (db, Err(NotFound))
    else if !db.releases[release].archived || CurrentSomewhere(db, release) || DeployedEver(db, release)
            || BaseOfSome(db, release) || held
    then (db, Err(InvalidState))
    else (db.(releases := db.releases - {release}), Ok(true))
  }

  function DeleteSnapshot(db: DB, r: int): (DB, Result<bool, Error>) {
    if r !in db.flows || !db.flows[r].run.snapshot then (db, Err(NotFound))
    else if R.Ongoing(db.flows[r].run.status) then (db, Err(InvalidState))
    else (PutFlow(db, r, R.EraseSnapshot(db.flows[r])), Ok(true))
  }

  function DeleteHistory(db: DB, app: int, r: int, held: bool): (DB, Result<bool, Error>) {
    if r !in db.flows || db.flows[r].run.plan.appId != app then (db, Err(NotFound))
    else if R.Ongoing(db.flows[r].run.status) || db.flows[r].run.snapshot || held then (db, Err(InvalidState))
    else (db.(flows := db.flows - {r}), Ok(true))
  }

  // ---------------------------------------------------------------- what others change

  /** Units keep their application and key, environments their application; revisions are only added. */
  function SetUnit(db: DB, u: int, v: Unit): DB {
    if u in db.units && (db.units[u].app != v.app || db.units[u].key != v.key) then db
    else db.(units := db.units[u := v])
  }

  function SetEnv(db: DB, e: int, v: Env): DB {
    if e in db.envs then
      if db.envs[e].app == v.app then db.(envs := db.envs[e := v.(current := db.envs[e].current)]) else db
    else db.(envs := db.envs[e := v.(current := None)])
  }

  function AddRevision(db: DB, v: Revision): DB {
    db.(revisions := db.revisions[db.nextRevision := v], nextRevision := db.nextRevision + 1)
  }

  // ---------------------------------------------------------------- everything that can happen

  datatype Event =
    | DoRegister(unit: int, version: string, checksum: string)
    | DoCreateRelease(app: int, relVersion: string, base: Option<int>, changes: seq<Change>, selections: seq<Selection>)
    | DoArchive(app: int, release: int, held: bool)
    | DoDeleteRelease(app: int, release: int, held: bool)
    | DoBeginCleanup(artifact: int)
    | DoEndCleanup(artifact: int, removed: bool)
    | DoDeleteSnapshot(run: int)
    | DoDeleteHistory(app: int, run: int, held: bool)
    | DoCreateRun(env: int, release: int, mode: Mode, expected: Document)
    | DoRunStep(run: int, step: R.FlowEvent)
    | DoCrashAll
    | DoRecoverAll
    | DoSetUnit(unit: int, unitRow: Unit)
    | DoSetEnv(env: int, envRow: Env)
    | DoAddRevision(revision: Revision)

  ghost function Next(db: DB, e: Event): DB {
    match e
    case DoRegister(unit, version, checksum) => Register(db, unit, version, checksum).0
    case DoCreateRelease(app, version, base, changes, selections) => CreateRelease(db, app, version, base, changes, selections).0
    case DoArchive(app, release, held) => ArchiveRelease(db, app, release, held).0
    case DoDeleteRelease(app, release, held) => DeleteRelease(db, app, release, held).0
    case DoBeginCleanup(a) => BeginCleanup(db, a).0
    case DoEndCleanup(a, removed) => EndCleanup(db, a, removed)
    case DoDeleteSnapshot(r) => DeleteSnapshot(db, r).0
    case DoDeleteHistory(app, r, held) => DeleteHistory(db, app, r, held).0
    case DoCreateRun(env, release, mode, expected) => CreateRun(db, env, release, mode, expected).0
    case DoRunStep(r, step) => if r in db.flows then RunStep(db, r, step) else db
    case DoCrashAll => CrashAll(db)
    case DoRecoverAll => RecoverAll(db)
    case DoSetUnit(u, v) => SetUnit(db, u, v)
    case DoSetEnv(e, v) => SetEnv(db, e, v)
    case DoAddRevision(v) => AddRevision(db, v)
  }

  /** A database with nothing in it. */
  function Fresh(): DB {
    DB(map[], map[], map[], map[], map[], map[], map[], map[], map[], 1, 1, 1, 1, map[])
  }

  ghost function History(db: DB, es: seq<Event>): DB
    decreases |es|
  {
    if es == [] then db else History(Next(db, es[0]), es[1..])
  }

  /** Tables that some history leaves behind. */
  ghost predicate Reached(db: DB) {
    exists es :: db == History(Fresh(), es)
  }
}
