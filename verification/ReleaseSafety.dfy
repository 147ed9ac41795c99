/** Registering unit releases, creating, archiving and deleting application releases, and changing the catalogue keep
    the tables consistent. */
module ReleaseSafety {
  import opened Options
  import opened Planning
  import opened Tables
  import opened Invariants
  import R = Runs

  // ---------------------------------------------------------------- changes that only add

  /** Runs, releases and runtime states stay; artifacts, units, environments and revisions only grow. */
  ghost predicate OnlyAdds(a: DB, b: DB) {
    && Grows(a, b) && KeepsPresent(a.artifacts, b.artifacts) && CurrentReady(b.envs, b.releases)
    && a.releases == b.releases && a.flows == b.flows && a.states == b.states && a.latest == b.latest
  }

  lemma AddingKeeps(a: DB, b: DB)
    requires Inv(a) && OnlyAdds(a, b)
    requires IdsFresh(b) && UnitCodes(b.artifacts, b.unitCodes) && AppCodes(b.releases, b.appCodes)
    ensures Inv(b)
  {
    hide Grows, KeepsPresent, IdsFresh, UnitCodes, AppCodes, ManifestsDiffer, ManifestsOk, FlowsOk, Locked,
         RunsRooted, DeployedReady, CurrentReady, ReleasesPresent, StatesPresent, RunsPresent, WrittenBack;
    ManifestsStay(a, b);
    KeepsItself(a);
    RunsStayRooted(a, b);
    PresentStays(a, b);
    GrowsKeeps(a, b);
    WrittenStays(a, b);
  }

  lemma GrowsKeeps(a: DB, b: DB)
    requires Grows(a, b)
    ensures KeepsArtifacts(a.artifacts, b.artifacts)
  {
  }

  lemma KeepsItself(a: DB)
    ensures SamePlans(a.flows, a.flows) && KeepsReleases(a.flows, a.releases, a.releases) && Follows(a.flows, a.flows)
  {
    hide R.StatusOf;
  }

  lemma RegisterKeeps(db: DB, unit: int, version: string, checksum: string)
    requires Inv(db) && !Registered(db, unit, version)
    ensures Inv(AddArtifact(db, unit, version, checksum))
  {
    var b := AddArtifact(db, unit, version, checksum);
    NewArtifactAdds(db, unit, version, checksum);
    NewArtifactCodes(db, unit, version, checksum);
    hide Inv, OnlyAdds, AddArtifact, UnitCodes, AppCodes, IdsFresh;
    AddingKeeps(db, b);
  }

  lemma NewArtifactAdds(db: DB, unit: int, version: string, checksum: string)
    requires Inv(db)
    ensures OnlyAdds(db, AddArtifact(db, unit, version, checksum))
  {
    hide UnitCodes, AppCodes, ManifestsDiffer, ManifestsOk, FlowsOk, Locked, RunsRooted, DeployedReady, Reachable,
         WrittenBack;
    assert KeepsArtifacts(db.artifacts, AddArtifact(db, unit, version, checksum).artifacts);
  }

  lemma NewArtifactCodes(db: DB, unit: int, version: string, checksum: string)
    requires Inv(db) && !Registered(db, unit, version)
    ensures var b := AddArtifact(db, unit, version, checksum);
            UnitCodes(b.artifacts, b.unitCodes) && IdsFresh(b) && AppCodes(b.releases, b.appCodes)
  {
    hide UnitCodes, AppCodes, ManifestsDiffer, ManifestsOk, RunsOk, Reachable, WrittenBack, NextCode;
    OneMoreArtifact(db.artifacts, db.unitCodes, db.nextArtifact,
                    Artifact(unit, version, NextCode(db.unitCodes, unit), checksum, Present));
  }

  lemma OneMoreArtifact(artifacts: map<int, Artifact>, codes: map<int, int>, n: int, x: Artifact)
    requires UnitCodes(artifacts, codes) && x.code == NextCode(codes, x.unit)
    requires forall a :: a in artifacts ==> a < n && !SameVersion(artifacts[a], x.unit, x.version)
    ensures UnitCodes(artifacts[n := x], codes[x.unit := x.code + 1])
  {
  }

  lemma SetUnitKeeps(db: DB, u: int, v: Unit)
    requires Inv(db)
    ensures Inv(SetUnit(db, u, v))
  {
    var b := SetUnit(db, u, v);
    if b != db {
      assert b == db.(units := db.units[u := v]);
      hide SetUnit, UnitCodes, AppCodes, ManifestsDiffer, ManifestsOk, FlowsOk, Locked, RunsRooted, DeployedReady,
           Reachable, WrittenBack;
      assert OnlyAdds(db, b);
      assert IdsFresh(b);
      hide *;
      AddingUnit(db, b);
    }
  }

  lemma AddingUnit(a: DB, b: DB)
    requires Inv(a) && OnlyAdds(a, b) && IdsFresh(b) && b.unitCodes == a.unitCodes && b.appCodes == a.appCodes
    requires b.artifacts == a.artifacts
    ensures Inv(b)
  {
    hide OnlyAdds, UnitCodes, AppCodes, IdsFresh, ManifestsDiffer, ManifestsOk, FlowsOk, Locked, RunsRooted,
         DeployedReady, CurrentReady, Reachable, WrittenBack;
    assert b.releases == a.releases by { OnlyAddsReleases(a, b); }
    AddingKeeps(a, b);
  }

  lemma OnlyAddsReleases(a: DB, b: DB)
    requires OnlyAdds(a, b)
    ensures a.releases == b.releases
  {
  }

  /** An environment is added, or changed without moving to another application or release. */
  lemma PutEnvKeeps(db: DB, e: int, w: Env)
    requires Inv(db)
    requires if e in db.envs then w.app == db.envs[e].app && w.current == db.envs[e].current else w.current == None
    ensures Inv(db.(envs := db.envs[e := w]))
  {
    var b := db.(envs := db.envs[e := w]);
    hide UnitCodes, AppCodes, ManifestsDiffer, ManifestsOk, FlowsOk, Locked, RunsRooted, DeployedReady, Reachable,
         WrittenBack;
    assert KeepsEnvs(db.envs, b.envs) && CurrentReady(b.envs, b.releases);
    assert OnlyAdds(db, b) && IdsFresh(b);
    hide *;
    AddingUnit(db, b);
  }

  lemma SetEnvKeeps(db: DB, e: int, v: Env)
    requires Inv(db)
    ensures Inv(SetEnv(db, e, v))
  {
    hide Inv;
    if e in db.envs {
      if db.envs[e].app == v.app { PutEnvKeeps(db, e, v.(current := db.envs[e].current)); }
    } else {
      PutEnvKeeps(db, e, v.(current := None));
    }
  }

  lemma AddRevisionKeeps(db: DB, v: Revision)
    requires Inv(db)
    ensures Inv(AddRevision(db, v))
  {
    var b := AddRevision(db, v);
    hide UnitCodes, AppCodes, ManifestsDiffer, ManifestsOk, FlowsOk, Locked, RunsRooted, DeployedReady, Reachable,
         WrittenBack;
    assert OnlyAdds(db, b) && IdsFresh(b);
    hide *;
    AddingUnit(db, b);
  }
}
