/** Steps of runs, and cleanup, keep the tables consistent. */
module RunTables {
  import opened Options
  import opened Planning
  import opened Waves
  import opened Tables
  import opened Invariants
  import R = Runs
  import S = RunSafety
  import H = RunHistories

  // ---------------------------------------------------------------- runs moving on

  ghost predicate KeepsRefs(a: R.Rows, b: R.Rows) {
    forall u :: u in b ==> u in a && (b[u].release == a[u].release || b[u].release == None)
  }

  /** What a step may do to a run, as far as other tables are concerned. */
  ghost predicate EvolvesTo(f: R.Flow, g: R.Flow) {
    && S.FlowOk(g)
    && SamePlanning(f.run, g.run)
    && (R.Ongoing(g.run.status) ==> R.Ongoing(f.run.status))
    && (g.run.snapshot ==> f.run.snapshot)
    && KeepsRefs(f.run.rows, g.run.rows)
  }

  ghost predicate Evolve(a: map<int, R.Flow>, b: map<int, R.Flow>) {
    forall r :: r in b ==> r in a && EvolvesTo(a[r], b[r])
  }

  ghost predicate SameWins(a: map<int, R.Flow>, b: map<int, R.Flow>) {
    forall r :: r in b ==> r in a && SameSuccesses(a[r].run.rows, b[r].run.rows)
  }

  lemma EvolveKeepsRuns(db: DB, flows: map<int, R.Flow>)
    requires Inv(db) && Evolve(db.flows, flows)
    ensures RunsOk(db.(flows := flows)) && SamePlans(db.flows, flows)
  {
    hide UnitCodes, AppCodes, ManifestsDiffer, ManifestsOk, RunsRooted, Reachable, WrittenBack, CurrentReady,
         IdsFresh, KeepsRefs, S.FlowOk;
    var b := db.(flows := flows);
    assert SamePlans(db.flows, flows);
    SameTables(db, b);
    RunsStayRooted(db, b);
  }

  lemma EvolveKeepsRefs(db: DB, flows: map<int, R.Flow>)
    requires Inv(db) && Evolve(db.flows, flows)
    ensures RunsPresent(db.artifacts, flows)
  {
    hide UnitCodes, AppCodes, ManifestsDiffer, ManifestsOk, RunsOk, ReleasesPresent, StatesPresent, WrittenBack,
         CurrentReady, IdsFresh, S.FlowOk, PresentAt;
    forall r | r in flows && flows[r].run.snapshot ensures RowsPresent(db.artifacts, flows[r].run.rows) {
      assert EvolvesTo(db.flows[r], flows[r]);
      assert RowsPresent(db.artifacts, db.flows[r].run.rows);
    }
  }

  /** Runs that evolve, or go away, without a success keep everything. */
  lemma FlowsEvolve(db: DB, flows: map<int, R.Flow>)
    requires Inv(db) && Evolve(db.flows, flows) && SameWins(db.flows, flows)
    ensures Inv(db.(flows := flows))
  {
    var b := db.(flows := flows);
    EvolveKeepsRuns(db, flows);
    EvolveKeepsRefs(db, flows);
    hide UnitCodes, AppCodes, ManifestsDiffer, ManifestsOk, RunsOk, ReleasesPresent, StatesPresent, RunsPresent,
         WrittenBack, SameSuccesses;
    assert IdsFresh(b);
    hide IdsFresh;
    SameTables(db, b);
    assert Follows(db.flows, flows) by { EvolveFollows(db.flows, flows); }
    assert KeepsArtifacts(db.artifacts, db.artifacts);
    WrittenStays(db, b);
  }

  lemma EvolveFollows(a: map<int, R.Flow>, b: map<int, R.Flow>)
    requires Evolve(a, b) && SameWins(a, b)
    ensures Follows(a, b)
  {
    hide S.FlowOk, KeepsRefs, SameSuccesses;
  }

  // ---------------------------------------------------------------- every step evolves

  lemma BulkEvolves(rows: R.Rows)
    ensures KeepsRefs(rows, R.MarkNotStarted(rows)) && SameSuccesses(rows, R.MarkNotStarted(rows))
    ensures KeepsRefs(rows, R.Abandon(rows)) && SameSuccesses(rows, R.Abandon(rows))
    ensures KeepsRefs(rows, R.EraseReleases(rows)) && SameSuccesses(rows, R.EraseReleases(rows))
    ensures KeepsRefs(rows, rows) && SameSuccesses(rows, rows)
  {
  }

  lemma JoinKeepsRows(f: R.Flow, u: int, o: R.Outcome)
    ensures KeepsRefs(f.run.rows, R.Join(f, u, o).run.rows)
    ensures o != R.Worked ==> SameSuccesses(f.run.rows, R.Join(f, u, o).run.rows)
    ensures SamePlanning(f.run, R.Join(f, u, o).run) && R.Join(f, u, o).run.snapshot == f.run.snapshot
  {
    if R.Joinable(f, u) && u in f.run.rows && f.run.rows[u].status == R.InProgress {
      hide R.Ended;
      assert R.Join(f, u, o).run.rows == f.run.rows[u := f.run.rows[u].(status := R.Ended(o))];
      hide R.Join, R.Joinable;
    }
  }

  ghost predicate SameRefs(a: R.Run, b: R.Run) {
    KeepsRefs(a.rows, b.rows) && SameSuccesses(a.rows, b.rows) && SamePlanning(a, b) && b.snapshot == a.snapshot
  }

  lemma StartKeepsRows(f: R.Flow, e: R.Exec)
    requires R.HasPending(f.run, e)
    ensures SameRefs(f.run, R.StartUnit(f, e).run)
  {
    hide R.WavesOf;
  }

  lemma FinalizeKeepsRows(f: R.Flow, e: R.Exec)
    ensures SameRefs(f.run, R.Finalize(f, e).run)
  {
    BulkEvolves(f.run.rows);
    hide R.FinalStatus, R.TaskAfter, R.GoodRows, R.BadRows, R.UnknownRows, KeepsRefs, SameSuccesses;
  }

  lemma BulkKeepsRows(run: R.Run)
    ensures SameRefs(run, run) && SameRefs(run, run.(rows := R.MarkNotStarted(run.rows)))
  {
    BulkEvolves(run.rows);
    hide KeepsRefs, SameSuccesses, R.MarkNotStarted;
  }

  lemma AdvanceKeepsRows(f: R.Flow)
    ensures SameRefs(f.run, R.Advance(f).run)
  {
    BulkKeepsRows(f.run);
    hide SameRefs, R.MarkNotStarted, R.BeginWave, R.EndWave, R.StartUnit, R.Finalize, R.MayStart,
         R.HasPending;
    if f.driver.Live? {
      var e := f.driver.exec;
      H.BeginWaveRun(f, e);
      FinalizeKeepsRows(f, e);
      if R.MayStart(f.run, e) {
        H.StartMovesOn(f, e);
        StartKeepsRows(f, e);
      }
    }
  }

  lemma StepKeepsRows(f: R.Flow, e: R.FlowEvent)
    ensures KeepsRefs(f.run.rows, R.Step(f, e).run.rows)
    ensures (e.DoJoin? ==> e.outcome != R.Worked) ==> SameSuccesses(f.run.rows, R.Step(f, e).run.rows)
  {
    BulkEvolves(f.run.rows);
    AdvanceKeepsRows(f);
    if e.DoJoin? { JoinKeepsRows(f, e.unit, e.outcome); }
    hide KeepsRefs, SameSuccesses, R.MarkNotStarted, R.Abandon, R.EraseReleases, R.Advance, R.Join;
  }

  lemma StepKeepsPlan(f: R.Flow, e: R.FlowEvent)
    ensures SamePlanning(f.run, R.Step(f, e).run)
    ensures R.Step(f, e).run.snapshot ==> f.run.snapshot
  {
    AdvanceKeepsRows(f);
    if e.DoJoin? { JoinKeepsRows(f, e.unit, e.outcome); }
    hide KeepsRefs, SameSuccesses, R.MarkNotStarted, R.Abandon, R.EraseReleases, R.Advance, R.Join;
  }

  lemma StepEvolves(f: R.Flow, e: R.FlowEvent)
    requires S.FlowOk(f)
    ensures EvolvesTo(f, R.Step(f, e))
    ensures (e.DoJoin? ==> e.outcome != R.Worked) ==> SameSuccesses(f.run.rows, R.Step(f, e).run.rows)
  {
    hide S.FlowOk, R.Step, KeepsRefs, SameSuccesses;
    S.StepKeeps(f, e);
    StepKeepsRows(f, e);
    StepKeepsPlan(f, e);
    H.StepRanks(f, e);
  }

  lemma PutFlowKeeps(db: DB, r: int, g: R.Flow)
    requires Inv(db) && r in db.flows && EvolvesTo(db.flows[r], g) && SameSuccesses(db.flows[r].run.rows, g.run.rows)
    ensures Inv(PutFlow(db, r, g))
  {
    hide Inv, EvolvesTo, SameSuccesses, Evolve, SameWins;
    PutEvolves(db, r, g);
    PutWins(db.flows, r, g);
    FlowsEvolve(db, db.flows[r := g]);
  }

  lemma PutWins(flows: map<int, R.Flow>, r: int, g: R.Flow)
    requires r in flows && SameSuccesses(flows[r].run.rows, g.run.rows)
    ensures SameWins(flows, flows[r := g])
  {
    hide SameSuccesses;
    forall q | q in flows ensures SameSuccesses(flows[q].run.rows, flows[q].run.rows) {
      BulkEvolves(flows[q].run.rows);
    }
  }

  lemma PutEvolves(db: DB, r: int, g: R.Flow)
    requires Inv(db) && r in db.flows && EvolvesTo(db.flows[r], g)
    ensures Evolve(db.flows, db.flows[r := g])
  {
    hide UnitCodes, AppCodes, ManifestsDiffer, ManifestsOk, RunsRooted, Reachable, WrittenBack, CurrentReady,
         IdsFresh, KeepsRefs, S.FlowOk;
    forall q | q in db.flows ensures EvolvesTo(db.flows[q], db.flows[q]) {
      BulkEvolves(db.flows[q].run.rows);
    }
  }

  lemma DeleteHistoryKeeps(db: DB, r: int)
    requires Inv(db)
    ensures Inv(db.(flows := db.flows - {r}))
  {
    hide UnitCodes, AppCodes, ManifestsDiffer, ManifestsOk, RunsRooted, Reachable, WrittenBack, CurrentReady,
         IdsFresh, KeepsRefs, S.FlowOk, SameSuccesses;
    forall q | q in db.flows
      ensures EvolvesTo(db.flows[q], db.flows[q]) && SameSuccesses(db.flows[q].run.rows, db.flows[q].run.rows)
    {
      BulkEvolves(db.flows[q].run.rows);
    }
    FlowsEvolve(db, db.flows - {r});
  }

  lemma CrashAllKeeps(db: DB)
    requires Inv(db)
    ensures Inv(CrashAll(db))
  {
    hide UnitCodes, AppCodes, ManifestsDiffer, ManifestsOk, RunsRooted, Reachable, WrittenBack, CurrentReady,
         IdsFresh, KeepsRefs, S.FlowOk, SameSuccesses, R.Crash, EvolvesTo;
    var flows := CrashAll(db).flows;
    forall q | q in flows
      ensures q in db.flows && EvolvesTo(db.flows[q], flows[q])
      ensures SameSuccesses(db.flows[q].run.rows, flows[q].run.rows)
    {
      StepEvolves(db.flows[q], R.DoCrash);
    }
    FlowsEvolve(db, flows);
  }

  lemma RecoverAllKeeps(db: DB)
    requires Inv(db)
    ensures Inv(RecoverAll(db))
  {
    hide UnitCodes, AppCodes, ManifestsDiffer, ManifestsOk, RunsRooted, Reachable, WrittenBack, CurrentReady,
         IdsFresh, KeepsRefs, S.FlowOk, SameSuccesses, R.Recover, EvolvesTo;
    if NoDrivers(db.flows) {
      var flows := RecoverAll(db).flows;
      forall q | q in flows
        ensures q in db.flows && EvolvesTo(db.flows[q], flows[q])
        ensures SameSuccesses(db.flows[q].run.rows, flows[q].run.rows)
      {
        StepEvolves(db.flows[q], R.DoRecover);
      }
      FlowsEvolve(db, flows);
    }
  }
}
