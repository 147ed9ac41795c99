/** Manifests: what a new release resolves to, and what it inherits along its chain of bases. */
module Manifests {
  import opened Options
  import opened Planning
  import opened Tables
  import opened Invariants
  import opened ReleaseSafety
  import R = Runs

  // ---------------------------------------------------------------- applying changes

  lemma ChangedUnitsStep(changes: seq<Change>)
    requires changes != []
    ensures ChangedUnits(changes) == {changes[0].unit} + ChangedUnits(changes[1..])
  {
    var rest := changes[1..];
    forall u | u in ChangedUnits(changes) ensures u == changes[0].unit || u in ChangedUnits(rest) {
      var i :| 0 <= i < |changes| && changes[i].unit == u;
      if i > 0 { assert rest[i - 1].unit == u; }
    }
    forall u | u in ChangedUnits(rest) ensures u in ChangedUnits(changes) {
      var i :| 0 <= i < |rest| && rest[i].unit == u;
      assert changes[i + 1].unit == u;
    }
    assert changes[0].unit in ChangedUnits(changes);
  }

  lemma EntryIsOk(db: DB, app: int, c: Change)
    requires EntryOf(db, app, c).Ok?
    ensures EntryOk(db, app, c.unit, EntryOf(db, app, c).value)
    ensures IsPresent(db.artifacts, EntryOf(db, app, c).value.release)
  {
  }

  /** Units that no change names keep what they had; the changed units are added. */
  lemma {:induction false} ApplyKeepsOthers(db: DB, app: int, changes: seq<Change>, seen: set<int>,
                                            entries: map<int, Entry>)
    requires ApplyChanges(db, app, changes, seen, entries).Ok?
    ensures var r := ApplyChanges(db, app, changes, seen, entries).value;
            && r.Keys == entries.Keys + ChangedUnits(changes)
            && forall u :: u in r && u !in ChangedUnits(changes) ==> u in entries && r[u] == entries[u]
    decreases |changes|
  {
    hide EntryOf, ChangedUnits;
    if changes == [] {
      NoChanges();
    } else {
      var c := changes[0];
      ChangedUnitsStep(changes);
      ApplyKeepsOthers(db, app, changes[1..], seen + {c.unit}, entries[c.unit := EntryOf(db, app, c).value]);
    }
  }

  lemma NoChanges()
    ensures ChangedUnits([]) == {}
  {
  }

  /** No unit is changed twice, and no unit that was seen before. */
  lemma {:induction false} ApplyDistinct(db: DB, app: int, changes: seq<Change>, seen: set<int>,
                                         entries: map<int, Entry>)
    requires ApplyChanges(db, app, changes, seen, entries).Ok?
    ensures ChangedUnits(changes) * seen == {}
    ensures forall i, j :: 0 <= i < j < |changes| ==> changes[i].unit != changes[j].unit
    decreases |changes|
  {
    hide EntryOf;
    if changes != [] {
      var c, rest := changes[0], changes[1..];
      ApplyDistinct(db, app, rest, seen + {c.unit}, entries[c.unit := EntryOf(db, app, c).value]);
      ChangedUnitsStep(changes);
      forall j | 0 < j < |changes| ensures changes[j].unit != c.unit {
        assert rest[j - 1].unit in ChangedUnits(rest);
      }
      forall i, j | 0 <= i < j < |changes| ensures changes[i].unit != changes[j].unit {
        if i > 0 { assert rest[i - 1].unit != rest[j - 1].unit; }
      }
    }
  }

  /** A changed unit gets the entry its change asks for. */
  lemma {:induction false} ApplyChanged(db: DB, app: int, changes: seq<Change>, seen: set<int>,
                                        entries: map<int, Entry>, i: int)
    requires ApplyChanges(db, app, changes, seen, entries).Ok? && 0 <= i < |changes|
    ensures var r := ApplyChanges(db, app, changes, seen, entries).value;
            EntryOf(db, app, changes[i]).Ok? && changes[i].unit in r && r[changes[i].unit] == EntryOf(db, app, changes[i]).value
    decreases |changes|
  {
    hide EntryOf, ChangedUnits;
    var c, rest := changes[0], changes[1..];
    var next := entries[c.unit := EntryOf(db, app, c).value];
    if i == 0 {
      ApplyDistinct(db, app, rest, seen + {c.unit}, next);
      ApplyKeepsOthers(db, app, rest, seen + {c.unit}, next);
    } else {
      ApplyChanged(db, app, rest, seen + {c.unit}, next, i - 1);
    }
  }

  lemma ApplyOk(db: DB, app: int, changes: seq<Change>, entries: map<int, Entry>)
    requires ApplyChanges(db, app, changes, {}, entries).Ok?
    requires EntriesOk(db, app, entries) && EntriesPresent(db.artifacts, entries)
    ensures EntriesOk(db, app, ApplyChanges(db, app, changes, {}, entries).value)
    ensures EntriesPresent(db.artifacts, ApplyChanges(db, app, changes, {}, entries).value)
  {
    hide EntryOf, EntryOk, IsPresent, ApplyChanges;
    var r := ApplyChanges(db, app, changes, {}, entries).value;
    ApplyKeepsOthers(db, app, changes, {}, entries);
    forall u | u in r ensures EntryOk(db, app, u, r[u]) && IsPresent(db.artifacts, r[u].release) {
      if u in ChangedUnits(changes) {
        var i :| 0 <= i < |changes| && changes[i].unit == u;
        ApplyChanged(db, app, changes, {}, entries, i);
        EntryIsOk(db, app, changes[i]);
      }
    }
  }

  function SelectedEnvs(selections: seq<Selection>): set<int> {
    set i | 0 <= i < |selections| :: selections[i].env
  }

  lemma SelectedEnvsStep(selections: seq<Selection>)
    requires selections != []
    ensures SelectedEnvs(selections) == SelectedEnvs(selections[1..]) + {selections[0].env}
  {
    var rest := selections[1..];
    forall i | 0 <= i < |rest| ensures rest[i].env in SelectedEnvs(selections) {
      assert selections[i + 1].env == rest[i].env;
    }
    forall i | 0 <= i < |selections| ensures selections[i].env in SelectedEnvs(rest) + {selections[0].env} {
      if i > 0 { assert rest[i - 1].env == selections[i].env; }
    }
  }

  /** Environments that no selection names keep what they had; the selected ones, none of them twice, get their
      selection. */
  lemma {:induction false} SelectionsApplied(db: DB, app: int, selections: seq<Selection>, seen: set<int>,
                                             configs: map<int, int>)
    requires ApplySelections(db, app, selections, seen, configs).Ok?
    ensures SelectedEnvs(selections) * seen == {}
    ensures var r := ApplySelections(db, app, selections, seen, configs).value;
            && r.Keys == configs.Keys + SelectedEnvs(selections)
            && (forall e :: e in r && e !in SelectedEnvs(selections) ==> e in configs && r[e] == configs[e])
            && (forall i :: 0 <= i < |selections| ==>
                  && Configurable(db, app, selections[i]) && selections[i].env in r
                  && r[selections[i].env] == selections[i].revision)
    decreases |selections|
  {
    hide Configurable;
    if selections != [] {
      hide SelectedEnvs;
      var s, rest := selections[0], selections[1..];
      SelectedEnvsStep(selections);
      SelectionsApplied(db, app, rest, seen + {s.env}, configs[s.env := s.revision]);
      assert s.env !in SelectedEnvs(rest);
      forall i | 0 < i < |selections| ensures selections[i] == rest[i - 1] {
      }
    }
  }

  lemma {:induction false} SelectionsOk(db: DB, app: int, selections: seq<Selection>, seen: set<int>,
                                        configs: map<int, int>)
    requires ApplySelections(db, app, selections, seen, configs).Ok? && ConfigsOk(db, app, configs)
    ensures ConfigsOk(db, app, ApplySelections(db, app, selections, seen, configs).value)
    decreases |selections|
  {
    if selections != [] {
      var s := selections[0];
      SelectionsOk(db, app, selections[1..], seen + {s.env}, configs[s.env := s.revision]);
    }
  }

  // ---------------------------------------------------------------- a new release

  function BaseEntries(db: DB, base: Option<int>): map<int, Entry> {
    if base.Some? then EntriesAt(db.releases, base.value) else map[]
  }

  lemma NoBase(db: DB, u: int)
    ensures u !in BaseEntries(db, None)
  {
  }

  function EntriesAt(releases: map<int, Release>, r: int): map<int, Entry> {
    if r in releases then releases[r].entries else map[]
  }

  function ConfigsAt(releases: map<int, Release>, r: int): map<int, int> {
    if r in releases then releases[r].configs else map[]
  }

  function BaseConfigs(db: DB, base: Option<int>): map<int, int> {
    if base.Some? then ConfigsAt(db.releases, base.value) else map[]
  }

  /** What resolving a release means: changed units get what their change asks for, the others what the base has, and
      together they are exactly the units of the application; likewise selected environments get the revision selected
      for them, the others the one the base has, and together they are its enabled environments. */
  lemma Resolved(db: DB, app: int, version: string, base: Option<int>, changes: seq<Change>, selections: seq<Selection>)
    requires ResolveRelease(db, app, version, base, changes, selections).Ok?
    ensures var (entries, configs) := ResolveRelease(db, app, version, base, changes, selections).value;
            && entries.Keys == UnitsOfApp(db, app) && configs.Keys == EnvsOfApp(db, app)
            && (forall u :: u in entries && u !in ChangedUnits(changes) ==>
                  u in BaseEntries(db, base) && entries[u] == BaseEntries(db, base)[u])
            && (forall i :: 0 <= i < |changes| ==>
                  && EntryOf(db, app, changes[i]).Ok? && changes[i].unit in entries
                  && entries[changes[i].unit] == EntryOf(db, app, changes[i]).value)
            && ChangedUnits(changes) <= entries.Keys
            && (base.Some? ==> BaseReady(db, app, base.value))
            && (forall e :: e in configs && e !in SelectedEnvs(selections) ==>
                  e in BaseConfigs(db, base) && configs[e] == BaseConfigs(db, base)[e])
            && (forall i :: 0 <= i < |selections| ==>
                  && Configurable(db, app, selections[i]) && selections[i].env in configs
                  && configs[selections[i].env] == selections[i].revision)
            && SelectedEnvs(selections) <= configs.Keys
  {
    hide EntryOf, ChangedUnits, SelectedEnvs, UnitsOfApp, EnvsOfApp, ApplyChanges, ApplySelections, Configurable;
    SelectionsApplied(db, app, selections, {}, BaseConfigs(db, base));
    var inherited := BaseEntries(db, base);
    assert ApplyChanges(db, app, changes, {}, inherited).Ok?;
    ApplyKeepsOthers(db, app, changes, {}, inherited);
    var changed := ApplyChanges(db, app, changes, {}, inherited).value;
    forall i | 0 <= i < |changes|
      ensures EntryOf(db, app, changes[i]).Ok? && changes[i].unit in changed
      ensures changed[changes[i].unit] == EntryOf(db, app, changes[i]).value
    {
      ApplyChanged(db, app, changes, {}, inherited, i);
    }
  }

  lemma ResolvedOk(db: DB, app: int, version: string, base: Option<int>, changes: seq<Change>,
                   selections: seq<Selection>)
    requires Inv(db) && ResolveRelease(db, app, version, base, changes, selections).Ok?
    ensures var (entries, configs) := ResolveRelease(db, app, version, base, changes, selections).value;
            EntriesOk(db, app, entries) && EntriesPresent(db.artifacts, entries) && ConfigsOk(db, app, configs)
  {
    hide EntryOf, EntryOk, ApplyChanges, ApplySelections, Configurable, EntriesPresent, EntriesOk, ConfigsOk,
         UnitsOfApp, EnvsOfApp, UnitCodes, AppCodes, RunsOk, WrittenBack, Inherits, StatesPresent, RunsPresent,
         IdsFresh;
    var entries := BaseEntries(db, base);
    var configs := BaseConfigs(db, base);
    BaseIsOk(db, app, base);
    ApplyOk(db, app, changes, entries);
    SelectionsOk(db, app, selections, {}, configs);
  }

  lemma BaseIsOk(db: DB, app: int, base: Option<int>)
    requires Inv(db) && (base.Some? ==> BaseReady(db, app, base.value))
    ensures EntriesOk(db, app, BaseEntries(db, base)) && EntriesPresent(db.artifacts, BaseEntries(db, base))
    ensures ConfigsOk(db, app, BaseConfigs(db, base))
  {
    hide UnitCodes, AppCodes, RunsOk, WrittenBack, Inherits, StatesPresent, RunsPresent, IdsFresh, EntryOk, IsPresent;
  }

  lemma NewReleaseInherits(db: DB, app: int, version: string, base: Option<int>, changes: seq<Change>,
                           selections: seq<Selection>)
    requires Inv(db) && ResolveRelease(db, app, version, base, changes, selections).Ok?
    ensures var (entries, configs) := ResolveRelease(db, app, version, base, changes, selections).value;
            Inherits(db.releases, db.nextRelease,
                     Release(app, version, NextCode(db.appCodes, app), false, base, entries, configs, ChangedUnits(changes)))
  {
    hide EntryOf, ResolveRelease, ChangedUnits, UnitsOfApp, EnvsOfApp, UnitCodes, AppCodes, RunsOk, WrittenBack,
         Reachable, ManifestsOk;
    Resolved(db, app, version, base, changes, selections);
    if base == None {
      var (entries, configs) := ResolveRelease(db, app, version, base, changes, selections).value;
      forall u | u in entries ensures u in ChangedUnits(changes) {
        NoBase(db, u);
      }
    } else {
      var b: int := base.value;
      assert BaseReady(db, app, b);
      assert b in db.releases;
      var (entries, configs) := ResolveRelease(db, app, version, base, changes, selections).value;
      assert BaseOf(db.releases, b, Release(app, version, NextCode(db.appCodes, app), false, base, entries, configs, ChangedUnits(changes)));
    }
  }

  lemma NewReleaseCodes(db: DB, app: int, version: string, base: Option<int>, entries: map<int, Entry>,
                        configs: map<int, int>, changed: set<int>)
    requires Inv(db) && !(exists r :: r in db.releases && db.releases[r].app == app && db.releases[r].version == version)
    ensures var b := AddRelease(db, app, version, base, entries, configs, changed);
            AppCodes(b.releases, b.appCodes) && IdsFresh(b)
  {
    hide UnitCodes, AppCodes, ManifestsDiffer, ManifestsOk, RunsOk, WrittenBack, Reachable, NextCode;
    OneMoreRelease(db.releases, db.appCodes, db.nextRelease,
                   Release(app, version, NextCode(db.appCodes, app), false, base, entries, configs, changed));
  }

  lemma OneMoreRelease(releases: map<int, Release>, codes: map<int, int>, n: int, x: Release)
    requires AppCodes(releases, codes) && x.code == NextCode(codes, x.app)
    requires forall r :: r in releases ==> r < n && (releases[r].app != x.app || releases[r].version != x.version)
    ensures AppCodes(releases[n := x], codes[x.app := x.code + 1])
  {
  }

  lemma InheritsStays(a: map<int, Release>, n: int, x: Release, r: int, y: Release)
    requires n !in a && Inherits(a, r, y)
    ensures Inherits(a[n := x], r, y)
  {
  }

  lemma AddReleaseManifests(db: DB, b: DB, n: int, x: Release)
    requires ManifestsOk(db) && n !in db.releases
    requires b == db.(releases := db.releases[n := x], appCodes := b.appCodes, nextRelease := b.nextRelease)
    requires EntriesOk(db, x.app, x.entries) && ConfigsOk(db, x.app, x.configs) && Inherits(db.releases, n, x)
    ensures ManifestsOk(b)
  {
    hide EntryOk, Inherits;
    forall r | r in b.releases
      ensures EntriesOk(b, b.releases[r].app, b.releases[r].entries) && ConfigsOk(b, b.releases[r].app, b.releases[r].configs)
              && Inherits(b.releases, r, b.releases[r])
    {
      var y := b.releases[r];
      assert EntriesOk(db, y.app, y.entries) && ConfigsOk(db, y.app, y.configs);
      SameTables(db, b);
      EntriesStay(db, b, y.app, y.entries);
      ConfigsStay(db, b, y.app, y.configs);
      InheritsStays(db.releases, n, x, r, y);
    }
  }

  lemma AddReleaseKeepsRuns(db: DB, b: DB, n: int, x: Release)
    requires Inv(db) && n !in db.releases
    requires b == db.(releases := db.releases[n := x], appCodes := b.appCodes, nextRelease := b.nextRelease)
    ensures RunsOk(b) && WrittenBack(b.artifacts, b.states, b.flows, b.latest)
  {
    hide UnitCodes, AppCodes, WrittenBack, Reachable, IdsFresh, FlowsOk, Locked, ManifestsDiffer, ManifestsOk,
         RunsRooted;
    SameTables(db, b);
    assert KeepsReleases(b.flows, db.releases, b.releases);
    assert SamePlans(db.flows, b.flows);
    RunsStayRooted(db, b);
  }

  lemma CreateReleaseKeeps(db: DB, app: int, version: string, base: Option<int>, changes: seq<Change>,
                           selections: seq<Selection>)
    requires Inv(db)
    ensures Inv(CreateRelease(db, app, version, base, changes, selections).0)
  {
    hide EntryOk, UnitCodes, AppCodes, ManifestsDiffer, SameManifest, RunsOk, WrittenBack, ResolveRelease,
         ManifestsOk, IdsFresh, StatesPresent, RunsPresent, EntriesPresent, EntriesOk, ConfigsOk, Inherits,
         ChangedUnits;
    var resolved := ResolveRelease(db, app, version, base, changes, selections);
    if resolved.Ok? {
      var (entries, configs) := resolved.value;
      var n, x := db.nextRelease, Release(app, version, NextCode(db.appCodes, app), false, base, entries, configs, ChangedUnits(changes));
      var b := AddRelease(db, app, version, base, entries, configs, ChangedUnits(changes));
      FreshRelease(db);
      ResolvedOk(db, app, version, base, changes, selections);
      NewReleaseInherits(db, app, version, base, changes, selections);
      ResolvedIsNew(db, app, version, base, changes, selections);
      NewReleaseCodes(db, app, version, base, entries, configs, ChangedUnits(changes));
      AddReleaseDiffers(db, n, x);
      AddReleaseManifests(db, b, n, x);
      AddReleaseKeepsRuns(db, b, n, x);
      assert ReleasesPresent(b.artifacts, b.releases);
    }
  }

  lemma AddReleaseDiffers(db: DB, n: int, x: Release)
    requires Inv(db) && n == db.nextRelease
    requires !(exists r :: r in db.releases && SameManifest(db.releases[r], x.entries, x.configs))
    ensures ManifestsDiffer(db.releases[n := x])
  {
    hide UnitCodes, AppCodes, ManifestsOk, RunsOk, WrittenBack, Reachable, SameManifest;
  }

  lemma FreshRelease(db: DB)
    requires Inv(db)
    ensures db.nextRelease !in db.releases
  {
  }

  lemma ResolvedIsNew(db: DB, app: int, version: string, base: Option<int>, changes: seq<Change>,
                      selections: seq<Selection>)
    requires ResolveRelease(db, app, version, base, changes, selections).Ok?
    ensures !(exists r :: r in db.releases && db.releases[r].app == app && db.releases[r].version == version)
    ensures var (entries, configs) := ResolveRelease(db, app, version, base, changes, selections).value;
            !(exists r :: r in db.releases && SameManifest(db.releases[r], entries, configs))
  {
    hide SameManifest, ApplyChanges, ApplySelections;
  }

  // ---------------------------------------------------------------- along the chain of bases

  /** Release d is r or one of the releases r descends from. */
  ghost predicate OnChain(releases: map<int, Release>, r: int, d: int)
    requires forall q :: q in releases ==> Inherits(releases, q, releases[q])
    decreases if r < 0 then 0 else r
  {
    && 0 < r && r in releases
    && (d == r || (releases[r].base.Some? && OnChain(releases, releases[r].base.value, d)))
  }

  /** The latest release on the chain of r that changed unit u. */
  ghost function Changer(releases: map<int, Release>, r: int, u: int): (c: int)
    requires forall q :: q in releases ==> Inherits(releases, q, releases[q])
    decreases if r < 0 then 0 else r
  {
    if r <= 0 || r !in releases || u in releases[r].changed || releases[r].base == None then r
    else Changer(releases, releases[r].base.value, u)
  }

  /** Every entry is the one that the latest release on the chain to change the unit was created with, and so is the
      entry of every release between the two. */
  lemma {:induction false} InheritedEntry(db: DB, r: int, u: int, d: int)
    requires Inv(db) && r in db.releases && u in db.releases[r].entries
    ensures var c := Changer(db.releases, r, u);
            && OnChain(db.releases, r, c) && c <= r && c in db.releases
            && u in db.releases[c].changed
            && u in db.releases[c].entries && db.releases[c].entries[u] == db.releases[r].entries[u]
            && (OnChain(db.releases, r, d) && c <= d ==>
                  d in db.releases && u in db.releases[d].entries && db.releases[d].entries[u] == db.releases[r].entries[u]
                  && (c < d ==> u !in db.releases[d].changed))
    decreases if r < 0 then 0 else r
  {
    hide UnitCodes, AppCodes, RunsOk, WrittenBack, Reachable, EntriesOk, ConfigsOk;
    assert Inherits(db.releases, r, db.releases[r]);
    if u !in db.releases[r].changed {
      var b: int := db.releases[r].base.value;
      assert BaseOf(db.releases, b, db.releases[r]);
      InheritedEntry(db, b, u, d);
      if d != r { ChainBelow(db.releases, b, d); }
    } else {
      ChainBelow(db.releases, r, d);
    }
  }

  lemma {:induction false} ChainBelow(releases: map<int, Release>, r: int, d: int)
    requires forall q :: q in releases ==> Inherits(releases, q, releases[q])
    ensures OnChain(releases, r, d) ==> d <= r && d in releases
    decreases if r < 0 then 0 else r
  {
    if OnChain(releases, r, d) && d != r {
      ChainBelow(releases, releases[r].base.value, d);
    }
  }
}
