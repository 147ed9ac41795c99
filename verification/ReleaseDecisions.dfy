/** Which releases are accepted, with which error the others are refused, and what is stored: row by row, in terms of
    the tables before. */
module ReleaseDecisions {
  import opened Options
  import opened Planning
  import opened Tables
  import opened Invariants
  import opened Manifests

  // ---------------------------------------------------------------- what is asked for

  predicate ChangeAllowed(db: DB, app: int, c: Change) {
    && c.unit in db.units && db.units[c.unit].app == app
    && (c.desired == Disabled ||
        (c.desired == Active && c.release.Some? && PackageReady(db, c.unit, c.release.value)))
  }

  predicate PackageReady(db: DB, unit: int, a: int) {
    a in db.artifacts && db.artifacts[a].unit == unit && db.artifacts[a].status == Present
  }

  predicate SelectionAllowed(db: DB, app: int, s: Selection) {
    && s.env in db.envs && db.envs[s.env].app == app && db.envs[s.env].enabled
    && s.revision in db.revisions && db.revisions[s.revision].app == app
  }

  /** The entry of a changed unit: the status asked for, the package if the unit is to run, the place that the unit has
      in the pipeline, and a fingerprint of status and checksum. */
  predicate EntryAsked(db: DB, c: Change, e: Entry) {
    && c.unit in db.units
    && e.desired == c.desired && e.release == (if c.desired == Active then c.release else None)
    && e.stage == db.units[c.unit].stage && e.order == db.units[c.unit].order && e.removal == db.units[c.unit].removal
    && e.fingerprint.desired == c.desired
    && e.fingerprint.checksum == (if c.desired == Active && c.release.Some? then ChecksumOf(db, c.release.value) else "")
  }

  function ChecksumOf(db: DB, a: int): string { if a in db.artifacts then db.artifacts[a].checksum else "" }

  predicate Changed(changes: seq<Change>, u: int) { exists i :: 0 <= i < |changes| && changes[i].unit == u }

  predicate Selected(selections: seq<Selection>, e: int) { exists i :: 0 <= i < |selections| && selections[i].env == e }

  /** Each unit is changed at most once, and only in ways that are allowed; likewise each environment. */
  ghost predicate AllAllowed(db: DB, app: int, changes: seq<Change>, selections: seq<Selection>) {
    && (forall i :: 0 <= i < |changes| ==> ChangeAllowed(db, app, changes[i]))
    && (forall i, j :: 0 <= i < j < |changes| ==> changes[i].unit != changes[j].unit)
    && (forall i :: 0 <= i < |selections| ==> SelectionAllowed(db, app, selections[i]))
    && (forall i, j :: 0 <= i < j < |selections| ==> selections[i].env != selections[j].env)
  }

  /** The base, if one is named, is a release of the application that is not archived. */
  predicate BaseAllowed(db: DB, app: int, base: Option<int>) {
    base.Some? ==>
      base.value in db.releases && db.releases[base.value].app == app && !db.releases[base.value].archived
  }

  /** Base and changes together cover exactly the application's units, of which there is one, and base and selections
      exactly its enabled environments. */
  ghost predicate Complete(db: DB, app: int, base: Option<int>, changes: seq<Change>, selections: seq<Selection>) {
    && (exists u :: u in db.units && db.units[u].app == app)
    && (forall u :: u in db.units && db.units[u].app == app <==> Changed(changes, u) || u in BaseEntries(db, base))
    && (forall e :: e in db.envs && db.envs[e].app == app && db.envs[e].enabled <==>
                      Selected(selections, e) || e in BaseConfigs(db, base))
  }

  /** The manifest that is asked for: changed units as their changes say, selected environments as selected, and
      everything else as in the base. */
  ghost predicate ManifestAsked(db: DB, base: Option<int>, changes: seq<Change>, selections: seq<Selection>,
                                entries: map<int, Entry>, configs: map<int, int>)
  {
    && (forall u :: u in entries <==> Changed(changes, u) || u in BaseEntries(db, base))
    && (forall u :: u in entries && !Changed(changes, u) ==>
          u in BaseEntries(db, base) && entries[u] == BaseEntries(db, base)[u])
    && (forall i :: 0 <= i < |changes| ==>
          changes[i].unit in entries && EntryAsked(db, changes[i], entries[changes[i].unit]))
    && (forall e :: e in configs <==> Selected(selections, e) || e in BaseConfigs(db, base))
    && (forall e :: e in configs && !Selected(selections, e) ==>
          e in BaseConfigs(db, base) && configs[e] == BaseConfigs(db, base)[e])
    && (forall i :: 0 <= i < |selections| ==>
          selections[i].env in configs && configs[selections[i].env] == selections[i].revision)
  }

  ghost predicate VersionTaken(db: DB, app: int, version: string) {
    exists r :: r in db.releases && db.releases[r].app == app && db.releases[r].version == version
  }

  ghost predicate ManifestTaken(db: DB, base: Option<int>, changes: seq<Change>, selections: seq<Selection>) {
    exists r :: r in db.releases &&
      ManifestAsked(db, base, changes, selections, db.releases[r].entries, db.releases[r].configs)
  }

  ghost predicate Acceptable(db: DB, app: int, base: Option<int>, changes: seq<Change>, selections: seq<Selection>) {
    BaseAllowed(db, app, base) && AllAllowed(db, app, changes, selections) && Complete(db, app, base, changes, selections)
  }

  // ---------------------------------------------------------------- the transaction's own tests

  lemma EntryIsAsked(db: DB, app: int, c: Change)
    ensures EntryOf(db, app, c).Ok? <==> ChangeAllowed(db, app, c)
    ensures EntryOf(db, app, c).Ok? ==> EntryAsked(db, c, EntryOf(db, app, c).value)
  {
  }

  lemma OneEntry(db: DB, c: Change, x: Entry, y: Entry)
    requires EntryAsked(db, c, x) && EntryAsked(db, c, y)
    ensures x == y
  {
  }

  lemma ChangedSpelled(changes: seq<Change>, u: int)
    ensures u in ChangedUnits(changes) <==> Changed(changes, u)
  {
  }

  lemma SelectedSpelled(selections: seq<Selection>, e: int)
    ensures e in SelectedEnvs(selections) <==> Selected(selections, e)
  {
  }

  lemma {:induction false} ChangesApply(db: DB, app: int, changes: seq<Change>, seen: set<int>, entries: map<int, Entry>)
    ensures ApplyChanges(db, app, changes, seen, entries).Ok? <==>
              && (forall i :: 0 <= i < |changes| ==> ChangeAllowed(db, app, changes[i]) && changes[i].unit !in seen)
              && (forall i, j :: 0 <= i < j < |changes| ==> changes[i].unit != changes[j].unit)
    decreases |changes|
  {
    hide EntryOf, ChangeAllowed;
    if changes != [] {
      var c, rest := changes[0], changes[1..];
      EntryIsAsked(db, app, c);
      if c.unit !in seen && ChangeAllowed(db, app, c) {
        var next := entries[c.unit := EntryOf(db, app, c).value];
        ChangesApply(db, app, rest, seen + {c.unit}, next);
        assert forall i :: 0 < i < |changes| ==> changes[i] == rest[i - 1];
        assert forall i :: 0 <= i < |rest| ==> rest[i] == changes[i + 1];
      }
    }
  }

  lemma {:induction false} SelectionsApply(db: DB, app: int, selections: seq<Selection>, seen: set<int>,
                                           configs: map<int, int>)
    ensures ApplySelections(db, app, selections, seen, configs).Ok? <==>
              && (forall i :: 0 <= i < |selections| ==> SelectionAllowed(db, app, selections[i]) && selections[i].env !in seen)
              && (forall i, j :: 0 <= i < j < |selections| ==> selections[i].env != selections[j].env)
    decreases |selections|
  {
    if selections != [] {
      var s, rest := selections[0], selections[1..];
      assert Configurable(db, app, s) <==> SelectionAllowed(db, app, s);
      hide Configurable, SelectionAllowed;
      if s.env !in seen && Configurable(db, app, s) {
        SelectionsApply(db, app, rest, seen + {s.env}, configs[s.env := s.revision]);
        assert forall i :: 0 < i < |selections| ==> selections[i] == rest[i - 1];
        assert forall i :: 0 <= i < |rest| ==> rest[i] == selections[i + 1];
      }
    }
  }

  ghost function Entries(db: DB, app: int, base: Option<int>, changes: seq<Change>): Result<map<int, Entry>, Error> {
    ApplyChanges(db, app, changes, {}, BaseEntries(db, base))
  }

  ghost function Configs(db: DB, app: int, base: Option<int>, selections: seq<Selection>): Result<map<int, int>, Error> {
    ApplySelections(db, app, selections, {}, BaseConfigs(db, base))
  }

  lemma AppliedIsAsked(db: DB, app: int, base: Option<int>, changes: seq<Change>, selections: seq<Selection>)
    requires Entries(db, app, base, changes).Ok? && Configs(db, app, base, selections).Ok?
    ensures ManifestAsked(db, base, changes, selections, Entries(db, app, base, changes).value,
                          Configs(db, app, base, selections).value)
  {
    hide EntryOf, ApplyChanges, ApplySelections, Configurable, EntryAsked, BaseEntries, BaseConfigs, ChangedUnits,
         SelectedEnvs, Changed, Selected;
    var inherited := BaseEntries(db, base);
    ApplyKeepsOthers(db, app, changes, {}, inherited);
    SelectionsApplied(db, app, selections, {}, BaseConfigs(db, base));
    forall u ensures u in ChangedUnits(changes) <==> Changed(changes, u) { ChangedSpelled(changes, u); }
    forall e ensures e in SelectedEnvs(selections) <==> Selected(selections, e) { SelectedSpelled(selections, e); }
    var entries := Entries(db, app, base, changes).value;
    forall i | 0 <= i < |changes|
      ensures changes[i].unit in entries && EntryAsked(db, changes[i], entries[changes[i].unit])
    {
      ApplyChanged(db, app, changes, {}, inherited, i);
      EntryIsAsked(db, app, changes[i]);
    }
  }

  /** There is only one manifest that is asked for. */
  lemma OneManifest(db: DB, base: Option<int>, changes: seq<Change>, selections: seq<Selection>,
                    entries: map<int, Entry>, configs: map<int, int>, r: Release)
    requires ManifestAsked(db, base, changes, selections, entries, configs)
    ensures ManifestAsked(db, base, changes, selections, r.entries, r.configs) <==> SameManifest(r, entries, configs)
  {
    hide EntryAsked, BaseEntries, BaseConfigs;
    if ManifestAsked(db, base, changes, selections, r.entries, r.configs) {
      forall u | u in entries ensures u in r.entries && r.entries[u] == entries[u] {
        if Changed(changes, u) {
          var i :| 0 <= i < |changes| && changes[i].unit == u;
          OneEntry(db, changes[i], entries[u], r.entries[u]);
        }
      }
      forall u ensures u in r.entries <==> u in entries {
      }
      assert r.entries == entries;
      forall e | e in configs ensures e in r.configs && r.configs[e] == configs[e] {
        if Selected(selections, e) { var i :| 0 <= i < |selections| && selections[i].env == e; }
      }
      forall e ensures e in r.configs <==> e in configs {
      }
      assert r.configs == configs;
    }
  }

  /** The manifest is complete exactly when base and changes cover what has to be covered. */
  lemma CoversAll(db: DB, app: int, base: Option<int>, changes: seq<Change>, selections: seq<Selection>,
                  entries: map<int, Entry>, configs: map<int, int>)
    requires ManifestAsked(db, base, changes, selections, entries, configs)
    ensures UnitsOfApp(db, app) != {} && entries.Keys == UnitsOfApp(db, app) && configs.Keys == EnvsOfApp(db, app)
            <==> Complete(db, app, base, changes, selections)
  {
    hide EntryAsked, BaseEntries, BaseConfigs, Changed, Selected;
    SomeMember(UnitsOfApp(db, app));
    if Complete(db, app, base, changes, selections) {
      forall u ensures u in entries <==> u in UnitsOfApp(db, app) {
      }
      forall e ensures e in configs <==> e in EnvsOfApp(db, app) {
      }
    }
    if entries.Keys == UnitsOfApp(db, app) && configs.Keys == EnvsOfApp(db, app) {
      forall u ensures u in db.units && db.units[u].app == app <==> u in entries {
        assert u in entries.Keys <==> u in UnitsOfApp(db, app);
      }
      forall e ensures e in db.envs && db.envs[e].app == app && db.envs[e].enabled <==> e in configs {
        assert e in configs.Keys <==> e in EnvsOfApp(db, app);
      }
    }
  }

  lemma AllowedApplies(db: DB, app: int, base: Option<int>, changes: seq<Change>, selections: seq<Selection>)
    ensures AllAllowed(db, app, changes, selections) <==>
              Entries(db, app, base, changes).Ok? && Configs(db, app, base, selections).Ok?
  {
    hide ChangeAllowed, SelectionAllowed, BaseEntries, BaseConfigs;
    ChangesApply(db, app, changes, {}, BaseEntries(db, base));
    SelectionsApply(db, app, selections, {}, BaseConfigs(db, base));
  }

  /** The tests of the transaction, with the manifests named. */
  lemma ResolvesBy(db: DB, app: int, version: string, base: Option<int>, changes: seq<Change>, selections: seq<Selection>)
    ensures var entries, configs := Entries(db, app, base, changes), Configs(db, app, base, selections);
            ResolveRelease(db, app, version, base, changes, selections) ==
              if VersionTaken(db, app, version) then Err(Conflict)
              else if UnitsOfApp(db, app) == {} || !BaseAllowed(db, app, base) then Err(Validation)
              else if entries.Err? || entries.value.Keys != UnitsOfApp(db, app) then Err(Validation)
              else if configs.Err? || configs.value.Keys != EnvsOfApp(db, app) then Err(Validation)
              else if exists r :: r in db.releases && SameManifest(db.releases[r], entries.value, configs.value) then Err(Conflict)
              else Ok((entries.value, configs.value))
  {
    hide ApplyChanges, ApplySelections, UnitsOfApp, EnvsOfApp, SameManifest;
    assert BaseAllowed(db, app, base) ==>
             && BaseEntries(db, base) == (if base.Some? then db.releases[base.value].entries else map[])
             && BaseConfigs(db, base) == (if base.Some? then db.releases[base.value].configs else map[]);
    assert BaseAllowed(db, app, base) <==> (base.Some? ==> BaseReady(db, app, base.value));
    hide BaseEntries, BaseConfigs, BaseAllowed, BaseReady;
  }

  /** The answer to a resolution. */
  lemma ResolutionDecided(db: DB, app: int, version: string, base: Option<int>, changes: seq<Change>,
                          selections: seq<Selection>)
    ensures var r := ResolveRelease(db, app, version, base, changes, selections);
            && (r.Ok? <==> !VersionTaken(db, app, version) && Acceptable(db, app, base, changes, selections)
                           && !ManifestTaken(db, base, changes, selections))
            && (r.Ok? ==> ManifestAsked(db, base, changes, selections, r.value.0, r.value.1))
            && (r.Err? ==> r.error == if VersionTaken(db, app, version) || Acceptable(db, app, base, changes, selections)
                                      then Conflict else Validation)
  {
    ResolvesBy(db, app, version, base, changes, selections);
    AllowedApplies(db, app, base, changes, selections);
    var entries, configs := Entries(db, app, base, changes), Configs(db, app, base, selections);
    hide ResolveRelease, VersionTaken, BaseAllowed, Entries, Configs, AllAllowed, Complete, UnitsOfApp, EnvsOfApp,
         ManifestAsked, SameManifest;
    if entries.Ok? && configs.Ok? {
      AppliedIsAsked(db, app, base, changes, selections);
      CoversAll(db, app, base, changes, selections, entries.value, configs.value);
      forall r | r in db.releases
        ensures ManifestAsked(db, base, changes, selections, db.releases[r].entries, db.releases[r].configs)
                <==> SameManifest(db.releases[r], entries.value, configs.value)
      {
        OneManifest(db, base, changes, selections, entries.value, configs.value, db.releases[r]);
      }
    }
  }

  /** Creating a release: accepted exactly when the version is new, every change and selection is allowed, together with
      the base they cover the application, and no release has the manifest that is asked for. The new release then has
      that manifest and the next code, above all of its application's, and nothing else changes; and a refusal changes nothing. */
  lemma CreateReleaseDecided(db: DB, app: int, version: string, base: Option<int>, changes: seq<Change>,
                             selections: seq<Selection>)
    requires Inv(db)
    ensures var (b, r) := CreateRelease(db, app, version, base, changes, selections);
            && (r.Ok? <==> !VersionTaken(db, app, version) && Acceptable(db, app, base, changes, selections)
                           && !ManifestTaken(db, base, changes, selections))
            && (r.Err? ==> b == db && r.error == if VersionTaken(db, app, version)
                                                    || Acceptable(db, app, base, changes, selections)
                                                 then Conflict else Validation)
            && (r.Ok? ==>
                  && r.value !in db.releases && r.value in b.releases
                  && b == db.(releases := db.releases[r.value := b.releases[r.value]],
                              appCodes := db.appCodes[app := b.releases[r.value].code + 1], nextRelease := b.nextRelease)
                  && var x := b.releases[r.value];
                     && x.app == app && x.version == version && x.base == base && !x.archived
                     && x.code == (if app in db.appCodes then db.appCodes[app] else 100)
                     && ManifestAsked(db, base, changes, selections, x.entries, x.configs)
                     && forall q :: q in db.releases && db.releases[q].app == app ==> db.releases[q].code < x.code)
  {
    assert IdsFresh(db) && AppCodes(db.releases, db.appCodes);
    hide Inv, VersionTaken, ManifestTaken, ManifestAsked, Acceptable, ResolveRelease;
    ResolutionDecided(db, app, version, base, changes, selections);
  }

  // ---------------------------------------------------------------- unit releases

  /** Registering a package: refused for an unknown unit; for a version that is known, whatever became of its package,
      accepted without effect when the package is the same and refused when it is another; and otherwise stored as
      present, with the next code, above all of its unit's and 100 at first, while nothing else changes. */
  lemma RegisterDecided(db: DB, unit: int, version: string, checksum: string)
    requires Inv(db)
    ensures var (b, r) := Register(db, unit, version, checksum);
            if unit !in db.units then b == db && r == Err(NotFound)
            else if exists a :: a in db.artifacts && db.artifacts[a].unit == unit && db.artifacts[a].version == version then
              && b == db
              && forall a :: a in db.artifacts && db.artifacts[a].unit == unit && db.artifacts[a].version == version ==>
                   r == if db.artifacts[a].checksum == checksum then Ok(a) else Err(Conflict)
            else
              && r.Ok? && r.value !in db.artifacts && r.value in b.artifacts
              && b == db.(artifacts := db.artifacts[r.value := b.artifacts[r.value]],
                          unitCodes := db.unitCodes[unit := b.artifacts[r.value].code + 1], nextArtifact := b.nextArtifact)
              && var x := b.artifacts[r.value];
                 && x.unit == unit && x.version == version && x.checksum == checksum && x.status == Present
                 && x.code == (if unit in db.unitCodes then db.unitCodes[unit] else 100)
                 && forall a :: a in db.artifacts && db.artifacts[a].unit == unit ==> db.artifacts[a].code < x.code
  {
    assert IdsFresh(db) && UnitCodes(db.artifacts, db.unitCodes);
    hide Inv;
    if unit in db.units && Registered(db, unit, version) {
      var a :| a in db.artifacts && SameVersion(db.artifacts[a], unit, version);
      OnlyVersion(db, unit, version, a);
      hide UnitCodes, IdsFresh;
    }
  }

  lemma OnlyVersion(db: DB, unit: int, version: string, a: int)
    requires UnitCodes(db.artifacts, db.unitCodes) && a in db.artifacts && SameVersion(db.artifacts[a], unit, version)
    ensures forall b :: b in db.artifacts && SameVersion(db.artifacts[b], unit, version) ==> b == a
  {
    forall b | b in db.artifacts && SameVersion(db.artifacts[b], unit, version) ensures b == a {
      assert !(a < b) && !(b < a);
    }
  }
}
