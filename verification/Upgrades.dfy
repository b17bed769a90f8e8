/**
 A restart of the daemon with changed unit files: when a service keeps its unit, and what it has
 when it gets a new version.
 */
module Upgrades {
  import opened Common
  import opened Ladder
  import opened Journal
  import opened Units
  import opened Reload
  import opened Daemon
  import opened Projection
  import opened DaemonRuns
  import JenkinsHash
  import M = ServiceMachine

  /** Every unit file of the service is the version that is stored. */
  ghost predicate NoNewVersion(t: Tables, units: seq<UnitEntry>, service: string) {
    forall i :: 0 <= i < |units| && units[i].name.value == service ==> HashOf(t.services, service) == units[i].hash
  }

  /** With compatible files, a restart keeps the unit of a service exactly if they bring no new version of it. */
  lemma KeepsUnitIff(w: World, l: Step, service: string)
    requires l.Reboot? && Compatible(w.tables, l.units) && Named(w.tables.services, service) != []
    ensures KeepsUnit(w, l, service) <==> NoNewVersion(w.tables, l.units, service)
  {
    StoreAllContents(w.tables, l.units, service);
    if i :| 0 <= i < |l.units| && l.units[i].name.value == service {
      ExpectedOf(w.tables, l.units, i);
      if HashOf(w.tables.services, service) != l.units[i].hash {
        HashFromContents(w.tables, StoreAll(w.tables, l.units), service);
        assert HashOf(StoreAll(w.tables, l.units).services, service) == l.units[i].hash;
      } else {
        OneFileEach(w.tables, l.units, i, service);
      }
    } else {
      ExpectedNone(w.tables, l.units, service);
    }
  }

  lemma OneFileEach(t: Tables, units: seq<UnitEntry>, i: nat, service: string)
    requires Compatible(t, units) && i < |units| && units[i].name.value == service
    requires HashOf(t.services, service) == units[i].hash
    ensures NoNewVersion(t, units, service)
  {
    forall j | 0 <= j < |units| && units[j].name.value == service ensures j == i {
      assert j < i ==> Apart(units[j], units[i]);
      assert i < j ==> Apart(units[i], units[j]);
    }
  }

  /** A new version is installed by the restart: its own ladder and relax time, vector 0 and no timer. */
  lemma RebootUpgrades(w: World, l: Step, i: nat, hash: Hash, elements: seq<Element>, host: string)
    requires l.Reboot? && Compatible(w.tables, l.units) && i < |l.units|
    requires l.units[i] == Parse(NewEntry(hash), elements, host) && hash != 0
    requires HashOf(w.tables.services, l.units[i].name.value) != hash
    ensures var e := l.units[i];
            && Managed(Next(w, l), e.name.value, ActionElements(elements), e.timeout)
            && M.Fresh(Proj(Next(w, l), e.name.value))
  {
    hide Managed, StoreAll, ContentsOf, Parse, M.Trigger, Expand;
    var e, es := l.units[i], ActionElements(elements);
    var service := e.name.value;
    var w1 := w.(tables := StoreAll(w.tables, l.units), timers := [], queue := [], monitor := l.listed);
    ParseCompiles(hash, elements, host);
    StoreAllContents(w.tables, l.units, service);
    ExpectedOf(w.tables, l.units, i);
    NewVersionIsManaged(w1, e, es);
    var before, after := ArmedAllProj(w1, w1.tables.services, service, es, e.timeout);
    NothingToRelax(UnitOf(es, e.timeout), Proj(w1, service).(nextId := w1.nextId + before));
    ManagedByTables(w1, Next(w, l), service, es, e.timeout);
  }

  lemma NewVersionIsManaged(w: World, e: UnitEntry, es: seq<ActionElement>)
    requires ContentsOf(w.tables, e.name.value) == UnitContents(e) && e.hash != 0 && e.actions == Compile(1, es)
    ensures Managed(w, e.name.value, es, e.timeout)
    ensures Named(w.tables.services, e.name.value) == [RowOf(e)]
  {
  }

  lemma NothingToRelax(u: M.Unit, s: M.State)
    requires s.rvector == 0
    ensures M.Trigger(u, s) == s
  {
  }

  // ---- From the text of a file to the rows of its service ----

  /** Between two reloads nothing of the journal changes but vectors. */
  ghost predicate OnlyVectors(t: Tables, t': Tables) {
    && t'.actions == t.actions && t'.friends == t.friends
    && |t'.services| == |t.services|
    && forall i :: 0 <= i < |t.services| ==> t'.services[i].(rvector := 0) == t.services[i].(rvector := 0)
  }

  lemma AnsweredOnlyVectors(w: World, service: string, selected: Option<AEntry>)
    ensures OnlyVectors(w.tables, Answered(w, service, selected).tables)
  {
    hide RvectorOf, TimeoutOf, M.Duration;
  }

  lemma StepOnlyVectors(w: World, l: Step)
    requires !l.Reboot?
    ensures OnlyVectors(w.tables, Next(w, l).tables)
  {
    hide Answered, SelectedEntry;
    if l.Dispatch? && w.queue != [] && w.queue[0].ServiceCrashed? {
      var service := w.queue[0].service;
      var up := WithVector(w.(queue := w.queue[1..]), service, RvectorOf(w.tables.services, service) + 1);
      AnsweredOnlyVectors(up, service, SelectedEntry(up.tables, service));
    }
  }

  lemma {:induction false} RunOnlyVectors(ws: seq<World>, ls: seq<Step>, i: nat, n: nat)
    requires IsRun(ws, ls) && i <= n <= |ls| && forall k :: i <= k < n ==> !ls[k].Reboot?
    ensures OnlyVectors(ws[i].tables, ws[n].tables)
    decreases n
  {
    hide Next, Enabled;
    if i < n {
      RunOnlyVectors(ws, ls, i, n - 1);
      assert StepAt(ws, ls, n - 1);
      StepOnlyVectors(ws[n - 1], ls[n - 1]);
    }
  }

  lemma {:induction false} NamedOnlyVectors(rows: seq<ServiceRow>, rows': seq<ServiceRow>, name: string)
    requires |rows'| == |rows|
    requires forall i :: 0 <= i < |rows| ==> rows'[i].(rvector := 0) == rows[i].(rvector := 0)
    ensures |Named(rows', name)| == |Named(rows, name)|
    ensures forall i :: 0 <= i < |Named(rows, name)| ==>
              Named(rows', name)[i].(rvector := 0) == Named(rows, name)[i].(rvector := 0)
  {
    if rows != [] {
      NamedOnlyVectors(rows[1..], rows'[1..], name);
      assert rows'[0].(rvector := 0).name == rows[0].(rvector := 0).name;
    }
  }

  lemma HashOnlyVectors(t: Tables, t': Tables, name: string)
    requires OnlyVectors(t, t')
    ensures HashOf(t'.services, name) == HashOf(t.services, name)
  {
    NamedOnlyVectors(t.services, t'.services, name);
    var rows, rows' := Named(t.services, name), Named(t'.services, name);
    assert rows != [] ==> rows'[|rows| - 1].(rvector := 0).hash == rows[|rows| - 1].(rvector := 0).hash;
  }

  /** File i of the directory is readable, holds this text and describes this service. */
  ghost predicate Holds(files: seq<UnitFile>, host: string, i: nat, text: seq<JenkinsHash.Char>, service: string) {
    && (forall k :: 0 <= k < |files| ==> Readable(files[k], host))
    && i < |files| && files[i].text == Some(text) && files[i].elements.Some?
    && Parse(NewEntry(JenkinsHash.Hash(text)), files[i].elements.value, host).name == Some(service)
  }

  lemma HeldIsEntry(files: seq<UnitFile>, host: string, i: nat, text: seq<JenkinsHash.Char>, service: string)
    returns (k: nat)
    requires Holds(files, host, i, text, service)
    ensures k < |Entries(files, host)|
    ensures Entries(files, host)[k] == Parse(NewEntry(JenkinsHash.Hash(text)), files[i].elements.value, host)
  {
    var e := Parse(NewEntry(JenkinsHash.Hash(text)), files[i].elements.value, host);
    assert Describes(files[i], host, e);
    EntriesAre(files, host, e);
    k :| 0 <= k < |Entries(files, host)| && Entries(files, host)[k] == e;
  }

  /** After a reload the version of a service is the hash of the text of its file. */
  lemma VersionIsHash(t: Tables, files: seq<UnitFile>, host: string, i: nat, text: seq<JenkinsHash.Char>,
                      service: string)
    requires Holds(files, host, i, text, service) && Compatible(t, Entries(files, host))
    ensures HashOf(StoreAll(t, Entries(files, host)).services, service) == JenkinsHash.Hash(text)
  {
    hide Parse, JenkinsHash.Hash;
    var units := Entries(files, host);
    var k := HeldIsEntry(files, host, i, text, service);
    ParseCompiles(JenkinsHash.Hash(text), files[i].elements.value, host);
    StoreAllContents(t, units, service);
    ExpectedOf(t, units, k);
    HashFromContents(t, StoreAll(t, units), service);
  }

  /** A daemon boots on `files`, runs, and is restarted on `files'`; nothing else restarts it. */
  ghost predicate TwoBoots(ws: seq<World>, ls: seq<Step>, files: seq<UnitFile>, files': seq<UnitFile>, host: string) {
    && IsRun(ws, ls) && |ls| >= 2
    && (forall k :: 0 <= k < |files| ==> Readable(files[k], host))
    && (forall k :: 0 <= k < |files'| ==> Readable(files'[k], host))
    && ls[0].Reboot? && ls[0].units == Entries(files, host) && Compatible(ws[0].tables, ls[0].units)
    && ls[|ls| - 1].Reboot? && ls[|ls| - 1].units == Entries(files', host)
    && Compatible(ws[|ls| - 1].tables, ls[|ls| - 1].units)
    && forall k :: 0 < k < |ls| - 1 ==> !ls[k].Reboot?
  }

  /** Between the boots the service has the version of the first file. */
  lemma VersionStays(ws: seq<World>, ls: seq<Step>, files: seq<UnitFile>, files': seq<UnitFile>, host: string,
                     i: nat, text: seq<JenkinsHash.Char>, service: string)
    requires TwoBoots(ws, ls, files, files', host) && Holds(files, host, i, text, service)
    ensures HashOf(ws[|ls| - 1].tables.services, service) == JenkinsHash.Hash(text)
  {
    hide Next, Parse, JenkinsHash.Hash;
    assert StepAt(ws, ls, 0);
    VersionIsHash(ws[0].tables, files, host, i, text, service);
    RebootStores(ws[0], ls[0]);
    RunOnlyVectors(ws, ls, 1, |ls| - 1);
    HashOnlyVectors(ws[1].tables, ws[|ls| - 1].tables, service);
  }

  lemma RebootStores(w: World, l: Step)
    requires l.Reboot?
    ensures Next(w, l).tables == StoreAll(w.tables, l.units)
  {
    var w' := w.(tables := StoreAll(w.tables, l.units), timers := [], queue := [], monitor := l.listed);
    ArmingKeepsTables(w', w'.tables.services);
  }

  lemma {:induction false} ArmingKeepsTables(w: World, rows: seq<ServiceRow>)
    ensures ArmedAll(w, rows).tables == w.tables
    decreases |rows|
  {
    if rows != [] { ArmingKeepsTables(if rows[0].rvector > 0 then Triggered(w, rows[0].name) else w, rows[1..]); }
  }

  /** The rows of a service are those that its elements describe, and its vector is 0. */
  ghost predicate HasUnit(t: Tables, service: string, hash: Hash, elements: seq<Element>, host: string) {
    var rows, e := Named(t.services, service), Parse(NewEntry(hash), elements, host);
    && |rows| == 1 && rows[0].hash == hash && rows[0].rvector == 0 && rows[0].timeout == e.timeout
    && e.privateData == Some(rows[0].privateData) && e.publicData == Some(rows[0].publicData)
    && rows[0].checkStart == e.checkStart
    && Of(t.actions, service) == Compile(1, ActionElements(elements))
    && HasFriends(Of(t.friends, service), elements, host)
  }

  lemma UnitStored(t: Tables, files: seq<UnitFile>, host: string, i: nat, text: seq<JenkinsHash.Char>, service: string)
    requires Holds(files, host, i, text, service) && Compatible(t, Entries(files, host))
    requires HashOf(t.services, service) != JenkinsHash.Hash(text)
    ensures HasUnit(StoreAll(t, Entries(files, host)), service, JenkinsHash.Hash(text), files[i].elements.value, host)
  {
    hide Parse, JenkinsHash.Hash, HasFriends;
    var hash, elements, units := JenkinsHash.Hash(text), files[i].elements.value, Entries(files, host);
    var k := HeldIsEntry(files, host, i, text, service);
    ParseCompiles(hash, elements, host);
    ParseFriends(hash, elements, host);
    StoreAllContents(t, units, service);
    ExpectedOf(t, units, k);
  }

  /**
   A unit file is changed in one byte, anywhere in its text, and the daemon restarted: whatever
   happened in between, the service has exactly the row, actions and friends of the new elements,
   with vector 0; and, since a version of 0 counts as no unit, no relax timer if it is not 0.
   */
  lemma ChangedTextUpgrades(ws: seq<World>, ls: seq<Step>, files: seq<UnitFile>, files': seq<UnitFile>, host: string,
                            i: nat, j: nat, service: string, p: seq<JenkinsHash.Char>, a: JenkinsHash.Char,
                            b: JenkinsHash.Char, s: seq<JenkinsHash.Char>)
    requires TwoBoots(ws, ls, files, files', host) && a != b
    requires Holds(files, host, i, p + [a] + s, service) && Holds(files', host, j, p + [b] + s, service)
    ensures HasUnit(ws[|ls|].tables, service, JenkinsHash.Hash(p + [b] + s), files'[j].elements.value, host)
    ensures JenkinsHash.Hash(p + [b] + s) != 0 ==> M.Fresh(Proj(ws[|ls|], service))
  {
    hide Next, Parse, JenkinsHash.Hash, HasFriends, HasUnit, Proj;
    VersionStays(ws, ls, files, files', host, i, p + [a] + s, service);
    JenkinsHash.HashSeesEveryByte(p, a, b, s);
    assert StepAt(ws, ls, |ls| - 1);
    RebootStores(ws[|ls| - 1], ls[|ls| - 1]);
    UnitStored(ws[|ls| - 1].tables, files', host, j, p + [b] + s, service);
    var k := HeldIsEntry(files', host, j, p + [b] + s, service);
    if JenkinsHash.Hash(p + [b] + s) != 0 {
      RebootUpgrades(ws[|ls| - 1], ls[|ls| - 1], k, JenkinsHash.Hash(p + [b] + s), files'[j].elements.value, host);
    }
  }

  /** The same text again: the restart leaves every row of the service, and its vector, as they were. */
  lemma SameTextKeeps(ws: seq<World>, ls: seq<Step>, files: seq<UnitFile>, files': seq<UnitFile>, host: string,
                      i: nat, j: nat, service: string, text: seq<JenkinsHash.Char>)
    requires TwoBoots(ws, ls, files, files', host)
    requires Holds(files, host, i, text, service) && Holds(files', host, j, text, service)
    ensures ContentsOf(ws[|ls|].tables, service) == ContentsOf(ws[|ls| - 1].tables, service)
    ensures RvectorOf(ws[|ls|].tables.services, service) == RvectorOf(ws[|ls| - 1].tables.services, service)
  {
    hide Next, Parse, JenkinsHash.Hash;
    VersionStays(ws, ls, files, files', host, i, text, service);
    assert StepAt(ws, ls, |ls| - 1);
    RebootStores(ws[|ls| - 1], ls[|ls| - 1]);
    var t, units := ws[|ls| - 1].tables, Entries(files', host);
    var k := HeldIsEntry(files', host, j, text, service);
    ParseCompiles(JenkinsHash.Hash(text), files'[j].elements.value, host);
    StoreAllContents(t, units, service);
    ExpectedOf(t, units, k);
  }
}
