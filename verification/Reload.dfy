/**
 Reloading the unit files into the journal: a unit whose hash is stored is left alone, any other
 one replaces the rows of its service.
 */
module Reload {
  import opened Common
  import opened Ladder
  import opened Journal
  import opened Units
  import JenkinsHash

  /** `text` is None when the file cannot be read, `elements` when the parser rejects it. */
  datatype UnitFile = UnitFile(text: Option<seq<JenkinsHash.Char>>, elements: Option<seq<Element>>)

  /** The daemon asserts that a unit names its service and its two data paths. */
  predicate Complete(e: Entry) {
    e.name.Some? && e.privateData.Some? && e.publicData.Some?
  }

  type UnitEntry = e: Entry | Complete(e)
    witness Entry(0, Some(""), Some(""), Some(""), 1, false, 0, [], [])

  function EntryOf(f: UnitFile, host: string): Option<Entry> {
    if f.text.None? || f.elements.None? then None
    else Some(Parse(NewEntry(JenkinsHash.Hash(f.text.value)), f.elements.value, host))
  }

  predicate Readable(f: UnitFile, host: string) {
    EntryOf(f, host).Some? ==> Complete(EntryOf(f, host).value)
  }

  /** The usable units, in directory order. */
  function Entries(files: seq<UnitFile>, host: string): seq<UnitEntry>
    requires forall i :: 0 <= i < |files| ==> Readable(files[i], host)
  {
    if files == [] then []
    else
      assert Readable(files[|files| - 1], host);
      Entries(files[..|files| - 1], host)
      + match EntryOf(files[|files| - 1], host) case Some(e) => [e] case None => []
  }

  /** A file is used exactly if it can be read and parsed; its version is the hash of its whole text. */
  lemma {:induction false} EntriesAre(files: seq<UnitFile>, host: string, e: Entry)
    requires forall i :: 0 <= i < |files| ==> Readable(files[i], host)
    ensures e in Entries(files, host) <==> exists i :: 0 <= i < |files| && Describes(files[i], host, e)
  {
    hide Parse, JenkinsHash.Hash;
    if files != [] {
      var front := files[..|files| - 1];
      EntriesAre(front, host, e);
      assert Readable(files[|files| - 1], host);
      assert forall i :: 0 <= i < |front| ==> front[i] == files[i];
    }
  }

  predicate Describes(f: UnitFile, host: string, e: Entry) {
    && f.text.Some? && f.elements.Some?
    && e == Parse(NewEntry(JenkinsHash.Hash(f.text.value)), f.elements.value, host)
  }

  function RowOf(e: UnitEntry): ServiceRow {
    ServiceRow(e.hash, e.name.value, e.privateData.value, e.publicData.value, 0, e.checkStart, e.timeout)
  }

  function Store(t: Tables, e: UnitEntry): Tables {
    var name := e.name.value;
    if HashOf(t.services, name) == e.hash then t
    else
      var t' := Removed(t, name);
      if !ServiceKeyFree(t'.services, e.hash) then t'
      else Tables(t'.services + [RowOf(e)],
                  InsertedAll(t'.actions, name, e.actions),
                  InsertedAll(t'.friends, name, e.friends))
  }

  function StoreAll(t: Tables, es: seq<UnitEntry>): Tables {
    if es == [] then t else Store(StoreAll(t, es[..|es| - 1]), es[|es| - 1])
  }

  method AddActions(journal: Journal, service: string, items: seq<Keyed<AEntry>>)
    modifies journal`actions
    ensures journal.actions == InsertedAll(old(journal.actions), service, items)
  {
    for i := 0 to |items|
      invariant InsertedAll(journal.actions, service, items[i..]) == InsertedAll(old(journal.actions), service, items)
    {
      assert items[i..][1..] == items[i + 1..];
      journal.AddAction(service, items[i]);
    }
  }

  method AddFriends(journal: Journal, service: string, items: seq<Keyed<FEntry>>)
    modifies journal`friends
    ensures journal.friends == InsertedAll(old(journal.friends), service, items)
  {
    for i := 0 to |items|
      invariant InsertedAll(journal.friends, service, items[i..]) == InsertedAll(old(journal.friends), service, items)
    {
      assert items[i..][1..] == items[i + 1..];
      journal.AddFriend(service, items[i]);
    }
  }

  method StoreUnit(journal: Journal, jentry: JEntry)
    requires Complete(jentry.View())
    modifies journal
    ensures journal.View() == Store(old(journal.View()), jentry.View())
  {
    var name := jentry.name.value;
    var existing := journal.GetHash(name);
    if jentry.hash == existing { return; }
    journal.RemoveService(name);
    var status := journal.AddService(jentry.hash, name, jentry.privateData.value, jentry.publicData.value,
                                     jentry.checkStart, jentry.timeout);
    if status == Ok {
      AddActions(journal, name, jentry.actions);
      AddFriends(journal, name, jentry.friends);
    }
  }

  /** One turn of the reload loop. */
  method ReloadFile(journal: Journal, file: UnitFile, host: string)
    requires Readable(file, host)
    modifies journal
    ensures journal.View() == match EntryOf(file, host)
                              case Some(e) => Store(old(journal.View()), e)
                              case None => old(journal.View())
  {
    if file.text.None? { return; }
    var hash := JenkinsHash.ComputeHash(file.text.value);
    if file.elements.None? { return; }
    var jentry := ParseUnit(hash, file.elements.value, host);
    assert EntryOf(file, host) == Some(jentry.View());
    StoreUnit(journal, jentry);
  }

  method ReloadUnits(journal: Journal, files: seq<UnitFile>, host: string)
    requires forall i :: 0 <= i < |files| ==> Readable(files[i], host)
    modifies journal
    ensures journal.View() == StoreAll(old(journal.View()), Entries(files, host))
  {
    for i := 0 to |files|
      invariant journal.View() == StoreAll(old(journal.View()), Entries(files[..i], host))
    {
      ghost var done := Entries(files[..i], host);
      assert files[..i + 1][..i] == files[..i];
      assert Readable(files[i], host);
      ReloadFile(journal, files[i], host);
      match EntryOf(files[i], host) {
        case Some(e) => assert (done + [e])[..|done|] == done;
        case None => assert Entries(files[..i + 1], host) == done;
      }
    }
    assert files[..|files|] == files;
  }

  // ---- What one service sees of the tables ----

  datatype Contents = Contents(services: seq<ServiceRow>, actions: seq<Keyed<AEntry>>, friends: seq<Keyed<FEntry>>)

  function ContentsOf(t: Tables, name: string): Contents {
    Contents(Named(t.services, name), Of(t.actions, name), Of(t.friends, name))
  }

  function UnitContents(e: UnitEntry): Contents {
    Contents([RowOf(e)], e.actions, e.friends)
  }

  /** The keys of `items` are distinct, and taken by no row of another service. */
  ghost predicate KeysFit<E>(rows: seq<Row<E>>, service: string, items: seq<Keyed<E>>) {
    && (forall r, i :: r in rows && 0 <= i < |items| && r.item.hash == items[i].hash ==> r.service == service)
    && (forall i, j :: 0 <= i < j < |items| ==> items[i].hash != items[j].hash)
  }

  ghost predicate NoClash(t: Tables, e: UnitEntry) {
    && (forall r :: r in t.services && r.hash == e.hash ==> r.name == e.name.value)
    && KeysFit(t.actions, e.name.value, e.actions)
    && KeysFit(t.friends, e.name.value, e.friends)
  }

  ghost predicate KeysApart<E>(a: seq<Keyed<E>>, b: seq<Keyed<E>>) {
    forall i, j :: 0 <= i < |a| && 0 <= j < |b| ==> a[i].hash != b[j].hash
  }

  ghost predicate Apart(e: UnitEntry, e': UnitEntry) {
    && e.name != e'.name && e.hash != e'.hash
    && KeysApart(e.actions, e'.actions) && KeysApart(e.friends, e'.friends)
  }

  /** Units of different services with different keys, none of them taken in the journal. */
  ghost predicate Compatible(t: Tables, es: seq<UnitEntry>) {
    && (forall i :: 0 <= i < |es| ==> NoClash(t, es[i]))
    && (forall i, j :: 0 <= i < j < |es| ==> Apart(es[i], es[j]))
  }

  ghost predicate AllFree<E>(rows: seq<Row<E>>, items: seq<Keyed<E>>) {
    && (forall r, i :: r in rows && 0 <= i < |items| ==> r.item.hash != items[i].hash)
    && (forall i, j :: 0 <= i < j < |items| ==> items[i].hash != items[j].hash)
  }

  function RowsFor<E>(service: string, items: seq<Keyed<E>>): seq<Row<E>> {
    seq(|items|, i requires 0 <= i < |items| => Row(service, items[i]))
  }

  /** Items whose keys are free are all stored, in order. */
  lemma {:induction false} InsertedAllAppends<E>(rows: seq<Row<E>>, service: string, items: seq<Keyed<E>>)
    requires AllFree(rows, items)
    ensures InsertedAll(rows, service, items) == rows + RowsFor(service, items)
    decreases |items|
  {
    if items != [] {
      var row := Row(service, items[0]);
      assert RowKeyFree(rows, items[0].hash);
      InsertedAllAppends(rows + [row], service, items[1..]);
      assert RowsFor(service, items) == [row] + RowsFor(service, items[1..]);
    }
  }

  lemma {:induction false} RowsForOf<E>(service: string, items: seq<Keyed<E>>, other: string)
    ensures Of(RowsFor(service, items), other) == if other == service then items else []
  {
    if items != [] {
      assert RowsFor(service, items)[1..] == RowsFor(service, items[1..]);
      RowsForOf(service, items[1..], other);
    }
  }

  /** Replacing the rows of one service, when the new keys fit. */
  lemma RowsReplaced<E>(rows: seq<Row<E>>, service: string, items: seq<Keyed<E>>, other: string)
    requires KeysFit(rows, service, items)
    ensures var rows' := InsertedAll(WithoutRows(rows, service), service, items);
            && Of(rows', other) == (if other == service then items else Of(rows, other))
            && forall r :: r in rows' ==>
                 r in rows || (r.service == service && exists i :: 0 <= i < |items| && items[i] == r.item)
  {
    var others := WithoutRows(rows, service);
    WithoutRowsOf(rows, service, other);
    assert AllFree(others, items);
    InsertedAllAppends(others, service, items);
    OfConcat(others, RowsFor(service, items), other);
    RowsForOf(service, items, other);
  }

  lemma KeysStillFit<E>(rows: seq<Row<E>>, service: string, items: seq<Keyed<E>>, service': string,
        items': seq<Keyed<E>>)
    requires KeysFit(rows, service, items) && KeysFit(rows, service', items') && KeysApart(items, items')
    ensures KeysFit(InsertedAll(WithoutRows(rows, service), service, items), service', items')
  {
    RowsReplaced(rows, service, items, service);
  }

  lemma KeyFreeAfterRemoval(t: Tables, e: UnitEntry)
    requires forall r :: r in t.services && r.hash == e.hash ==> r.name == e.name.value
    ensures ServiceKeyFree(WithoutService(t.services, e.name.value), e.hash)
  {
    var rows := WithoutService(t.services, e.name.value);
    WithoutServiceNamed(t.services, e.name.value, e.name.value);
    forall i | 0 <= i < |rows| ensures rows[i].hash != e.hash {
      assert rows[i] in rows;
    }
  }

  /** Storing a unit gives its own service the unit's rows and leaves the others alone. */
  lemma StoreContents(t: Tables, e: UnitEntry, other: string)
    requires NoClash(t, e)
    ensures ContentsOf(Store(t, e), other)
         == if other == e.name.value && HashOf(t.services, other) != e.hash then UnitContents(e)
               else ContentsOf(t, other)
  {
    var name := e.name.value;
    if HashOf(t.services, name) != e.hash {
      KeyFreeAfterRemoval(t, e);
      RowsReplaced(t.actions, name, e.actions, other);
      RowsReplaced(t.friends, name, e.friends, other);
      WithoutServiceNamed(t.services, name, other);
      NamedConcat(WithoutService(t.services, name), [RowOf(e)], other);
      assert Named([RowOf(e)], other) == if other == name then [RowOf(e)] else [];
    }
  }

  /** A unit replaces its service's row exactly if no other service holds its hash; else the row is lost. */
  lemma StoredIffKeyFree(t: Tables, e: UnitEntry)
    requires HashOf(t.services, e.name.value) != e.hash
    ensures Named(Store(t, e).services, e.name.value)
         == if exists r :: r in t.services && r.hash == e.hash && r.name != e.name.value then [] else [RowOf(e)]
  {
    var rest := WithoutService(t.services, e.name.value);
    WithoutServiceNamed(t.services, e.name.value, e.name.value);
    NamedConcat(rest, [RowOf(e)], e.name.value);
    if r :| r in t.services && r.hash == e.hash && r.name != e.name.value {
      assert r in rest;
    } else {
      KeyFreeAfterRemoval(t, e);
    }
  }

  lemma StoreKeepsNoClash(t: Tables, e: UnitEntry, e': UnitEntry)
    requires NoClash(t, e) && NoClash(t, e') && Apart(e, e')
    ensures NoClash(Store(t, e), e')
  {
    var name := e.name.value;
    if HashOf(t.services, name) != e.hash {
      KeyFreeAfterRemoval(t, e);
      WithoutServiceNamed(t.services, name, name);
      KeysStillFit(t.actions, name, e.actions, e'.name.value, e'.actions);
      KeysStillFit(t.friends, name, e.friends, e'.name.value, e'.friends);
    }
  }

  lemma {:induction false} StoreAllKeepsNoClash(t: Tables, es: seq<UnitEntry>, e: UnitEntry)
    requires Compatible(t, es) && NoClash(t, e) && forall i :: 0 <= i < |es| ==> Apart(es[i], e)
    ensures NoClash(StoreAll(t, es), e)
  {
    if es != [] {
      var front, last := es[..|es| - 1], es[|es| - 1];
      StoreAllKeepsNoClash(t, front, e);
      StoreAllKeepsNoClash(t, front, last);
      StoreKeepsNoClash(StoreAll(t, front), last, e);
    }
  }

  /** What a service should see after the units have been stored. */
  function Expected(t: Tables, es: seq<UnitEntry>, name: string): Contents {
    if es == [] then ContentsOf(t, name)
    else if es[0].name.value == name then
      if HashOf(t.services, name) == es[0].hash then ContentsOf(t, name) else UnitContents(es[0])
    else Expected(t, es[1..], name)
  }

  /**
   Reload agreement: every service with a unit file has exactly the rows of the unit, its vector
   kept when the hash was stored and 0 otherwise; a service without a file is untouched.
   */
  lemma {:induction false} StoreAllContents(t: Tables, es: seq<UnitEntry>, name: string)
    requires Compatible(t, es)
    ensures ContentsOf(StoreAll(t, es), name) == Expected(t, es, name)
  {
    if es != [] {
      var front, last := es[..|es| - 1], es[|es| - 1];
      StoreAllContents(t, front, name);
      StoreAllKeepsNoClash(t, front, last);
      StoreContents(StoreAll(t, front), last, name);
      ExpectedSplit(t, es, name);
      HashFromContents(t, StoreAll(t, front), name);
    }
  }

  lemma HashFromContents(t: Tables, t': Tables, name: string)
    ensures ContentsOf(t, name) == ContentsOf(t', name) ==> HashOf(t.services, name) == HashOf(t'.services, name)
  {
  }

  lemma {:induction false} ExpectedSplit(t: Tables, es: seq<UnitEntry>, name: string)
    requires es != [] && forall i, j :: 0 <= i < j < |es| ==> es[i].name != es[j].name
    ensures var front, last := es[..|es| - 1], es[|es| - 1];
            if last.name.value == name
            then Expected(t, front, name) == ContentsOf(t, name) && Expected(t, es, name) == Expected(t, [last], name)
            else Expected(t, es, name) == Expected(t, front, name)
  {
    if |es| > 1 {
      assert es[1..][..|es| - 2] == es[..|es| - 1][1..];
      ExpectedSplit(t, es[1..], name);
    } else {
      assert es == [es[0]];
    }
  }

  lemma {:induction false} ExpectedOf(t: Tables, es: seq<UnitEntry>, i: nat)
    requires i < |es| && forall j, k :: 0 <= j < k < |es| ==> es[j].name != es[k].name
    ensures var name := es[i].name.value;
            Expected(t, es, name) == if HashOf(t.services, name) == es[i].hash then ContentsOf(t, name)
                  else UnitContents(es[i])
  {
    if i > 0 { ExpectedOf(t, es[1..], i - 1); }
  }

  lemma {:induction false} ExpectedNone(t: Tables, es: seq<UnitEntry>, name: string)
    requires forall i :: 0 <= i < |es| ==> es[i].name.value != name
    ensures Expected(t, es, name) == ContentsOf(t, name)
  {
    if es != [] { ExpectedNone(t, es[1..], name); }
  }

  /** The rows of a service are those of the unit, whatever its vector has become. */
  ghost predicate Installed(t: Tables, e: UnitEntry) {
    var c := ContentsOf(t, e.name.value);
    && |c.services| == 1 && c.services[0].(rvector := 0) == RowOf(e)
    && c.actions == e.actions && c.friends == e.friends
  }

  /**
   After a reload the journal agrees with every unit file, provided that a stored hash stands for
   the same unit; unchanged units keep their vector, changed and new ones start at 0.
   */
  lemma ReloadInstalls(t: Tables, es: seq<UnitEntry>, i: nat)
    requires Compatible(t, es) && i < |es|
    requires HashOf(t.services, es[i].name.value) == es[i].hash ==> Installed(t, es[i])
    ensures var t', name := StoreAll(t, es), es[i].name.value;
            && Installed(t', es[i])
            && RvectorOf(t'.services, name) == if HashOf(t.services, name) == es[i].hash
                  then RvectorOf(t.services, name) else 0
  {
    StoreAllContents(t, es, es[i].name.value);
    ExpectedOf(t, es, i);
  }

  /** The order in which the directory lists the files does not matter. */
  lemma ReloadOrderIrrelevant(t: Tables, es: seq<UnitEntry>, es': seq<UnitEntry>, name: string)
    requires Compatible(t, es) && Compatible(t, es') && forall e :: e in es <==> e in es'
    ensures ContentsOf(StoreAll(t, es), name) == ContentsOf(StoreAll(t, es'), name)
  {
    StoreAllContents(t, es, name);
    StoreAllContents(t, es', name);
    if i :| 0 <= i < |es| && es[i].name.value == name {
      assert es[i] in es';
      var j :| 0 <= j < |es'| && es'[j] == es[i];
      ExpectedOf(t, es, i);
      ExpectedOf(t, es', j);
    } else {
      forall j | 0 <= j < |es'| ensures es'[j].name.value != name {
        assert es'[j] in es;
      }
      ExpectedNone(t, es, name);
      ExpectedNone(t, es', name);
    }
  }

  /** A second reload of the same files changes nothing. */
  lemma ReloadIdempotent(t: Tables, es: seq<UnitEntry>)
    requires Compatible(t, es)
    ensures StoreAll(StoreAll(t, es), es) == StoreAll(t, es)
  {
    var t' := StoreAll(t, es);
    forall i | 0 <= i < |es| ensures HashOf(t'.services, es[i].name.value) == es[i].hash {
      var name := es[i].name.value;
      StoreAllContents(t, es, name);
      ExpectedOf(t, es, i);
      HashFromContents(t, t', name);
    }
    StoredUnitsStay(t', es);
  }

  lemma {:induction false} StoredUnitsStay(t: Tables, es: seq<UnitEntry>)
    requires forall i :: 0 <= i < |es| ==> HashOf(t.services, es[i].name.value) == es[i].hash
    ensures StoreAll(t, es) == t
  {
    if es != [] { StoredUnitsStay(t, es[..|es| - 1]); }
  }

  // ---- Primary keys ----

  predicate UniqueKeys<E>(rows: seq<Row<E>>) {
    forall i, j :: 0 <= i < j < |rows| ==> rows[i].item.hash != rows[j].item.hash
  }

  predicate UniqueHashes(rows: seq<ServiceRow>) {
    forall i, j :: 0 <= i < j < |rows| ==> rows[i].hash != rows[j].hash
  }

  lemma {:induction false} UniqueWithoutRows<E>(rows: seq<Row<E>>, service: string)
    requires UniqueKeys(rows)
    ensures UniqueKeys(WithoutRows(rows, service))
  {
    if rows != [] {
      var rest := WithoutRows(rows[1..], service);
      UniqueWithoutRows(rows[1..], service);
      WithoutRowsOf(rows[1..], service, service);
      forall j | 0 <= j < |rest| ensures rest[j].item.hash != rows[0].item.hash {
        assert rest[j] in rest;
      }
    }
  }

  lemma {:induction false} UniqueWithoutService(rows: seq<ServiceRow>, name: string)
    requires UniqueHashes(rows)
    ensures UniqueHashes(WithoutService(rows, name))
  {
    if rows != [] {
      var rest := WithoutService(rows[1..], name);
      UniqueWithoutService(rows[1..], name);
      WithoutServiceNamed(rows[1..], name, name);
      forall j | 0 <= j < |rest| ensures rest[j].hash != rows[0].hash {
        assert rest[j] in rest;
      }
    }
  }

  lemma {:induction false} UniqueInsertedAll<E>(rows: seq<Row<E>>, service: string, items: seq<Keyed<E>>)
    requires UniqueKeys(rows)
    ensures UniqueKeys(InsertedAll(rows, service, items))
    decreases |items|
  {
    if items != [] { UniqueInsertedAll(Inserted(rows, Row(service, items[0])), service, items[1..]); }
  }

  ghost predicate Unique(t: Tables) {
    UniqueHashes(t.services) && UniqueKeys(t.actions) && UniqueKeys(t.friends)
  }

  /** Whatever the unit files bring, also clashing versions and keys, no table ever holds a key twice. */
  lemma {:induction false} KeysStayUnique(t: Tables, es: seq<UnitEntry>)
    requires Unique(t)
    ensures Unique(StoreAll(t, es))
  {
    hide UniqueKeys, UniqueHashes;
    if es != [] {
      var t', e := StoreAll(t, es[..|es| - 1]), es[|es| - 1];
      var name := e.name.value;
      KeysStayUnique(t, es[..|es| - 1]);
      UniqueWithoutService(t'.services, name);
      UniqueWithoutRows(t'.actions, name);
      UniqueWithoutRows(t'.friends, name);
      UniqueInsertedAll(WithoutRows(t'.actions, name), name, e.actions);
      UniqueInsertedAll(WithoutRows(t'.friends, name), name, e.friends);
      UniqueAppend(WithoutService(t'.services, name), RowOf(e));
    }
  }

  lemma UniqueAppend(rows: seq<ServiceRow>, row: ServiceRow)
    requires UniqueHashes(rows)
    ensures ServiceKeyFree(rows, row.hash) ==> UniqueHashes(rows + [row])
  {
  }
}
