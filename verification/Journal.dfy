/**
 The journal: three tables of persistent rows and the queries the daemon runs on them.

 A query hands every matching row, in insertion order, to a callback that overwrites its answer;
 the methods of the class `Journal` are these loops.  The functions say what they compute.
 */
module Journal {
  import opened Common
  import opened Ladder
  import JenkinsHash

  /** The version of a unit; 0 is the answer for a service without a unit. */
  type Hash = JenkinsHash.Word

  datatype FriendType = FriendUnknown | FriendProcess | FriendService

  datatype FriendAction = FriendActionUnknown | Start | Stop | Restart | Signal

  datatype FEntry = FEntry(friend: string, context: string, kind: FriendType,
                           action: FriendAction, argument: int, delay: int)

  datatype ServiceRow = ServiceRow(hash: Hash, name: string, privateData: string, publicData: string,
                                   rvector: nat, checkStart: bool, timeout: nat)

  /** A row of the Actions or the Friends table. */
  datatype Row<+E> = Row(service: string, item: Keyed<E>)

  datatype Tables = Tables(services: seq<ServiceRow>, actions: seq<Row<AEntry>>, friends: seq<Row<FEntry>>)

  datatype FriendResponse = FriendResponse(service: string, action: FriendAction, argument: int, delay: int)

  // ---- What the queries mean ----

  function Named(rows: seq<ServiceRow>, name: string): seq<ServiceRow> {
    if rows == [] then []
    else (if rows[0].name == name then [rows[0]] else []) + Named(rows[1..], name)
  }

  function Of<E>(rows: seq<Row<E>>, service: string): seq<Keyed<E>> {
    if rows == [] then []
    else (if rows[0].service == service then [rows[0].item] else []) + Of(rows[1..], service)
  }

  function Last<T>(s: seq<T>): Option<T> {
    if s == [] then None else Some(s[|s| - 1])
  }

  function RowFor(rows: seq<ServiceRow>, name: string): Option<ServiceRow> {
    Last(Named(rows, name))
  }

  function HashOf(rows: seq<ServiceRow>, name: string): Hash {
    match RowFor(rows, name) case Some(r) => r.hash case None => 0
  }

  function RvectorOf(rows: seq<ServiceRow>, name: string): nat {
    match RowFor(rows, name) case Some(r) => r.rvector case None => 0
  }

  function TimeoutOf(rows: seq<ServiceRow>, name: string): nat {
    match RowFor(rows, name) case Some(r) => r.timeout case None => 0
  }

  /** UPDATE ... SET RVECTOR touches every row of that name and nothing else. */
  function WithRvector(rows: seq<ServiceRow>, name: string, v: nat): seq<ServiceRow> {
    seq(|rows|, i requires 0 <= i < |rows| =>
      if rows[i].name == name then rows[i].(rvector := v) else rows[i])
  }

  function SelectedEntry(t: Tables, name: string): Option<AEntry> {
    Scan(Of(t.actions, name), RvectorOf(t.services, name), None)
  }

  function ResponseOf(row: Row<FEntry>, friend: string, context: string, kind: FriendType): seq<FriendResponse> {
    var e := row.item.value;
    if e.friend == friend && e.context == context && e.kind == kind
    then [FriendResponse(row.service, e.action, e.argument, e.delay)] else []
  }

  function FriendsOf(rows: seq<Row<FEntry>>, friend: string, context: string, kind: FriendType): seq<FriendResponse> {
    if rows == [] then []
    else ResponseOf(rows[0], friend, context, kind) + FriendsOf(rows[1..], friend, context, kind)
  }

  function WithoutService(rows: seq<ServiceRow>, name: string): seq<ServiceRow> {
    if rows == [] then []
    else (if rows[0].name == name then [] else [rows[0]]) + WithoutService(rows[1..], name)
  }

  function WithoutRows<E>(rows: seq<Row<E>>, service: string): seq<Row<E>> {
    if rows == [] then []
    else (if rows[0].service == service then [] else [rows[0]]) + WithoutRows(rows[1..], service)
  }

  function Removed(t: Tables, name: string): Tables {
    Tables(WithoutService(t.services, name), WithoutRows(t.actions, name), WithoutRows(t.friends, name))
  }

  predicate ServiceKeyFree(rows: seq<ServiceRow>, hash: Hash) {
    forall i :: 0 <= i < |rows| ==> rows[i].hash != hash
  }

  predicate RowKeyFree<E>(rows: seq<Row<E>>, hash: nat) {
    forall i :: 0 <= i < |rows| ==> rows[i].item.hash != hash
  }

  /** INSERT under a primary key: a row whose key is taken is not stored. */
  function Inserted<E>(rows: seq<Row<E>>, row: Row<E>): seq<Row<E>> {
    if RowKeyFree(rows, row.item.hash) then rows + [row] else rows
  }

  function InsertedAll<E>(rows: seq<Row<E>>, service: string, items: seq<Keyed<E>>): seq<Row<E>>
    decreases |items|
  {
    if items == [] then rows
    else InsertedAll(Inserted(rows, Row(service, items[0])), service, items[1..])
  }

  // ---- Facts about the queries ----

  lemma {:induction false} NamedConcat(a: seq<ServiceRow>, b: seq<ServiceRow>, name: string)
    ensures Named(a + b, name) == Named(a, name) + Named(b, name)
  {
    if a == [] {
      assert a + b == b;
    } else {
      assert (a + b)[1..] == a[1..] + b;
      NamedConcat(a[1..], b, name);
      Associative(if a[0].name == name then [a[0]] else [], Named(a[1..], name), Named(b, name));
    }
  }

  lemma {:induction false} OfConcat<E>(a: seq<Row<E>>, b: seq<Row<E>>, service: string)
    ensures Of(a + b, service) == Of(a, service) + Of(b, service)
  {
    if a == [] {
      assert a + b == b;
    } else {
      assert (a + b)[1..] == a[1..] + b;
      OfConcat(a[1..], b, service);
      Associative(if a[0].service == service then [a[0].item] else [], Of(a[1..], service), Of(b, service));
    }
  }

  lemma {:induction false} FriendsConcat(a: seq<Row<FEntry>>, b: seq<Row<FEntry>>, friend: string, context: string,
        kind: FriendType)
    ensures FriendsOf(a + b, friend, context, kind) == FriendsOf(a, friend, context, kind) + FriendsOf(b, friend,
          context, kind)
  {
    if a == [] {
      assert a + b == b;
    } else {
      assert (a + b)[1..] == a[1..] + b;
      FriendsConcat(a[1..], b, friend, context, kind);
      Associative(ResponseOf(a[0], friend, context, kind), FriendsOf(a[1..], friend, context, kind), FriendsOf(b,
            friend, context, kind));
    }
  }

  /** A response is made of a row exactly if friend, context and type are the ones asked for. */
  lemma FriendsRow(rows: seq<Row<FEntry>>, i: nat, friend: string, context: string, kind: FriendType)
    requires i < |rows|
    ensures var e := rows[i].item.value;
            FriendsOf(rows[..i + 1], friend, context, kind)
            == FriendsOf(rows[..i], friend, context, kind)
               + if e.friend == friend && e.context == context && e.kind == kind
                 then [FriendResponse(rows[i].service, e.action, e.argument, e.delay)] else []
  {
    FriendsConcat(rows[..i], [rows[i]], friend, context, kind);
    assert rows[..i + 1] == rows[..i] + [rows[i]];
    assert [rows[i]][1..] == [];
  }

  /** Without a row of the service every answer is 0. */
  lemma {:induction false} NoRowAnswers(rows: seq<ServiceRow>, name: string)
    requires forall j :: 0 <= j < |rows| ==> rows[j].name != name
    ensures Named(rows, name) == []
    ensures HashOf(rows, name) == 0 && RvectorOf(rows, name) == 0 && TimeoutOf(rows, name) == 0
  {
    if rows != [] { NoRowAnswers(rows[1..], name); }
  }

  /** The last row of the service answers. */
  lemma LastRowAnswers(rows: seq<ServiceRow>, name: string, i: nat)
    requires i < |rows| && rows[i].name == name && forall j :: i < j < |rows| ==> rows[j].name != name
    ensures HashOf(rows, name) == rows[i].hash
    ensures RvectorOf(rows, name) == rows[i].rvector
    ensures TimeoutOf(rows, name) == rows[i].timeout
  {
    NoRowAnswers(rows[i + 1..], name);
    assert rows == rows[..i] + rows[i..] && rows[i..][1..] == rows[i + 1..];
    NamedConcat(rows[..i], rows[i..], name);
  }

  lemma ScanRow(rows: seq<Row<AEntry>>, name: string, rvector: nat, answer: Option<AEntry>)
    requires rows != []
    ensures Scan(Of(rows, name), rvector, answer)
         == var e := rows[0].item.value;
            Scan(Of(rows[1..], name), rvector,
                 if rows[0].service == name && Covers(e, rvector) then Some(e) else answer)
  {
    if rows[0].service == name {
      assert Of(rows, name)[1..] == Of(rows[1..], name);
    } else {
      assert Of(rows, name) == Of(rows[1..], name);
    }
  }

  /** An update of one service's vector is seen by that service alone. */
  lemma {:induction false} WithRvectorNamed(rows: seq<ServiceRow>, name: string, v: nat, other: string)
    ensures Named(WithRvector(rows, name, v), other) == WithRvector(Named(rows, other), name, v)
  {
    if rows != [] {
      WithRvectorNamed(rows[1..], name, v, other);
      assert WithRvector(rows, name, v)[1..] == WithRvector(rows[1..], name, v);
      WithRvectorConcat(if rows[0].name == other then [rows[0]] else [], Named(rows[1..], other), name, v);
    }
  }

  lemma WithRvectorConcat(a: seq<ServiceRow>, b: seq<ServiceRow>, name: string, v: nat)
    ensures WithRvector(a + b, name, v) == WithRvector(a, name, v) + WithRvector(b, name, v)
  {
  }

  lemma {:induction false} NamedRows(rows: seq<ServiceRow>, name: string)
    ensures forall r :: r in Named(rows, name) ==> r in rows && r.name == name
  {
    if rows != [] {
      NamedRows(rows[1..], name);
      assert forall r :: r in rows[1..] ==> r in rows;
    }
  }

  lemma RvectorAfterUpdate(rows: seq<ServiceRow>, name: string, v: nat, other: string)
    ensures |Named(WithRvector(rows, name, v), other)| == |Named(rows, other)|
    ensures HashOf(WithRvector(rows, name, v), other) == HashOf(rows, other)
    ensures TimeoutOf(WithRvector(rows, name, v), other) == TimeoutOf(rows, other)
    ensures RvectorOf(WithRvector(rows, name, v), other)
         == if other == name && Named(rows, name) != [] then v else RvectorOf(rows, other)
  {
    WithRvectorNamed(rows, name, v, other);
    NamedRows(rows, other);
    if Named(rows, other) != [] {
      assert Named(rows, other)[|Named(rows, other)| - 1] in Named(rows, other);
    }
  }

  lemma {:induction false} WithoutServiceNamed(rows: seq<ServiceRow>, name: string, other: string)
    ensures Named(WithoutService(rows, name), other) == if other == name then [] else Named(rows, other)
    ensures forall r :: r in WithoutService(rows, name) <==> r in rows && r.name != name
  {
    if rows != [] {
      WithoutServiceNamed(rows[1..], name, other);
      var rest := WithoutService(rows[1..], name);
      if rows[0].name == name {
        assert WithoutService(rows, name) == rest;
      } else {
        assert WithoutService(rows, name)[1..] == rest;
      }
    }
  }

  ghost predicate ForOthers<E>(rows: seq<Row<E>>, service: string) {
    forall r :: r in rows ==> r.service != service
  }

  lemma {:induction false} WithoutRowsOf<E>(rows: seq<Row<E>>, service: string, other: string)
    ensures Of(WithoutRows(rows, service), other) == if other == service then [] else Of(rows, other)
    ensures ForOthers(WithoutRows(rows, service), service)
    ensures forall r :: r in WithoutRows(rows, service) ==> r in rows
  {
    if rows != [] {
      WithoutRowsOf(rows[1..], service, other);
      var rest := WithoutRows(rows[1..], service);
      if rows[0].service == service {
        assert WithoutRows(rows, service) == rest;
      } else {
        assert WithoutRows(rows, service)[1..] == rest;
      }
    }
  }

  /** Keeping the rows of the others, one by one. */
  lemma WithoutServiceStep(rows: seq<ServiceRow>, name: string)
    requires rows != []
    ensures WithoutService(rows, name)
         == (if rows[0].name == name then [] else [rows[0]]) + WithoutService(rows[1..], name)
  {
  }

  lemma WithoutRowsStep<E>(rows: seq<Row<E>>, service: string)
    requires rows != []
    ensures WithoutRows(rows, service)
         == (if rows[0].service == service then [] else [rows[0]]) + WithoutRows(rows[1..], service)
  {
  }

  // ---- The journal object ----

  class Journal {
    var services: seq<ServiceRow>
    var actions: seq<Row<AEntry>>
    var friends: seq<Row<FEntry>>

    function View(): Tables
      reads this
    {
      Tables(services, actions, friends)
    }

    constructor ()
      ensures View() == Tables([], [], [])
    {
      services, actions, friends := [], [], [];
    }

    method GetHash(name: string) returns (hash: Hash)
      ensures hash == HashOf(services, name)
    {
      hash := 0;
      for i := 0 to |services|
        invariant hash == HashOf(services[..i], name)
      {
        if services[i].name == name { hash := services[i].hash; }
        NamedConcat(services[..i], [services[i]], name);
        assert services[..i + 1] == services[..i] + [services[i]];
      }
      assert services[..|services|] == services;
    }

    method GetRvector(name: string) returns (rvector: nat)
      ensures rvector == RvectorOf(services, name)
    {
      rvector := 0;
      for i := 0 to |services|
        invariant rvector == RvectorOf(services[..i], name)
      {
        if services[i].name == name { rvector := services[i].rvector; }
        NamedConcat(services[..i], [services[i]], name);
        assert services[..i + 1] == services[..i] + [services[i]];
      }
      assert services[..|services|] == services;
    }

    method GetRelaxingTimeout(name: string) returns (timeout: nat)
      ensures timeout == TimeoutOf(services, name)
    {
      timeout := 0;
      for i := 0 to |services|
        invariant timeout == TimeoutOf(services[..i], name)
      {
        if services[i].name == name { timeout := services[i].timeout; }
        NamedConcat(services[..i], [services[i]], name);
        assert services[..i + 1] == services[..i] + [services[i]];
      }
      assert services[..|services|] == services;
    }

    /** Afterwards the service reads v, if it has a row, and every other service what it read before. */
    method SetRvector(name: string, v: nat)
      modifies this`services
      ensures View() == old(View()).(services := WithRvector(old(services), name, v))
      ensures Named(old(services), name) != [] ==> RvectorOf(services, name) == v
      ensures forall other :: other != name ==> RvectorOf(services, other) == RvectorOf(old(services), other)
    {
      for i := 0 to |services|
        invariant |services| == |old(services)|
        invariant forall k :: 0 <= k < i ==> services[k] == WithRvector(old(services), name, v)[k]
        invariant forall k :: i <= k < |services| ==> services[k] == old(services)[k]
      {
        if services[i].name == name {
          services := services[i := services[i].(rvector := v)];
        }
      }
      assert services == WithRvector(old(services), name, v);
      RvectorAfterUpdate(old(services), name, v, name);
      forall other | other != name ensures RvectorOf(services, other) == RvectorOf(old(services), other) {
        RvectorAfterUpdate(old(services), name, v, other);
      }
    }

    /** The type column of the last row whose interval holds the current vector. */
    method GetServiceAction(name: string) returns (kind: ActionType)
      ensures kind == match SelectedEntry(View(), name) case Some(e) => e.kind case None => Invalid
    {
      kind := Invalid;
      var rvector := GetRvector(name);
      ghost var answer: Option<AEntry> := None;
      for i := 0 to |actions|
        invariant kind == match answer case Some(e) => e.kind case None => Invalid
        invariant Scan(Of(actions[i..], name), rvector, answer) == SelectedEntry(View(), name)
      {
        assert actions[i..][1..] == actions[i + 1..];
        ScanRow(actions[i..], name, rvector, answer);
        if actions[i].service == name {
          if Covers(actions[i].item.value, rvector) {
            kind := actions[i].item.value.kind;
            answer := Some(actions[i].item.value);
          }
        }
      }
    }

    /** The reset column of the last row whose interval holds the current vector. */
    method GetServiceActionResetAfter(name: string) returns (reset: bool)
      ensures reset == match SelectedEntry(View(), name) case Some(e) => e.reset case None => false
    {
      reset := false;
      var rvector := GetRvector(name);
      ghost var answer: Option<AEntry> := None;
      for i := 0 to |actions|
        invariant reset == match answer case Some(e) => e.reset case None => false
        invariant Scan(Of(actions[i..], name), rvector, answer) == SelectedEntry(View(), name)
      {
        assert actions[i..][1..] == actions[i + 1..];
        ScanRow(actions[i..], name, rvector, answer);
        if actions[i].service == name {
          if Covers(actions[i].item.value, rvector) {
            reset := actions[i].item.value.reset;
            answer := Some(actions[i].item.value);
          }
        }
      }
    }

    method GetServicesForFriend(friend: string, context: string, kind: FriendType)
      returns (responses: seq<FriendResponse>)
      ensures responses == FriendsOf(friends, friend, context, kind)
    {
      responses := [];
      for i := 0 to |friends|
        invariant responses == FriendsOf(friends[..i], friend, context, kind)
      {
        var e := friends[i].item.value;
        if e.friend == friend && e.context == context && e.kind == kind {
          responses := responses + [FriendResponse(friends[i].service, e.action, e.argument, e.delay)];
        }
        assert FriendsOf([friends[i]], friend, context, kind) == ResponseOf(friends[i], friend, context, kind);
        FriendsConcat(friends[..i], [friends[i]], friend, context, kind);
        assert friends[..i + 1] == friends[..i] + [friends[i]];
      }
      assert friends[..|friends|] == friends;
    }

    /** Afterwards no table has a row of the service, and every other service has the rows it had. */
    method RemoveService(name: string)
      modifies this
      ensures View() == Removed(old(View()), name)
      ensures Named(services, name) == [] && Of(actions, name) == [] && Of(friends, name) == []
      ensures forall other :: other != name ==>
                && Named(services, other) == Named(old(services), other)
                && Of(actions, other) == Of(old(actions), other) && Of(friends, other) == Of(old(friends), other)
    {
      services := KeepOtherServices(services, name);
      actions := KeepOthers(actions, name);
      friends := KeepOthers(friends, name);
      forall other ensures Named(services, other) == (if other == name then [] else Named(old(services), other)) {
        WithoutServiceNamed(old(services), name, other);
      }
      forall other ensures Of(actions, other) == (if other == name then [] else Of(old(actions), other)) {
        WithoutRowsOf(old(actions), name, other);
      }
      forall other ensures Of(friends, other) == (if other == name then [] else Of(old(friends), other)) {
        WithoutRowsOf(old(friends), name, other);
      }
    }

    static method KeepOtherServices(rows: seq<ServiceRow>, name: string) returns (kept: seq<ServiceRow>)
      ensures kept == WithoutService(rows, name)
    {
      kept := [];
      for i := 0 to |rows|
        invariant kept + WithoutService(rows[i..], name) == WithoutService(rows, name)
      {
        assert rows[i..][1..] == rows[i + 1..];
        WithoutServiceStep(rows[i..], name);
        if rows[i].name != name {
          kept := kept + [rows[i]];
        }
      }
    }

    static method KeepOthers<E>(rows: seq<Row<E>>, service: string) returns (kept: seq<Row<E>>)
      ensures kept == WithoutRows(rows, service)
    {
      kept := [];
      for i := 0 to |rows|
        invariant kept + WithoutRows(rows[i..], service) == WithoutRows(rows, service)
      {
        assert rows[i..][1..] == rows[i + 1..];
        WithoutRowsStep(rows[i..], service);
        if rows[i].service != service {
          kept := kept + [rows[i]];
        }
      }
    }

    /** A service row starts with vector 0; it is refused when its hash is already a key. */
    method AddService(hash: Hash, name: string, privateData: string, publicData: string,
                      checkStart: bool, timeout: nat) returns (status: Status)
      modifies this`services
      ensures status == if ServiceKeyFree(old(services), hash) then Ok else Error
      ensures services == if status == Ok
                          then old(services) + [ServiceRow(hash, name, privateData, publicData, 0, checkStart, timeout)]
                          else old(services)
    {
      if ServiceKeyFree(services, hash) {
        services := services + [ServiceRow(hash, name, privateData, publicData, 0, checkStart, timeout)];
        status := Ok;
      } else {
        status := Error;
      }
    }

    method AddAction(service: string, entry: Keyed<AEntry>)
      modifies this`actions
      ensures actions == Inserted(old(actions), Row(service, entry))
    {
      var taken := KeyTaken(actions, entry.hash);
      if !taken {
        actions := actions + [Row(service, entry)];
      }
    }

    method AddFriend(service: string, entry: Keyed<FEntry>)
      modifies this`friends
      ensures friends == Inserted(old(friends), Row(service, entry))
    {
      var taken := KeyTaken(friends, entry.hash);
      if !taken {
        friends := friends + [Row(service, entry)];
      }
    }

    static method KeyTaken<E>(rows: seq<Row<E>>, hash: nat) returns (taken: bool)
      ensures taken <==> exists r :: r in rows && r.item.hash == hash
    {
      taken := false;
      for i := 0 to |rows|
        invariant taken <==> !RowKeyFree(rows[..i], hash)
      {
        if rows[i].item.hash == hash { taken := true; }
      }
      assert rows[..|rows|] == rows;
    }
  }
}
