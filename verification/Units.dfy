/**
 From the elements of a unit file to the entry that is stored in the journal.
 XML itself is not modelled: a unit file is a text, for its hash, and its list of elements.
 */
module Units {
  import opened Common
  import opened Ladder
  import opened Journal

  datatype Element =
    | ServiceElement(name: string, relaxtime: Option<int>, checkStart: Option<bool>)
    | PrivateDataElement(path: string)
    | PublicDataElement(path: string)
    | ActionElem(action: ActionElement)
    | FriendElem(friend: string, context: Option<string>, kind: FriendType, action': FriendAction,
                 argument: int, delay: int, hash: nat)

  /** The value of a unit entry while it is parsed. */
  datatype Entry = Entry(
    hash: Hash, name: Option<string>, privateData: Option<string>, publicData: Option<string>,
    rvector: int, checkStart: bool, timeout: nat,
    actions: seq<Keyed<AEntry>>, friends: seq<Keyed<FEntry>>)

  /** A new entry; the first action will start when the vector is 1. */
  function NewEntry(hash: Hash): Entry {
    Entry(hash, None, None, None, 1, false, 0, [], [])
  }

  function ParseElement(v: Entry, e: Element, host: string): Entry {
    match e
    case ServiceElement(name, relaxtime, checkStart) =>
      v.(name := Some(name),
         timeout := (match relaxtime case Some(t) => (if t > 0 then t else 5) case None => v.timeout),
         checkStart := (match checkStart case Some(c) => c case None => v.checkStart))
    case PrivateDataElement(path) => v.(privateData := Some(path))
    case PublicDataElement(path) => v.(publicData := Some(path))
    case ActionElem(a) =>
      if !Accepted(a) then v
      else v.(rvector := v.rvector + a.retry,
              actions := v.actions + [Keyed(a.hash, AEntry(a.kind, v.rvector, v.rvector + a.retry, a.reset))])
    case FriendElem(friend, context, kind, action, argument, delay, hash) =>
      var context' := match context case Some(c) => c case None => host;
      v.(friends := v.friends + [Keyed(hash, FEntry(friend, context', kind, action, argument, delay))])
  }

  function Parse(v: Entry, es: seq<Element>, host: string): Entry {
    if es == [] then v else ParseElement(Parse(v, es[..|es| - 1], host), es[|es| - 1], host)
  }

  function ActionElements(es: seq<Element>): seq<ActionElement> {
    if es == [] then []
    else
      var e := es[|es| - 1];
      ActionElements(es[..|es| - 1]) + (if e.ActionElem? then [e.action] else [])
  }

  lemma {:induction false} CompileAppend(start: int, es: seq<ActionElement>, a: ActionElement)
    ensures TotalRetry(es + [a]) == TotalRetry(es) + if Accepted(a) then a.retry else 0
    ensures var level := start + TotalRetry(es);
            Compile(start, es + [a]) == Compile(start, es)
              + if Accepted(a) then [Keyed(a.hash, AEntry(a.kind, level, level + a.retry, a.reset))] else []
    decreases |es|
  {
    if es == [] {
      assert es + [a] == [a] && [a][1..] == [];
    } else {
      assert (es + [a])[1..] == es[1..] + [a];
      CompileAppend(if Accepted(es[0]) then start + es[0].retry else start, es[1..], a);
    }
  }

  /** The parser builds the intervals of the ladder, and the running level is its length. */
  lemma {:induction false} ParseCompiles(hash: Hash, es: seq<Element>, host: string)
    ensures var v := Parse(NewEntry(hash), es, host);
            && v.hash == hash
            && v.actions == Compile(1, ActionElements(es))
            && v.rvector == 1 + TotalRetry(ActionElements(es))
  {
    if es != [] {
      var front, e := es[..|es| - 1], es[|es| - 1];
      ParseCompiles(hash, front, host);
      if e.ActionElem? {
        CompileAppend(1, ActionElements(front), e.action);
      } else {
        assert ActionElements(es) == ActionElements(front);
      }
    }
  }

  /** A unit can relax exactly if some service element gives a relax time. */
  lemma {:induction false} ParseRelaxtime(hash: Hash, es: seq<Element>, host: string)
    ensures Parse(NewEntry(hash), es, host).timeout > 0
       <==> exists i :: 0 <= i < |es| && es[i].ServiceElement? && es[i].relaxtime.Some?
  {
    if es != [] {
      var front := es[..|es| - 1];
      ParseRelaxtime(hash, front, host);
      assert forall i :: 0 <= i < |front| ==> es[i] == front[i];
    }
  }

  datatype Field = NameField | PrivateData | PublicData | Relaxtime | CheckStart

  predicate Gives(e: Element, f: Field) {
    match f
    case NameField => e.ServiceElement?
    case PrivateData => e.PrivateDataElement?
    case PublicData => e.PublicDataElement?
    case Relaxtime => e.ServiceElement? && e.relaxtime.Some?
    case CheckStart => e.ServiceElement? && e.checkStart.Some?
  }

  /** The last element that gives a field gives its value; a relax time below 1 counts as 5. */
  lemma {:induction false} LastGiven(hash: Hash, es: seq<Element>, host: string, i: nat, f: Field)
    requires i < |es| && Gives(es[i], f) && forall j :: i < j < |es| ==> !Gives(es[j], f)
    ensures var v, e := Parse(NewEntry(hash), es, host), es[i];
            match f
            case NameField => v.name == Some(e.name)
            case PrivateData => v.privateData == Some(e.path)
            case PublicData => v.publicData == Some(e.path)
            case Relaxtime => v.timeout == if e.relaxtime.value > 0 then e.relaxtime.value else 5
            case CheckStart => v.checkStart == e.checkStart.value
  {
    var front := es[..|es| - 1];
    if i < |front| { LastGiven(hash, front, host, i, f); }
  }

  /** What no element gives is missing: no name, no path, no relax time, no check. */
  lemma {:induction false} NeverGiven(hash: Hash, es: seq<Element>, host: string, f: Field)
    requires forall j :: 0 <= j < |es| ==> !Gives(es[j], f)
    ensures var v := Parse(NewEntry(hash), es, host);
            match f
            case NameField => v.name == None
            case PrivateData => v.privateData == None
            case PublicData => v.publicData == None
            case Relaxtime => v.timeout == 0
            case CheckStart => !v.checkStart
  {
    if es != [] { NeverGiven(hash, es[..|es| - 1], host, f); }
  }

  function FriendElements(es: seq<Element>): (fs: seq<Element>)
    ensures forall f :: f in fs ==> f.FriendElem? && f in es
  {
    if es == [] then []
    else FriendElements(es[..|es| - 1]) + (if es[|es| - 1].FriendElem? then [es[|es| - 1]] else [])
  }

  /** The friends of an entry are those of its elements, in order; a context that is not given is the host. */
  ghost predicate HasFriends(friends: seq<Keyed<FEntry>>, es: seq<Element>, host: string) {
    && |friends| == |FriendElements(es)|
    && forall k :: 0 <= k < |friends| ==>
         var f, row := FriendElements(es)[k], friends[k].value;
         && friends[k].hash == f.hash && row.friend == f.friend && row.kind == f.kind && row.action == f.action'
         && row.argument == f.argument && row.delay == f.delay
         && (f.context.Some? ==> row.context == f.context.value) && (f.context.None? ==> row.context == host)
  }

  lemma {:induction false} ParseFriends(hash: Hash, es: seq<Element>, host: string)
    ensures HasFriends(Parse(NewEntry(hash), es, host).friends, es, host)
  {
    if es != [] {
      ParseFriends(hash, es[..|es| - 1], host);
    }
  }

  /** The unit entry; its fields are set as the elements are met. */
  class JEntry {
    var hash: Hash
    var name: Option<string>
    var privateData: Option<string>
    var publicData: Option<string>
    var rvector: int
    var checkStart: bool
    var timeout: nat
    var actions: seq<Keyed<AEntry>>
    var friends: seq<Keyed<FEntry>>

    function View(): Entry
      reads this
    {
      Entry(hash, name, privateData, publicData, rvector, checkStart, timeout, actions, friends)
    }

    constructor (version: Hash)
      ensures View() == NewEntry(version)
    {
      hash := version;
      name, privateData, publicData := None, None, None;
      rvector, checkStart, timeout := 1, false, 0;
      actions, friends := [], [];
    }

    method StartElement(e: Element, host: string)
      modifies this
      ensures View() == ParseElement(old(View()), e, host)
    {
      match e
      case ServiceElement(n, relaxtime, check) =>
        match relaxtime {
          case Some(t) => timeout := if t > 0 then t else 5;
          case None =>
        }
        match check {
          case Some(c) => checkStart := c;
          case None =>
        }
        name := Some(n);
      case PrivateDataElement(path) => privateData := Some(path);
      case PublicDataElement(path) => publicData := Some(path);
      case ActionElem(a) =>
        if a.retry < 1 || a.kind == Invalid {
        } else {
          var g := rvector + a.retry;
          actions := actions + [Keyed(a.hash, AEntry(a.kind, rvector, g, a.reset))];
          rvector := g;
        }
      case FriendElem(friend, context, kind, action, argument, delay, h) =>
        var context' := host;
        match context {
          case Some(c) => context' := c;
          case None =>
        }
        friends := friends + [Keyed(h, FEntry(friend, context', kind, action, argument, delay))];
    }
  }

  method ParseUnit(hash: Hash, es: seq<Element>, host: string) returns (entry: JEntry)
    ensures fresh(entry) && entry.View() == Parse(NewEntry(hash), es, host)
  {
    entry := new JEntry(hash);
    for i := 0 to |es|
      invariant fresh(entry) && entry.View() == Parse(NewEntry(hash), es[..i], host)
    {
      assert es[..i + 1][..i] == es[..i];
      entry.StartElement(es[i], host);
    }
    assert es[..|es|] == es;
  }
}
