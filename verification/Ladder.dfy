/**
 The recovery ladder of one unit.

 A unit lists its actions in order.  The journal stores them as closed intervals of the recovery
 vector, where the upper end of one interval is the lower end of the next, and a crash selects an
 action by scanning every row and keeping the last one that matches.  `Expand` says what that is
 meant to be: the list of reactions to the first, second, third, ... crash.
 */
module Ladder {
  import opened Common

  /** The action types a unit can name (source/rmg-types.h).  Names that are not known are Invalid. */
  datatype ActionType =
    | Invalid
    | IgnoreService
    | ResetService
    | ResetPublicData
    | ResetPrivateData
    | DisableService
    | ContextRestart
    | PlatformRestart
    | FactoryReset

  /** The attributes of an <action> element, with the number drawn for it from the hash generator. */
  datatype ActionElement = ActionElement(kind: ActionType, retry: int, reset: bool, hash: nat)

  /** An action as a crash sees it. */
  datatype Action = Action(kind: ActionType, reset: bool)

  /** One stored interval: the action applies while tlmin <= rvector <= tlmax. */
  datatype AEntry = AEntry(kind: ActionType, tlmin: int, tlmax: int, reset: bool)

  predicate Accepted(e: ActionElement) {
    e.retry >= 1 && e.kind != Invalid
  }

  /** The intervals of a list of action elements; `start` is the running level of the entry. */
  function Compile(start: int, es: seq<ActionElement>): seq<Keyed<AEntry>>
    decreases |es|
  {
    if es == [] then []
    else if !Accepted(es[0]) then Compile(start, es[1..])
    else
      var next := start + es[0].retry;
      [Keyed(es[0].hash, AEntry(es[0].kind, start, next, es[0].reset))] + Compile(next, es[1..])
  }

  /** The reactions to crash 1, 2, 3, ...: each action `retry` times, the last one once more. */
  function Expand(es: seq<ActionElement>): seq<Action> {
    if es == [] then []
    else if !Accepted(es[0]) then Expand(es[1..])
    else
      var rest := Expand(es[1..]);
      var times := if rest == [] then es[0].retry + 1 else es[0].retry;
      seq(times, _ => Action(es[0].kind, es[0].reset)) + rest
  }

  /** The k-th crash (counting from 1) of a ladder that may be exhausted. */
  function Rung(ladder: seq<Action>, k: int): Option<Action> {
    if 1 <= k <= |ladder| then Some(ladder[k - 1]) else None
  }

  /** The selected action is followed by a relax timer, if the service has a relax time. */
  predicate Relaxes(a: Option<Action>) {
    && a.Some? && !a.value.reset
    && a.value.kind in {ResetService, ResetPublicData, ResetPrivateData, DisableService}
  }

  /** The selected action sends the vector back to 0. */
  predicate Zeroes(a: Option<Action>) {
    && a.Some?
    && (a.value.kind == IgnoreService || (a.value.reset && a.value.kind != FactoryReset && a.value.kind != Invalid))
  }

  /** The selected action leaves the vector, and starts no timer for it. */
  predicate Leaves(a: Option<Action>) {
    !Relaxes(a) && !Zeroes(a)
  }

  predicate Covers(row: AEntry, rvector: int) {
    row.tlmin <= rvector <= row.tlmax
  }

  /** A row callback that overwrites its answer: every matching row replaces `answer`. */
  function Scan(rows: seq<Keyed<AEntry>>, rvector: int, answer: Option<AEntry>): Option<AEntry> {
    if rows == [] then answer
    else Scan(rows[1..], rvector, if Covers(rows[0].value, rvector) then Some(rows[0].value) else answer)
  }

  function ActionOf(row: Option<AEntry>): Option<Action> {
    match row
    case None => None
    case Some(r) => Some(Action(r.kind, r.reset))
  }

  function TotalRetry(es: seq<ActionElement>): nat {
    if es == [] then 0
    else (if Accepted(es[0]) then es[0].retry else 0) + TotalRetry(es[1..])
  }

  lemma {:induction false} ExpandLength(es: seq<ActionElement>)
    ensures |Expand(es)| == if exists e :: e in es && Accepted(e) then TotalRetry(es) + 1 else 0
  {
    if es != [] {
      ExpandLength(es[1..]);
      assert forall e :: e in es <==> e == es[0] || e in es[1..];
      if Expand(es[1..]) == [] { NothingAccepted(es[1..]); }
    }
  }

  lemma NothingAccepted(es: seq<ActionElement>)
    requires forall e :: e in es ==> !Accepted(e)
    ensures TotalRetry(es) == 0
  {
  }

  /** The rungs of a list that starts with an accepted element. */
  lemma RungOf(es: seq<ActionElement>, k: int)
    requires es != [] && Accepted(es[0])
    ensures Rung(Expand(es), k)
         == if 1 <= k <= es[0].retry || (k == es[0].retry + 1 && Expand(es[1..]) == [])
            then Some(Action(es[0].kind, es[0].reset))
            else Rung(Expand(es[1..]), k - es[0].retry)
  {
  }

  /** A rung is an accepted element: no rung has an unknown action type. */
  lemma {:induction false} RungsAreAccepted(es: seq<ActionElement>, k: int)
    ensures Rung(Expand(es), k).Some? ==>
              exists e :: e in es && Accepted(e) && Rung(Expand(es), k) == Some(Action(e.kind, e.reset))
  {
    if es != [] {
      RungsAreAccepted(es[1..], if Accepted(es[0]) then k - es[0].retry else k);
      if Accepted(es[0]) { RungOf(es, k); }
      assert forall e :: e in es[1..] ==> e in es;
    }
  }

  /**
   Scanning the overlapping closed intervals is the ladder lookup, whatever answer the scan
   starts from: the scan changes the answer exactly on levels start .. start + |Expand(es)| - 1.
   */
  lemma {:induction false} ScanIsLookup(start: int, es: seq<ActionElement>, rvector: int, answer: Option<AEntry>)
    ensures ActionOf(Scan(Compile(start, es), rvector, answer))
         == match Rung(Expand(es), rvector - start + 1)
            case Some(a) => Some(a)
            case None => ActionOf(answer)
    decreases |es|
  {
    if es != [] {
      if !Accepted(es[0]) {
        ScanIsLookup(start, es[1..], rvector, answer);
      } else {
        var next := start + es[0].retry;
        var row := AEntry(es[0].kind, start, next, es[0].reset);
        var rest := Compile(next, es[1..]);
        assert Compile(start, es) == [Keyed(es[0].hash, row)] + rest;
        assert Compile(start, es)[1..] == rest;
        RungOf(es, rvector - start + 1);
        ScanIsLookup(next, es[1..], rvector, if Covers(row, rvector) then Some(row) else answer);
      }
    }
  }

  /**
   Selection refinement: over the rows of a unit, in unit order and starting at level 1, the
   type and the reset flag found by the scans are those of one rung of the ladder, rungs
   1 .. 1 + total retry are covered without a gap, and no other level selects anything.
   */
  lemma SelectionRefinesLadder(es: seq<ActionElement>, rvector: int)
    ensures ActionOf(Scan(Compile(1, es), rvector, None)) == Rung(Expand(es), rvector)
    ensures (exists e :: e in es && Accepted(e)) ==>
              (Scan(Compile(1, es), rvector, None).Some? <==> 1 <= rvector <= TotalRetry(es) + 1)
  {
    ScanIsLookup(1, es, rvector, None);
    ExpandLength(es);
  }

  /**
   The ladder visits the unit's actions in unit order: rung k belongs to element i where the
   retries before i are < k; the closing rung belongs to the last accepted element.
   */
  lemma {:induction false} RungsFollowUnitOrder(es: seq<ActionElement>, i: nat, k: nat)
    requires i < |es| && Accepted(es[i])
    requires TotalRetry(es[..i]) < k <= TotalRetry(es[..i]) + es[i].retry
          || (k == TotalRetry(es) + 1 && forall j :: i < j < |es| ==> !Accepted(es[j]))
    ensures Rung(Expand(es), k) == Some(Action(es[i].kind, es[i].reset))
  {
    if i == 0 {
      RungOf(es, k);
      if forall j :: 0 < j < |es| ==> !Accepted(es[j]) {
        assert forall e :: e in es[1..] ==> exists j :: 0 < j < |es| && es[j] == e;
        NothingAccepted(es[1..]);
        ExpandLength(es[1..]);
      }
    } else {
      var rest := es[1..];
      assert es[..i][1..] == rest[..i - 1] && rest[i - 1] == es[i];
      assert forall j :: i - 1 < j < |rest| ==> rest[j] == es[j + 1];
      RungsFollowUnitOrder(rest, i - 1, if Accepted(es[0]) then k - es[0].retry else k);
      if Accepted(es[0]) {
        RungOf(es, k);
        ExpandLength(rest);
        assert es[i] in rest;
      }
    }
  }

  /** An accepted element is worth exactly its retries, wherever it stands; the last one is worth one more. */
  lemma {:induction false} RetriesCount(p: seq<ActionElement>, e: ActionElement, s: seq<ActionElement>)
    ensures |Expand(p + [e] + s)|
         == |Expand(p + s)| + if !Accepted(e) then 0 else if Expand(p + s) == [] then e.retry + 1 else e.retry
  {
    if p == [] {
      assert p + [e] + s == [e] + s && ([e] + s)[1..] == s && p + s == s;
    } else {
      assert (p + [e] + s)[1..] == p[1..] + [e] + s && (p + s)[1..] == p[1..] + s;
      RetriesCount(p[1..], e, s);
    }
  }
}
