/**
 Reconciling an order's capture or authorization attempts with PayPal's order
 (_reconcile_attempts in paypal_checkout/orders.py): the one unconfirmed attempt is matched
 to the one unknown PayPal object, and anything else is left for a person.
 */
module AttemptReconcile {
  import opened Options

  /** What the matching sees of a capture or authorization row. */
  datatype Attempt = Attempt(order: nat, paypalId: Option<string>, initiated: bool)

  /** PayPal's view of one capture or authorization; one without an id is not listed. */
  datatype Item = Item(id: string, status: Option<string>, final: Option<bool>, expires: Option<string>)

  /** Nothing to match, more than one candidate on a side, or the attempt and its object. */
  datatype Match = Nothing | Ambiguous | Bind(pk: nat, item: Item)

  predicate Known(rows: map<nat, Attempt>, id: string) {
    exists pk :: pk in rows && rows[pk].paypalId == Some(id)
  }

  function Unmatched(rows: map<nat, Attempt>, remote: seq<Item>): seq<Item> {
    if remote == [] then []
    else
      var last := remote[|remote| - 1];
      Unmatched(rows, remote[..|remote| - 1]) + if Known(rows, last.id) then [] else [last]
  }

  /** The order's unconfirmed attempts. */
  function Local(rows: map<nat, Attempt>, order: nat): set<nat> {
    set pk | pk in rows && rows[pk].order == order && rows[pk].initiated
  }

  ghost function MatchOf(rows: map<nat, Attempt>, order: nat, remote: seq<Item>): Match {
    var local, unmatched := Local(rows, order), Unmatched(rows, remote);
    if local == {} || unmatched == [] then Nothing
    else if |local| > 1 || |unmatched| > 1 then Ambiguous
    else
      var pk :| pk in local;
      Bind(pk, unmatched[0])
  }

  function Bound(a: Attempt, item: Item): Attempt {
    Attempt(a.order, Some(item.id), a.initiated && item.status.None?)
  }

  /** The rows a match leaves. */
  function AfterMatch(rows: map<nat, Attempt>, m: Match): map<nat, Attempt> {
    if m.Bind? && m.pk in rows then rows[m.pk := Bound(rows[m.pk], m.item)] else rows
  }

  // ---------- who is matched ----------

  lemma {:induction false} UnmatchedMembers(rows: map<nat, Attempt>, remote: seq<Item>)
    ensures forall item :: item in Unmatched(rows, remote) <==> item in remote && !Known(rows, item.id)
  {
    if remote != [] {
      UnmatchedMembers(rows, remote[..|remote| - 1]);
      assert remote == remote[..|remote| - 1] + [remote[|remote| - 1]];
    }
  }

  lemma OneMember(s: set<nat>, pk: nat)
    requires pk in s && |s| == 1
    ensures s == {pk}
  {
    assert |s - {pk}| == 0;
  }

  lemma MatchOfSets(rows: map<nat, Attempt>, order: nat, remote: seq<Item>)
    ensures forall pk: nat, item ::
      (MatchOf(rows, order, remote) == Bind(pk, item) <==>
        Local(rows, order) == {pk} && Unmatched(rows, remote) == [item])
    ensures MatchOf(rows, order, remote).Ambiguous? <==>
      Local(rows, order) != {} && Unmatched(rows, remote) != [] && |Local(rows, order)| + |Unmatched(rows, remote)| > 2
  {
    var local, unmatched := Local(rows, order), Unmatched(rows, remote);
    hide Local, Unmatched;
    forall pk | pk in local && |local| == 1 ensures local == {pk} {
      OneMember(local, pk);
    }
  }

  /** No row has the id of this object. */
  predicate Unknown(rows: map<nat, Attempt>, remote: seq<Item>, k: nat)
    requires k < |remote|
  {
    forall pk :: pk in rows ==> rows[pk].paypalId != Some(remote[k].id)
  }

  lemma {:induction false} UnmatchedCounts(rows: map<nat, Attempt>, remote: seq<Item>)
    ensures Unmatched(rows, remote) == [] <==> forall k :: 0 <= k < |remote| ==> !Unknown(rows, remote, k)
    ensures |Unmatched(rows, remote)| == 1 ==> exists k ::
      && 0 <= k < |remote| && Unknown(rows, remote, k) && Unmatched(rows, remote)[0] == remote[k]
      && forall j :: 0 <= j < |remote| && j != k ==> !Unknown(rows, remote, j)
    ensures |Unmatched(rows, remote)| > 1 ==> exists j, k ::
      0 <= j < k < |remote| && Unknown(rows, remote, j) && Unknown(rows, remote, k)
  {
    if remote == [] {
      return;
    }
    var n := |remote| - 1;
    var before := remote[..n];
    UnmatchedCounts(rows, before);
    assert forall k :: 0 <= k < n ==> (Unknown(rows, before, k) <==> Unknown(rows, remote, k));
    assert Known(rows, remote[n].id) <==> !Unknown(rows, remote, n);
    hide Known, Unknown;
    if Unmatched(rows, before) == [] {
      assert forall k :: 0 <= k < n ==> !Unknown(rows, before, k);
    } else {
      if j :| 0 <= j < n && Unknown(rows, before, j) {
        assert Unknown(rows, remote, j);
      }
    }
  }

  /**
   An attempt is matched exactly when it is the order's only unconfirmed one and the object is the only one that no
   row has; when both sides have candidates and one has several, the match is ambiguous.
   */
  lemma MatchIff(rows: map<nat, Attempt>, order: nat, remote: seq<Item>, pk: nat, k: nat)
    requires k < |remote| && pk in rows && rows[pk].order == order && rows[pk].initiated && Unknown(rows, remote, k)
    ensures MatchOf(rows, order, remote) ==
      if (forall q :: q in rows && rows[q].order == order && rows[q].initiated ==> q == pk)
         && (forall j :: 0 <= j < |remote| && Unknown(rows, remote, j) ==> j == k)
      then Bind(pk, remote[k]) else Ambiguous
  {
    var local, unmatched := Local(rows, order), Unmatched(rows, remote);
    assert pk in local;
    UnmatchedCounts(rows, remote);
    MatchOfSets(rows, order, remote);
    hide Unmatched, Unknown, MatchOf;
    if forall q :: q in rows && rows[q].order == order && rows[q].initiated ==> q == pk {
      assert local == {pk};
    } else {
      var q :| q in rows && rows[q].order == order && rows[q].initiated && q != pk;
      assert {pk, q} <= local && |{pk, q}| == 2;
      SubsetSize({pk, q}, local);
    }
  }

  lemma {:induction false} SubsetSize(a: set<nat>, b: set<nat>)
    requires a <= b
    ensures |a| <= |b|
    decreases |a|
  {
    if x :| x in a {
      SubsetSize(a - {x}, b - {x});
    }
  }

  /** With no candidate on one side there is nothing to match. */
  lemma NothingToMatch(rows: map<nat, Attempt>, order: nat, remote: seq<Item>)
    requires (forall q :: q in rows ==> rows[q].order != order || !rows[q].initiated)
          || (forall k :: 0 <= k < |remote| ==> !Unknown(rows, remote, k))
    ensures MatchOf(rows, order, remote) == Nothing
  {
    UnmatchedCounts(rows, remote);
    if forall q :: q in rows ==> rows[q].order != order || !rows[q].initiated {
      assert Local(rows, order) == {};
    }
    hide Unmatched, Unknown;
  }

  // ---------- a second pass ----------

  ghost predicate DistinctIds(remote: seq<Item>) {
    forall i, j :: 0 <= i < j < |remote| ==> remote[i].id != remote[j].id
  }

  /** The unique constraint on paypal_id. */
  ghost predicate UniqueIds(rows: map<nat, Attempt>) {
    forall p, q :: p in rows && q in rows && p != q && rows[p].paypalId.Some? ==> rows[p].paypalId != rows[q].paypalId
  }

  /** The same rows under the same ids, some attempts meanwhile out of INITIATED. */
  ghost predicate Settles(before: map<nat, Attempt>, after: map<nat, Attempt>) {
    && after.Keys == before.Keys
    && forall pk :: pk in before ==>
         && after[pk].order == before[pk].order && after[pk].paypalId == before[pk].paypalId
         && (after[pk].initiated ==> before[pk].initiated)
  }

  /**
   When the next pass over the same objects binds an attempt, `settled` being those that left INITIATED
   in between.  After a bind: the object gave no status, the attempt is still unconfirmed, and the id it
   had before is listed, so it swaps back.  After an ambiguous pass: just one candidate is left on each side.
   */
  ghost predicate Rematches(rows: map<nat, Attempt>, order: nat, remote: seq<Item>, settled: set<nat>) {
    match MatchOf(rows, order, remote)
    case Nothing => false
    case Ambiguous => |Unmatched(rows, remote)| == 1 && |Local(rows, order) - settled| == 1
    case Bind(pk, item) =>
      && item.status.None? && pk !in settled && pk in rows
      && exists k :: 0 <= k < |remote| && rows[pk].paypalId == Some(remote[k].id)
  }

  lemma {:induction false} UnmatchedOnly(rows: map<nat, Attempt>, remote: seq<Item>, k: nat)
    requires DistinctIds(remote) && k < |remote|
    requires forall j :: 0 <= j < |remote| ==> (Known(rows, remote[j].id) <==> j != k)
    ensures Unmatched(rows, remote) == [remote[k]]
  {
    var before := remote[..|remote| - 1];
    if k == |remote| - 1 {
      AllKnown(rows, before);
    } else {
      UnmatchedOnly(rows, before, k);
    }
  }

  lemma {:induction false} AllKnown(rows: map<nat, Attempt>, remote: seq<Item>)
    requires forall j :: 0 <= j < |remote| ==> Known(rows, remote[j].id)
    ensures Unmatched(rows, remote) == []
  {
    if remote != [] {
      AllKnown(rows, remote[..|remote| - 1]);
    }
  }

  /** Which objects are unknown depends on the rows' ids only. */
  lemma {:induction false} UnmatchedSettles(before: map<nat, Attempt>, after: map<nat, Attempt>, remote: seq<Item>)
    requires Settles(before, after)
    ensures Unmatched(after, remote) == Unmatched(before, remote)
  {
    if remote != [] {
      UnmatchedSettles(before, after, remote[..|remote| - 1]);
      KnownSettles(before, after, remote[|remote| - 1].id);
    }
  }

  lemma KnownSettles(before: map<nat, Attempt>, after: map<nat, Attempt>, id: string)
    requires Settles(before, after)
    ensures Known(after, id) <==> Known(before, id)
  {
    if pk :| pk in before && before[pk].paypalId == Some(id) {
      assert after[pk].paypalId == Some(id);
    }
    if pk :| pk in after && after[pk].paypalId == Some(id) {
      assert before[pk].paypalId == Some(id);
    }
  }

  /** After a bind an id is known exactly when it was known and not overwritten, or is the bound one. */
  lemma KnownAfterBind(rows: map<nat, Attempt>, l: nat, item: Item, id: string)
    requires UniqueIds(rows) && l in rows && !Known(rows, item.id)
    ensures Known(rows[l := Bound(rows[l], item)], id)
       <==> id == item.id || (Known(rows, id) && rows[l].paypalId != Some(id))
  {
    var after := rows[l := Bound(rows[l], item)];
    if id == item.id {
      assert after[l].paypalId == Some(id);
    } else if Known(rows, id) && rows[l].paypalId != Some(id) {
      var pk :| pk in rows && rows[pk].paypalId == Some(id);
      assert after[pk].paypalId == Some(id);
    } else if pk :| pk in after && after[pk].paypalId == Some(id) {
      assert false;
    }
  }

  lemma BoundFacts(rows: map<nat, Attempt>, order: nat, remote: seq<Item>)
    requires MatchOf(rows, order, remote).Bind?
    ensures var m := MatchOf(rows, order, remote);
      && Local(rows, order) == {m.pk} && Unmatched(rows, remote) == [m.item]
      && m.pk in rows && rows[m.pk].initiated && rows[m.pk].order == order
      && m.item in remote && !Known(rows, m.item.id)
      && forall other :: other in remote && !Known(rows, other.id) ==> other == m.item
  {
    var m := MatchOf(rows, order, remote);
    MatchOfSets(rows, order, remote);
    UnmatchedMembers(rows, remote);
    assert m.pk in Local(rows, order);
    hide Unmatched, Known;
    assert m.item in Unmatched(rows, remote);
  }

  /** What is unknown after a bind: the attempt's old id, if it is listed. */
  lemma UnmatchedAfterBind(rows: map<nat, Attempt>, order: nat, remote: seq<Item>)
    requires UniqueIds(rows) && DistinctIds(remote) && MatchOf(rows, order, remote).Bind?
    ensures var m := MatchOf(rows, order, remote);
      var unmatched := Unmatched(AfterMatch(rows, m), remote);
      && (unmatched == [] || |unmatched| == 1)
      && (|unmatched| == 1 <==> exists k :: 0 <= k < |remote| && rows[m.pk].paypalId == Some(remote[k].id))
  {
    var m := MatchOf(rows, order, remote);
    BoundFacts(rows, order, remote);
    var after := AfterMatch(rows, m);
    hide MatchOf, Unmatched, Local;
    forall j | 0 <= j < |remote| ensures Known(after, remote[j].id) <==> rows[m.pk].paypalId != Some(remote[j].id) {
      KnownAfterBind(rows, m.pk, m.item, remote[j].id);
      assert remote[j] in remote;
      assert rows[m.pk].paypalId != Some(m.item.id);
    }
    if k :| 0 <= k < |remote| && rows[m.pk].paypalId == Some(remote[k].id) {
      UnmatchedOnly(after, remote, k);
    } else {
      AllKnown(after, remote);
    }
  }

  /** The next pass over the same objects binds an attempt exactly when the first pass leaves it
      something to rematch. */
  lemma RematchIff(rows: map<nat, Attempt>, after: map<nat, Attempt>, order: nat, remote: seq<Item>)
    requires UniqueIds(rows) && DistinctIds(remote)
    requires Settles(AfterMatch(rows, MatchOf(rows, order, remote)), after)
    ensures var m := MatchOf(rows, order, remote);
      var settled := Local(AfterMatch(rows, m), order) - Local(after, order);
      MatchOf(after, order, remote).Bind? <==> Rematches(rows, order, remote, settled)
  {
    var m := MatchOf(rows, order, remote);
    var mid := AfterMatch(rows, m);
    var settled := Local(mid, order) - Local(after, order);
    assert Local(after, order) == Local(mid, order) - settled;
    UnmatchedSettles(mid, after, remote);
    if m.Bind? {
      BoundFacts(rows, order, remote);
      UnmatchedAfterBind(rows, order, remote);
      LocalAfterBind(rows, order, m.pk, m.item);
    }
    hide Unmatched, Local, Known, UniqueIds, DistinctIds, Settles;
  }

  /** Whether the bound attempt is still unconfirmed. */
  lemma LocalAfterBind(rows: map<nat, Attempt>, order: nat, l: nat, item: Item)
    requires Local(rows, order) == {l} && l in rows && rows[l].initiated && rows[l].order == order
    ensures Local(rows[l := Bound(rows[l], item)], order) == if item.status.None? then {l} else {}
  {
    var after := rows[l := Bound(rows[l], item)];
    forall pk | pk in after && after[pk].order == order && after[pk].initiated ensures pk == l && item.status.None? {
      assert pk != l ==> pk in Local(rows, order);
    }
  }

  /** An attempt PayPal answered with id A and no known status, then listed with B: two passes swap A and B for ever. */
  lemma SwapHappens()
    ensures var rows, remote := map[0 := Attempt(1, Some("A"), true)],
      [Item("A", None, None, None), Item("B", None, None, None)];
      && UniqueIds(rows) && DistinctIds(remote)
      && MatchOf(rows, 1, remote) == Bind(0, remote[1])
      && MatchOf(AfterMatch(rows, Bind(0, remote[1])), 1, remote) == Bind(0, remote[0])
  {
    var rows := map[0 := Attempt(1, Some("A"), true)];
    var remote := [Item("A", None, None, None), Item("B", None, None, None)];
    var after := AfterMatch(rows, Bind(0, remote[1]));
    assert "A"[0] != "B"[0];
    assert rows[0].paypalId == Some("A") && after[0].paypalId == Some("B");
    UnmatchedOnly(rows, remote, 1);
    UnmatchedOnly(after, remote, 0);
    assert Local(rows, 1) == {0} && Local(after, 1) == {0};
    hide Local, Unmatched, MatchOf, Known;
    MatchOfSets(rows, 1, remote);
    MatchOfSets(after, 1, remote);
  }

  // ---------- the method ----------

  method FindMatch(rows: map<nat, Attempt>, order: nat, remote: seq<Item>) returns (m: Match)
    ensures m == MatchOf(rows, order, remote)
  {
    var unmatched := [];
    for i := 0 to |remote|
      invariant unmatched == Unmatched(rows, remote[..i])
    {
      assert remote[..i + 1][..i] == remote[..i];
      if !Known(rows, remote[i].id) {
        unmatched := unmatched + [remote[i]];
      }
    }
    assert remote[..|remote|] == remote;
    var local := Local(rows, order);
    if local == {} || unmatched == [] {
      return Nothing;
    }
    if |local| > 1 || |unmatched| > 1 {
      return Ambiguous;
    }
    var pk :| pk in local;
    OneMember(local, pk);
    return Bind(pk, unmatched[0]);
  }
}
