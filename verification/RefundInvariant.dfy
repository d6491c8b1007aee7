/**
 Every step of the refund protocol keeps the invariant, so every run does.

 The local guard of start_refund and PayPal's answers are tied together by one sum: what
 PayPal owes or may still owe under each issued key (`Liabilities`) stays within the
 captured amount, because every such key sits on a row of its own that reserves it.
 */
module RefundInvariant {
  import opened Options
  import opened RefundRows
  import opened RefundProtocol
  import RequestIds

  // ---------- the budget ----------

  lemma {:induction false} LiabilitiesShrink(before: PayPal, after: PayPal, issued: map<string, Issue>,
                                             keys: seq<string>, capture: nat)
    requires forall k :: k in issued ==> Liability(after, issued, k) <= Liability(before, issued, k)
    ensures Liabilities(after, issued, keys, capture) <= Liabilities(before, issued, keys, capture)
  {
    if keys != [] {
      LiabilitiesShrink(before, after, issued, keys[..|keys| - 1], capture);
    }
  }

  lemma {:induction false} LiabilitiesSame(paypal: PayPal, issued: map<string, Issue>, more: map<string, Issue>,
                                           keys: seq<string>, capture: nat)
    requires forall k :: k in keys ==> k in issued && k in more && issued[k] == more[k]
    ensures Liabilities(paypal, issued, keys, capture) == Liabilities(paypal, more, keys, capture)
  {
    if keys != [] {
      assert keys[|keys| - 1] in keys;
      LiabilitiesSame(paypal, issued, more, keys[..|keys| - 1], capture);
    }
  }

  /** What PayPal holds under a key is reserved by some row that carries the key. */
  ghost predicate Backed(rows: map<nat, Refund>, capture: nat, bound: nat, key: string, owed: nat) {
    exists pk: nat :: Carries(rows, pk, key) && pk < bound && Weight(rows, capture, pk) >= owed
  }

  /** Distinct keys sit on distinct rows, so together they owe no more than the rows reserve. */
  lemma {:induction false} LiabilitiesReserved(rows: map<nat, Refund>, paypal: PayPal, issued: map<string, Issue>,
                                               keys: seq<string>, capture: nat, bound: nat)
    requires forall i, j :: 0 <= i < j < |keys| ==> keys[i] != keys[j]
    requires forall k ::
      k in keys && k in issued && issued[k].capture == capture && Liability(paypal, issued, k) > 0 ==>
      Backed(rows, capture, bound, k, Liability(paypal, issued, k))
    ensures Liabilities(paypal, issued, keys, capture) <= ReservedBelow(rows, capture, bound)
    decreases |keys|
  {
    if keys != [] {
      var k, rest := keys[|keys| - 1], keys[..|keys| - 1];
      if k in issued && issued[k].capture == capture && Liability(paypal, issued, k) > 0 {
        var owed := Liability(paypal, issued, k);
        assert Backed(rows, capture, bound, k, owed);
        var pk: nat :| Carries(rows, pk, k) && pk < bound && Weight(rows, capture, pk) >= owed;
        var others := rows - {pk};
        forall l | l in rest && l in issued && issued[l].capture == capture && Liability(paypal, issued, l) > 0
          ensures Backed(others, capture, bound, l, Liability(paypal, issued, l))
        {
          assert Backed(rows, capture, bound, l, Liability(paypal, issued, l));
          var q: nat :| Carries(rows, q, l) && q < bound && Weight(rows, capture, q) >= Liability(paypal, issued, l);
          assert Carries(others, q, l);
        }
        LiabilitiesReserved(others, paypal, issued, rest, capture, bound);
        ReservedDiffersAt(rows, others, capture, pk, bound);
      } else {
        LiabilitiesReserved(rows, paypal, issued, rest, capture, bound);
      }
    }
  }

  /** A key that PayPal has not finally refused or cancelled is on a row that reserves at least its liability. */
  lemma KeyBacked(w: World, key: string)
    requires Inv(w)
    requires key in w.issued && Liability(w.paypal, w.issued, key) > 0
    ensures Backed(w.db.rows, w.issued[key].capture, w.db.nextPk, key, Liability(w.paypal, w.issued, key))
  {
    hide HandlesOk, NewsOk, BudgetOk;
    var pk :| Carries(w.db.rows, pk, key);
    assert RowOk(w.paypal, w.issued, pk, w.db.rows[pk]);
    assert Weight(w.db.rows, w.issued[key].capture, pk) >= Liability(w.paypal, w.issued, key);
  }

  lemma CaptureCovered(w: World, capture: nat)
    requires Inv(w)
    ensures Liabilities(w.paypal, w.issued, w.keys, capture) <= Reserved(w.db, capture)
  {
    forall k | k in w.keys && k in w.issued && w.issued[k].capture == capture && Liability(w.paypal, w.issued, k) > 0
      ensures Backed(w.db.rows, capture, w.db.nextPk, k, Liability(w.paypal, w.issued, k))
    {
      KeyBacked(w, k);
    }
    LiabilitiesReserved(w.db.rows, w.paypal, w.issued, w.keys, capture, w.db.nextPk);
  }

  // ---------- PayPal's steps ----------

  /** Answers are given once, records are never lost, and a final status stays final. */
  ghost predicate Evolves(before: PayPal, after: PayPal) {
    && (forall k :: k in before.answers ==> k in after.answers && after.answers[k] == before.answers[k])
    && (forall id :: id in before.refunds ==> id in after.refunds && Outlives(before.refunds[id], after.refunds[id]))
  }

  predicate Outlives(before: Remote, after: Remote) {
    after.capture == before.capture && after.amount == before.amount && (before.status.Dead() ==> after.status.Dead())
  }

  lemma LiveUnderShrinks(before: PayPal, after: PayPal, issued: map<string, Issue>, key: string)
    requires Evolves(before, after) && key in before.answers
    requires before.answers[key].Made? ==> AnswerOk(before, issued, key, before.answers[key].id)
    ensures LiveUnder(after, key) <= LiveUnder(before, key)
  {
  }

  lemma RowOutlives(before: PayPal, after: PayPal, issued: map<string, Issue>, pk: nat, row: Refund)
    requires Evolves(before, after) && RowOk(before, issued, pk, row)
    requires forall k :: k in before.answers && before.answers[k].Made? ==>
      AnswerOk(before, issued, k, before.answers[k].id)
    ensures RowOk(after, issued, pk, row)
  {
    if row.key.Some? && row.key.value in before.answers {
      LiveUnderShrinks(before, after, issued, row.key.value);
    }
  }

  lemma NewsOutlives(before: PayPal, after: PayPal, posted: set<Handle>, messages: set<Message>, notices: set<Notice>)
    requires Evolves(before, after) && NewsOk(before, posted, messages, notices)
    ensures NewsOk(after, posted, messages, notices)
  {
    forall m | m in messages ensures MessageOk(after, posted, m) {
      assert MessageOk(before, posted, m);
    }
    forall n | n in notices ensures NoticeOk(after, n) {
      assert NoticeOk(before, n);
    }
  }

  /** PayPal moving on breaks nothing local, as long as no key comes to owe more. */
  lemma PayPalMovesOn(w: World, after: PayPal)
    requires Inv(w) && Evolves(w.paypal, after) && PayPalOk(w.db.captures, after, w.issued)
    requires forall k :: k in w.issued && k !in w.paypal.answers ==>
      Liability(after, w.issued, k) <= Liability(w.paypal, w.issued, k)
    ensures Inv(w.(paypal := after))
  {
    forall pk | pk in w.db.rows ensures RowOk(after, w.issued, pk, w.db.rows[pk]) {
      RowOutlives(w.paypal, after, w.issued, pk, w.db.rows[pk]);
    }
    NewsOutlives(w.paypal, after, w.posted, w.messages, w.notices);
    forall k | k in w.issued ensures Liability(after, w.issued, k) <= Liability(w.paypal, w.issued, k) {
      if k in w.paypal.answers {
        LiveUnderShrinks(w.paypal, after, w.issued, k);
      }
    }
    forall c | c in w.db.captures ensures Liabilities(after, w.issued, w.keys, c) <= w.db.captures[c].amount {
      LiabilitiesShrink(w.paypal, after, w.issued, w.keys, c);
    }
  }

  lemma CreateIsConsistent(captures: map<nat, Capture>, paypal: PayPal, issued: map<string, Issue>,
                           k: string, id: string, remote: Remote)
    requires PayPalOk(captures, paypal, issued)
    requires k in issued && k !in paypal.answers && id !in paypal.refunds
    requires remote.capture in captures && remote.capture == issued[k].capture
    requires remote.amount <= issued[k].amount <= captures[remote.capture].amount && !remote.status.OutcomeUnknown()
    ensures PayPalOk(captures, PayPal(paypal.answers[k := Made(id)], paypal.refunds[id := remote]), issued)
  {
    var after := PayPal(paypal.answers[k := Made(id)], paypal.refunds[id := remote]);
    forall l | l in after.answers && after.answers[l].Made? ensures AnswerOk(after, issued, l, after.answers[l].id) {
      assert l != k ==> AnswerOk(paypal, issued, l, paypal.answers[l].id);
    }
    forall l, m | l in after.answers && m in after.answers && l != m && after.answers[l].Made?
      ensures after.answers[l] != after.answers[m]
    {
      assert l != k ==> AnswerOk(paypal, issued, l, paypal.answers[l].id);
      assert m != k && after.answers[m].Made? ==> AnswerOk(paypal, issued, m, paypal.answers[m].id);
    }
  }

  /** A posted request asks for exactly what its key was issued for. */
  lemma PostedIsIssued(w: World, h: Handle)
    requires Inv(w) && h in w.posted
    ensures h.key.Some? && h.body.Some? && h.capture in w.db.captures && h.key.value in w.issued
    ensures var issue := w.issued[h.key.value];
      && issue.capture == h.capture && issue.body == h.body
      && issue.amount == Asked(w.db.captures, h.capture, h.body.value) <= w.db.captures[h.capture].amount
  {
    assert HandleOk(w.db, w.issued, h);
    assert IssueOk(w.db.captures, w.db.nextPk, h.key.value, w.issued[h.key.value]);
  }

  lemma AnswersRecorded(w: World)
    requires Inv(w)
    ensures forall k :: k in w.paypal.answers && w.paypal.answers[k].Made? ==>
      AnswerOk(w.paypal, w.issued, k, w.paypal.answers[k].id)
  {
  }

  lemma CreateKeeps(w: World, h: Handle, id: string, made: nat, status: Status)
    requires Inv(w) && Enabled(w, Create(h, id, made, status))
    ensures Inv(Next(w, Create(h, id, made, status)))
  {
    hide TableOk, KeysOk, Carried, RowsOk, PayPalOk, HandlesOk, NewsOk, BudgetOk;
    PostedIsIssued(w, h);
    var after := PayPal(w.paypal.answers[h.key.value := Made(id)],
      w.paypal.refunds[id := Remote(h.capture, made, status)]);
    CreateIsConsistent(w.db.captures, w.paypal, w.issued, h.key.value, id, Remote(h.capture, made, status));
    assert Evolves(w.paypal, after);
    assert forall k :: k != h.key.value ==> Liability(after, w.issued, k) == Liability(w.paypal, w.issued, k) by {
      AnswersRecorded(w);
    }
    PayPalMovesOn(w, after);
  }

  lemma RefuseIsConsistent(captures: map<nat, Capture>, paypal: PayPal, issued: map<string, Issue>, k: string)
    requires PayPalOk(captures, paypal, issued) && k in issued && k !in paypal.answers
    ensures PayPalOk(captures, paypal.(answers := paypal.answers[k := Refused]), issued)
  {
    var after := paypal.(answers := paypal.answers[k := Refused]);
    forall l | l in after.answers && after.answers[l].Made? ensures AnswerOk(after, issued, l, after.answers[l].id) {
      assert AnswerOk(paypal, issued, l, paypal.answers[l].id);
    }
  }

  lemma RefuseKeeps(w: World, h: Handle)
    requires Inv(w) && Enabled(w, Refuse(h))
    ensures Inv(Next(w, Refuse(h)))
  {
    hide TableOk, KeysOk, Carried, RowsOk, PayPalOk, HandlesOk, NewsOk, BudgetOk;
    PostedIsIssued(w, h);
    var after := w.paypal.(answers := w.paypal.answers[h.key.value := Refused]);
    RefuseIsConsistent(w.db.captures, w.paypal, w.issued, h.key.value);
    assert Evolves(w.paypal, after);
    PayPalMovesOn(w, after);
  }

  lemma ProgressKeeps(w: World, id: string, status: Status)
    requires Inv(w) && Enabled(w, Progress(id, status))
    ensures Inv(Next(w, Progress(id, status)))
  {
    hide TableOk, KeysOk, Carried, RowsOk, HandlesOk, NewsOk, BudgetOk;
    var after := Next(w, Progress(id, status)).paypal;
    forall l | l in after.answers && after.answers[l].Made? ensures AnswerOk(after, w.issued, l, after.answers[l].id) {
      assert AnswerOk(w.paypal, w.issued, l, w.paypal.answers[l].id);
    }
    PayPalMovesOn(w, after);
  }

  lemma DashboardKeeps(w: World, id: string, r: Remote)
    requires Inv(w) && Enabled(w, Dashboard(id, r))
    ensures Inv(Next(w, Dashboard(id, r)))
  {
    hide TableOk, KeysOk, Carried, RowsOk, HandlesOk, NewsOk, BudgetOk;
    var after := Next(w, Dashboard(id, r)).paypal;
    forall l | l in after.answers && after.answers[l].Made? ensures AnswerOk(after, w.issued, l, after.answers[l].id) {
      assert AnswerOk(w.paypal, w.issued, l, w.paypal.answers[l].id);
    }
    PayPalMovesOn(w, after);
  }

  lemma MessageKeeps(paypal: PayPal, posted: set<Handle>, messages: set<Message>, notices: set<Notice>, m: Message)
    requires NewsOk(paypal, posted, messages, notices) && MessageOk(paypal, posted, m)
    ensures NewsOk(paypal, posted, messages + {m}, notices)
  {
  }

  lemma NoticeKeeps(paypal: PayPal, posted: set<Handle>, messages: set<Message>, notices: set<Notice>, n: Notice)
    requires NewsOk(paypal, posted, messages, notices) && NoticeOk(paypal, n)
    ensures NewsOk(paypal, posted, messages, notices + {n})
  {
  }

  lemma NewsKeeps(w: World, step: Step)
    requires Inv(w) && Enabled(w, step)
    requires step.Respond? || step.RespondRefusal? || step.Notify?
    ensures Inv(Next(w, step))
  {
    match step {
      case Respond(h, p) => MessageKeeps(w.paypal, w.posted, w.messages, w.notices, Reply(h, p));
      case RespondRefusal(h) => MessageKeeps(w.paypal, w.posted, w.messages, w.notices, Refusal(h));
      case Notify(n) => NoticeKeeps(w.paypal, w.posted, w.messages, w.notices, n);
    }
  }

  // ---------- table steps ----------

  /** Replacing the table keeps the invariant when the new table answers for itself. */
  lemma TableReplaced(w: World, db: Db)
    requires Inv(w)
    requires db.captures == w.db.captures && db.nextPk >= w.db.nextPk
    requires TableOk(db) && Carried(db.rows, w.issued) && RowsOk(db.rows, w.paypal, w.issued)
    requires forall h :: h in w.handles ==> HandleOk(db, w.issued, h)
    ensures Inv(w.(db := db))
  {
    hide TableOk, Carried, RowsOk, PayPalOk, NewsOk, BudgetOk;
  }

  lemma RowSavedTableOk(db: Db, pk: nat, row: Refund)
    requires TableOk(db) && pk in db.rows && row.capture in db.captures && Accepts(db.rows, pk, row)
    ensures TableOk(db.(rows := db.rows[pk := row]))
  {}

  /** Saving one row that keeps its key and capture. */
  lemma RowSaved(w: World, pk: nat, row: Refund)
    requires Inv(w) && pk in w.db.rows
    requires row.key == w.db.rows[pk].key && row.capture == w.db.rows[pk].capture
    requires w.db.rows[pk].paypalId.Some? ==> row.paypalId.Some?
    requires RowOk(w.paypal, w.issued, pk, row) && Accepts(w.db.rows, pk, row)
    ensures Inv(w.(db := w.db.(rows := w.db.rows[pk := row])))
  {
    hide KeysOk, PayPalOk, NewsOk, BudgetOk, RowOk;
    var db := w.db.(rows := w.db.rows[pk := row]);
    RowSavedTableOk(w.db, pk, row);
    hide TableOk, Accepts;
    forall k | k in w.issued ensures exists q :: Carries(db.rows, q, k) {
      var q :| Carries(w.db.rows, q, k);
      assert Carries(db.rows, q, k);
    }
    assert RowsOk(db.rows, w.paypal, w.issued);
    forall h | h in w.handles ensures HandleOk(db, w.issued, h) {
      assert HandleOk(w.db, w.issued, h);
    }
    TableReplaced(w, db);
  }

  /** The facts about one row that the invariant holds. */
  lemma RowFacts(w: World, pk: nat)
    requires Inv(w) && pk in w.db.rows
    ensures pk < w.db.nextPk && w.db.rows[pk].capture in w.db.captures
    ensures RowOk(w.paypal, w.issued, pk, w.db.rows[pk])
    ensures forall q :: q in w.db.rows && q != pk && w.db.rows[pk].key.Some? ==> w.db.rows[q].key != w.db.rows[pk].key
    ensures forall q :: q in w.db.rows && q != pk && w.db.rows[pk].paypalId.Some? ==>
      w.db.rows[q].paypalId != w.db.rows[pk].paypalId
  {
  }

  lemma HandleFacts(w: World, h: Handle)
    requires Inv(w) && h in w.handles
    ensures HandleOk(w.db, w.issued, h)
  {
  }

  /** The key of a deleted row is on the row it was merged into. */
  lemma SurvivorExists(w: World, h: Handle)
    requires Inv(w) && h in w.handles && h.pk !in w.db.rows
    ensures First(w.db.rows, WithKey(h.key), w.db.nextPk).Some?
  {
    HandleFacts(w, h);
    var q :| Carries(w.db.rows, q, h.key.value);
    RowFacts(w, q);
    assert Matches(WithKey(h.key), q, w.db.rows[q]);
  }

  /** PayPal made at most one refund per key, and at most one key per refund. */
  lemma AnswerFacts(w: World, key: string, id: string)
    requires Inv(w) && MadeFor(w.paypal, Some(key), id)
    ensures AnswerOk(w.paypal, w.issued, key, id)
    ensures forall l :: MadeFor(w.paypal, Some(l), id) ==> l == key
  {
  }

  // ---------- settling ----------

  /** A worker holds PayPal's word that `id` is the refund made for the handle's key. */
  ghost predicate Settling(w: World, h: Handle, id: string, p: Payload) {
    h in w.handles && MadeFor(w.paypal, h.key, id) && Trusted(w.paypal, id, p)
  }

  /** Rows that are due to be merged: the attempt has no id yet, the survivor no key. */
  lemma MergePair(w: World, attempt: nat, survivor: nat, id: string)
    requires Inv(w) && attempt in w.db.rows && survivor in w.db.rows && attempt != survivor
    requires MadeFor(w.paypal, w.db.rows[attempt].key, id) && w.db.rows[survivor].paypalId == Some(id)
    ensures w.db.rows[attempt].paypalId.None? && w.db.rows[survivor].key.None?
    ensures w.db.rows[attempt].capture == w.db.rows[survivor].capture
  {
    hide TableOk, KeysOk, Carried, RowsOk, PayPalOk, HandlesOk, NewsOk, BudgetOk;
    RowFacts(w, attempt);
    RowFacts(w, survivor);
    AnswerFacts(w, w.db.rows[attempt].key.value, id);
  }

  lemma MergeAccepted(w: World, attempt: nat, survivor: nat)
    requires Inv(w) && attempt in w.db.rows && survivor in w.db.rows && attempt != survivor
    ensures MergeRows(w.db.rows, attempt, survivor).Some?
  {
    hide KeysOk, Carried, RowsOk, PayPalOk, HandlesOk, NewsOk, BudgetOk;
    var rows := w.db.rows;
    var cleared := rows[attempt].(key := None);
    assert Accepts(rows, attempt, cleared);
    assert Accepts(rows[attempt := cleared], survivor, Absorb(rows[survivor], attempt, rows[attempt]));
  }

  lemma MergedTableOk(db: Db, attempt: nat, survivor: nat)
    requires TableOk(db) && attempt in db.rows && survivor in db.rows && attempt != survivor
    requires MergeRows(db.rows, attempt, survivor).Some?
    ensures TableOk(db.(rows := MergeRows(db.rows, attempt, survivor).value))
  {}

  /** No key is lost by a merge, and handles of the deleted row now lead to the survivor. */
  lemma MergedHandlesOk(w: World, attempt: nat, survivor: nat)
    requires Inv(w) && attempt in w.db.rows && survivor in w.db.rows && attempt != survivor
    requires w.db.rows[attempt].paypalId.None? && w.db.rows[survivor].paypalId.Some?
    requires w.db.rows[survivor].key.None? && MergeRows(w.db.rows, attempt, survivor).Some?
    ensures var db := w.db.(rows := MergeRows(w.db.rows, attempt, survivor).value);
      Carried(db.rows, w.issued) && forall h :: h in w.handles ==> HandleOk(db, w.issued, h)
  {
    hide TableOk, KeysOk, RowsOk, PayPalOk, NewsOk, BudgetOk;
    var db := w.db.(rows := MergeRows(w.db.rows, attempt, survivor).value);
    forall k | k in w.issued ensures exists q :: Carries(db.rows, q, k) {
      var q :| Carries(w.db.rows, q, k);
      assert Carries(db.rows, if q == attempt then survivor else q, k);
    }
    forall h | h in w.handles ensures HandleOk(db, w.issued, h) {
      assert HandleOk(w.db, w.issued, h);
    }
  }

  lemma MergedRowOk(w: World, attempt: nat, survivor: nat, id: string)
    requires Inv(w) && attempt in w.db.rows && survivor in w.db.rows && attempt != survivor
    requires MadeFor(w.paypal, w.db.rows[attempt].key, id) && w.db.rows[survivor].paypalId == Some(id)
    ensures RowOk(w.paypal, w.issued, survivor, Absorb(w.db.rows[survivor], attempt, w.db.rows[attempt]))
  {
    hide TableOk, KeysOk, Carried, RowsOk, PayPalOk, HandlesOk, NewsOk, BudgetOk;
    MergePair(w, attempt, survivor, id);
    RowFacts(w, attempt);
    RowFacts(w, survivor);
    AnswerFacts(w, w.db.rows[attempt].key.value, id);
    var a, s := w.db.rows[attempt], w.db.rows[survivor];
    var taken := Absorb(s, attempt, a);
    assert taken.merged[|s.merged|] == Snapshot(w.issued[a.key.value].pk, a.key, a.body, w.issued[a.key.value].amount);
  }

  /** Merging two rows of one operation keeps the invariant and trips no constraint. */
  lemma MergeKeeps(w: World, attempt: nat, survivor: nat, id: string)
    requires Inv(w) && attempt in w.db.rows && survivor in w.db.rows && attempt != survivor
    requires MadeFor(w.paypal, w.db.rows[attempt].key, id) && w.db.rows[survivor].paypalId == Some(id)
    ensures MergeRows(w.db.rows, attempt, survivor).Some?
    ensures Inv(w.(db := w.db.(rows := MergeRows(w.db.rows, attempt, survivor).value)))
  {
    hide KeysOk, PayPalOk, NewsOk, BudgetOk, RowOk;
    MergeAccepted(w, attempt, survivor);
    MergePair(w, attempt, survivor, id);
    MergedRowOk(w, attempt, survivor, id);
    var db := w.db.(rows := MergeRows(w.db.rows, attempt, survivor).value);
    MergedTableOk(w.db, attempt, survivor);
    assert RowsOk(db.rows, w.paypal, w.issued);
    MergedHandlesOk(w, attempt, survivor);
    hide TableOk, Carried, RowsOk, HandlesOk, MergeRows;
    TableReplaced(w, db);
  }

  lemma SettledRowOk(w: World, h: Handle, id: string, p: Payload)
    requires Inv(w) && Settling(w, h, id, p) && h.pk in w.db.rows
    requires p.id.Some? ==> First(w.db.rows, OtherWithPaypalId(id, h.pk), w.db.nextPk).None?
    ensures RowOk(w.paypal, w.issued, h.pk, UpdateFromPayload(w.db.rows[h.pk], p))
    ensures Accepts(w.db.rows, h.pk, UpdateFromPayload(w.db.rows[h.pk], p))
  {
    hide KeysOk, Carried, RowsOk, PayPalOk, HandlesOk, NewsOk, BudgetOk;
    HandleFacts(w, h);
    RowFacts(w, h.pk);
    AnswerFacts(w, h.key.value, id);
    var row := UpdateFromPayload(w.db.rows[h.pk], p);
    assert KeyedOk(w.paypal, w.issued, h.pk, row);
    assert row.paypalId.Some? ==> BoundOk(w.paypal, row);
    forall other | other in w.db.rows && other != h.pk
      ensures (row.key.Some? ==> w.db.rows[other].key != row.key)
      ensures (row.paypalId.Some? ==> w.db.rows[other].paypalId != row.paypalId)
    {
      if p.id.Some? {
        assert !Matches(OtherWithPaypalId(id, h.pk), other, w.db.rows[other]);
      }
    }
  }

  /** Settling an attempt succeeds and keeps the invariant, wherever the attempt's row has gone. */
  lemma SettleKeeps(w: World, h: Handle, id: string, p: Payload)
    requires Inv(w) && Settling(w, h, id, p)
    ensures SettleRefund(w.db, h, p).Done?
    ensures Inv(w.(db := SettleRefund(w.db, h, p).db))
  {
    hide TableOk, KeysOk, Carried, RowsOk, PayPalOk, HandlesOk, NewsOk, BudgetOk;
    HandleFacts(w, h);
    if h.pk !in w.db.rows {
      SurvivorExists(w, h);
      assert w.(db := w.db) == w;
    } else {
      var adopted := if p.id.Some? then First(w.db.rows, OtherWithPaypalId(p.id.value, h.pk), w.db.nextPk) else None;
      if adopted.Some? {
        MergeKeeps(w, h.pk, adopted.value, id);
      } else {
        SettledRowOk(w, h, id, p);
        RowSaved(w, h.pk, UpdateFromPayload(w.db.rows[h.pk], p));
      }
    }
  }

  // ---------- the other local steps ----------

  lemma ReplyIsSettling(w: World, h: Handle, p: Payload)
    requires Inv(w) && Reply(h, p) in w.messages
    ensures h.key.Some? && h.key.value in w.paypal.answers && w.paypal.answers[h.key.value].Made?
    ensures Settling(w, h, w.paypal.answers[h.key.value].id, p)
  {
    hide TableOk, KeysOk, Carried, RowsOk, PayPalOk, BudgetOk;
    assert MessageOk(w.paypal, w.posted, Reply(h, p));
  }

  lemma NoticeFacts(w: World, n: Notice)
    requires Inv(w) && n in w.notices
    ensures NoticeOk(w.paypal, n) && n.capture in w.db.captures
  {
  }

  lemma RefusedRowOk(w: World, h: Handle, pk: nat)
    requires Inv(w) && Refusal(h) in w.messages && Locate(w.db, h) == Some(pk)
    ensures pk in w.db.rows && RowOk(w.paypal, w.issued, pk, w.db.rows[pk].(status := Failed))
    ensures Accepts(w.db.rows, pk, w.db.rows[pk].(status := Failed))
  {
    hide TableOk, KeysOk, Carried, RowsOk, PayPalOk, BudgetOk;
    assert MessageOk(w.paypal, w.posted, Refusal(h));
    HandleFacts(w, h);
    RowFacts(w, pk);
  }

  lemma FailKeeps(w: World, h: Handle)
    requires Inv(w) && Refusal(h) in w.messages
    ensures MarkRefundFailed(w.db, h).Done? && Inv(w.(db := MarkRefundFailed(w.db, h).db))
  {
    hide TableOk, KeysOk, Carried, RowsOk, PayPalOk, BudgetOk;
    assert MessageOk(w.paypal, w.posted, Refusal(h));
    HandleFacts(w, h);
    var current := Locate(w.db, h);
    if current.Some? && w.db.rows[current.value].status.OutcomeUnknown() {
      RefusedRowOk(w, h, current.value);
      RowSaved(w, current.value, w.db.rows[current.value].(status := Failed));
    } else {
      assert w.(db := w.db) == w;
    }
  }

  lemma KnownRowOk(w: World, n: Notice, pk: nat)
    requires Inv(w) && n in w.notices
    requires First(w.db.rows, WithPaypalId(n.payload.id.value), w.db.nextPk) == Some(pk)
    ensures RowOk(w.paypal, w.issued, pk, UpdateFromPayload(w.db.rows[pk], n.payload))
    ensures Accepts(w.db.rows, pk, UpdateFromPayload(w.db.rows[pk], n.payload))
  {
    hide TableOk, KeysOk, Carried, RowsOk, PayPalOk, HandlesOk, NewsOk, BudgetOk;
    NoticeFacts(w, n);
    RowFacts(w, pk);
  }

  lemma AdoptedRowOk(w: World, n: Notice)
    requires Inv(w) && n in w.notices
    ensures var row := AdoptedRow(w.db, n.capture, n.payload);
      RowOk(w.paypal, w.issued, w.db.nextPk, row) && RowOk(w.paypal, w.issued, w.db.nextPk, row.(status := Unresolved))
  {
    hide TableOk, KeysOk, Carried, RowsOk, HandlesOk, NewsOk, BudgetOk;
    NoticeFacts(w, n);
  }

  lemma FlaggedRowOk(paypal: PayPal, issued: map<string, Issue>, pk: nat, row: Refund)
    requires RowOk(paypal, issued, pk, row)
    ensures RowOk(paypal, issued, pk, row.(status := Unresolved))
  {
  }

  function AfterAdoption(db: Db, n: Notice): Db
    requires n.capture in db.captures
  {
    db.(rows := FlagOthers(db.rows[db.nextPk := AdoptedRow(db, n.capture, n.payload)], n.capture, db.nextPk),
        nextPk := db.nextPk + 1)
  }

  lemma AdoptedTableOk(w: World, n: Notice)
    requires Inv(w) && n in w.notices && n.capture in w.db.captures && n.payload.id.Some?
    requires First(w.db.rows, WithPaypalId(n.payload.id.value), w.db.nextPk).None?
    ensures Accepts(w.db.rows, w.db.nextPk, AdoptedRow(w.db, n.capture, n.payload))
    ensures TableOk(AfterAdoption(w.db, n))
  {
    hide KeysOk, Carried, RowsOk, PayPalOk, HandlesOk, NewsOk, BudgetOk;
    forall other | other in w.db.rows ensures w.db.rows[other].paypalId != n.payload.id {
      assert !Matches(WithPaypalId(n.payload.id.value), other, w.db.rows[other]);
    }
  }

  lemma AdoptedRowsOk(w: World, n: Notice)
    requires Inv(w) && n in w.notices && n.capture in w.db.captures
    ensures RowsOk(AfterAdoption(w.db, n).rows, w.paypal, w.issued)
  {
    hide KeysOk, Carried, PayPalOk, HandlesOk, NewsOk, BudgetOk, RowOk, AdoptedRow;
    AdoptedRowOk(w, n);
    var rows := AfterAdoption(w.db, n).rows;
    forall q | q in rows ensures RowOk(w.paypal, w.issued, q, rows[q]) {
      if q != w.db.nextPk {
        FlaggedRowOk(w.paypal, w.issued, q, w.db.rows[q]);
      }
    }
  }

  lemma AdoptedHandlesOk(w: World, n: Notice)
    requires Inv(w) && n.capture in w.db.captures
    ensures Carried(AfterAdoption(w.db, n).rows, w.issued)
    ensures forall h :: h in w.handles ==> HandleOk(AfterAdoption(w.db, n), w.issued, h)
  {
    hide KeysOk, RowsOk, PayPalOk, NewsOk, BudgetOk, AdoptedRow;
    var db := AfterAdoption(w.db, n);
    forall k | k in w.issued ensures exists q :: Carries(db.rows, q, k) {
      var q :| Carries(w.db.rows, q, k);
      assert Carries(db.rows, q, k);
    }
    forall h | h in w.handles ensures HandleOk(db, w.issued, h) {
      assert HandleOk(w.db, w.issued, h);
    }
  }

  lemma AdoptKeeps(w: World, n: Notice)
    requires Inv(w) && n in w.notices
    ensures AdoptRemoteRefund(w.db, n.capture, n.payload).Done?
    ensures Inv(w.(db := AdoptRemoteRefund(w.db, n.capture, n.payload).db))
  {
    hide TableOk, KeysOk, Carried, RowsOk, PayPalOk, HandlesOk, NewsOk, BudgetOk;
    NoticeFacts(w, n);
    var known := First(w.db.rows, WithPaypalId(n.payload.id.value), w.db.nextPk);
    if known.Some? {
      KnownRowOk(w, n, known.value);
      RowSaved(w, known.value, UpdateFromPayload(w.db.rows[known.value], n.payload));
    } else {
      AdoptedTableOk(w, n);
      AdoptedRowsOk(w, n);
      AdoptedHandlesOk(w, n);
      TableReplaced(w, AfterAdoption(w.db, n));
    }
  }

  lemma MergeByHandKeeps(w: World, h: Handle, survivor: nat)
    requires Inv(w) && SameOperation(w, h.pk, survivor)
    ensures MergeRefundAttempt(w.db, h, survivor) != Raised(IntegrityError)
    ensures MergeRefundAttempt(w.db, h, survivor).Done? ==> Inv(w.(db := MergeRefundAttempt(w.db, h, survivor).db))
  {
    hide TableOk, KeysOk, Carried, RowsOk, PayPalOk, HandlesOk, NewsOk, BudgetOk;
    if h.pk in w.db.rows && survivor in w.db.rows && h.pk != survivor && w.db.rows[survivor].paypalId.Some? {
      MergeKeeps(w, h.pk, survivor, w.db.rows[survivor].paypalId.value);
    }
  }

  /** A handle read off a row, and posted only when the row can be retried. */
  lemma HandleLoaded(w: World, pk: nat, post: bool)
    requires Inv(w) && pk in w.db.rows
    requires post ==> w.db.rows[pk].body.Some?
    ensures var h := HandleOf(pk, w.db.rows[pk]);
      Inv(w.(handles := w.handles + {h}, posted := if post then w.posted + {h} else w.posted))
  {
    hide TableOk, KeysOk, Carried, RowsOk, PayPalOk, BudgetOk;
    RowFacts(w, pk);
    var h := HandleOf(pk, w.db.rows[pk]);
    assert HandleOk(w.db, w.issued, h);
    var posted := if post then w.posted + {h} else w.posted;
    assert HandlesOk(w.db, w.issued, w.handles + {h}, posted);
    assert NewsOk(w.paypal, posted, w.messages, w.notices) by {
      assert forall m :: m in w.messages ==> MessageOk(w.paypal, w.posted, m);
    }
  }

  // ---------- starting a refund ----------

  /** A key derived from a fresh primary key was never issued before. */
  lemma KeyIsFresh(w: World, order: nat)
    requires Inv(w)
    ensures RequestIds.RefundRequestId(order, w.db.nextPk) !in w.issued
  {
    hide TableOk, Carried, RowsOk, PayPalOk, HandlesOk, NewsOk, BudgetOk;
    var key := RequestIds.RefundRequestId(order, w.db.nextPk);
    if key in w.issued {
      var issue := w.issued[key];
      assert IssueOk(w.db.captures, w.db.nextPk, key, issue);
      RequestIds.RequestIdInjective(RequestIds.RefundAttempt(order, w.db.nextPk),
                                    RequestIds.RefundAttempt(w.db.captures[issue.capture].order, issue.pk));
    }
  }

  /** What a successful start does to the world. */
  lemma StartEffect(w: World, c: nat, amount: Option<nat>, note: string, invoice: string, post: bool)
    requires Inv(w) && StartRefund(w.db, c, amount, note, invoice, StartBody(amount, note, invoice, post)).Done?
    ensures var requested := if amount.Some? then amount.value else w.db.captures[c].amount;
      var body := StartBody(amount, note, invoice, post);
      var key := RequestIds.RefundRequestId(w.db.captures[c].order, w.db.nextPk);
      var row := FreshAttempt(c, requested, note, invoice, body).(key := Some(key));
      var h := HandleOf(w.db.nextPk, row);
      && c in w.db.captures && requested + Reserved(w.db, c) <= w.db.captures[c].amount
      && AfterStart(w, c, amount, note, invoice, post)
           == w.(db := w.db.(rows := w.db.rows[w.db.nextPk := row], nextPk := w.db.nextPk + 1),
                 keys := w.keys + [key],
                 issued := w.issued[key := Issue(w.db.nextPk, c, requested, body)],
                 handles := w.handles + {h},
                 posted := if post then w.posted + {h} else w.posted)
  {
    hide Inv;
  }

  lemma KeysExtended(db: Db, keys: seq<string>, issued: map<string, Issue>,
    key: string, issue: Issue, rows: map<nat, Refund>)
    requires KeysOk(db, keys, issued) && key !in issued
    requires IssueOk(db.captures, db.nextPk + 1, key, issue)
    ensures KeysOk(db.(rows := rows, nextPk := db.nextPk + 1), keys + [key], issued[key := issue])
  {
    forall k | k in issued[key := issue]
      ensures k in keys + [key] && IssueOk(db.captures, db.nextPk + 1, k, issued[key := issue][k])
    {
      assert k != key ==> k in keys && IssueOk(db.captures, db.nextPk, k, issued[k]);
    }
  }

  lemma RowsUnderMoreKeys(rows: map<nat, Refund>, paypal: PayPal, issued: map<string, Issue>, key: string, issue: Issue)
    requires RowsOk(rows, paypal, issued) && key !in issued
    ensures RowsOk(rows, paypal, issued[key := issue])
  {
    forall pk | pk in rows ensures RowOk(paypal, issued[key := issue], pk, rows[pk]) {
      assert RowOk(paypal, issued, pk, rows[pk]);
    }
  }

  lemma PayPalUnderMoreKeys(captures: map<nat, Capture>, paypal: PayPal,
    issued: map<string, Issue>, key: string, issue: Issue)
    requires PayPalOk(captures, paypal, issued) && key !in issued
    ensures PayPalOk(captures, paypal, issued[key := issue])
  {
    forall k | k in paypal.answers && paypal.answers[k].Made?
      ensures AnswerOk(paypal, issued[key := issue], k, paypal.answers[k].id)
    {
      assert AnswerOk(paypal, issued, k, paypal.answers[k].id);
    }
  }

  lemma HandlesUnderMoreKeys(db: Db, issued: map<string, Issue>, handles: set<Handle>, posted: set<Handle>,
                             key: string, row: Refund, post: bool)
    requires HandlesOk(db, issued, handles, posted) && key !in issued && db.nextPk !in db.rows
    requires row.key == Some(key) && row.capture in db.captures && (post ==> row.body.Some?)
    ensures var h := HandleOf(db.nextPk, row);
      HandlesOk(db.(rows := db.rows[db.nextPk := row], nextPk := db.nextPk + 1),
                issued[key := Issue(db.nextPk, row.capture, row.amount, row.body)],
                handles + {h}, if post then posted + {h} else posted)
  {
    var db' := db.(rows := db.rows[db.nextPk := row], nextPk := db.nextPk + 1);
    var issued' := issued[key := Issue(db.nextPk, row.capture, row.amount, row.body)];
    forall g | g in handles ensures HandleOk(db', issued', g) {
      assert HandleOk(db, issued, g);
    }
    assert HandleOk(db', issued', HandleOf(db.nextPk, row));
  }

  lemma NewLiability(paypal: PayPal, issued: map<string, Issue>, keys: seq<string>,
    key: string, issue: Issue, capture: nat)
    requires forall k :: k in keys ==> k in issued
    requires key !in issued && key !in paypal.answers
    ensures Liabilities(paypal, issued[key := issue], keys + [key], capture)
         == Liabilities(paypal, issued, keys, capture) + if issue.capture == capture then issue.amount else 0
  {
    assert (keys + [key])[..|keys|] == keys;
    LiabilitiesSame(paypal, issued, issued[key := issue], keys, capture);
  }

  /** The local guard of start_refund is what keeps PayPal's exposure within the captured amount. */
  lemma BudgetExtended(w: World, key: string, issue: Issue)
    requires Inv(w) && key !in w.issued && issue.capture in w.db.captures
    requires issue.amount + Reserved(w.db, issue.capture) <= w.db.captures[issue.capture].amount
    ensures BudgetOk(w.db.captures, w.paypal, w.issued[key := issue], w.keys + [key])
  {
    hide TableOk, Carried, RowsOk, HandlesOk, NewsOk;
    assert key !in w.paypal.answers;
    forall c | c in w.db.captures
      ensures Liabilities(w.paypal, w.issued[key := issue], w.keys + [key], c) <= w.db.captures[c].amount
    {
      assert forall k :: k in w.keys ==> k in w.issued;
      NewLiability(w.paypal, w.issued, w.keys, key, issue, c);
      CaptureCovered(w, c);
    }
  }

  lemma FreshKeyOnNoRow(w: World, key: string)
    requires Inv(w) && key !in w.issued
    ensures forall q :: q in w.db.rows ==> w.db.rows[q].key != Some(key)
  {
    hide TableOk, KeysOk, Carried, PayPalOk, HandlesOk, NewsOk, BudgetOk;
    forall q | q in w.db.rows ensures w.db.rows[q].key != Some(key) {
      assert RowOk(w.paypal, w.issued, q, w.db.rows[q]);
    }
  }

  lemma TableExtended(w: World, key: string, issue: Issue, row: Refund)
    requires Inv(w) && key !in w.issued
    requires row.key == Some(key) && row.paypalId.None? && row.capture in w.db.captures && !row.status.Dead()
    requires issue == Issue(w.db.nextPk, row.capture, row.amount, row.body)
    ensures var db := w.db.(rows := w.db.rows[w.db.nextPk := row], nextPk := w.db.nextPk + 1);
      && TableOk(db) && Carried(db.rows, w.issued[key := issue]) && RowsOk(db.rows, w.paypal, w.issued[key := issue])
  {
    hide KeysOk, PayPalOk, HandlesOk, NewsOk, BudgetOk, RowOk;
    FreshKeyOnNoRow(w, key);
    var db := w.db.(rows := w.db.rows[w.db.nextPk := row], nextPk := w.db.nextPk + 1);
    assert TableOk(db);
    var issued := w.issued[key := issue];
    forall k | k in issued ensures exists q :: Carries(db.rows, q, k) {
      if k == key {
        assert Carries(db.rows, w.db.nextPk, k);
      } else {
        var q :| Carries(w.db.rows, q, k);
        assert Carries(db.rows, q, k);
      }
    }
    RowsUnderMoreKeys(w.db.rows, w.paypal, w.issued, key, issue);
    StartedRowOk(w.paypal, w.issued[key := issue], w.db.nextPk, row);
  }

  lemma StartedRowOk(paypal: PayPal, issued: map<string, Issue>, pk: nat, row: Refund)
    requires row.key.Some? && row.paypalId.None? && !row.status.Dead()
    requires row.key.value in issued && issued[row.key.value] == Issue(pk, row.capture, row.amount, row.body)
    ensures RowOk(paypal, issued, pk, row)
  {
  }

  lemma NewsUnderMorePosts(paypal: PayPal, posted: set<Handle>, more: set<Handle>,
    messages: set<Message>, notices: set<Notice>)
    requires NewsOk(paypal, posted, messages, notices) && posted <= more
    ensures NewsOk(paypal, more, messages, notices)
  {
    assert forall m :: m in messages ==> MessageOk(paypal, posted, m);
  }

  lemma StartDoneKeeps(w: World, c: nat, amount: Option<nat>, note: string, invoice: string, post: bool)
    requires Inv(w) && StartRefund(w.db, c, amount, note, invoice, StartBody(amount, note, invoice, post)).Done?
    ensures Inv(AfterStart(w, c, amount, note, invoice, post))
  {
    hide TableOk, KeysOk, Carried, RowsOk, PayPalOk, HandlesOk, NewsOk, BudgetOk, StartRefund, AfterStart;
    StartEffect(w, c, amount, note, invoice, post);
    KeyIsFresh(w, w.db.captures[c].order);
    var requested := if amount.Some? then amount.value else w.db.captures[c].amount;
    var key := RequestIds.RefundRequestId(w.db.captures[c].order, w.db.nextPk);
    var body := StartBody(amount, note, invoice, post);
    var issue := Issue(w.db.nextPk, c, requested, body);
    var row := FreshAttempt(c, requested, note, invoice, body).(key := Some(key));
    var rows := w.db.rows[w.db.nextPk := row];
    NextPkUnused(w);
    KeysExtended(w.db, w.keys, w.issued, key, issue, rows);
    TableExtended(w, key, issue, row);
    PayPalUnderMoreKeys(w.db.captures, w.paypal, w.issued, key, issue);
    HandlesUnderMoreKeys(w.db, w.issued, w.handles, w.posted, key, row, post);
    NewsUnderMorePosts(w.paypal, w.posted, if post then w.posted + {HandleOf(w.db.nextPk, row)} else w.posted,
                       w.messages, w.notices);
    BudgetExtended(w, key, issue);
  }

  lemma NextPkUnused(w: World)
    requires Inv(w)
    ensures w.db.nextPk !in w.db.rows
  {
  }

  lemma StartKeeps(w: World, c: nat, amount: Option<nat>, note: string, invoice: string, post: bool)
    requires Inv(w)
    ensures StartRefund(w.db, c, amount, note, invoice,
      StartBody(amount, note, invoice, post)) != Raised(IntegrityError)
    ensures Inv(AfterStart(w, c, amount, note, invoice, post))
  {
    hide TableOk, KeysOk, Carried, RowsOk, PayPalOk, HandlesOk, NewsOk, BudgetOk;
    if c in w.db.captures {
      KeyIsFresh(w, w.db.captures[c].order);
      FreshKeyOnNoRow(w, RequestIds.RefundRequestId(w.db.captures[c].order, w.db.nextPk));
      if StartRefund(w.db, c, amount, note, invoice, StartBody(amount, note, invoice, post)).Done? {
        StartDoneKeeps(w, c, amount, note, invoice, post);
      }
    }
  }

  // ---------- every run ----------

  lemma BindIsSettling(w: World, h: Handle, n: Notice)
    requires Inv(w) && Enabled(w, Bind(h, n))
    ensures Settling(w, h, n.payload.id.value, n.payload)
  {
    hide TableOk, KeysOk, Carried, RowsOk, PayPalOk, HandlesOk, BudgetOk;
    NoticeFacts(w, n);
  }

  lemma RetryKeeps(w: World, h: Handle)
    requires Inv(w) && h in w.handles
    ensures RetryRefund(w.db, h) != RetryRaised(DoesNotExist)
    ensures Inv(AfterRetry(w, h))
  {
    hide TableOk, KeysOk, Carried, RowsOk, PayPalOk, HandlesOk, NewsOk, BudgetOk;
    if h.pk !in w.db.rows {
      SurvivorExists(w, h);
    } else if RetryRefund(w.db, h).Post? {
      HandleLoaded(w, h.pk, true);
    }
  }

  lemma StepKeeps(w: World, step: Step)
    requires Inv(w) && Enabled(w, step)
    ensures Inv(Next(w, step))
  {
    hide Inv;
    match step {
      case Start(c, amount, note, invoice, post) => StartKeeps(w, c, amount, note, invoice, post);
      case Load(pk) => LoadKeeps(w, pk);
      case Retry(h) => RetryKeeps(w, h);
      case Settle(h, p) =>
        ReplyIsSettling(w, h, p);
        SettleKeeps(w, h, w.paypal.answers[h.key.value].id, p);
      case Fail(h) => FailKeeps(w, h);
      case Adopt(n) => AdoptKeeps(w, n);
      case Bind(h, n) =>
        BindIsSettling(w, h, n);
        SettleKeeps(w, h, n.payload.id.value, n.payload);
      case MergeByHand(h, s) => MergeByHandKeeps(w, h, s);
      case Create(h, id, made, status) => CreateKeeps(w, h, id, made, status);
      case Refuse(h) => RefuseKeeps(w, h);
      case Progress(id, status) => ProgressKeeps(w, id, status);
      case Dashboard(id, r) => DashboardKeeps(w, id, r);
      case Respond(_, _) => NewsKeeps(w, step);
      case RespondRefusal(_) => NewsKeeps(w, step);
      case Notify(_) => NewsKeeps(w, step);
    }
  }

  lemma LoadKeeps(w: World, pk: nat)
    requires Inv(w) && pk in w.db.rows
    ensures Inv(Next(w, Load(pk)))
  {
    hide TableOk, KeysOk, Carried, RowsOk, PayPalOk, HandlesOk, NewsOk, BudgetOk;
    HandleLoaded(w, pk, false);
    assert w.(handles := w.handles + {HandleOf(pk, w.db.rows[pk])}, posted := w.posted) == Next(w, Load(pk));
  }

  lemma InitialOk(captures: map<nat, Capture>)
    ensures Inv(Initial(captures))
  {
  }

  lemma {:induction false} RunKeeps(w: World, steps: seq<Step>)
    requires Inv(w) && ValidRun(w, steps)
    ensures Inv(Run(w, steps))
    decreases |steps|
  {
    hide Inv, Next, Enabled;
    if steps != [] {
      StepKeeps(w, steps[0]);
      RunKeeps(Next(w, steps[0]), steps[1..]);
    }
  }
}
