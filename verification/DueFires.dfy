/** The scheduler's scan: due reminders grouped by owner and time, then queued once (coke/scheduler/__main__.py). */
module DueFires {
  import opened Options

  /** Owners stand for their place in the order of account ids, times for their instant. */
  datatype Key = Key(owner: nat, due: int)

  datatype Reminder = Reminder(id: nat, owner: nat, proactive: bool, nextFireAt: Option<int>)

  /** What `claim_due_fire` returns: one fire for each reminder and due time. */
  datatype Fire = Fire(reminder: nat, due: int)

  datatype Group = Group(key: Key, fires: seq<Fire>)

  predicate KeyLess(a: Key, b: Key) { a.owner < b.owner || (a.owner == b.owner && a.due < b.due) }

  predicate Fires(r: Reminder) { !r.proactive && r.nextFireAt.Some? }

  function KeyOf(r: Reminder): Key
    requires Fires(r)
  {
    Key(r.owner, r.nextFireAt.value)
  }

  function FireOf(r: Reminder): Fire
    requires Fires(r)
  {
    Fire(r.id, r.nextFireAt.value)
  }

  /** The fires that belong under `key`, in the order of the reminders. */
  function FiresFor(reminders: seq<Reminder>, key: Key): seq<Fire> {
    if reminders == [] then []
    else
      var rest := FiresFor(reminders[..|reminders| - 1], key);
      var last := reminders[|reminders| - 1];
      if Fires(last) && KeyOf(last) == key then rest + [FireOf(last)] else rest
  }

  /** `groups` are the groups of `reminders`: one for each key with a fire, in increasing order. */
  ghost predicate AreGroups(groups: seq<Group>, reminders: seq<Reminder>) {
    && (forall j, k :: 0 <= j < k < |groups| ==> KeyLess(groups[j].key, groups[k].key))
    && (forall k :: 0 <= k < |groups| ==>
      groups[k].fires != [] && groups[k].fires == FiresFor(reminders, groups[k].key))
    && (forall r :: r in reminders && Fires(r) ==> exists k :: 0 <= k < |groups| && groups[k].key == KeyOf(r))
  }

  lemma {:induction false} FiresForHas(reminders: seq<Reminder>, key: Key, f: Fire)
    ensures f in FiresFor(reminders, key)
            <==> exists r :: r in reminders && Fires(r) && KeyOf(r) == key && FireOf(r) == f
  {
    if reminders != [] {
      var init, last := reminders[..|reminders| - 1], reminders[|reminders| - 1];
      assert reminders == init + [last];
      FiresForHas(init, key, f);
    }
  }

  /** A reminder that is not proactive and has a next fire time has its fire in one group, that of
      its owner and time. */
  lemma GroupsPartitionFires(groups: seq<Group>, reminders: seq<Reminder>, r: Reminder, due: int)
    requires AreGroups(groups, reminders) && r in reminders && !r.proactive && r.nextFireAt == Some(due)
    ensures exists k :: 0 <= k < |groups| && groups[k].key == Key(r.owner, due) && Fire(r.id, due) in groups[k].fires
    ensures forall j, k :: 0 <= j < |groups| && 0 <= k < |groups| && groups[j].key == groups[k].key == Key(r.owner, due)
              ==> j == k
  {
    var k :| 0 <= k < |groups| && groups[k].key == KeyOf(r);
    FiresForHas(reminders, KeyOf(r), FireOf(r));
    assert Fire(r.id, due) in groups[k].fires;
  }

  /** Nothing else is in any group: a fire in a group is that of one of the reminders, not a
      proactive one, of the group's owner and due at the group's time. */
  lemma GroupsHoldNothingElse(groups: seq<Group>, reminders: seq<Reminder>, k: nat, f: Fire)
    requires AreGroups(groups, reminders) && k < |groups| && f in groups[k].fires
    ensures var key := groups[k].key;
            f.due == key.due
            && Reminder(f.reminder, key.owner, false, Some(f.due)) in reminders
  {
    FiresForHas(reminders, groups[k].key, f);
  }

  /** Groups stand by owner, and for one owner by time. */
  lemma GroupsInOrder(groups: seq<Group>, reminders: seq<Reminder>, j: nat, k: nat)
    requires AreGroups(groups, reminders) && j < k < |groups|
    ensures var a, b := groups[j].key, groups[k].key;
            a.owner <= b.owner && (a.owner == b.owner ==> a.due < b.due)
  {
    assert KeyLess(groups[j].key, groups[k].key);
  }

  /** The fires of a group stand in the order of the reminders. */
  lemma {:induction false} FiresInOrder(a: seq<Reminder>, b: seq<Reminder>, key: Key)
    ensures FiresFor(a + b, key) == FiresFor(a, key) + FiresFor(b, key)
  {
    if b == [] {
      assert a + b == a;
    } else {
      FiresInOrder(a, b[..|b| - 1], key);
      assert (a + b)[..|a + b| - 1] == a + b[..|b| - 1];
    }
  }

  lemma OneReminderFires(r: Reminder, key: Key)
    ensures FiresFor([r], key) == if !r.proactive && r.owner == key.owner && r.nextFireAt == Some(key.due)
            then [Fire(r.id, key.due)] else []
  {
    assert [r][..0] == [];
  }

  /** Reminders that are listed once fire once: no group repeats a fire, and no two groups share one. */
  lemma {:induction false} NoFireRepeated(reminders: seq<Reminder>, key: Key, j: nat, k: nat)
    requires forall a, b :: 0 <= a < b < |reminders| ==> reminders[a].id != reminders[b].id
    requires j < k < |FiresFor(reminders, key)|
    ensures FiresFor(reminders, key)[j] != FiresFor(reminders, key)[k]
  {
    var init, last := reminders[..|reminders| - 1], reminders[|reminders| - 1];
    assert reminders == init + [last];
    if k < |FiresFor(init, key)| {
      NoFireRepeated(init, key, j, k);
    } else {
      FiresForHas(init, key, FireOf(last));
    }
  }

  /** The groups are determined by the reminders alone. */
  lemma GroupsAreUnique(a: seq<Group>, b: seq<Group>, reminders: seq<Reminder>)
    requires AreGroups(a, reminders) && AreGroups(b, reminders)
    ensures a == b
  {
    SameUpTo(a, b, reminders, |a|);
    SameUpTo(b, a, reminders, |b|);
  }

  lemma KeyFoundIn(a: seq<Group>, b: seq<Group>, reminders: seq<Reminder>, i: nat) returns (j: nat)
    requires AreGroups(a, reminders) && AreGroups(b, reminders) && i < |b|
    ensures j < |a| && a[j].key == b[i].key
  {
    FiresForHas(reminders, b[i].key, b[i].fires[0]);
    var r :| r in reminders && Fires(r) && KeyOf(r) == b[i].key;
    j :| 0 <= j < |a| && a[j].key == KeyOf(r);
  }

  lemma {:induction false} SameUpTo(a: seq<Group>, b: seq<Group>, reminders: seq<Reminder>, n: nat)
    requires AreGroups(a, reminders) && AreGroups(b, reminders) && n <= |a|
    ensures n <= |b| && forall k :: 0 <= k < n ==> a[k] == b[k]
  {
    if n > 0 {
      SameUpTo(a, b, reminders, n - 1);
      var k := KeyFoundIn(b, a, reminders, n - 1);
      var i := KeyFoundIn(a, b, reminders, n - 1);
      assert i >= n - 1;
    }
  }

  // ------------------------------------------------------------------------ grouping

  /** The dictionary as a loop fills it. */
  ghost predicate IsGrouped(grouped: map<Key, seq<Fire>>, reminders: seq<Reminder>) {
    forall key :: (key in grouped <==> FiresFor(reminders, key) != [])
           && (key in grouped ==> grouped[key] == FiresFor(reminders, key))
  }

  method GroupFires(reminders: seq<Reminder>) returns (grouped: map<Key, seq<Fire>>)
    ensures IsGrouped(grouped, reminders)
  {
    grouped := map[];
    for i := 0 to |reminders|
      invariant IsGrouped(grouped, reminders[..i])
    {
      assert reminders[..i + 1][..i] == reminders[..i];
      var r := reminders[i];
      if r.proactive || r.nextFireAt.None? {
        continue;
      }
      var key := KeyOf(r);
      if key !in grouped {
        grouped := grouped[key := []];
      }
      grouped := grouped[key := grouped[key] + [FireOf(r)]];
    }
    assert reminders[..|reminders|] == reminders;
  }

  ghost predicate Increasing(groups: seq<Group>) {
    forall j, k :: 0 <= j < k < |groups| ==> KeyLess(groups[j].key, groups[k].key)
  }

  ghost predicate HasKey(groups: seq<Group>, key: Key) {
    exists k :: 0 <= k < |groups| && groups[k].key == key
  }

  /** Puts a new group where it belongs. */
  method InsertGroup(groups: seq<Group>, g: Group) returns (r: seq<Group>)
    requires Increasing(groups) && !HasKey(groups, g.key)
    ensures Increasing(r)
    ensures exists i :: 0 <= i <= |groups| && r == groups[..i] + [g] + groups[i..]
  {
    var i := |groups|;
    while i > 0 && KeyLess(g.key, groups[i - 1].key)
      invariant 0 <= i <= |groups|
      invariant forall k :: i <= k < |groups| ==> KeyLess(g.key, groups[k].key)
    {
      i := i - 1;
    }
    r := groups[..i] + [g] + groups[i..];
    assert i > 0 ==> KeyLess(groups[i - 1].key, g.key);
    assert forall k :: 0 <= k < i ==> KeyLess(groups[k].key, g.key);
  }

  method DueFireGroups(reminders: seq<Reminder>) returns (groups: seq<Group>)
    ensures AreGroups(groups, reminders)
  {
    var grouped := GroupFires(reminders);
    var waiting := grouped.Keys;
    groups := [];
    while waiting != {}
      invariant waiting <= grouped.Keys
      invariant Increasing(groups)
      invariant forall key :: HasKey(groups, key) <==> key in grouped && key !in waiting
      invariant forall k :: 0 <= k < |groups| ==> groups[k].key in grouped && groups[k].fires == grouped[groups[k].key]
      decreases |waiting|
    {
      var key :| key in waiting;
      var before := groups;
      groups := InsertGroup(groups, Group(key, grouped[key]));
      InsertedKeys(before, groups, Group(key, grouped[key]));
      waiting := waiting - {key};
    }
    forall r | r in reminders && Fires(r) ensures HasKey(groups, KeyOf(r)) {
      FiresForHas(reminders, KeyOf(r), FireOf(r));
    }
  }

  lemma InsertedKeys(before: seq<Group>, after: seq<Group>, g: Group)
    requires exists i :: 0 <= i <= |before| && after == before[..i] + [g] + before[i..]
    ensures forall key :: HasKey(after, key) <==> HasKey(before, key) || key == g.key
    ensures forall k :: 0 <= k < |after| ==> after[k] == g || after[k] in before
  {
    var i :| 0 <= i <= |before| && after == before[..i] + [g] + before[i..];
    assert after[i] == g;
    forall key | HasKey(before, key) ensures HasKey(after, key) {
      var k :| 0 <= k < |before| && before[k].key == key;
      assert after[if k < i then k else k + 1] == before[k];
    }
    forall k | 0 <= k < |after| ensures after[k] == g || after[k] in before {
      if k < i { assert after[k] == before[k]; } else if k > i { assert after[k] == before[k - 1]; }
    }
  }

  // ------------------------------------------------------------------------- queuing

  /** Idempotency keys of outbox rows: a group's, or one of another kind of event. */
  datatype RowKey = ReminderFire(key: Key) | OtherEvent(id: nat)

  /** An outbox row with the fire ids of its payload. */
  datatype Row = Row(key: RowKey, fires: seq<Fire>)

  ghost predicate Queued(rows: seq<Row>, key: RowKey) {
    exists k :: 0 <= k < |rows| && rows[k].key == key
  }

  predicate HasRow(rows: seq<Row>, key: RowKey) {
    rows != [] && (rows[|rows| - 1].key == key || HasRow(rows[..|rows| - 1], key))
  }

  /** Each new row in turn, unless its key is there. */
  function Enqueue(rows: seq<Row>, more: seq<Row>): seq<Row> {
    if more == [] then rows
    else
      var before := Enqueue(rows, more[..|more| - 1]);
      if HasRow(before, more[|more| - 1].key) then before else before + [more[|more| - 1]]
  }

  lemma {:induction false} HasRowMeans(rows: seq<Row>, key: RowKey)
    ensures HasRow(rows, key) <==> Queued(rows, key)
  {
    if rows != [] {
      var init := rows[..|rows| - 1];
      HasRowMeans(init, key);
      if Queued(init, key) {
        var k :| 0 <= k < |init| && init[k].key == key;
        assert rows[k].key == key;
      }
      assert rows == init + [rows[|rows| - 1]];
    }
  }

  ghost predicate NoRepeats(rows: seq<Row>) {
    forall j, k :: 0 <= j < k < |rows| ==> rows[j].key != rows[k].key
  }

  /** Old rows stay where they are, every key is in the outbox, nothing else is added, and no key
      is there twice. */
  lemma {:induction false} EnqueueAddsEachOnce(rows: seq<Row>, more: seq<Row>)
    requires NoRepeats(rows)
    ensures rows <= Enqueue(rows, more) && NoRepeats(Enqueue(rows, more))
    ensures forall key :: Queued(Enqueue(rows, more), key) <==> Queued(rows, key) || Queued(more, key)
    ensures forall row :: row in Enqueue(rows, more) ==> row in rows || row in more
  {
    if more != [] {
      var init, last := more[..|more| - 1], more[|more| - 1];
      var before := Enqueue(rows, init);
      assert more == init + [last];
      EnqueueAddsEachOnce(rows, init);
      HasRowMeans(before, last.key);
      forall key ensures Queued(more, key) <==> Queued(init, key) || last.key == key {
        QueuedAppend(init, last, key);
      }
      forall key ensures Queued(before + [last], key) <==> Queued(before, key) || last.key == key {
        QueuedAppend(before, last, key);
      }
    }
  }

  lemma QueuedAppend(rows: seq<Row>, row: Row, key: RowKey)
    ensures Queued(rows + [row], key) <==> Queued(rows, key) || row.key == key
  {
    var all := rows + [row];
    if Queued(rows, key) {
      var k :| 0 <= k < |rows| && rows[k].key == key;
      assert all[k].key == key;
    }
    assert all[|rows|] == row;
  }

  /** Queuing keys that are all there adds nothing. */
  lemma {:induction false} EnqueueKnownAddsNothing(rows: seq<Row>, more: seq<Row>)
    requires forall row :: row in more ==> Queued(rows, row.key)
    ensures Enqueue(rows, more) == rows
  {
    if more != [] {
      assert more == more[..|more| - 1] + [more[|more| - 1]];
      EnqueueKnownAddsNothing(rows, more[..|more| - 1]);
      HasRowMeans(rows, more[|more| - 1].key);
    }
  }

  function GroupRows(groups: seq<Group>): (r: seq<Row>)
    ensures |r| == |groups| && forall k :: 0 <= k < |r| ==> r[k] == Row(ReminderFire(groups[k].key), groups[k].fires)
  {
    seq(|groups|, k requires 0 <= k < |groups| => Row(ReminderFire(groups[k].key), groups[k].fires))
  }

  /** A second scan that finds no new event key adds nothing, in whatever order it finds them. */
  lemma RescanAddsNothing(rows: seq<Row>, more: seq<Row>, again: seq<Row>)
    requires NoRepeats(rows) && forall row :: row in again ==> Queued(more, row.key)
    ensures Enqueue(Enqueue(rows, more), again) == Enqueue(rows, more)
  {
    EnqueueAddsEachOnce(rows, more);
    EnqueueKnownAddsNothing(Enqueue(rows, more), again);
  }

  // --------------------------------------------------------- which fires are queued

  /** A row under `key` carries the fire. */
  ghost predicate Carries(rows: seq<Row>, key: RowKey, f: Fire) {
    exists k :: 0 <= k < |rows| && rows[k].key == key && f in rows[k].fires
  }

  /** What one row, queued or not, changes about the fires carried under a key. */
  lemma EnqueueOneCarries(rows: seq<Row>, row: Row, key: RowKey, f: Fire)
    ensures var after := if HasRow(rows, row.key) then rows else rows + [row];
            Carries(after, key, f) <==>
            Carries(rows, key, f) || (key == row.key && !Queued(rows, key) && f in row.fires)
  {
    HasRowMeans(rows, row.key);
    var all := rows + [row];
    assert all[|rows|] == row;
    assert forall k :: 0 <= k < |rows| ==> all[k] == rows[k];
  }

  /** Of the rows of one scan only the first under a key counts, and only if the key was absent. */
  lemma {:induction false} EnqueueCarries(rows: seq<Row>, more: seq<Row>, key: RowKey, f: Fire)
    requires NoRepeats(rows) && NoRepeats(more)
    ensures Carries(Enqueue(rows, more), key, f)
            <==> Carries(rows, key, f) || (!Queued(rows, key) && Carries(more, key, f))
  {
    if more != [] {
      var init, last := more[..|more| - 1], more[|more| - 1];
      assert more == init + [last];
      EnqueueCarries(rows, init, key, f);
      EnqueueOneCarries(Enqueue(rows, init), last, key, f);
      EnqueueAddsEachOnce(rows, init);
      CarriesAppend(init, last, key, f);
    }
  }

  lemma CarriesAppend(init: seq<Row>, last: Row, key: RowKey, f: Fire)
    requires NoRepeats(init + [last])
    ensures Carries(init + [last], key, f)
            <==> Carries(init, key, f) || (key == last.key && !Queued(init, key) && f in last.fires)
  {
    var all := init + [last];
    assert all[|init|] == last;
    assert forall k :: 0 <= k < |init| ==> all[k] == init[k];
  }

  /** After a scan a fire of a group is in the row of its owner and time exactly if that key was
      not queued before, or the old row already carried the fire. */
  lemma FireIsQueuedIff(rows: seq<Row>, groups: seq<Group>, others: seq<Row>, reminders: seq<Reminder>, k: nat, f: Fire)
    requires NoRepeats(rows) && AreGroups(groups, reminders) && k < |groups| && f in groups[k].fires
    requires forall row :: row in others ==> row.key.OtherEvent?
    ensures var key := ReminderFire(groups[k].key);
            Carries(Enqueue(Enqueue(rows, GroupRows(groups)), others), key, f) <==>
            !Queued(rows, key) || Carries(rows, key, f)
  {
    var key := ReminderFire(groups[k].key);
    var more := GroupRows(groups);
    GroupRowsDistinct(groups, reminders);
    assert more[k].key == key && f in more[k].fires;
    EnqueueAddsEachOnce(rows, more);
    EnqueueCarries(rows, more, key, f);
    OthersCarryNothing(Enqueue(rows, more), others, key, f);
  }

  lemma {:induction false} OthersCarryNothing(rows: seq<Row>, others: seq<Row>, key: RowKey, f: Fire)
    requires forall row :: row in others ==> row.key != key
    ensures Carries(Enqueue(rows, others), key, f) <==> Carries(rows, key, f)
  {
    if others != [] {
      var init, last := others[..|others| - 1], others[|others| - 1];
      assert others == init + [last];
      OthersCarryNothing(rows, init, key, f);
      EnqueueOneCarries(Enqueue(rows, init), last, key, f);
    }
  }

  lemma GroupRowsDistinct(groups: seq<Group>, reminders: seq<Reminder>)
    requires AreGroups(groups, reminders)
    ensures NoRepeats(GroupRows(groups))
  {
    var rows := GroupRows(groups);
    forall j, k | 0 <= j < k < |rows| ensures rows[j].key != rows[k].key {
      assert KeyLess(groups[j].key, groups[k].key);
    }
  }

  lemma FiresForAppend(reminders: seq<Reminder>, r: Reminder, key: Key)
    ensures FiresFor(reminders + [r], key)
            == FiresFor(reminders, key) + (if Fires(r) && KeyOf(r) == key then [FireOf(r)] else [])
  {
    assert (reminders + [r])[..|reminders|] == reminders;
  }

  lemma OneKeyGroups(groups: seq<Group>, reminders: seq<Reminder>, key: Key)
    requires forall r :: r in reminders ==> Fires(r) && KeyOf(r) == key
    requires |groups| == 1 && groups[0].key == key && groups[0].fires == FiresFor(reminders, key) != []
    ensures AreGroups(groups, reminders)
  {
  }

  lemma SameKeyAddsNothing(row: Row, again: Row)
    requires again.key == row.key
    ensures Enqueue(Enqueue([], [row]), [again]) == [row]
  {
    assert [row][..0] == [] && [again][..0] == [];
    assert Enqueue([], [row]) == [row];
    assert HasRow([row], again.key);
  }

  /** The groups of a first scan and of a later one, when a second reminder has been set since. */
  function GroupOf(early: Reminder): Group
    requires Fires(early)
  {
    Group(KeyOf(early), [FireOf(early)])
  }

  function GroupOfBoth(early: Reminder, late: Reminder): Group
    requires Fires(early) && Fires(late)
  {
    Group(KeyOf(early), [FireOf(early), FireOf(late)])
  }

  lemma GroupOfIsGroups(early: Reminder)
    requires Fires(early)
    ensures AreGroups([GroupOf(early)], [early])
  {
    FiresForAppend([], early, KeyOf(early));
    assert [] + [early] == [early];
    OneKeyGroups([GroupOf(early)], [early], KeyOf(early));
  }

  lemma GroupOfBothIsGroups(early: Reminder, late: Reminder)
    requires Fires(early) && Fires(late) && KeyOf(late) == KeyOf(early)
    ensures AreGroups([GroupOfBoth(early, late)], [early, late])
  {
    var key := KeyOf(early);
    FiresForAppend([], early, key);
    FiresForAppend([early], late, key);
    assert [] + [early] == [early] && [early] + [late] == [early, late];
    OneKeyGroups([GroupOfBoth(early, late)], [early, late], key);
  }

  /** It does happen that a fire is in no row: a reminder set for an owner and time that an earlier
      scan has queued. */
  lemma LateFireIsInNoRow(early: Reminder, late: Reminder)
    requires Fires(early) && Fires(late) && KeyOf(late) == KeyOf(early) && late.id != early.id
    ensures AreGroups([GroupOf(early)], [early]) && AreGroups([GroupOfBoth(early, late)], [early, late])
    ensures var rows := Enqueue(Enqueue([], GroupRows([GroupOf(early)])), GroupRows([GroupOfBoth(early, late)]));
            forall row :: row in rows ==> FireOf(late) !in row.fires
  {
    GroupOfIsGroups(early);
    GroupOfBothIsGroups(early, late);
    var key := ReminderFire(KeyOf(early));
    var row, again := Row(key, GroupOf(early).fires), Row(key, GroupOfBoth(early, late).fires);
    assert GroupRows([GroupOf(early)]) == [row] && GroupRows([GroupOfBoth(early, late)]) == [again];
    SameKeyAddsNothing(row, again);
  }

  class Scheduler {
    var outbox: seq<Row>

    constructor ()
      ensures outbox == []
    {
      outbox := [];
    }

    method AppendOutbox(row: Row) returns (added: nat)
      modifies this
      ensures outbox == Enqueue(old(outbox), [row])
      ensures added == |outbox| - |old(outbox)|
    {
      assert [row][..0] == [];
      if HasRow(outbox, row.key) {
        return 0;
      }
      outbox := outbox + [row];
      return 1;
    }

    method EnqueueEach(rows: seq<Row>) returns (count: nat)
      modifies this
      ensures outbox == Enqueue(old(outbox), rows)
      ensures count == |outbox| - |old(outbox)|
    {
      count := 0;
      for i := 0 to |rows|
        invariant outbox == Enqueue(old(outbox), rows[..i])
        invariant count == |outbox| - |old(outbox)|
      {
        assert rows[..i + 1][..i] == rows[..i] && [rows[i]][..0] == [];
        var added := AppendOutbox(rows[i]);
        count := count + added;
      }
      assert rows[..|rows|] == rows;
    }

    /** `scan_and_enqueue_due_turns`; `others` are the proactive and nightly events, in order. */
    method ScanAndEnqueueDueTurns(reminders: seq<Reminder>, others: seq<Row>) returns (count: nat, groups: seq<Group>)
      modifies this
      ensures AreGroups(groups, reminders)
      ensures outbox == Enqueue(Enqueue(old(outbox), GroupRows(groups)), others)
      ensures count == |outbox| - |old(outbox)|
    {
      groups := DueFireGroups(reminders);
      count := EnqueueEach(GroupRows(groups));
      var more := EnqueueEach(others);
      count := count + more;
    }
  }
}
