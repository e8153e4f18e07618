/** What every table of invitations keeps, whatever fails: the counters stay in range, each
    key has one row, and no two messages with one SEQUENCE disagree. */
module InvitationLaws {
  import opened BriefEvents
  import opened InvitationSync
  import opened Prelude

  ghost predicate KeysDistinct(rows: seq<Row>) {
    forall i, j :: 0 <= i < j < |rows| ==> rows[i].key != rows[j].key
  }

  ghost predicate RowOk(row: Row, kind: Kind, e: Event) {
    && row.delivered.Keys == Channels(kind)
    && (forall c :: c in row.delivered ==> -1 <= row.delivered[c] <= row.sequence)
    && row.revision <= e.revision
    && (row.active && row.revision == e.revision ==> e.status == Scheduled)
  }

  /** `m` tells what the row says now. */
  ghost predicate Speaks(m: Message, row: Row) {
    && m.verb == (if row.active then Request else Cancel)
    && m.address == Address(row, m.channel)
    && (row.active ==> m.revision == row.revision)
  }

  ghost predicate Fits(m: Message, row: Row) {
    && m.key == row.key
    && m.sequence <= row.sequence
    && (m.sequence == row.sequence ==> Speaks(m, row))
  }

  ghost predicate Explained(m: Message, rows: seq<Row>) {
    exists i :: 0 <= i < |rows| && Fits(m, rows[i])
  }

  /** The rule a reader of the newest SEQUENCE relies on. */
  ghost predicate Agree(m: Message, n: Message) {
    m.key == n.key && m.sequence == n.sequence ==>
      && m.verb == n.verb
      && (m.channel == n.channel ==> m.address == n.address)
      && (m.verb == Request ==> m.revision == n.revision)
  }

  ghost predicate Unambiguous(log: seq<Message>) {
    forall j, k :: 0 <= j < |log| && 0 <= k < |log| ==> Agree(log[j], log[k])
  }

  ghost predicate WasSent(log: seq<Message>, key: string, c: Channel, sequence: int) {
    exists k :: 0 <= k < |log| && log[k].key == key && log[k].channel == c && log[k].sequence == sequence
  }

  /** A counter on a channel that always sends is backed by a message. */
  ghost predicate Backed(row: Row, log: seq<Message>) {
    forall c :: c in row.delivered && c != Push && 0 <= row.delivered[c] ==>
      WasSent(log, row.key, c, row.delivered[c])
  }

  ghost predicate TableOk(t: Table, kind: Kind, e: Event) {
    && KeysDistinct(t.rows)
    && (forall i :: 0 <= i < |t.rows| ==> RowOk(t.rows[i], kind, e) && Backed(t.rows[i], t.log))
    && (forall k :: 0 <= k < |t.log| ==> Explained(t.log[k], t.rows))
    && Unambiguous(t.log)
  }

  ghost predicate WorldOk(w: World) {
    && w.event.zoomSynced <= w.event.revision
    && ScheduleHolds(w.event)
    && TableOk(w.attendees, Attendees, w.event)
    && TableOk(w.hosts, Hosts, w.event)
  }

  /** The row says what the recipients say, at the event's revision. */
  ghost predicate Current(row: Row, wanted: map<string, string>, e: Event) {
    !Stale(row, wanted, e.revision)
  }

  ghost predicate AllCurrent(rows: seq<Row>, n: nat, wanted: map<string, string>, e: Event)
    requires n <= |rows|
  {
    forall i :: 0 <= i < n ==> Current(rows[i], wanted, e)
  }

  ghost predicate OnlyIfScheduled(wanted: map<string, string>, e: Event) {
    e.status == Cancelled ==> wanted == map[]
  }

  // ---------------------------------------------------------------- single operations

  lemma SentStays(log: seq<Message>, more: seq<Message>, key: string, c: Channel, sequence: int)
    requires WasSent(log, key, c, sequence)
    ensures WasSent(log + more, key, c, sequence)
  {
    var k :| 0 <= k < |log| && log[k].key == key && log[k].channel == c && log[k].sequence == sequence;
    assert (log + more)[k] == log[k];
  }

  lemma RestampKeeps(t: Table, i: nat, wanted: map<string, string>, kind: Kind, e: Event)
    requires TableOk(t, kind, e) && i < |t.rows|
    requires Stale(t.rows[i], wanted, e.revision) && OnlyIfScheduled(wanted, e)
    ensures TableOk(t.(rows := t.rows[i := Restamped(t.rows[i], wanted, e.revision)]), kind, e)
  {
    var row := t.rows[i];
    var stamped := Restamped(row, wanted, e.revision);
    var rows := t.rows[i := stamped];
    forall k | 0 <= k < |t.log| ensures Explained(t.log[k], rows) {
      var j :| 0 <= j < |t.rows| && Fits(t.log[k], t.rows[j]);
      assert Fits(t.log[k], rows[j]);
    }
  }

  lemma RecordedRowOk(row: Row, c: Channel, kind: Kind, e: Event, log: seq<Message>)
    requires RowOk(row, kind, e) && Backed(row, log) && c in row.delivered
    requires c != Push ==> WasSent(log, row.key, c, row.sequence)
    ensures RowOk(Recorded(row, c), kind, e) && Backed(Recorded(row, c), log)
  {
    assert Recorded(row, c).delivered.Keys == row.delivered.Keys;
  }

  /** Replacing a row by one that says the same keeps the table. */
  lemma ReplaceKeeps(t: Table, i: nat, row: Row, kind: Kind, e: Event)
    requires TableOk(t, kind, e) && i < |t.rows|
    requires row == t.rows[i].(delivered := row.delivered)
    requires RowOk(row, kind, e) && Backed(row, t.log)
    ensures TableOk(t.(rows := t.rows[i := row]), kind, e)
  {
    hide RowOk, Backed, Fits, Unambiguous;
    var rows := t.rows[i := row];
    forall k | 0 <= k < |t.log| ensures Explained(t.log[k], rows) {
      assert Explained(t.log[k], t.rows);
      var j :| 0 <= j < |t.rows| && Fits(t.log[k], t.rows[j]);
      FitsAsWell(t.log[k], t.rows[i], row);
      assert Fits(t.log[k], rows[j]);
    }
  }

  lemma FitsAsWell(m: Message, row: Row, other: Row)
    requires other == row.(delivered := other.delivered)
    ensures Fits(m, row) <==> Fits(m, other)
  {
  }

  lemma RecordKeeps(t: Table, i: nat, c: Channel, kind: Kind, e: Event)
    requires TableOk(t, kind, e) && i < |t.rows| && c in t.rows[i].delivered
    requires c != Push ==> WasSent(t.log, t.rows[i].key, c, t.rows[i].sequence)
    ensures TableOk(t.(rows := t.rows[i := Recorded(t.rows[i], c)]), kind, e)
  {
    RecordedRowOk(t.rows[i], c, kind, e, t.log);
    ReplaceKeeps(t, i, Recorded(t.rows[i], c), kind, e);
  }

  lemma SendKeeps(t: Table, i: nat, c: Channel, kind: Kind, e: Event, wanted: map<string, string>)
    requires TableOk(t, kind, e) && i < |t.rows| && c in t.rows[i].delivered
    requires Current(t.rows[i], wanted, e) && OnlyIfScheduled(wanted, e)
    ensures var sent := t.(log := t.log + [MessageFor(t.rows[i], c, e)]);
            TableOk(sent, kind, e) && WasSent(sent.log, t.rows[i].key, c, t.rows[i].sequence)
  {
    var m := MessageFor(t.rows[i], c, e);
    var log := t.log + [m];
    assert log[|t.log|] == m;
    assert Fits(m, t.rows[i]);
    forall k | 0 <= k < |t.log| ensures Agree(log[k], m) && Agree(m, log[k]) {
      var j :| 0 <= j < |t.rows| && Fits(t.log[k], t.rows[j]);
    }
    forall k | 0 <= k < |log| ensures Explained(log[k], t.rows) {
      if k < |t.log| { assert log[k] == t.log[k]; }
    }
    forall j | 0 <= j < |t.rows| ensures Backed(t.rows[j], log) {
      var row := t.rows[j];
      forall b | b in row.delivered && b != Push && 0 <= row.delivered[b]
        ensures WasSent(log, row.key, b, row.delivered[b])
      {
        SentStays(t.log, [m], row.key, b, row.delivered[b]);
      }
    }
  }

  lemma AddKeeps(t: Table, p: Recipient, kind: Kind, e: Event)
    requires TableOk(t, kind, e) && p.id !in KeySet(t.rows) && e.status == Scheduled
    ensures TableOk(t.(rows := t.rows + [NewRow(p, e.revision, kind)]), kind, e)
  {
    var rows := t.rows + [NewRow(p, e.revision, kind)];
    forall i | 0 <= i < |t.rows| ensures t.rows[i].key != p.id && rows[i] == t.rows[i] {
      assert t.rows[i].key in KeySet(t.rows);
    }
    forall k | 0 <= k < |t.log| ensures Explained(t.log[k], rows) {
      var j :| 0 <= j < |t.rows| && Fits(t.log[k], t.rows[j]);
      assert Fits(t.log[k], rows[j]);
    }
  }

  // ---------------------------------------------------------------- the three loops

  ghost predicate NothingFails(fate: nat -> Fate) {
    forall n: nat :: fate(n) == Done
  }

  ghost predicate Awake(push: string -> PushMode) {
    forall key :: push(key) != QuietHours
  }

  /** Rows and messages are only ever added; a row keeps its place and key, and its sequence
      never decreases. */
  ghost predicate Grows(t: Table, u: Table) {
    && |t.rows| <= |u.rows|
    && (forall i :: 0 <= i < |t.rows| ==> u.rows[i].key == t.rows[i].key && t.rows[i].sequence <= u.rows[i].sequence)
    && t.log <= u.log
  }

  lemma GrowsTransitive(t: Table, u: Table, v: Table)
    requires Grows(t, u) && Grows(u, v)
    ensures Grows(t, v)
  {
  }

  lemma ReconcileStep(d: Desk, i: nat, wanted: map<string, string>, kind: Kind, e: Event, fate: nat -> Fate)
    requires i < |d.table.rows| && TableOk(d.table, kind, e) && OnlyIfScheduled(wanted, e)
    requires AllCurrent(d.table.rows, i, wanted, e) && Stale(d.table.rows[i], wanted, e.revision)
    ensures var next := SaveRow(d, i, Restamped(d.table.rows[i], wanted, e.revision), fate);
      && TableOk(next.table, kind, e) && Grows(d.table, next.table)
      && (next.run.alive ==> AllCurrent(next.table.rows, i + 1, wanted, e))
  {
    RestampKeeps(d.table, i, wanted, kind, e);
  }

  lemma {:induction false} ReconcileLaw(d: Desk, i: nat, wanted: map<string, string>, kind: Kind, e: Event, fate: nat -> Fate)
    requires i <= |d.table.rows| && TableOk(d.table, kind, e)
    requires OnlyIfScheduled(wanted, e) && AllCurrent(d.table.rows, i, wanted, e)
    ensures var r := Reconcile(d, i, wanted, e.revision, fate);
      && TableOk(r.table, kind, e) && Grows(d.table, r.table)
      && (r.run.alive ==> AllCurrent(r.table.rows, |r.table.rows|, wanted, e))
    decreases |d.table.rows| - i
  {
    hide TableOk;
    if d.run.alive && i < |d.table.rows| {
      if Stale(d.table.rows[i], wanted, e.revision) {
        ReconcileStep(d, i, wanted, kind, e, fate);
        var next := SaveRow(d, i, Restamped(d.table.rows[i], wanted, e.revision), fate);
        if next.run.alive {
          ReconcileLaw(next, i + 1, wanted, kind, e, fate);
          GrowsTransitive(d.table, next.table, Reconcile(next, i + 1, wanted, e.revision, fate).table);
        }
      } else {
        ReconcileLaw(d, i + 1, wanted, kind, e, fate);
      }
    }
  }

  lemma {:induction false} ReconcileQuiet(d: Desk, i: nat, wanted: map<string, string>, revision: nat, fate: nat -> Fate)
    requires i <= |d.table.rows|
    ensures var r := Reconcile(d, i, wanted, revision, fate);
      && |r.table.rows| == |d.table.rows| && r.table.log == d.table.log && r.run.errors == d.run.errors
      && (NothingFails(fate) && d.run.alive ==> r.run.alive)
    decreases |d.table.rows| - i
  {
    if d.run.alive && i < |d.table.rows| {
      var next := if Stale(d.table.rows[i], wanted, revision)
        then SaveRow(d, i, Restamped(d.table.rows[i], wanted, revision), fate) else d;
      ReconcileQuiet(next, i + 1, wanted, revision, fate);
    }
  }

  ghost predicate Lists(wanted: map<string, string>, people: seq<Recipient>) {
    forall j :: 0 <= j < |people| ==> people[j].id in wanted && wanted[people[j].id] == people[j].email
  }

  ghost predicate AllKnown(rows: seq<Row>, people: seq<Recipient>, j: nat)
    requires j <= |people|
  {
    forall k :: 0 <= k < j ==> people[k].id in KeySet(rows)
  }

  ghost predicate NoneYet(rows: seq<Row>, people: seq<Recipient>, j: nat, known: set<string>)
    requires j <= |people|
  {
    forall k :: j <= k < |people| && people[k].id !in known ==> people[k].id !in KeySet(rows)
  }

  lemma AddedKey(rows: seq<Row>, row: Row)
    ensures KeySet(rows + [row]) == KeySet(rows) + {row.key}
  {
    var more := rows + [row];
    assert more[|rows|] == row;
    forall key | key in KeySet(rows) ensures key in KeySet(more) {
      var i :| 0 <= i < |rows| && rows[i].key == key;
      assert more[i] == rows[i];
    }
  }

  lemma {:induction false} InviteLaw(
    d: Desk, people: seq<Recipient>, j: nat, known: set<string>, wanted: map<string, string>, kind: Kind, e: Event,
    fate: nat -> Fate)
    requires j <= |people| && Distinct(people) && Lists(wanted, people) && known <= KeySet(d.table.rows)
    requires AllKnown(d.table.rows, people, j) && NoneYet(d.table.rows, people, j, known)
    requires TableOk(d.table, kind, e) && OnlyIfScheduled(wanted, e)
    requires d.run.alive ==> AllCurrent(d.table.rows, |d.table.rows|, wanted, e)
    ensures var r := Invite(d, people, j, known, e.revision, kind, fate);
      && TableOk(r.table, kind, e) && Grows(d.table, r.table)
      && r.table.log == d.table.log && r.run.errors == d.run.errors
      && (r.run.alive ==> AllCurrent(r.table.rows, |r.table.rows|, wanted, e) && AllKnown(r.table.rows, people, |people|))
      && (NothingFails(fate) && d.run.alive ==> r.run.alive)
    decreases |people| - j
  {
    hide TableOk;
    if d.run.alive && j < |people| {
      var p := people[j];
      if p.id in known {
        InviteLaw(d, people, j + 1, known, wanted, kind, e, fate);
      } else {
        assert e.status != Cancelled;
        AddKeeps(d.table, p, kind, e);
        var row := NewRow(p, e.revision, kind);
        AddedKey(d.table.rows, row);
        var f := fate(d.run.ops);
        if f == Done {
          var next := Desk(d.table.(rows := d.table.rows + [row]), Went(d.run));
          InviteLaw(next, people, j + 1, known, wanted, kind, e, fate);
        }
      }
    }
  }

  /** Row `i` has nothing behind on channel `c`, or the failure was noted. */
  ghost predicate Attended(d: Desk, i: nat, c: Channel, kind: Kind)
    requires i < |d.table.rows|
  {
    c in d.table.rows[i].delivered ==>
      d.table.rows[i].delivered[c] == d.table.rows[i].sequence || Label(kind, c) in d.run.errors
  }

  lemma DeliverOnKeeps(
    d: Desk, i: nat, c: Channel, wanted: map<string, string>, kind: Kind, e: Event, mode: PushMode, fate: nat -> Fate)
    requires TableOk(d.table, kind, e) && i < |d.table.rows| && c in d.table.rows[i].delivered
    requires Current(d.table.rows[i], wanted, e) && OnlyIfScheduled(wanted, e)
    ensures TableOk(DeliverOn(d, i, c, kind, e, mode, fate).table, kind, e)
  {
    hide TableOk, Current, OnlyIfScheduled, MessageFor, Recorded;
    var t := d.table;
    var sent := t.(log := t.log + [MessageFor(t.rows[i], c, e)]);
    SendKeeps(t, i, c, kind, e, wanted);
    RecordKeeps(sent, i, c, kind, e);
    if c == Push {
      RecordKeeps(t, i, c, kind, e);
    }
  }

  lemma DeliverOnNotes(d: Desk, i: nat, c: Channel, kind: Kind, e: Event, mode: PushMode, fate: nat -> Fate)
    requires i < |d.table.rows| && c in d.table.rows[i].delivered
    requires d.table.rows[i].delivered[c] <= d.table.rows[i].sequence
    ensures var r := DeliverOn(d, i, c, kind, e, mode, fate);
      && d.run.errors <= r.run.errors && (r.run.alive ==> d.run.alive)
      && (r.run.alive && (c != Push || mode != QuietHours) ==> Attended(r, i, c, kind))
  {
    hide MessageFor;
  }

  lemma DeliverOnGoes(d: Desk, i: nat, c: Channel, kind: Kind, e: Event, mode: PushMode, fate: nat -> Fate)
    requires i < |d.table.rows| && c in d.table.rows[i].delivered
    requires d.table.rows[i].delivered[c] <= d.table.rows[i].sequence
    ensures var r := DeliverOn(d, i, c, kind, e, mode, fate);
      && (NothingFails(fate) && d.run.alive ==> r.run.alive && r.run.errors == d.run.errors)
      && (NothingFails(fate) && d.run.alive && (c != Push || mode != QuietHours) ==>
            r.table.rows[i].delivered[c] == r.table.rows[i].sequence)
  {
    hide MessageFor;
  }

  lemma DeliverOnFrame(d: Desk, i: nat, c: Channel, kind: Kind, e: Event, mode: PushMode, fate: nat -> Fate)
    requires i < |d.table.rows| && c in d.table.rows[i].delivered
    requires d.table.rows[i].delivered[c] <= d.table.rows[i].sequence
    ensures var r := DeliverOn(d, i, c, kind, e, mode, fate);
      && OnlyDelivery(d.table, r.table, i) && d.table.log <= r.table.log
      && (forall b :: b in d.table.rows[i].delivered && b != c ==> r.table.rows[i].delivered[b] == d.table.rows[i].delivered[b])
      && r.table.rows[i].delivered[c] <= r.table.rows[i].sequence
  {
    hide MessageFor, Failed, Stopped, Went;
  }

  /** At most one message, and it is the row's. A counter moves only to the row's sequence and only with
      that message, but for a push the participant has switched off. */
  lemma DeliverOnSends(d: Desk, i: nat, c: Channel, kind: Kind, e: Event, mode: PushMode, fate: nat -> Fate)
    requires i < |d.table.rows| && c in d.table.rows[i].delivered
    ensures var r := DeliverOn(d, i, c, kind, e, mode, fate);
      var row, m := d.table.rows[i], MessageFor(d.table.rows[i], c, e);
      var was, counter := row.delivered[c], r.table.rows[i].delivered[c];
      && (r.table.log == d.table.log || r.table.log == d.table.log + [m])
      && (c == Push && mode != PushOn ==> r.table.log == d.table.log)
      && (counter != was ==> counter == row.sequence && was < row.sequence && (c == Push ==> mode != QuietHours))
      && (counter != was && (c == Push ==> mode == PushOn) ==> r.table.log == d.table.log + [m])
      && (NothingFails(fate) && d.run.alive ==>
            && r.table.log == (if was < row.sequence && (c == Push ==> mode == PushOn) then d.table.log + [m] else d.table.log)
            && counter == if was < row.sequence && (c == Push ==> mode != QuietHours) then row.sequence else was)
  {
    hide MessageFor;
  }

  lemma DeliverOnDoes(d: Desk, i: nat, c: Channel, kind: Kind, e: Event, mode: PushMode, fate: nat -> Fate)
    requires i < |d.table.rows| && c in d.table.rows[i].delivered
    requires d.table.rows[i].delivered[c] <= d.table.rows[i].sequence
    ensures var r := DeliverOn(d, i, c, kind, e, mode, fate);
      var m := MessageFor(d.table.rows[i], c, e);
      && OnlyDelivery(d.table, r.table, i)
      && (r.table.log == d.table.log || r.table.log == d.table.log + [m])
      && (r.table.rows[i].delivered[c] != d.table.rows[i].delivered[c] && (c == Push ==> mode == PushOn) ==>
            r.table.log == d.table.log + [m])
      && d.run.errors <= r.run.errors && (r.run.alive ==> d.run.alive)
      && (forall b :: b in d.table.rows[i].delivered && b != c ==> r.table.rows[i].delivered[b] == d.table.rows[i].delivered[b])
      && r.table.rows[i].delivered[c] <= r.table.rows[i].sequence
      && (r.run.alive && (c != Push || mode != QuietHours) ==> Attended(r, i, c, kind))
      && (NothingFails(fate) && d.run.alive ==> r.run.alive && r.run.errors == d.run.errors)
      && (NothingFails(fate) && d.run.alive && (c != Push || mode != QuietHours) ==>
            r.table.rows[i].delivered[c] == r.table.rows[i].sequence)
  {
    hide DeliverOn, Attended, NothingFails, MessageFor;
    DeliverOnFrame(d, i, c, kind, e, mode, fate);
    DeliverOnSends(d, i, c, kind, e, mode, fate);
    DeliverOnNotes(d, i, c, kind, e, mode, fate);
    DeliverOnGoes(d, i, c, kind, e, mode, fate);
  }

  ghost predicate RowInRange(row: Row) {
    forall c :: c in row.delivered ==> row.delivered[c] <= row.sequence
  }

  ghost predicate InRange(t: Table) {
    forall k :: 0 <= k < |t.rows| ==> RowInRange(t.rows[k])
  }

  ghost predicate Delivered(row: Row) {
    forall c :: c in row.delivered ==> row.delivered[c] == row.sequence
  }

  lemma SameStampsCurrent(t: Table, u: Table, i: nat, wanted: map<string, string>, e: Event)
    requires i < |t.rows| && OnlyDelivery(t, u, i) && AllCurrent(t.rows, |t.rows|, wanted, e)
    ensures AllCurrent(u.rows, |u.rows|, wanted, e)
  {
    forall k | 0 <= k < |u.rows| ensures Current(u.rows[k], wanted, e) {
      assert Current(t.rows[k], wanted, e);
    }
  }

  lemma CountersInRange(t: Table, kind: Kind, e: Event)
    requires TableOk(t, kind, e)
    ensures InRange(t)
  {
    forall i | 0 <= i < |t.rows| ensures RowInRange(t.rows[i]) {
      assert RowOk(t.rows[i], kind, e);
    }
  }

  /** What delivering row `i` achieves: nothing but its counters changed, and mail is either
      sent or noted as pending. */
  ghost predicate RowServed(d: Desk, r: Desk, i: nat, kind: Kind)
    requires i < |d.table.rows|
  {
    && OnlyDelivery(d.table, r.table, i)
    && d.table.log <= r.table.log
    && d.run.errors <= r.run.errors
    && (r.run.alive ==> Attended(r, i, Mail, kind))
  }

  ghost predicate Calm(push: string -> PushMode, fate: nat -> Fate) {
    NothingFails(fate) && Awake(push)
  }

  lemma DeliverRowKeeps(
    d: Desk, i: nat, wanted: map<string, string>, kind: Kind, e: Event, push: string -> PushMode, fate: nat -> Fate)
    requires TableOk(d.table, kind, e) && i < |d.table.rows| && Carries(d.table, kind)
    requires AllCurrent(d.table.rows, |d.table.rows|, wanted, e) && OnlyIfScheduled(wanted, e)
    ensures TableOk(DeliverRow(d, i, kind, e, push, fate).table, kind, e)
  {
    hide TableOk;
    var mode := push(d.table.rows[i].key);
    assert Current(d.table.rows[i], wanted, e);
    DeliverOnKeeps(d, i, Mail, wanted, kind, e, mode, fate);
    if kind == Attendees {
      var d1 := DeliverOn(d, i, Mail, kind, e, mode, fate);
      DeliverOnKeeps(d1, i, Notice, wanted, kind, e, mode, fate);
      var d2 := DeliverOn(d1, i, Notice, kind, e, mode, fate);
      DeliverOnKeeps(d2, i, Push, wanted, kind, e, mode, fate);
    }
  }

  lemma DeliverRowDoes(d: Desk, i: nat, kind: Kind, e: Event, push: string -> PushMode, fate: nat -> Fate)
    requires i < |d.table.rows| && Carries(d.table, kind)
    requires RowInRange(d.table.rows[i])
    ensures var r := DeliverRow(d, i, kind, e, push, fate);
      && RowServed(d, r, i, kind) && RowInRange(r.table.rows[i])
      && (Calm(push, fate) && d.run.alive ==> r.run.alive && r.run.errors == d.run.errors && Delivered(r.table.rows[i]))
  {
    hide DeliverOn, MessageFor;
    var mode := push(d.table.rows[i].key);
    DeliverOnDoes(d, i, Mail, kind, e, mode, fate);
    if kind == Attendees {
      var d1 := DeliverOn(d, i, Mail, kind, e, mode, fate);
      DeliverOnDoes(d1, i, Notice, kind, e, mode, fate);
      var d2 := DeliverOn(d1, i, Notice, kind, e, mode, fate);
      DeliverOnDoes(d2, i, Push, kind, e, mode, fate);
    }
  }

  lemma CarriesAll(t: Table, kind: Kind, e: Event)
    requires TableOk(t, kind, e)
    ensures Carries(t, kind)
  {
    forall i | 0 <= i < |t.rows| ensures t.rows[i].delivered.Keys == Channels(kind) {
      assert RowOk(t.rows[i], kind, e);
    }
  }

  lemma WorldCarries(w: World)
    requires WorldOk(w)
    ensures Carries(w.attendees, Attendees) && Carries(w.hosts, Hosts)
  {
    CarriesAll(w.attendees, Attendees, w.event);
    CarriesAll(w.hosts, Hosts, w.event);
  }

  lemma {:induction false} DeliverAllKeeps(
    d: Desk, i: nat, wanted: map<string, string>, kind: Kind, e: Event, push: string -> PushMode, fate: nat -> Fate)
    requires TableOk(d.table, kind, e) && i <= |d.table.rows| && Carries(d.table, kind)
    requires AllCurrent(d.table.rows, |d.table.rows|, wanted, e) && OnlyIfScheduled(wanted, e)
    ensures var r := DeliverAll(d, i, kind, e, push, fate);
      && TableOk(r.table, kind, e) && AllCurrent(r.table.rows, |r.table.rows|, wanted, e) && Grows(d.table, r.table)
    decreases |d.table.rows| - i
  {
    hide TableOk;
    if d.run.alive && i < |d.table.rows| {
      CountersInRange(d.table, kind, e);
      DeliverRowKeeps(d, i, wanted, kind, e, push, fate);
      DeliverRowDoes(d, i, kind, e, push, fate);
      var next := DeliverRow(d, i, kind, e, push, fate);
      SameStampsCurrent(d.table, next.table, i, wanted, e);
      DeliverAllKeeps(next, i + 1, wanted, kind, e, push, fate);
      GrowsTransitive(d.table, next.table, DeliverAll(next, i + 1, kind, e, push, fate).table);
    }
  }

  ghost predicate MailAttended(d: Desk, n: nat, kind: Kind)
    requires n <= |d.table.rows|
  {
    forall k :: 0 <= k < n ==> Attended(d, k, Mail, kind)
  }

  ghost predicate AllDelivered(t: Table, n: nat)
    requires n <= |t.rows|
  {
    forall k :: 0 <= k < n ==> Delivered(t.rows[k])
  }

  lemma ServedFrame(d: Desk, r: Desk, i: nat, kind: Kind)
    requires i < |d.table.rows| && RowServed(d, r, i, kind) && RowInRange(r.table.rows[i])
    requires InRange(d.table) && MailAttended(d, i, kind)
    ensures InRange(r.table) && (r.run.alive ==> MailAttended(r, i + 1, kind))
    ensures |r.table.rows| == |d.table.rows| && d.run.errors <= r.run.errors && (Carries(d.table, kind) ==> Carries(r.table, kind))
    ensures AllDelivered(d.table, i) && Delivered(r.table.rows[i]) ==> AllDelivered(r.table, i + 1)
  {
    forall k | 0 <= k < |r.table.rows| && k != i ensures r.table.rows[k] == d.table.rows[k] {
    }
    forall k | 0 <= k < i ensures Attended(r, k, Mail, kind) {
      assert Attended(d, k, Mail, kind);
    }
    hide RowInRange, Attended, Delivered;
  }

  lemma {:induction false} DeliverAllDoes(d: Desk, i: nat, kind: Kind, e: Event, push: string -> PushMode, fate: nat -> Fate)
    requires i <= |d.table.rows| && Carries(d.table, kind) && InRange(d.table) && MailAttended(d, i, kind)
    ensures var r := DeliverAll(d, i, kind, e, push, fate);
      && |r.table.rows| == |d.table.rows| && d.run.errors <= r.run.errors
      && (r.run.alive ==> MailAttended(r, |r.table.rows|, kind))
      && (Calm(push, fate) && d.run.alive && AllDelivered(d.table, i) ==>
            r.run.alive && r.run.errors == d.run.errors && AllDelivered(r.table, |r.table.rows|))
    decreases |d.table.rows| - i
  {
    hide DeliverRow, RowServed, MailAttended, AllDelivered, RowInRange, Calm, Delivered;
    if d.run.alive && i < |d.table.rows| {
      DeliverRowDoes(d, i, kind, e, push, fate);
      var next := DeliverRow(d, i, kind, e, push, fate);
      ServedFrame(d, next, i, kind);
      if next.run.alive {
        DeliverAllDoes(next, i + 1, kind, e, push, fate);
      }
    }
  }
}
