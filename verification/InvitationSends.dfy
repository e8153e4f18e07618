/** What one synchronisation sends to whom: exactly one message for each counter it raises, exactly the
    messages that are due when nothing fails, and a noted error for whatever stays behind. */
module InvitationSends {
  import opened BriefEvents
  import opened InvitationSync
  import opened InvitationLaws
  import opened InvitationRuns
  import opened InvitationMail
  import opened Prelude

  // ---------------------------------------------------------------- messages of one key and channel

  /** What was sent to one key on one channel from position `from` on. */
  function SentTo(log: seq<Message>, from: nat, key: string, c: Channel): (r: seq<Message>)
    ensures forall m :: m in r ==> m in log && m.key == key && m.channel == c
  {
    if |log| <= from then []
    else
      var m := log[|log| - 1];
      SentTo(log[..|log| - 1], from, key, c) + (if m.key == key && m.channel == c then [m] else [])
  }

  lemma SentOneMore(log: seq<Message>, m: Message, from: nat, key: string, c: Channel)
    requires from <= |log|
    ensures SentTo(log + [m], from, key, c) == SentTo(log, from, key, c) + if m.key == key && m.channel == c then [m] else []
  {
    assert (log + [m])[..|log|] == log;
  }

  /** One recipient and one channel, whatever fails. The counter was `was`; `sent` is what they got. */
  ghost predicate Justified(was: int, row: Row, c: Channel, e: Event, mode: PushMode, sent: seq<Message>)
    requires c in row.delivered
  {
    && (sent == [] || sent == [MessageFor(row, c, e)])
    && (c == Push && mode != PushOn ==> sent == [])
    && (row.delivered[c] != was ==> row.delivered[c] == row.sequence && was < row.sequence && (c == Push ==> mode != QuietHours))
    && (row.delivered[c] != was && (c == Push ==> mode == PushOn) ==> sent == [MessageFor(row, c, e)])
  }

  /** The same when nothing fails. */
  ghost predicate Punctual(was: int, row: Row, c: Channel, e: Event, mode: PushMode, sent: seq<Message>)
    requires c in row.delivered
  {
    && sent == (if was < row.sequence && (c == Push ==> mode == PushOn) then [MessageFor(row, c, e)] else [])
    && row.delivered[c] == if was < row.sequence && (c == Push ==> mode != QuietHours) then row.sequence else was
  }

  /** One channel of a row is dealt with, at a moment when the log is `log`. */
  ghost predicate ChannelDone(was: int, row: Row, c: Channel, log: seq<Message>, from: nat, e: Event, mode: PushMode, calm: bool) {
    && c in row.delivered
    && Justified(was, row, c, e, mode, SentTo(log, from, row.key, c))
    && (calm ==> Punctual(was, row, c, e, mode, SentTo(log, from, row.key, c)))
  }

  ghost predicate RowDone(before: Row, row: Row, log: seq<Message>, from: nat, e: Event, mode: PushMode, calm: bool) {
    && row == before.(delivered := row.delivered) && row.delivered.Keys == before.delivered.Keys
    && forall c :: c in row.delivered ==> ChannelDone(before.delivered[c], row, c, log, from, e, mode, calm)
  }

  lemma SentOneMoreToOne(log: seq<Message>, m: Message, from: nat)
    requires from <= |log|
    ensures SentTo(log + [m], from, m.key, m.channel) == SentTo(log, from, m.key, m.channel) + [m]
    ensures forall key, b :: key != m.key || b != m.channel ==> SentTo(log + [m], from, key, b) == SentTo(log, from, key, b)
  {
    SentOneMore(log, m, from, m.key, m.channel);
    forall key, b | key != m.key || b != m.channel ensures SentTo(log + [m], from, key, b) == SentTo(log, from, key, b) {
      SentOneMore(log, m, from, key, b);
    }
  }

  /** Delivery of row `i` on channel `c` touched nothing else. */
  ghost predicate OnlyChannel(t: Table, u: Table, i: nat, c: Channel, from: nat)
    requires i < |t.rows|
  {
    && OnlyDelivery(t, u, i) && t.log <= u.log
    && (forall b :: b in t.rows[i].delivered && b != c ==> u.rows[i].delivered[b] == t.rows[i].delivered[b])
    && (forall key, b :: key != t.rows[i].key || b != c ==> SentTo(u.log, from, key, b) == SentTo(t.log, from, key, b))
  }

  lemma OneChannel(
    d: Desk, i: nat, c: Channel, from: nat, kind: Kind, e: Event, mode: PushMode, fate: nat -> Fate, calm: bool)
    requires calm ==> NothingFails(fate) && d.run.alive
    requires i < |d.table.rows| && c in d.table.rows[i].delivered && from <= |d.table.log|
    requires RowInRange(d.table.rows[i]) && SentTo(d.table.log, from, d.table.rows[i].key, c) == []
    ensures var r := DeliverOn(d, i, c, kind, e, mode, fate); var row := d.table.rows[i];
      && OnlyChannel(d.table, r.table, i, c, from) && RowInRange(r.table.rows[i])
      && ChannelDone(row.delivered[c], r.table.rows[i], c, r.table.log, from, e, mode, calm)
      && (calm ==> r.run.alive)
  {
    hide DeliverOn, SentTo, NothingFails;
    DeliverOnFrame(d, i, c, kind, e, mode, fate);
    DeliverOnGoes(d, i, c, kind, e, mode, fate);
    DeliverOnSends(d, i, c, kind, e, mode, fate);
    SentOneMoreToOne(d.table.log, MessageFor(d.table.rows[i], c, e), from);
  }

  lemma OtherChannel(
    t: Table, u: Table, i: nat, b: Channel, c: Channel, from: nat, was: int, e: Event, mode: PushMode, calm: bool)
    requires i < |t.rows| && OnlyChannel(t, u, i, c, from) && b in t.rows[i].delivered && b != c
    ensures b in u.rows[i].delivered && u.rows[i].delivered[b] == t.rows[i].delivered[b]
    ensures u.rows[i].key == t.rows[i].key && SentTo(u.log, from, t.rows[i].key, b) == SentTo(t.log, from, t.rows[i].key, b)
    ensures ChannelDone(was, t.rows[i], b, t.log, from, e, mode, calm) ==> ChannelDone(was, u.rows[i], b, u.log, from, e, mode, calm)
  {
    hide SentTo;
    assert MessageFor(u.rows[i], b, e) == MessageFor(t.rows[i], b, e);
  }

  lemma OnlyChannels(t: Table, u: Table, v: Table, i: nat, c: Channel, from: nat)
    requires i < |t.rows| && OnlyDelivery(t, u, i) && OnlyChannel(u, v, i, c, from)
    requires t.log <= u.log && OtherKeysUntouched(t.log, u.log, from, t.rows[i].key)
    ensures OnlyDelivery(t, v, i) && t.log <= v.log && OtherKeysUntouched(t.log, v.log, from, t.rows[i].key)
  {
    hide SentTo;
  }

  ghost predicate OtherKeysUntouched(before: seq<Message>, log: seq<Message>, from: nat, key: string) {
    forall k, b :: k != key ==> SentTo(log, from, k, b) == SentTo(before, from, k, b)
  }

  lemma OneRow(
    d: Desk, i: nat, from: nat, kind: Kind, e: Event, push: string -> PushMode, fate: nat -> Fate, calm: bool)
    requires calm ==> NothingFails(fate) && d.run.alive
    requires i < |d.table.rows| && Carries(d.table, kind) && from <= |d.table.log| && RowInRange(d.table.rows[i])
    requires forall c :: SentTo(d.table.log, from, d.table.rows[i].key, c) == []
    ensures var r := DeliverRow(d, i, kind, e, push, fate); var row := d.table.rows[i];
      && OnlyDelivery(d.table, r.table, i) && d.table.log <= r.table.log
      && OtherKeysUntouched(d.table.log, r.table.log, from, row.key)
      && RowDone(row, r.table.rows[i], r.table.log, from, e, push(row.key), calm)
      && (calm ==> r.run.alive)
  {
    hide DeliverOn, SentTo, NothingFails, ChannelDone, RowInRange, OnlyChannel;
    var row := d.table.rows[i];
    var mode := push(row.key);
    OneChannel(d, i, Mail, from, kind, e, mode, fate, calm);
    var d1 := DeliverOn(d, i, Mail, kind, e, mode, fate);
    OnlyChannels(d.table, d.table, d1.table, i, Mail, from);
    if kind == Attendees {
      OtherChannel(d.table, d1.table, i, Notice, Mail, from, 0, e, mode, calm);
      OtherChannel(d.table, d1.table, i, Push, Mail, from, 0, e, mode, calm);
      OneChannel(d1, i, Notice, from, kind, e, mode, fate, calm);
      var d2 := DeliverOn(d1, i, Notice, kind, e, mode, fate);
      OnlyChannels(d.table, d1.table, d2.table, i, Notice, from);
      OtherChannel(d1.table, d2.table, i, Mail, Notice, from, row.delivered[Mail], e, mode, calm);
      OtherChannel(d1.table, d2.table, i, Push, Notice, from, 0, e, mode, calm);
      OneChannel(d2, i, Push, from, kind, e, mode, fate, calm);
      var d3 := DeliverOn(d2, i, Push, kind, e, mode, fate);
      OnlyChannels(d.table, d2.table, d3.table, i, Push, from);
      OtherChannel(d2.table, d3.table, i, Mail, Push, from, row.delivered[Mail], e, mode, calm);
      OtherChannel(d2.table, d3.table, i, Notice, Push, from, row.delivered[Notice], e, mode, calm);
    }
  }

  // ---------------------------------------------------------------- one table

  /** The first `i` rows and what was sent to them are as they were. */
  ghost predicate FirstsUntouched(t: Table, u: Table, i: nat, from: nat)
    requires i <= |t.rows| == |u.rows|
  {
    forall k :: 0 <= k < i ==>
      u.rows[k] == t.rows[k] && forall c :: SentTo(u.log, from, t.rows[k].key, c) == SentTo(t.log, from, t.rows[k].key, c)
  }

  /** From row `i` on nobody was told anything yet. */
  ghost predicate Untold(t: Table, i: nat, from: nat) {
    forall k, c :: i <= k < |t.rows| ==> SentTo(t.log, from, t.rows[k].key, c) == []
  }

  ghost predicate RowsDone(t: Table, u: Table, i: nat, from: nat, e: Event, push: string -> PushMode, calm: bool)
    requires |t.rows| == |u.rows|
  {
    forall k :: i <= k < |t.rows| ==> RowDone(t.rows[k], u.rows[k], u.log, from, e, push(t.rows[k].key), calm)
  }

  lemma RowIdle(row: Row, log: seq<Message>, from: nat, e: Event, mode: PushMode)
    requires forall c :: SentTo(log, from, row.key, c) == []
    ensures RowDone(row, row, log, from, e, mode, false)
  {
  }

  lemma RowStays(before: Row, row: Row, log: seq<Message>, after: seq<Message>, from: nat, e: Event, mode: PushMode, calm: bool)
    requires RowDone(before, row, log, from, e, mode, calm)
    requires forall c :: SentTo(after, from, row.key, c) == SentTo(log, from, row.key, c)
    ensures RowDone(before, row, after, from, e, mode, calm)
  {
    hide SentTo, MessageFor;
  }

  /** One row dealt with, the others waiting. */
  lemma RowStep(t: Table, u: Table, i: nat, from: nat)
    requires i < |t.rows| && KeysDistinct(t.rows) && OnlyDelivery(t, u, i) && OtherKeysUntouched(t.log, u.log, from, t.rows[i].key)
    requires Untold(t, i, from)
    ensures KeysDistinct(u.rows) && FirstsUntouched(t, u, i, from) && Untold(u, i + 1, from)
    ensures forall k :: i < k < |t.rows| ==> u.rows[k] == t.rows[k]
  {
    hide SentTo;
    forall k | 0 <= k < |t.rows| && k != i ensures u.rows[k] == t.rows[k] && t.rows[k].key != t.rows[i].key {
    }
  }

  lemma {:induction false} AllRows(
    d: Desk, i: nat, from: nat, kind: Kind, e: Event, push: string -> PushMode, fate: nat -> Fate, calm: bool)
    requires i <= |d.table.rows| && Carries(d.table, kind) && from <= |d.table.log|
    requires InRange(d.table) && KeysDistinct(d.table.rows) && Untold(d.table, i, from)
    requires calm ==> NothingFails(fate) && d.run.alive
    ensures var r := DeliverAll(d, i, kind, e, push, fate);
      && |r.table.rows| == |d.table.rows| && d.table.log <= r.table.log
      && FirstsUntouched(d.table, r.table, i, from)
      && RowsDone(d.table, r.table, i, from, e, push, calm)
      && (calm ==> r.run.alive)
    decreases |d.table.rows| - i
  {
    hide DeliverRow, SentTo, NothingFails, RowDone, RowInRange, KeysDistinct, OtherKeysUntouched;
    if !d.run.alive {
      forall k | i <= k < |d.table.rows|
        ensures RowDone(d.table.rows[k], d.table.rows[k], d.table.log, from, e, push(d.table.rows[k].key), calm)
      {
        RowIdle(d.table.rows[k], d.table.log, from, e, push(d.table.rows[k].key));
      }
    } else if i < |d.table.rows| {
      OneRow(d, i, from, kind, e, push, fate, calm);
      DeliverRowDoes(d, i, kind, e, push, fate);
      var next := DeliverRow(d, i, kind, e, push, fate);
      RowStep(d.table, next.table, i, from);
      AllRows(next, i + 1, from, kind, e, push, fate, calm);
      var r := DeliverAll(next, i + 1, kind, e, push, fate);
      RowStays(d.table.rows[i], next.table.rows[i], next.table.log, r.table.log, from, e, push(d.table.rows[i].key), calm);
    }
  }

  /** How far a row had been told before; a row that was not there yet starts at -1. */
  function CounterBefore(rows: seq<Row>, k: nat, c: Channel): int {
    if k < |rows| && c in rows[k].delivered then rows[k].delivered[c] else -1
  }

  lemma {:induction false} ReconcileCounters(d: Desk, i: nat, wanted: map<string, string>, revision: nat, fate: nat -> Fate)
    requires i <= |d.table.rows|
    ensures var r := Reconcile(d, i, wanted, revision, fate);
      && |r.table.rows| == |d.table.rows|
      && forall k :: 0 <= k < |d.table.rows| ==> r.table.rows[k].delivered == d.table.rows[k].delivered
    decreases |d.table.rows| - i
  {
    if d.run.alive && i < |d.table.rows| {
      var next := if Stale(d.table.rows[i], wanted, revision)
        then SaveRow(d, i, Restamped(d.table.rows[i], wanted, revision), fate) else d;
      ReconcileCounters(next, i + 1, wanted, revision, fate);
    }
  }

  lemma {:induction false} InviteCounters(
    d: Desk, people: seq<Recipient>, j: nat, known: set<string>, revision: nat, kind: Kind, fate: nat -> Fate)
    requires j <= |people|
    ensures var r := Invite(d, people, j, known, revision, kind, fate);
      && d.table.rows <= r.table.rows
      && forall k, c :: |d.table.rows| <= k < |r.table.rows| && c in r.table.rows[k].delivered ==> r.table.rows[k].delivered[c] == -1
    decreases |people| - j
  {
    if d.run.alive && j < |people| {
      if people[j].id in known {
        InviteCounters(d, people, j + 1, known, revision, kind, fate);
      } else {
        var f := fate(d.run.ops);
        var added := d.table.(rows := d.table.rows + [NewRow(people[j], revision, kind)]);
        InviteCounters(Desk(if Applied(f) then added else d.table, AfterWrite(d.run, f)), people, j + 1, known, revision, kind, fate);
      }
    }
  }

  /** Every row of the table after it was served, on every channel. */
  ghost predicate TableDone(before: Table, t: Table, e: Event, push: string -> PushMode, calm: bool) {
    && |before.rows| <= |t.rows| && before.log <= t.log
    && forall k, c :: 0 <= k < |t.rows| && c in t.rows[k].delivered ==>
         ChannelDone(CounterBefore(before.rows, k, c), t.rows[k], c, t.log, |before.log|, e, push(t.rows[k].key), calm)
  }

  lemma UntoldAtFirst(t: Table)
    ensures Untold(t, 0, |t.log|)
  {
  }

  lemma ServeSends(
    d: Desk, kind: Kind, e: Event, wanted: map<string, string>, newcomers: seq<Recipient>, push: string -> PushMode, fate: nat -> Fate)
    requires TableOk(d.table, kind, e) && Carries(d.table, kind)
    requires Distinct(newcomers) && Lists(wanted, newcomers) && OnlyIfScheduled(wanted, e)
    ensures var r := Serve(d, kind, e, wanted, newcomers, push, fate);
      && TableDone(d.table, r.table, e, push, NothingFails(fate) && d.run.alive)
      && (NothingFails(fate) && d.run.alive ==> r.run.alive)
  {
    hide Reconcile, Invite, DeliverAll, SentTo, NothingFails, ChannelDone;
    var reconciled := Reconcile(d, 0, wanted, e.revision, fate);
    ReconcileLaw(d, 0, wanted, kind, e, fate);
    ReconcileQuiet(d, 0, wanted, e.revision, fate);
    ReconcileKeeps(d, 0, wanted, e.revision, fate, kind);
    ReconcileCounters(d, 0, wanted, e.revision, fate);
    var known := KeySet(d.table.rows);
    var invited := Invite(reconciled, newcomers, 0, known, e.revision, kind, fate);
    InviteLaw(reconciled, newcomers, 0, known, wanted, kind, e, fate);
    InviteKeeps(reconciled, newcomers, 0, known, e.revision, kind, fate);
    InviteCounters(reconciled, newcomers, 0, known, e.revision, kind, fate);
    CountersInRange(invited.table, kind, e);
    UntoldAtFirst(invited.table);
    assert KeysDistinct(invited.table.rows);
    hide TableOk;
    AllRows(invited, 0, |d.table.log|, kind, e, push, fate, NothingFails(fate) && d.run.alive);
  }

  lemma NothingSent(t: Table, e: Event, push: string -> PushMode)
    ensures TableDone(t, t, e, push, false)
  {
  }

  lemma HostSends(d: Desk, e: Event, env: Env)
    requires TableOk(d.table, Hosts, e) && Distinct(env.recipients) && Carries(d.table, Hosts)
    ensures TableDone(d.table, ServeHosts(d, e, env).table, e, env.push, NothingFails(env.fate) && d.run.alive)
  {
    hide TableOk, TableDone;
    PeopleLaw(e, env);
    var gate := PrepareHost(e, d.run, env);
    if gate.proceed {
      var people := CurrentHosts(e, env);
      ServeSends(Desk(d.table, gate.run), Hosts, e, Wanted(people), Upcoming(e, env, people), env.push, env.fate);
    } else {
      NothingSent(d.table, e, env.push);
    }
  }

  lemma DoneUnderErrors(before: Table, t: Table, e: Event, errors: set<Pending>, push: string -> PushMode, calm: bool)
    requires TableDone(before, t, e, push, calm)
    ensures TableDone(before, t, e.(syncError := errors), push, calm)
  {
    hide SentTo;
    assert forall row, c :: MessageFor(row, c, e.(syncError := errors)) == MessageFor(row, c, e);
    forall k, c | 0 <= k < |t.rows| && c in t.rows[k].delivered
      ensures ChannelDone(CounterBefore(before.rows, k, c), t.rows[k], c, t.log, |before.log|, e.(syncError := errors), push(t.rows[k].key), calm)
    {
      assert ChannelDone(CounterBefore(before.rows, k, c), t.rows[k], c, t.log, |before.log|, e, push(t.rows[k].key), calm);
    }
  }

  lemma SyncDone(w: World, env: Env)
    requires WorldOk(w) && Distinct(env.recipients)
    ensures var r := Sync(w, env).world; var calm := env.ready && NothingFails(env.fate);
      TableDone(w.attendees, r.attendees, r.event, env.push, calm) && TableDone(w.hosts, r.hosts, r.event, env.push, calm)
  {
    WorldCarries(w);
    hide Serve, ServeHosts, TableOk, Sync, Opening, TableDone, Carries, NothingFails;
    if env.ready {
      SyncIs(w, env);
      OpeningLaw(w, env);
      var o := Opening(w, env);
      PeopleLaw(o.event, env);
      var people := CurrentRecipients(o.event, env);
      ServeSends(Desk(w.attendees, o.run), Attendees, o.event, Wanted(people), Upcoming(o.event, env, people), env.push, env.fate);
      HostSends(Desk(w.hosts, AttendeeDesk(w, env).run), o.event, env);
      var calm, errors := NothingFails(env.fate), HostDesk(w, env).run.errors;
      DoneUnderErrors(w.attendees, AttendeeDesk(w, env).table, o.event, errors, env.push, calm);
      DoneUnderErrors(w.hosts, HostDesk(w, env).table, o.event, errors, env.push, calm);
    } else {
      SyncIdle(w, env);
      NothingSent(w.attendees, w.event, env.push);
      NothingSent(w.hosts, w.event, env.push);
    }
  }

  // ---------------------------------------------------------------- main results

  /** What a row says on one channel: method, address, SEQUENCE and revision. */
  function WhatRowSays(row: Row, c: Channel, e: Event): (m: Message)
    ensures m.key == row.key && m.channel == c && m.sequence == row.sequence && m.revision == e.revision
    ensures m.verb == Request <==> row.active && e.status == Scheduled
    ensures m.address == if c == Mail then row.email else row.key
  {
    MessageFor(row, c, e)
  }

  /** Any synchronisation, whatever fails, and any attendee on any channel. At most one message goes out,
      and it is what the row says. No push goes to anybody with push off or in quiet hours. A counter
      moves only to the row's sequence, and whenever it does, that one message was sent, unless it is a
      push the participant has switched off. */
  lemma CounterMeansSent(w: World, env: Env, k: nat, c: Channel)
    requires WorldOk(w) && Distinct(env.recipients) && k < |Sync(w, env).world.attendees.rows|
    ensures var r := Sync(w, env).world; var row := r.attendees.rows[k];
      var sent := SentTo(r.attendees.log, |w.attendees.log|, row.key, c); var m := WhatRowSays(row, c, r.event);
      var was := CounterBefore(w.attendees.rows, k, c);
      && c in row.delivered
      && (sent == [] || sent == [m])
      && (c == Push && env.push(row.key) != PushOn ==> sent == [])
      && (row.delivered[c] != was ==> was < row.delivered[c] == row.sequence && (c == Push ==> env.push(row.key) != QuietHours))
      && (row.delivered[c] != was && (c == Push ==> env.push(row.key) == PushOn) ==> sent == [m])
  {
    SyncDone(w, env);
    SyncLaw(w, env);
    hide Sync, SentTo;
    assert RowOk(Sync(w, env).world.attendees.rows[k], Attendees, Sync(w, env).world.event);
    hide WorldOk;
  }

  /** The same without faults, exactly: mail and notices go to everybody whose row is ahead of the counter,
      a push to each of those with push on, one message each, and nothing else. Only quiet hours leave a
      counter behind. */
  lemma DueIsSentOnce(w: World, env: Env, k: nat, c: Channel)
    requires WorldOk(w) && Distinct(env.recipients) && env.ready && NothingFails(env.fate)
    requires k < |Sync(w, env).world.attendees.rows|
    ensures var r := Sync(w, env).world; var row := r.attendees.rows[k];
      var sent := SentTo(r.attendees.log, |w.attendees.log|, row.key, c); var m := WhatRowSays(row, c, r.event);
      var was := CounterBefore(w.attendees.rows, k, c);
      && c in row.delivered
      && sent == (if was < row.sequence && (c == Push ==> env.push(row.key) == PushOn) then [m] else [])
      && row.delivered[c] == if c == Push && env.push(row.key) == QuietHours then was else row.sequence
  {
    SyncDone(w, env);
    SyncLaw(w, env);
    hide Sync, SentTo;
    var row := Sync(w, env).world.attendees.rows[k];
    assert RowOk(row, Attendees, Sync(w, env).world.event);
    if k < |w.attendees.rows| {
      assert RowOk(w.attendees.rows[k], Attendees, w.event);
      assert w.attendees.rows[k].sequence <= row.sequence;
    }
    hide WorldOk;
  }

  /** The same for the mail to hosts, with faults and without. */
  lemma HostMailIsSentOnce(w: World, env: Env, k: nat)
    requires WorldOk(w) && Distinct(env.recipients) && k < |Sync(w, env).world.hosts.rows|
    ensures var r := Sync(w, env).world; var row := r.hosts.rows[k];
      var sent := SentTo(r.hosts.log, |w.hosts.log|, row.key, Mail); var m := WhatRowSays(row, Mail, r.event);
      var was := CounterBefore(w.hosts.rows, k, Mail);
      && row.delivered.Keys == {Mail}
      && (sent == [] || sent == [m])
      && (row.delivered[Mail] != was ==> was < row.delivered[Mail] == row.sequence && sent == [m])
      && (env.ready && NothingFails(env.fate) ==>
            row.delivered[Mail] == row.sequence && sent == if was < row.sequence then [m] else [])
  {
    SyncDone(w, env);
    SyncLaw(w, env);
    hide Sync, SentTo;
    var row := Sync(w, env).world.hosts.rows[k];
    assert RowOk(row, Hosts, Sync(w, env).world.event);
    if k < |w.hosts.rows| {
      assert RowOk(w.hosts.rows[k], Hosts, w.event);
      assert w.hosts.rows[k].sequence <= row.sequence;
    }
    hide WorldOk;
  }
}
