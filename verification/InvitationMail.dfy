/** What each address and each download shows: mail follows the address a row has now, pushes
    follow the participant's settings, and downloads carry a SEQUENCE of their own. */
module InvitationMail {
  import opened BriefEvents
  import opened InvitationSync
  import opened InvitationLaws
  import opened InvitationRuns
  import opened Prelude

  // ---------------------------------------------------------------- what a synchronisation sends

  /** The message tells the present state of one of the rows for the event as it stands, and a push
      goes only to somebody who wants one now. */
  ghost predicate Tells(m: Message, rows: seq<Row>, e: Event, push: string -> PushMode) {
    exists i :: 0 <= i < |rows| && TellsRow(m, rows[i], e, push)
  }

  predicate TellsRow(m: Message, row: Row, e: Event, push: string -> PushMode) {
    m == MessageFor(row, m.channel, e) && (m.channel == Push ==> push(m.key) == PushOn)
  }

  ghost predicate NewOnesTell(before: seq<Message>, t: Table, e: Event, push: string -> PushMode) {
    before <= t.log && forall k :: |before| <= k < |t.log| ==> Tells(t.log[k], t.rows, e, push)
  }

  ghost predicate SameStamps(a: seq<Row>, b: seq<Row>) {
    |a| == |b| && forall k :: 0 <= k < |a| ==> b[k] == a[k].(delivered := b[k].delivered)
  }

  lemma DeliverOnTells(d: Desk, i: nat, c: Channel, kind: Kind, e: Event, push: string -> PushMode, fate: nat -> Fate)
    requires i < |d.table.rows| && c in d.table.rows[i].delivered
    ensures var r := DeliverOn(d, i, c, kind, e, push(d.table.rows[i].key), fate);
      SameStamps(d.table.rows, r.table.rows) && NewOnesTell(d.table.log, r.table, e, push)
  {
    var row := d.table.rows[i];
    var r := DeliverOn(d, i, c, kind, e, push(row.key), fate);
    var m := MessageFor(row, c, e);
    assert r.table.log == d.table.log || r.table.log == d.table.log + [m];
    if r.table.log != d.table.log {
      assert TellsRow(m, r.table.rows[i], e, push);
    }
  }

  lemma TellsThrough(before: seq<Message>, mid: Table, t: Table, e: Event, push: string -> PushMode)
    requires NewOnesTell(before, mid, e, push) && NewOnesTell(mid.log, t, e, push) && SameStamps(mid.rows, t.rows)
    ensures NewOnesTell(before, t, e, push)
  {
    forall k | |before| <= k < |t.log| ensures Tells(t.log[k], t.rows, e, push) {
      if k < |mid.log| {
        assert t.log[k] == mid.log[k];
        var i :| 0 <= i < |mid.rows| && TellsRow(mid.log[k], mid.rows[i], e, push);
        assert TellsRow(t.log[k], t.rows[i], e, push);
      }
    }
  }

  lemma DeliverRowTells(d: Desk, i: nat, kind: Kind, e: Event, push: string -> PushMode, fate: nat -> Fate)
    requires i < |d.table.rows| && Carries(d.table, kind)
    ensures var r := DeliverRow(d, i, kind, e, push, fate);
      SameStamps(d.table.rows, r.table.rows) && NewOnesTell(d.table.log, r.table, e, push)
  {
    hide DeliverOn, Tells;
    var mode := push(d.table.rows[i].key);
    DeliverOnTells(d, i, Mail, kind, e, push, fate);
    if kind == Attendees {
      var d1 := DeliverOn(d, i, Mail, kind, e, mode, fate);
      DeliverOnTells(d1, i, Notice, kind, e, push, fate);
      var d2 := DeliverOn(d1, i, Notice, kind, e, mode, fate);
      DeliverOnTells(d2, i, Push, kind, e, push, fate);
      var d3 := DeliverOn(d2, i, Push, kind, e, mode, fate);
      TellsThrough(d.table.log, d1.table, d2.table, e, push);
      TellsThrough(d.table.log, d2.table, d3.table, e, push);
    }
  }

  lemma {:induction false} DeliverAllTells(d: Desk, i: nat, kind: Kind, e: Event, push: string -> PushMode, fate: nat -> Fate)
    requires i <= |d.table.rows| && Carries(d.table, kind)
    ensures var r := DeliverAll(d, i, kind, e, push, fate);
      SameStamps(d.table.rows, r.table.rows) && NewOnesTell(d.table.log, r.table, e, push)
    decreases |d.table.rows| - i
  {
    hide DeliverRow, Tells;
    if d.run.alive && i < |d.table.rows| {
      DeliverRowTells(d, i, kind, e, push, fate);
      var next := DeliverRow(d, i, kind, e, push, fate);
      DeliverAllTells(next, i + 1, kind, e, push, fate);
      TellsThrough(d.table.log, next.table, DeliverAll(next, i + 1, kind, e, push, fate).table, e, push);
    }
  }

  lemma {:induction false} InviteQuiet(
    d: Desk, people: seq<Recipient>, j: nat, known: set<string>, revision: nat, kind: Kind, fate: nat -> Fate)
    requires j <= |people|
    ensures var r := Invite(d, people, j, known, revision, kind, fate);
      && r.table.log == d.table.log && d.table.rows <= r.table.rows
      && forall k :: |d.table.rows| <= k < |r.table.rows| ==> r.table.rows[k].sequence == 0
    decreases |people| - j
  {
    if d.run.alive && j < |people| {
      if people[j].id in known {
        InviteQuiet(d, people, j + 1, known, revision, kind, fate);
      } else {
        var f := fate(d.run.ops);
        var added := d.table.(rows := d.table.rows + [NewRow(people[j], revision, kind)]);
        InviteQuiet(Desk(if Applied(f) then added else d.table, AfterWrite(d.run, f)), people, j + 1, known, revision, kind, fate);
      }
    }
  }

  /** A row with a key that was not there before is at sequence 0. */
  ghost predicate NewOnesStart(before: seq<Row>, rows: seq<Row>) {
    forall k :: 0 <= k < |rows| && rows[k].key !in KeySet(before) ==> rows[k].sequence == 0
  }

  lemma ServeTells(
    d: Desk, kind: Kind, e: Event, wanted: map<string, string>, newcomers: seq<Recipient>, push: string -> PushMode, fate: nat -> Fate)
    requires Carries(d.table, kind)
    ensures var r := Serve(d, kind, e, wanted, newcomers, push, fate);
      NewOnesTell(d.table.log, r.table, e, push) && NewOnesStart(d.table.rows, r.table.rows)
  {
    hide Reconcile, Invite, DeliverAll, Tells;
    var reconciled := Reconcile(d, 0, wanted, e.revision, fate);
    ReconcileKeeps(d, 0, wanted, e.revision, fate, kind);
    ReconcileQuiet(d, 0, wanted, e.revision, fate);
    var invited := Invite(reconciled, newcomers, 0, KeySet(d.table.rows), e.revision, kind, fate);
    InviteKeeps(reconciled, newcomers, 0, KeySet(d.table.rows), e.revision, kind, fate);
    InviteQuiet(reconciled, newcomers, 0, KeySet(d.table.rows), e.revision, kind, fate);
    DeliverAllTells(invited, 0, kind, e, push, fate);
    forall k | 0 <= k < |reconciled.table.rows| ensures invited.table.rows[k].key in KeySet(d.table.rows) {
      assert reconciled.table.rows[k].key in KeySet(reconciled.table.rows);
    }
    hide KeySet, Carries;
  }

  lemma ServeHostsTells(d: Desk, e: Event, env: Env)
    requires Carries(d.table, Hosts)
    ensures var r := ServeHosts(d, e, env);
      NewOnesTell(d.table.log, r.table, e, env.push) && NewOnesStart(d.table.rows, r.table.rows)
  {
    var gate := PrepareHost(e, d.run, env);
    if gate.proceed {
      var people := CurrentHosts(e, env);
      ServeTells(Desk(d.table, gate.run), Hosts, e, Wanted(people), Upcoming(e, env, people), env.push, env.fate);
      hide Serve, NewOnesTell, NewOnesStart;
    } else {
      QuietTells(d.table, e, env.push);
    }
  }

  lemma QuietTells(t: Table, e: Event, push: string -> PushMode)
    ensures NewOnesTell(t.log, t, e, push) && NewOnesStart(t.rows, t.rows)
  {
  }

  lemma SameTelling(before: seq<Message>, t: Table, e: Event, errors: set<Pending>, push: string -> PushMode)
    requires NewOnesTell(before, t, e, push)
    ensures NewOnesTell(before, t, e.(syncError := errors), push)
  {
    forall k | |before| <= k < |t.log| ensures Tells(t.log[k], t.rows, e.(syncError := errors), push) {
      var i :| 0 <= i < |t.rows| && TellsRow(t.log[k], t.rows[i], e, push);
      assert TellsRow(t.log[k], t.rows[i], e.(syncError := errors), push);
    }
  }

  /** What a synchronisation adds to both tables. */
  ghost predicate SyncSays(w: World, r: World, push: string -> PushMode) {
    && NewOnesTell(w.attendees.log, r.attendees, r.event, push) && NewOnesStart(w.attendees.rows, r.attendees.rows)
    && NewOnesTell(w.hosts.log, r.hosts, r.event, push) && NewOnesStart(w.hosts.rows, r.hosts.rows)
  }

  /** Whatever fails: each message a synchronisation sends, to an attendee or a host, is what one row
      says afterwards about the event as it stands: method, address, SEQUENCE and revision; no push
      goes to anybody who has it switched off or is in quiet hours; and every new row is at
      sequence 0. */
  lemma SyncTells(w: World, env: Env)
    requires WorldOk(w)
    ensures SyncSays(w, Sync(w, env).world, env.push)
  {
    WorldCarries(w);
    hide Serve, ServeHosts, WorldOk, Sync, Opening, NewOnesTell, NewOnesStart, Carries;
    if env.ready {
      SyncIs(w, env);
      var o := Opening(w, env);
      var people := CurrentRecipients(o.event, env);
      ServeTells(Desk(w.attendees, o.run), Attendees, o.event, Wanted(people), Upcoming(o.event, env, people), env.push, env.fate);
      ServeHostsTells(Desk(w.hosts, AttendeeDesk(w, env).run), o.event, env);
      SameTelling(w.attendees.log, AttendeeDesk(w, env).table, o.event, HostDesk(w, env).run.errors, env.push);
      SameTelling(w.hosts.log, HostDesk(w, env).table, o.event, HostDesk(w, env).run.errors, env.push);
    } else {
      SyncIdle(w, env);
      QuietTells(w.attendees, w.event, env.push);
      QuietTells(w.hosts, w.event, env.push);
    }
  }

  // ---------------------------------------------------------------- one address

  /** All the mail one address ever got about one participant. */
  ghost predicate AddressInbox(inbox: seq<Message>, log: seq<Message>, key: string, address: string) {
    forall m :: m in inbox <==> m in log && m.key == key && m.channel == Mail && m.address == address
  }

  function ShowsRequest(inbox: seq<Message>): bool {
    CalendarView(inbox).Some? && CalendarView(inbox).value.verb == Request
  }

  ghost predicate Invited(w: World, env: Env, key: string) {
    w.event.status == Scheduled && env.open && exists j :: 0 <= j < |env.recipients| && env.recipients[j].id == key
  }

  lemma AddressShowsRow(t: Table, e: Event, i: nat, inbox: seq<Message>)
    requires TableOk(t, Attendees, e) && i < |t.rows| && Delivered(t.rows[i])
    requires AddressInbox(inbox, t.log, t.rows[i].key, t.rows[i].email)
    ensures CalendarView(inbox).Some? && Speaks(CalendarView(inbox).value, t.rows[i])
  {
    var row := t.rows[i];
    assert RowOk(row, Attendees, e) && Mail in row.delivered;
    assert Backed(row, t.log);
    var k :| 0 <= k < |t.log| && t.log[k].key == row.key && t.log[k].channel == Mail && t.log[k].sequence == row.sequence;
    NewestIsRows(t, Attendees, e, i, t.log[k]);
    assert t.log[k] in inbox;
    NewestIsRows(t, Attendees, e, i, CalendarView(inbox).value);
    hide TableOk;
  }

  lemma RowIsInvited(w: World, env: Env, i: nat)
    requires WorldOk(w) && Distinct(env.recipients) && env.ready && Calm(env.push, env.fate)
    requires i < |Sync(w, env).world.attendees.rows|
    ensures var r := Sync(w, env).world; var row := r.attendees.rows[i];
      && TableOk(r.attendees, Attendees, r.event) && Delivered(row) && row.revision == r.event.revision
      && (row.active <==> Invited(w, env, row.key))
      && (row.active ==> Recipient(row.key, row.email) in env.recipients)
  {
    SyncLaw(w, env);
    var r := Sync(w, env).world;
    var row := r.attendees.rows[i];
    var people := CurrentRecipients(r.event, env);
    WantedLists(people);
    assert Current(row, Wanted(people), r.event);
    if row.active {
      var j :| 0 <= j < |people| && people[j].id == row.key;
      assert people[j] == Recipient(row.key, row.email);
    }
    hide TableOk;
  }

  /** The mail one address got about one participant, oldest first. */
  function MailAt(log: seq<Message>, key: string, address: string): (r: seq<Message>)
    ensures AddressInbox(r, log, key, address)
  {
    if log == [] then []
    else
      var m := log[|log| - 1];
      MailAt(log[..|log| - 1], key, address) + (if m.key == key && m.channel == Mail && m.address == address then [m] else [])
  }

  ghost predicate NoRowAt(t: Table, key: string, address: string) {
    forall i :: 0 <= i < |t.rows| && t.rows[i].key == key ==> t.rows[i].email != address
  }

  lemma {:induction false} OtherMailAdded(before: seq<Message>, log: seq<Message>, key: string, address: string)
    requires before <= log
    requires forall k :: |before| <= k < |log| && log[k].key == key && log[k].channel == Mail ==> log[k].address != address
    ensures MailAt(log, key, address) == MailAt(before, key, address)
  {
    if |before| < |log| {
      OtherMailAdded(before, log[..|log| - 1], key, address);
    } else {
      assert before == log;
    }
  }

  /** Whatever fails, an address at which the participant has no row afterwards gets no mail. */
  lemma SyncLeavesAddress(w: World, env: Env, key: string, address: string)
    requires WorldOk(w) && NoRowAt(Sync(w, env).world.attendees, key, address)
    ensures MailAt(Sync(w, env).world.attendees.log, key, address) == MailAt(w.attendees.log, key, address)
  {
    SyncTells(w, env);
    hide Sync, WorldOk;
    var r := Sync(w, env).world;
    var t := r.attendees;
    forall k | |w.attendees.log| <= k < |t.log| && t.log[k].key == key && t.log[k].channel == Mail
      ensures t.log[k].address != address
    {
      assert Tells(t.log[k], t.rows, r.event, env.push);
      var j :| 0 <= j < |t.rows| && TellsRow(t.log[k], t.rows[j], r.event, env.push);
    }
    OtherMailAdded(w.attendees.log, t.log, key, address);
  }

  lemma OneRowOnly(t: Table, e: Event, i: nat, address: string)
    requires TableOk(t, Attendees, e) && i < |t.rows| && address != t.rows[i].email
    ensures NoRowAt(t, t.rows[i].key, address)
  {
  }

  lemma SameView(t: Table, e: Event, key: string, address: string, a: seq<Message>, b: seq<Message>)
    requires TableOk(t, Attendees, e) && SameContents(a, MailAt(t.log, key, address)) && SameContents(b, a)
    ensures ShowsRequest(a) <==> ShowsRequest(b)
  {
    CalendarIgnoresOrder(t.log, key, a, b);
    hide MailAt;
  }

  /** Convergence, address by address. After a synchronisation without faults the calendar of the
      address the row has now is right. The calendar of any other address got nothing: it shows a
      REQUEST exactly when it showed one before. */
  lemma CalendarOfAddress(w: World, env: Env, i: nat, address: string, before: seq<Message>, after: seq<Message>)
    requires WorldOk(w) && Distinct(env.recipients) && env.ready && Calm(env.push, env.fate)
    requires i < |Sync(w, env).world.attendees.rows|
    requires AddressInbox(before, w.attendees.log, Sync(w, env).world.attendees.rows[i].key, address)
    requires AddressInbox(after, Sync(w, env).world.attendees.log, Sync(w, env).world.attendees.rows[i].key, address)
    ensures var row := Sync(w, env).world.attendees.rows[i];
      && (ShowsRequest(after) <==> if address == row.email then Invited(w, env, row.key) else ShowsRequest(before))
      && (address == row.email && ShowsRequest(after) ==>
            CalendarView(after).value.revision == Sync(w, env).world.event.revision)
  {
    WorldCarries(w);
    hide WorldOk, Sync, TableOk, Invited, MailAt, CalendarView, Delivered;
    RowIsInvited(w, env, i);
    var r := Sync(w, env).world;
    var row := r.attendees.rows[i];
    if address == row.email {
      AddressShowsRow(r.attendees, r.event, i, after);
    } else {
      OneRowOnly(r.attendees, r.event, i, address);
      SyncLeavesAddress(w, env, row.key, address);
      SameView(r.attendees, r.event, row.key, address, before, after);
    }
  }

  ghost predicate LeavesAddress(w: World, actions: seq<Action>, key: string, address: string)
    requires WorldOk(w) && AllSensible(actions)
  {
    forall k :: 0 < k <= |actions| ==> NoRowAt(After(w, actions[..k]).attendees, key, address)
  }

  /** Over any history, whatever fails: an address at which the participant has no row from now on gets
      no more mail about them. */
  lemma {:induction false} AddressLeftAlone(w: World, actions: seq<Action>, key: string, address: string)
    requires WorldOk(w) && AllSensible(actions) && LeavesAddress(w, actions, key, address)
    ensures MailAt(After(w, actions).attendees.log, key, address) == MailAt(w.attendees.log, key, address)
  {
    hide WorldOk, MailAt, NoRowAt, Next;
    if actions != [] {
      var n := |actions| - 1;
      var rest, a := actions[..n], actions[n];
      assert forall k :: 0 < k <= n ==> rest[..k] == actions[..k];
      assert actions[..n + 1] == actions;
      AddressLeftAlone(w, rest, key, address);
      NextLeavesAddress(After(w, rest), a, key, address);
    }
  }

  lemma NextLeavesAddress(w: World, a: Action, key: string, address: string)
    requires WorldOk(w) && Sensible(a) && NoRowAt(Next(w, a).attendees, key, address)
    ensures MailAt(Next(w, a).attendees.log, key, address) == MailAt(w.attendees.log, key, address)
  {
    if a.Work? {
      SyncLeavesAddress(w, a.env, key, address);
    }
    hide WorldOk, MailAt, Sync;
  }

  /** So the REQUEST at an old address is never withdrawn: once somebody was invited at an address, it
      shows its REQUEST after any history in which they have no row there, whatever fails. */
  lemma OldAddressKeepsItsRequest(w: World, env: Env, i: nat, actions: seq<Action>, mail: seq<Message>)
    requires WorldOk(w) && WorldOk(Sync(w, env).world) && AllSensible(actions)
    requires Distinct(env.recipients) && env.ready && Calm(env.push, env.fate) && i < |Sync(w, env).world.attendees.rows|
    requires var r := Sync(w, env).world; var row := r.attendees.rows[i];
      && Invited(w, env, row.key) && LeavesAddress(r, actions, row.key, row.email)
      && AddressInbox(mail, After(r, actions).attendees.log, row.key, row.email)
    ensures ShowsRequest(mail)
  {
    WorldCarries(w);
    hide Sync, Invited, MailAt, ShowsRequest, LeavesAddress, After, ScheduleHolds, TableOk, Carries;
    var r := Sync(w, env).world;
    var row := r.attendees.rows[i];
    var earlier, middle := MailAt(w.attendees.log, row.key, row.email), MailAt(r.attendees.log, row.key, row.email);
    CalendarOfAddress(w, env, i, row.email, earlier, middle);
    AddressLeftAlone(r, actions, row.key, row.email);
    assert SameContents(mail, middle);
    SameView(r.attendees, r.event, row.key, row.email, middle, mail);
  }

  // ---------------------------------------------------------------- two rows at one address

  /** All the mail an address got on behalf of two rows: a participant's and a host's, or those of two
      participants. The calendar knows them by one identifier, so their sequences compete. */
  ghost predicate SharedInbox(inbox: seq<Message>, t: Table, a: Row, u: Table, b: Row) {
    forall m :: m in inbox <==>
      m.channel == Mail && m.address == a.email && ((m in t.log && m.key == a.key) || (m in u.log && m.key == b.key))
  }

  ghost predicate AlwaysShows(t: Table, a: Row, u: Table, b: Row, request: bool) {
    forall inbox: seq<Message> :: SharedInbox(inbox, t, a, u, b) ==> ShowsRequest(inbox) == request
  }

  /** The row lets the calendar show this, because it says so itself or the other row is ahead. */
  predicate Yields(row: Row, other: Row, request: bool) {
    row.active == request || row.sequence < other.sequence
  }

  /** The row's last message. */
  lemma LastMessage(t: Table, kind: Kind, e: Event, i: nat) returns (m: Message)
    requires TableOk(t, kind, e) && i < |t.rows| && Delivered(t.rows[i])
    ensures m in t.log && m.key == t.rows[i].key && m.channel == Mail && m.sequence == t.rows[i].sequence && Speaks(m, t.rows[i])
  {
    var row := t.rows[i];
    assert RowOk(row, kind, e) && Mail in row.delivered && Backed(row, t.log);
    var k :| 0 <= k < |t.log| && t.log[k].key == row.key && t.log[k].channel == Mail && t.log[k].sequence == row.sequence;
    m := t.log[k];
    NewestIsRows(t, kind, e, i, m);
    hide Speaks;
  }

  lemma NoneIsAhead(t: Table, kind: Kind, e: Event, i: nat, m: Message)
    requires TableOk(t, kind, e) && i < |t.rows| && m in t.log && m.key == t.rows[i].key
    ensures m.sequence <= t.rows[i].sequence
  {
    var k :| 0 <= k < |t.log| && t.log[k] == m;
    assert Explained(t.log[k], t.rows);
    var h :| 0 <= h < |t.rows| && Fits(m, t.rows[h]);
    assert h == i;
  }

  /** Whatever the order, the calendar shows what a row says whose sequence is not behind the other's. */
  lemma NewestSpeaks(t: Table, k: Kind, i: nat, u: Table, l: Kind, j: nat, e: Event, inbox: seq<Message>)
    requires TableOk(t, k, e) && i < |t.rows| && Delivered(t.rows[i])
    requires TableOk(u, l, e) && j < |u.rows| && Delivered(u.rows[j]) && u.rows[j].email == t.rows[i].email
    requires SharedInbox(inbox, t, t.rows[i], u, u.rows[j])
    ensures var a, b := t.rows[i], u.rows[j];
      || (b.sequence <= a.sequence && ShowsRequest(inbox) == a.active)
      || (a.sequence <= b.sequence && ShowsRequest(inbox) == b.active)
  {
    var a, b := t.rows[i], u.rows[j];
    var m := LastMessage(t, k, e, i);
    var n := LastMessage(u, l, e, j);
    hide TableOk, Delivered;
    assert m in inbox && n in inbox;
    var v := CalendarView(inbox).value;
    assert v in inbox;
    if v in t.log && v.key == a.key {
      NoneIsAhead(t, k, e, i, v);
      NewestIsRows(t, k, e, i, v);
    } else {
      NoneIsAhead(u, l, e, j, v);
      NewestIsRows(u, l, e, j, v);
    }
  }

  /** An arrangement in which the first row's last message comes last. */
  lemma LastComesLast(t: Table, k: Kind, i: nat, u: Table, l: Kind, j: nat, e: Event) returns (inbox: seq<Message>)
    requires TableOk(t, k, e) && i < |t.rows| && Delivered(t.rows[i])
    requires TableOk(u, l, e) && j < |u.rows| && u.rows[j].email == t.rows[i].email
    requires u.rows[j].sequence <= t.rows[i].sequence
    ensures SharedInbox(inbox, t, t.rows[i], u, u.rows[j]) && ShowsRequest(inbox) == t.rows[i].active
  {
    hide TableOk, Delivered;
    var a, b := t.rows[i], u.rows[j];
    var m := LastMessage(t, k, e, i);
    var rest := MailAt(t.log, a.key, a.email) + MailAt(u.log, b.key, a.email);
    hide MailAt;
    inbox := rest + [m];
    hide CalendarView;
    forall x | x in rest ensures x.sequence <= m.sequence {
      if x in t.log && x.key == a.key {
        NoneIsAhead(t, k, e, i, x);
      } else {
        NoneIsAhead(u, l, e, j, x);
      }
    }
    PicksLast(rest, m);
  }

  lemma PicksLast(rest: seq<Message>, m: Message)
    requires forall x :: x in rest ==> x.sequence <= m.sequence
    ensures CalendarView(rest + [m]) == Some(m)
  {
    assert (rest + [m])[..|rest|] == rest;
  }

  lemma SharedSwaps(inbox: seq<Message>, t: Table, a: Row, u: Table, b: Row)
    requires SharedInbox(inbox, u, b, t, a) && a.email == b.email
    ensures SharedInbox(inbox, t, a, u, b)
  {
  }

  /** Whatever the order of the mail, the calendar of an address with two rows shows a REQUEST, or
      shows none, if and only if each row says so itself or is behind the other. So with one row
      invited and the other withdrawn, it is right exactly when the invited one is ahead, and depends
      on the order exactly when their sequences are equal. */
  lemma SharedCalendar(t: Table, k: Kind, i: nat, u: Table, l: Kind, j: nat, e: Event, request: bool)
    requires TableOk(t, k, e) && i < |t.rows| && Delivered(t.rows[i])
    requires TableOk(u, l, e) && j < |u.rows| && Delivered(u.rows[j]) && u.rows[j].email == t.rows[i].email
    ensures AlwaysShows(t, t.rows[i], u, u.rows[j], request) <==>
            Yields(t.rows[i], u.rows[j], request) && Yields(u.rows[j], t.rows[i], request)
  {
    hide TableOk, Delivered, SharedInbox, ShowsRequest;
    var a, b := t.rows[i], u.rows[j];
    if Yields(a, b, request) && Yields(b, a, request) {
      forall inbox: seq<Message> | SharedInbox(inbox, t, a, u, b) ensures ShowsRequest(inbox) == request {
        NewestSpeaks(t, k, i, u, l, j, e, inbox);
      }
    } else if !Yields(a, b, request) {
      var inbox := LastComesLast(t, k, i, u, l, j, e);
      assert SharedInbox(inbox, t, a, u, b);
    } else {
      var inbox := LastComesLast(u, l, j, t, k, i, e);
      SharedSwaps(inbox, t, a, u, b);
      assert SharedInbox(inbox, t, a, u, b);
    }
  }

  /** A withdrawn invitation is ahead of the one it withdraws. */
  lemma WithdrawnIsAhead(t: Table, u: Table, e: Event, f: Event, i: nat)
    requires TableOk(t, Attendees, e) && TableOk(u, Attendees, f) && Grows(t, u) && i < |t.rows|
    requires Delivered(t.rows[i]) && t.rows[i].active && Delivered(u.rows[i]) && !u.rows[i].active
    ensures t.rows[i].sequence < u.rows[i].sequence
  {
    hide TableOk, Delivered;
    var m := LastMessage(t, Attendees, e, i);
    var n := LastMessage(u, Attendees, f, i);
    assert m in u.log;
    BothAgree(u, f, m, n);
  }

  lemma BothAgree(t: Table, e: Event, m: Message, n: Message)
    requires TableOk(t, Attendees, e) && m in t.log && n in t.log
    ensures Agree(m, n)
  {
    var x :| 0 <= x < |t.log| && t.log[x] == m;
    var y :| 0 <= y < |t.log| && t.log[y] == n;
    assert Agree(t.log[x], t.log[y]);
    hide Agree;
  }

  /** It can be wrong: somebody invited as a participant stops being one and becomes the event's first
      host at that address. After faultless synchronisations their calendar shows no REQUEST, because
      the withdrawal is ahead of the new host row. */
  lemma NewHostLosesToWithdrawal(w: World, first: Env, second: Env, i: nat) returns (j: nat)
    requires WorldOk(w) && Distinct(first.recipients) && first.ready && Calm(first.push, first.fate)
    requires i < |Sync(w, first).world.attendees.rows| && Sync(w, first).world.attendees.rows[i].active
    requires WorldOk(Sync(w, first).world)
    requires Distinct(second.recipients) && second.ready && Calm(second.push, second.fate) && second.open
    requires var one := Sync(w, first).world; var row := one.attendees.rows[i];
      && second.host == row.email && row.email !in KeySet(one.hosts.rows)
      && one.event.status == Scheduled && second.now < one.event.endAt
      && !Invited(one, second, row.key)
    ensures var two := Sync(Sync(w, first).world, second).world;
      && i < |two.attendees.rows| && j < |two.hosts.rows| && two.hosts.rows[j].active && two.hosts.rows[j].key == second.host
      && !two.attendees.rows[i].active
      && AlwaysShows(two.attendees, two.attendees.rows[i], two.hosts, two.hosts.rows[j], false)
  {
    hide Sync, TableOk, Delivered, Invited, ScheduleHolds, AlwaysShows, NothingFails, Carries;
    WorldCarries(w);
    var one := Sync(w, first).world;
    WorldCarries(one);
    var two := Sync(one, second).world;
    SyncLaw(w, first);
    SyncLaw(one, second);
    RowIsInvited(w, first, i);
    RowIsInvited(one, second, i);
    KeptAddress(one, second, i);
    WithdrawnIsAhead(one.attendees, two.attendees, one.event, two.event, i);
    j := NewHostRow(one, second);
    SharedCalendar(two.attendees, Attendees, i, two.hosts, Hosts, j, two.event, false);
  }

  lemma EndStays(w: World, env: Env)
    requires WorldOk(w)
    ensures Sync(w, env).world.event.endAt == w.event.endAt
  {
    WorldCarries(w);
    if env.ready {
      SyncIs(w, env);
    }
    hide Serve, ServeHosts, TableOk;
  }

  lemma NewHostRow(w: World, env: Env) returns (j: nat)
    requires WorldOk(w) && Distinct(env.recipients) && env.ready && Calm(env.push, env.fate) && env.open
    requires w.event.status == Scheduled && env.now < w.event.endAt && env.host !in KeySet(w.hosts.rows)
    ensures var r := Sync(w, env).world;
      && TableOk(r.hosts, Hosts, r.event) && j < |r.hosts.rows| && Delivered(r.hosts.rows[j])
      && r.hosts.rows[j].active && r.hosts.rows[j].key == r.hosts.rows[j].email == env.host && r.hosts.rows[j].sequence == 0
  {
    hide Sync, TableOk, ScheduleHolds, Delivered, NewOnesTell, NothingFails, Carries;
    WorldCarries(w);
    EndStays(w, env);
    SyncLaw(w, env);
    SyncTells(w, env);
    OneHostStands(w, env);
    var r := Sync(w, env).world;
    j :| 0 <= j < |r.hosts.rows| && r.hosts.rows[j].active;
    assert Delivered(r.hosts.rows[j]);
    assert Current(r.hosts.rows[j], Wanted(CurrentHosts(r.event, env)), r.event);
    assert Wanted(CurrentHosts(r.event, env)) == map[env.host := env.host];
    hide KeySet;
  }

  lemma {:induction false} ReconcileKeepsAddress(d: Desk, i: nat, wanted: map<string, string>, revision: nat, fate: nat -> Fate)
    requires i <= |d.table.rows|
    ensures var r := Reconcile(d, i, wanted, revision, fate).table.rows;
      |r| == |d.table.rows| && forall k :: 0 <= k < |r| ==>
        r[k].key == d.table.rows[k].key && (r[k].key !in wanted ==> r[k].email == d.table.rows[k].email)
    decreases |d.table.rows| - i
  {
    if d.run.alive && i < |d.table.rows| {
      var next := if Stale(d.table.rows[i], wanted, revision)
        then SaveRow(d, i, Restamped(d.table.rows[i], wanted, revision), fate) else d;
      ReconcileKeepsAddress(next, i + 1, wanted, revision, fate);
    }
  }

  lemma ServeKeepsAddress(
    d: Desk, kind: Kind, e: Event, wanted: map<string, string>, newcomers: seq<Recipient>, push: string -> PushMode, fate: nat -> Fate)
    requires Carries(d.table, kind)
    ensures var r := Serve(d, kind, e, wanted, newcomers, push, fate).table.rows;
      |d.table.rows| <= |r| && forall k :: 0 <= k < |d.table.rows| && r[k].key !in wanted ==> r[k].email == d.table.rows[k].email
  {
    hide Reconcile, Invite, DeliverAll, Tells, KeySet, Carries;
    var reconciled := Reconcile(d, 0, wanted, e.revision, fate);
    ReconcileKeeps(d, 0, wanted, e.revision, fate, kind);
    ReconcileKeepsAddress(d, 0, wanted, e.revision, fate);
    var invited := Invite(reconciled, newcomers, 0, KeySet(d.table.rows), e.revision, kind, fate);
    InviteKeeps(reconciled, newcomers, 0, KeySet(d.table.rows), e.revision, kind, fate);
    InviteQuiet(reconciled, newcomers, 0, KeySet(d.table.rows), e.revision, kind, fate);
    DeliverAllTells(invited, 0, kind, e, push, fate);
  }

  /** A row whose participant is not invited keeps its address. */
  lemma KeptAddress(w: World, env: Env, i: nat)
    requires WorldOk(w) && Distinct(env.recipients) && env.ready && i < |w.attendees.rows|
    requires i < |Sync(w, env).world.attendees.rows| && !Invited(w, env, Sync(w, env).world.attendees.rows[i].key)
    ensures Sync(w, env).world.attendees.rows[i].email == w.attendees.rows[i].email
  {
    WorldCarries(w);
    hide Serve, ServeHosts, Sync, TableOk;
    SyncIs(w, env);
    OpeningLaw(w, env);
    var o := Opening(w, env);
    var people := CurrentRecipients(o.event, env);
    ServeKeepsAddress(Desk(w.attendees, o.run), Attendees, o.event, Wanted(people), Upcoming(o.event, env, people), env.push, env.fate);
    if !o.run.alive {
      DeadServe(Desk(w.attendees, o.run), Attendees, o.event, Wanted(people), Upcoming(o.event, env, people), env.push, env.fate);
    }
    hide Opening;
    WantedLists(people);
  }

  // ---------------------------------------------------------------- downloads

  /** What a caller without a row of their own downloads: the SEQUENCE is the event's revision. */
  function DownloadWithoutRow(key: string, email: string, e: Event): Message {
    Message(key, Mail, if e.status == Scheduled then Request else Cancel, email, e.revision, e.revision)
  }

  /** The first mail to a participant carries SEQUENCE 0, so a calendar that holds a file downloaded
      without a row keeps that file and ignores the mail, unless the event had never been changed when
      it was downloaded. This holds for everybody who joins, also when others have rows already. */
  lemma FirstMailLosesToDownload(w: World, env: Env, key: string, email: string, e: Event, inbox: seq<Message>)
    requires WorldOk(w) && key !in KeySet(w.attendees.rows)
    requires inbox != [] && forall m :: m in inbox ==> m in Sync(w, env).world.attendees.log && m.key == key
    ensures var d := DownloadWithoutRow(key, email, e); var shown := CalendarView([d] + inbox).value;
      && (0 < e.revision ==> shown == d)
      && (e.revision == 0 ==> shown in inbox)
  {
    forall m | m in inbox ensures m.sequence == 0 {
      NewcomersStart(w, env, m);
    }
  }

  lemma NewcomersStart(w: World, env: Env, m: Message)
    requires WorldOk(w) && m.key !in KeySet(w.attendees.rows) && m in Sync(w, env).world.attendees.log
    ensures m.sequence == 0
  {
    SyncTells(w, env);
    var r := Sync(w, env).world;
    var t := r.attendees;
    hide Sync;
    var k :| 0 <= k < |t.log| && t.log[k] == m;
    SentKeysAreKnown(w.attendees, w.event);
    assert forall x :: 0 <= x < |w.attendees.log| ==> t.log[x] == w.attendees.log[x];
    assert Tells(t.log[k], t.rows, r.event, env.push);
    hide KeySet, WorldOk;
  }

  lemma SentKeysAreKnown(t: Table, e: Event)
    requires TableOk(t, Attendees, e)
    ensures forall k :: 0 <= k < |t.log| ==> t.log[k].key in KeySet(t.rows)
  {
    forall k | 0 <= k < |t.log| ensures t.log[k].key in KeySet(t.rows) {
      assert Explained(t.log[k], t.rows);
      var h :| 0 <= h < |t.rows| && Fits(t.log[k], t.rows[h]);
      assert t.rows[h].key in KeySet(t.rows);
    }
  }

  lemma AfterOneMore(w: World, actions: seq<Action>, a: Action)
    requires WorldOk(w) && AllSensible(actions + [a])
    ensures AllSensible(actions) && Sensible(a)
    ensures After(w, actions + [a]) == Next(After(w, actions), a)
  {
    var all := actions + [a];
    assert all[..|actions|] == actions && all[|actions|] == a;
    forall i | 0 <= i < |actions| ensures Sensible(actions[i]) {
      assert all[i] == actions[i];
    }
  }

  /** A run from any state: an event is moved, a participant without a row downloads the file, the event
      is moved again, and only then is their invitation sent. The downloaded file, one revision old,
      stays in the calendar. */
  lemma StaleDownloadStays(w: World, s1: Schedule, s2: Schedule, at: int, env: Env, key: string, email: string, inbox: seq<Message>)
    requires WorldOk(w) && w.event.status == Scheduled && key !in KeySet(w.attendees.rows)
    requires ValidateSchedule(s1, at).Ok? && ValidateSchedule(s2, at).Ok? && Distinct(env.recipients)
    requires var actions := [Edit(s1, at, true), Edit(s2, at, true), Work(env)];
      AllSensible(actions) && inbox != [] && forall m :: m in inbox ==> m in After(w, actions).attendees.log && m.key == key
    ensures AllSensible([Edit(s1, at, true)])
    ensures var d := DownloadWithoutRow(key, email, After(w, [Edit(s1, at, true)]).event);
      && CalendarView([d] + inbox).value == d && d.revision == w.event.revision + 1
      && d.revision < After(w, [Edit(s1, at, true), Edit(s2, at, true), Work(env)]).event.revision
  {
    var a, b, c := Edit(s1, at, true), Edit(s2, at, true), Work(env);
    assert [] + [a] == [a] && [a] + [b] == [a, b] && [a, b] + [c] == [a, b, c];
    AfterOneMore(w, [a, b], c);
    AfterOneMore(w, [a], b);
    AfterOneMore(w, [], a);
    var first, second := After(w, [a]), After(w, [a, b]);
    assert first == w.(event := first.event) && first.event.revision == w.event.revision + 1;
    assert second == w.(event := second.event) && second.event.revision == w.event.revision + 2;
    NextLaw(second, c);
    FirstMailLosesToDownload(second, env, key, email, first.event, inbox);
  }

  /** A reachable run for a participant with a row: after any faultless synchronisation, every
      accepted edit makes the file downloaded before the next synchronisation disagree with the mail
      already sent under its SEQUENCE. */
  lemma EditedDownloadDisagrees(w: World, env: Env, s: Schedule, at: int, i: nat) returns (k: nat)
    requires WorldOk(w) && Distinct(env.recipients) && env.ready && Calm(env.push, env.fate) && ValidateSchedule(s, at).Ok?
    requires i < |Sync(w, env).world.attendees.rows| && Sync(w, env).world.attendees.rows[i].active
    ensures WorldOk(Sync(w, env).world)
    ensures var r := Next(Sync(w, env).world, Edit(s, at, true)); var file := MessageFor(r.attendees.rows[i], Mail, r.event);
      && r.attendees == Sync(w, env).world.attendees && k < |r.attendees.log|
      && r.attendees.log[k].key == file.key && r.attendees.log[k].sequence == file.sequence
      && !Agree(r.attendees.log[k], file)
  {
    WorldCarries(w);
    hide TableOk, Sync, Carries, Delivered, Calm, Settled, Invited;
    SyncLaw(w, env);
    RowIsInvited(w, env, i);
    var one := Sync(w, env).world;
    var m := LastMessage(one.attendees, Attendees, one.event, i);
    k :| 0 <= k < |one.attendees.log| && one.attendees.log[k] == m;
    var r := Next(one, Edit(s, at, true));
    NextLaw(one, Edit(s, at, true));
    assert r.event.revision == one.event.revision + 1;
    DownloadAgrees(r.attendees, r.event, i, k);
  }
}
