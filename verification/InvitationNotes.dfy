/** What a finished synchronisation leaves behind and notes, whom it invites, and how long the cron job
    keeps looking at an event. */
module InvitationNotes {
  import opened BriefEvents
  import opened InvitationSync
  import opened InvitationLaws
  import opened InvitationRuns
  import opened InvitationMail
  import opened Prelude

  // ---------------------------------------------------------------- every channel that stayed behind

  ghost predicate Noted(row: Row, c: Channel, errors: set<Pending>, kind: Kind, mode: PushMode) {
    c in row.delivered ==>
      row.delivered[c] == row.sequence || Label(kind, c) in errors || (c == Push && mode == QuietHours)
  }

  ghost predicate RowNoted(row: Row, errors: set<Pending>, kind: Kind, mode: PushMode) {
    forall c :: Noted(row, c, errors, kind, mode)
  }

  /** Only errors of this table's channels are added. */
  predicate OnlyLabels(before: set<Pending>, errors: set<Pending>, kind: Kind) {
    before <= errors && forall p <- errors :: p in before || exists c: Channel :: p == Label(kind, c)
  }

  lemma DeliverOnErrors(d: Desk, i: nat, c: Channel, kind: Kind, e: Event, mode: PushMode, fate: nat -> Fate)
    requires i < |d.table.rows| && c in d.table.rows[i].delivered
    ensures OnlyLabels(d.run.errors, DeliverOn(d, i, c, kind, e, mode, fate).run.errors, kind)
  {
    hide MessageFor;
  }

  lemma RowIsNoted(d: Desk, i: nat, kind: Kind, e: Event, push: string -> PushMode, fate: nat -> Fate)
    requires i < |d.table.rows| && Carries(d.table, kind) && RowInRange(d.table.rows[i])
    ensures var r := DeliverRow(d, i, kind, e, push, fate);
      && OnlyDelivery(d.table, r.table, i) && OnlyLabels(d.run.errors, r.run.errors, kind)
      && (r.run.alive ==> RowNoted(r.table.rows[i], r.run.errors, kind, push(r.table.rows[i].key)))
  {
    hide DeliverOn, MessageFor, Label;
    var mode := push(d.table.rows[i].key);
    DeliverOnNotes(d, i, Mail, kind, e, mode, fate);
    DeliverOnFrame(d, i, Mail, kind, e, mode, fate);
    DeliverOnErrors(d, i, Mail, kind, e, mode, fate);
    if kind == Attendees {
      var d1 := DeliverOn(d, i, Mail, kind, e, mode, fate);
      DeliverOnNotes(d1, i, Notice, kind, e, mode, fate);
      DeliverOnFrame(d1, i, Notice, kind, e, mode, fate);
      DeliverOnErrors(d1, i, Notice, kind, e, mode, fate);
      var d2 := DeliverOn(d1, i, Notice, kind, e, mode, fate);
      DeliverOnNotes(d2, i, Push, kind, e, mode, fate);
      DeliverOnFrame(d2, i, Push, kind, e, mode, fate);
      DeliverOnErrors(d2, i, Push, kind, e, mode, fate);
    }
  }

  ghost predicate RowsNoted(rows: seq<Row>, n: nat, errors: set<Pending>, kind: Kind, push: string -> PushMode)
    requires n <= |rows|
  {
    forall k :: 0 <= k < n ==> RowNoted(rows[k], errors, kind, push(rows[k].key))
  }

  lemma RowsStayNoted(t: Table, u: Table, i: nat, errors: set<Pending>, more: set<Pending>, kind: Kind, push: string -> PushMode)
    requires i < |t.rows| && OnlyDelivery(t, u, i) && errors <= more && RowsNoted(t.rows, i, errors, kind, push)
    requires RowNoted(u.rows[i], more, kind, push(u.rows[i].key))
    ensures RowsNoted(u.rows, i + 1, more, kind, push)
  {
    forall k | 0 <= k < i ensures RowNoted(u.rows[k], more, kind, push(u.rows[k].key)) {
      assert u.rows[k] == t.rows[k] && RowNoted(t.rows[k], errors, kind, push(t.rows[k].key));
      assert forall c :: Noted(t.rows[k], c, errors, kind, push(t.rows[k].key)) ==> Noted(u.rows[k], c, more, kind, push(u.rows[k].key));
    }
  }

  lemma RangeStays(t: Table, u: Table, i: nat)
    requires i < |t.rows| && InRange(t) && OnlyDelivery(t, u, i) && RowInRange(u.rows[i])
    ensures InRange(u)
  {
    forall k | 0 <= k < |u.rows| ensures RowInRange(u.rows[k]) {
      assert k != i ==> u.rows[k] == t.rows[k];
    }
  }

  lemma {:induction false} RowsAreNoted(d: Desk, i: nat, kind: Kind, e: Event, push: string -> PushMode, fate: nat -> Fate)
    requires i <= |d.table.rows| && Carries(d.table, kind) && InRange(d.table)
    requires RowsNoted(d.table.rows, i, d.run.errors, kind, push)
    ensures var r := DeliverAll(d, i, kind, e, push, fate);
      && OnlyLabels(d.run.errors, r.run.errors, kind)
      && (r.run.alive ==> RowsNoted(r.table.rows, |r.table.rows|, r.run.errors, kind, push))
    decreases |d.table.rows| - i
  {
    hide DeliverRow, RowsNoted, RowNoted, RowInRange, Label, RowServed;
    if d.run.alive && i < |d.table.rows| {
      RowIsNoted(d, i, kind, e, push, fate);
      DeliverRowDoes(d, i, kind, e, push, fate);
      var next := DeliverRow(d, i, kind, e, push, fate);
      RangeStays(d.table, next.table, i);
      if next.run.alive {
        RowsStayNoted(d.table, next.table, i, d.run.errors, next.run.errors, kind, push);
        RowsAreNoted(next, i + 1, kind, e, push, fate);
      }
    }
  }

  lemma NoRowsYet(rows: seq<Row>, errors: set<Pending>, kind: Kind, push: string -> PushMode)
    ensures RowsNoted(rows, 0, errors, kind, push)
  {
  }

  // ---------------------------------------------------------------- who gets a new row

  ghost predicate KeyOf(key: string, people: seq<Recipient>) {
    exists j :: 0 <= j < |people| && people[j].id == key
  }

  lemma {:induction false} InviteAdds(
    d: Desk, people: seq<Recipient>, j: nat, known: set<string>, revision: nat, kind: Kind, fate: nat -> Fate)
    requires j <= |people|
    ensures var r := Invite(d, people, j, known, revision, kind, fate);
      && d.table.rows <= r.table.rows
      && forall key :: key in KeySet(r.table.rows) ==> key in KeySet(d.table.rows) || KeyOf(key, people)
    decreases |people| - j
  {
    if d.run.alive && j < |people| {
      if people[j].id in known {
        InviteAdds(d, people, j + 1, known, revision, kind, fate);
      } else {
        var f := fate(d.run.ops);
        var row := NewRow(people[j], revision, kind);
        AddedKey(d.table.rows, row);
        assert KeyOf(row.key, people);
        var added := d.table.(rows := d.table.rows + [row]);
        InviteAdds(Desk(if Applied(f) then added else d.table, AfterWrite(d.run, f)), people, j + 1, known, revision, kind, fate);
      }
    }
  }

  lemma SameKeys(a: seq<Row>, b: seq<Row>)
    requires SameStamps(a, b)
    ensures KeySet(a) == KeySet(b)
  {
    assert forall k :: 0 <= k < |a| ==> a[k].key == b[k].key;
  }

  /** What serving a table notes and adds. */
  ghost predicate Accounts(
    d: Desk, r: Desk, kind: Kind, newcomers: seq<Recipient>, push: string -> PushMode)
  {
    && OnlyLabels(d.run.errors, r.run.errors, kind)
    && (r.run.alive ==> RowsNoted(r.table.rows, |r.table.rows|, r.run.errors, kind, push))
    && forall key :: key in KeySet(r.table.rows) ==> key in KeySet(d.table.rows) || (d.run.alive && KeyOf(key, newcomers))
  }

  lemma ServeAccounts(
    d: Desk, kind: Kind, e: Event, wanted: map<string, string>, newcomers: seq<Recipient>, push: string -> PushMode, fate: nat -> Fate)
    requires TableOk(d.table, kind, e) && Carries(d.table, kind)
    requires Distinct(newcomers) && Lists(wanted, newcomers) && OnlyIfScheduled(wanted, e)
    ensures Accounts(d, Serve(d, kind, e, wanted, newcomers, push, fate), kind, newcomers, push)
  {
    hide Reconcile, Invite, DeliverAll, RowsNoted, KeySet, Label;
    var reconciled := Reconcile(d, 0, wanted, e.revision, fate);
    ReconcileLaw(d, 0, wanted, kind, e, fate);
    ReconcileQuiet(d, 0, wanted, e.revision, fate);
    ReconcileKeeps(d, 0, wanted, e.revision, fate, kind);
    var known := KeySet(d.table.rows);
    KnownAtFirst(d.table.rows, reconciled.table.rows);
    var invited := Invite(reconciled, newcomers, 0, known, e.revision, kind, fate);
    InviteLaw(reconciled, newcomers, 0, known, wanted, kind, e, fate);
    InviteKeeps(reconciled, newcomers, 0, known, e.revision, kind, fate);
    InviteAdds(reconciled, newcomers, 0, known, e.revision, kind, fate);
    CountersInRange(invited.table, kind, e);
    hide TableOk;
    NoRowsYet(invited.table.rows, invited.run.errors, kind, push);
    RowsAreNoted(invited, 0, kind, e, push, fate);
    DeliverAllTells(invited, 0, kind, e, push, fate);
    SameKeys(invited.table.rows, DeliverAll(invited, 0, kind, e, push, fate).table.rows);
    if !d.run.alive {
      DeadServe(d, kind, e, wanted, newcomers, push, fate);
    }
  }

  lemma KnownAtFirst(rows: seq<Row>, reconciled: seq<Row>)
    requires KeySet(rows) == KeySet(reconciled)
    ensures forall people: seq<Recipient> :: AllKnown(reconciled, people, 0) && NoneYet(reconciled, people, 0, KeySet(rows))
  {
  }

  /** Preparing the host's account can only be noted while the event is scheduled and not over. */
  lemma HostAccounts(d: Desk, e: Event, env: Env)
    requires TableOk(d.table, Hosts, e) && Distinct(env.recipients) && Carries(d.table, Hosts)
    ensures var r := ServeHosts(d, e, env);
      && (forall p <- r.run.errors :: p in d.run.errors || p == HostInvitations || (p == HostAccount && e.status == Scheduled && env.now < e.endAt))
      && (r.run.alive && HostAccount !in r.run.errors ==> RowsNoted(r.table.rows, |r.table.rows|, r.run.errors, Hosts, env.push))
      && (forall key :: key in KeySet(r.table.rows) ==>
            key in KeySet(d.table.rows) || (d.run.alive && e.status == Scheduled && env.now < e.endAt && key == env.host))
      && d.run.errors <= r.run.errors
  {
    hide TableOk, RowsNoted, KeySet;
    PeopleLaw(e, env);
    var gate := PrepareHost(e, d.run, env);
    if gate.proceed {
      var people := CurrentHosts(e, env);
      ServeAccounts(Desk(d.table, gate.run), Hosts, e, Wanted(people), Upcoming(e, env, people), env.push, env.fate);
    }
  }

  lemma AttendeeAccounts(w: World, env: Env)
    requires WorldOk(w) && Distinct(env.recipients) && Carries(w.attendees, Attendees)
    ensures var o := Opening(w, env); var r := AttendeeDesk(w, env);
      && OnlyLabels(o.run.errors, r.run.errors, Attendees)
      && (r.run.alive ==> RowsNoted(r.table.rows, |r.table.rows|, r.run.errors, Attendees, env.push))
      && (forall key :: key in KeySet(r.table.rows) ==>
            key in KeySet(w.attendees.rows) || (o.run.alive && o.event.status == Scheduled && env.now < o.event.endAt && KeyOf(key, env.recipients)))
  {
    hide TableOk, RowsNoted, KeySet, Opening;
    OpeningLaw(w, env);
    var o := Opening(w, env);
    PeopleLaw(o.event, env);
    var people := CurrentRecipients(o.event, env);
    ServeAccounts(Desk(w.attendees, o.run), Attendees, o.event, Wanted(people), Upcoming(o.event, env, people), env.push, env.fate);
  }

  /** Zoom is either up to date or noted, and the opening moves neither the end of the event nor opens it. */
  lemma OpeningNotes(w: World, env: Env)
    requires WorldOk(w)
    ensures var o := Opening(w, env);
      && o.event.endAt == w.event.endAt
      && (o.run.alive ==> o.event.zoomSynced == o.event.revision || Zoom in o.run.errors)
      && o.run.errors <= {Zoom}
  {
    hide TableOk;
  }

  lemma DesksAccounts(w: World, env: Env)
    requires WorldOk(w) && Distinct(env.recipients) && Carries(w.attendees, Attendees) && Carries(w.hosts, Hosts)
    ensures var e := Opening(w, env).event; var a := AttendeeDesk(w, env); var h := HostDesk(w, env);
      && a.run.errors <= h.run.errors
      && Opening(w, env).run.errors <= a.run.errors
      && (HostAccount in h.run.errors ==> e.status == Scheduled && env.now < e.endAt)
      && (a.run.alive ==> RowsNoted(a.table.rows, |a.table.rows|, a.run.errors, Attendees, env.push))
      && (h.run.alive && HostAccount !in h.run.errors ==>
            RowsNoted(h.table.rows, |h.table.rows|, h.run.errors, Hosts, env.push))
  {
    hide WorldOk, RowsNoted, Opening, Serve, ServeHosts, KeySet, TableOk, Carries, AttendeesInOrder, HostsInOrder, AllDelivered, Grows;
    OpeningLaw(w, env);
    OpeningNotes(w, env);
    DesksLaw(w, env);
    AttendeeAccounts(w, env);
    HostAccounts(Desk(w.hosts, AttendeeDesk(w, env).run), Opening(w, env).event, env);
    hide AttendeeDesk;
  }

  lemma HostDeskAlive(w: World, env: Env)
    requires Carries(w.attendees, Attendees) && Carries(w.hosts, Hosts)
    ensures HostDesk(w, env).run.alive ==> AttendeeDesk(w, env).run.alive
  {
    hide Opening, AttendeeDesk, Serve;
    var run := AttendeeDesk(w, env).run;
    if !run.alive {
      assert PrepareHost(Opening(w, env).event, run, env) == HostGate(false, run);
    }
  }

  lemma SyncAccounts(w: World, env: Env)
    requires WorldOk(w) && Distinct(env.recipients) && Sync(w, env).finished
    ensures var r := Sync(w, env).world; var notes := r.event.syncError;
      && (r.event.zoomSynced == r.event.revision || Zoom in notes)
      && RowsNoted(r.attendees.rows, |r.attendees.rows|, notes, Attendees, env.push)
      && (HostAccount !in notes ==> RowsNoted(r.hosts.rows, |r.hosts.rows|, notes, Hosts, env.push))
      && (HostAccount in notes ==> w.event.status == Scheduled && env.open && env.now < w.event.endAt)
  {
    WorldCarries(w);
    SyncEndsWell(w, env);
    hide WorldOk, RowsNoted, Opening, TableOk, Carries, AttendeeDesk, HostDesk, Sync;
    SyncIs(w, env);
    OpeningLaw(w, env);
    OpeningNotes(w, env);
    DesksAccounts(w, env);
    HostDeskAlive(w, env);
    var a := AttendeeDesk(w, env);
    MoreNotes(a.table.rows, a.run.errors, HostDesk(w, env).run.errors, env.push);
  }

  lemma SyncEndsWell(w: World, env: Env)
    requires WorldOk(w) && Distinct(env.recipients) && Carries(w.attendees, Attendees) && Carries(w.hosts, Hosts)
    requires Sync(w, env).finished
    ensures env.ready && Opening(w, env).run.alive
  {
    hide WorldOk, Opening, TableOk, Carries, AttendeeDesk, HostDesk;
    if env.ready {
      SyncIs(w, env);
      DesksLaw(w, env);
    }
  }

  lemma MoreNotes(rows: seq<Row>, errors: set<Pending>, more: set<Pending>, push: string -> PushMode)
    requires RowsNoted(rows, |rows|, errors, Attendees, push) && errors <= more
    ensures RowsNoted(rows, |rows|, more, Attendees, push)
  {
    forall k | 0 <= k < |rows| ensures RowNoted(rows[k], more, Attendees, push(rows[k].key)) {
      assert RowNoted(rows[k], errors, Attendees, push(rows[k].key));
      assert forall c :: Noted(rows[k], c, errors, Attendees, push(rows[k].key)) ==> Noted(rows[k], c, more, Attendees, push(rows[k].key));
    }
  }

  lemma ByColumns(t: Table, kind: Kind, e: Event, errors: set<Pending>, push: string -> PushMode, k: nat)
    requires TableOk(t, kind, e) && RowsNoted(t.rows, |t.rows|, errors, kind, push) && k < |t.rows|
    ensures var row := t.rows[k];
      && row.delivered.Keys == Channels(kind)
      && forall c :: c in row.delivered ==>
           row.delivered[c] == row.sequence || Label(kind, c) in errors || (c == Push && push(row.key) == QuietHours)
  {
    var row := t.rows[k];
    assert RowOk(row, kind, e) && RowNoted(row, errors, kind, push(row.key));
    forall c | c in row.delivered
      ensures row.delivered[c] == row.sequence || Label(kind, c) in errors || (c == Push && push(row.key) == QuietHours)
    {
      assert Noted(row, c, errors, kind, push(row.key));
    }
  }

  lemma AttendeesByColumns(t: Table, e: Event, errors: set<Pending>, push: string -> PushMode)
    requires TableOk(t, Attendees, e) && RowsNoted(t.rows, |t.rows|, errors, Attendees, push)
    ensures forall k :: 0 <= k < |t.rows| ==>
      var row := t.rows[k];
      && row.delivered.Keys == {Mail, Notice, Push}
      && (row.delivered[Mail] == row.sequence || Emails in errors)
      && (row.delivered[Notice] == row.sequence || InApp in errors)
      && (row.delivered[Push] == row.sequence || Pushes in errors || push(row.key) == QuietHours)
  {
    hide TableOk, RowsNoted;
    forall k | 0 <= k < |t.rows| ensures var row := t.rows[k];
      && row.delivered.Keys == {Mail, Notice, Push}
      && (row.delivered[Mail] == row.sequence || Emails in errors)
      && (row.delivered[Notice] == row.sequence || InApp in errors)
      && (row.delivered[Push] == row.sequence || Pushes in errors || push(row.key) == QuietHours)
    {
      ByColumns(t, Attendees, e, errors, push, k);
    }
  }

  lemma HostsByColumns(t: Table, e: Event, errors: set<Pending>, push: string -> PushMode)
    requires TableOk(t, Hosts, e) && RowsNoted(t.rows, |t.rows|, errors, Hosts, push)
    ensures forall k :: 0 <= k < |t.rows| ==>
      t.rows[k].delivered.Keys == {Mail} && (t.rows[k].delivered[Mail] == t.rows[k].sequence || HostInvitations in errors)
  {
    hide TableOk, RowsNoted;
    forall k | 0 <= k < |t.rows|
      ensures t.rows[k].delivered.Keys == {Mail} && (t.rows[k].delivered[Mail] == t.rows[k].sequence || HostInvitations in errors)
    {
      ByColumns(t, Hosts, e, errors, push, k);
    }
  }

  // ---------------------------------------------------------------- main results

  /** After every synchronisation that reached its end, each kind of work still open is named by the note
      on the event: a meeting Zoom does not know yet, mail, notices and pushes to attendees, and mail to
      hosts. Only pushes held back by quiet hours go without a note. The host's account is noted only
      while the event is upcoming: hosts of a cancelled or past event are told without one. */
  lemma LeftoversAreNoted(w: World, env: Env)
    requires WorldOk(w) && Distinct(env.recipients) && Sync(w, env).finished
    ensures var r := Sync(w, env).world; var notes := r.event.syncError;
      && (r.event.zoomSynced == r.event.revision || Zoom in notes)
      && (forall k :: 0 <= k < |r.attendees.rows| ==>
            var row := r.attendees.rows[k];
            && row.delivered.Keys == {Mail, Notice, Push}
            && (row.delivered[Mail] == row.sequence || Emails in notes)
            && (row.delivered[Notice] == row.sequence || InApp in notes)
            && (row.delivered[Push] == row.sequence || Pushes in notes || env.push(row.key) == QuietHours))
      && (HostAccount !in notes ==> forall k :: 0 <= k < |r.hosts.rows| ==>
            var row := r.hosts.rows[k];
            row.delivered.Keys == {Mail} && (row.delivered[Mail] == row.sequence || HostInvitations in notes))
      && (HostAccount in notes ==> w.event.status == Scheduled && env.open && env.now < w.event.endAt)
  {
    WorldCarries(w);
    hide Sync, TableOk, RowsNoted, Carries;
    SyncLaw(w, env);
    SyncAccounts(w, env);
    var r := Sync(w, env).world;
    AttendeesByColumns(r.attendees, r.event, r.event.syncError, env.push);
    if HostAccount !in r.event.syncError {
      HostsByColumns(r.hosts, r.event, r.event.syncError, env.push);
    }
  }

  lemma NewKeys(w: World, env: Env)
    requires WorldOk(w) && Distinct(env.recipients)
    ensures var r := Sync(w, env).world; var upcoming := w.event.status == Scheduled && env.open && env.now < w.event.endAt;
      && (forall key :: key in KeySet(r.attendees.rows) ==>
            key in KeySet(w.attendees.rows) || (upcoming && KeyOf(key, env.recipients)))
      && (forall key :: key in KeySet(r.hosts.rows) ==> key in KeySet(w.hosts.rows) || (upcoming && key == env.host))
  {
    WorldCarries(w);
    hide WorldOk, Opening, TableOk, Carries, KeySet, Sync, Serve, ServeHosts;
    if env.ready {
      SyncIs(w, env);
      OpeningLaw(w, env);
      OpeningNotes(w, env);
      AttendeeAccounts(w, env);
      DesksLaw(w, env);
      HostAccounts(Desk(w.hosts, AttendeeDesk(w, env).run), Opening(w, env).event, env);
      AliveFromTheStart(w, env);
    } else {
      SyncIdle(w, env);
    }
  }

  lemma AliveFromTheStart(w: World, env: Env)
    requires WorldOk(w) && Distinct(env.recipients) && Carries(w.attendees, Attendees)
    ensures AttendeeDesk(w, env).run.alive ==> Opening(w, env).run.alive
  {
    hide WorldOk, Opening, Serve;
    AttendeeService(w, env);
  }

  lemma KeysGrow(t: Table, u: Table)
    requires Grows(t, u)
    ensures KeySet(t.rows) <= KeySet(u.rows)
  {
    forall i | 0 <= i < |t.rows| ensures t.rows[i].key in KeySet(u.rows) {
      assert u.rows[i].key == t.rows[i].key;
    }
  }

  lemma KnownKeys(rows: seq<Row>, people: seq<Recipient>, key: string)
    requires AllKnown(rows, people, |people|) && KeyOf(key, people)
    ensures key in KeySet(rows)
  {
    hide KeySet;
  }

  lemma HostsAfterwards(w: World, env: Env)
    requires WorldOk(w) && Distinct(env.recipients) && Sync(w, env).finished
    ensures var r := Sync(w, env).world; var e := r.event;
      && e.endAt == w.event.endAt
      && (HostAccount in e.syncError || AllKnown(r.hosts.rows, Upcoming(e, env, CurrentHosts(e, env)), |Upcoming(e, env, CurrentHosts(e, env))|))
  {
    WorldCarries(w);
    SyncEndsWell(w, env);
    hide WorldOk, Opening, TableOk, Carries, Sync, AllCurrent, AllKnown, AttendeeDesk;
    SyncIs(w, env);
    OpeningLaw(w, env);
    OpeningNotes(w, env);
    var e := Opening(w, env).event;
    HostService(Desk(w.hosts, AttendeeDesk(w, env).run), e, env);
    NotedInOrder(Sync(w, env).world.hosts, e, HostDesk(w, env).run.errors, env);
  }

  /** Everybody who should have a row has one. */
  lemma AllAreInvited(w: World, env: Env, key: string)
    requires WorldOk(w) && Distinct(env.recipients) && Sync(w, env).finished
    requires w.event.status == Scheduled && env.open && env.now < w.event.endAt
    ensures var r := Sync(w, env).world;
      && (KeyOf(key, env.recipients) ==> key in KeySet(r.attendees.rows))
      && (key == env.host ==> key in KeySet(r.hosts.rows) || HostAccount in r.event.syncError)
  {
    WorldCarries(w);
    hide WorldOk, Sync, KeySet, Carries, AllKnown;
    SyncLaw(w, env);
    HostsAfterwards(w, env);
    var r := Sync(w, env).world;
    if KeyOf(key, env.recipients) {
      KnownKeys(r.attendees.rows, env.recipients, key);
    }
    if key == env.host && HostAccount !in r.event.syncError {
      var hosts := CurrentHosts(r.event, env);
      assert hosts[0].id == key;
      KnownKeys(r.hosts.rows, hosts, key);
    }
  }

  /** Who has an invitation row, exactly. Rows never go away, and whatever fails nobody gets a new one
      but a current recipient of a scheduled event of an open brief that has not ended; a synchronisation
      that ends has given one to each of them, and to the host unless the account could not be prepared. */
  lemma InvitedExactly(w: World, env: Env, key: string)
    requires WorldOk(w) && Distinct(env.recipients)
    ensures var o := Sync(w, env); var upcoming := w.event.status == Scheduled && env.open && env.now < w.event.endAt;
      var recipient := KeyOf(key, env.recipients);
      && (key in KeySet(w.attendees.rows) ==> key in KeySet(o.world.attendees.rows))
      && (key in KeySet(w.hosts.rows) ==> key in KeySet(o.world.hosts.rows))
      && (key in KeySet(o.world.attendees.rows) && key !in KeySet(w.attendees.rows) ==> upcoming && recipient)
      && (key in KeySet(o.world.hosts.rows) && key !in KeySet(w.hosts.rows) ==> upcoming && key == env.host)
      && (o.finished && upcoming && recipient ==> key in KeySet(o.world.attendees.rows))
      && (o.finished && upcoming && key == env.host ==>
            key in KeySet(o.world.hosts.rows) || HostAccount in o.world.event.syncError)
  {
    WorldCarries(w);
    hide Sync, WorldOk, KeySet, Carries, KeyOf, Grows;
    NewKeys(w, env);
    SyncLaw(w, env);
    var r := Sync(w, env).world;
    KeysGrow(w.attendees, r.attendees);
    KeysGrow(w.hosts, r.hosts);
    if Sync(w, env).finished && w.event.status == Scheduled && env.open && env.now < w.event.endAt {
      AllAreInvited(w, env, key);
    }
  }

  // ---------------------------------------------------------------- how long the cron job looks

  /** A new event is looked at until its first synchronisation that ends, however late that is. */
  lemma FreshIsSelected(s: Schedule, endAt: int, zoomHost: string, now: int)
    ensures Selected(Fresh(s, endAt, zoomHost), now)
  {
  }

  lemma NothingElseSelects(w: World, env: Env, later: int)
    requires Settled(w, env) && w.event.syncError == {}
    ensures Selected(w, later) <==> later < w.event.endAt + 86400000
  {
    assert forall i :: 0 <= i < |w.attendees.rows| ==> Delivered(w.attendees.rows[i]);
    hide AttendeesInOrder, HostsInOrder;
  }

  /** Once everything is settled without a fault, the job looks at the event for exactly a day after it
      ended, and never again. */
  lemma SettledIsLeftAlone(w: World, env: Env, later: int)
    requires WorldOk(w) && Distinct(env.recipients) && env.ready && Calm(env.push, env.fate)
    ensures Selected(Sync(w, env).world, later) <==> later < Sync(w, env).world.event.endAt + 86400000
  {
    WorldCarries(w);
    hide Sync, WorldOk, Settled, Selected, Carries;
    SyncLaw(w, env);
    NothingElseSelects(Sync(w, env).world, env, later);
  }

  // ---------------------------------------------------------------- how SEQUENCE counts

  /** SEQUENCE rises by exactly one when a row that stands, before or afterwards, tells something new: its
      state, its revision or its address. It stays as it is otherwise. */
  predicate CountsChange(before: Row, row: Row) {
    && row.key == before.key
    && row.sequence == before.sequence
         + if (before.active || row.active)
              && (row.active != before.active || row.revision != before.revision || row.email != before.email) then 1 else 0
  }

  ghost predicate RowsCount(before: seq<Row>, rows: seq<Row>) {
    |before| <= |rows| && forall k :: 0 <= k < |before| ==> CountsChange(before[k], rows[k])
  }

  lemma {:induction false} ReconcileCounts(d: Desk, i: nat, wanted: map<string, string>, revision: nat, fate: nat -> Fate)
    requires i <= |d.table.rows|
    ensures var r := Reconcile(d, i, wanted, revision, fate);
      && RowsCount(d.table.rows, r.table.rows) && forall k :: 0 <= k < i ==> r.table.rows[k] == d.table.rows[k]
    decreases |d.table.rows| - i
  {
    if d.run.alive && i < |d.table.rows| {
      var next := if Stale(d.table.rows[i], wanted, revision)
        then SaveRow(d, i, Restamped(d.table.rows[i], wanted, revision), fate) else d;
      ReconcileCounts(next, i + 1, wanted, revision, fate);
    }
  }

  lemma ServeCounts(
    d: Desk, kind: Kind, e: Event, wanted: map<string, string>, newcomers: seq<Recipient>, push: string -> PushMode, fate: nat -> Fate)
    requires Carries(d.table, kind)
    ensures RowsCount(d.table.rows, Serve(d, kind, e, wanted, newcomers, push, fate).table.rows)
  {
    hide Reconcile, Invite, DeliverAll, Tells, KeySet;
    var reconciled := Reconcile(d, 0, wanted, e.revision, fate);
    ReconcileCounts(d, 0, wanted, e.revision, fate);
    ReconcileKeeps(d, 0, wanted, e.revision, fate, kind);
    var invited := Invite(reconciled, newcomers, 0, KeySet(d.table.rows), e.revision, kind, fate);
    InviteKeeps(reconciled, newcomers, 0, KeySet(d.table.rows), e.revision, kind, fate);
    InviteQuiet(reconciled, newcomers, 0, KeySet(d.table.rows), e.revision, kind, fate);
    DeliverAllTells(invited, 0, kind, e, push, fate);
    hide Carries;
  }

  lemma HostsCount(d: Desk, e: Event, env: Env)
    requires Carries(d.table, Hosts)
    ensures RowsCount(d.table.rows, ServeHosts(d, e, env).table.rows)
  {
    hide Serve;
    var gate := PrepareHost(e, d.run, env);
    if gate.proceed {
      var people := CurrentHosts(e, env);
      ServeCounts(Desk(d.table, gate.run), Hosts, e, Wanted(people), Upcoming(e, env, people), env.push, env.fate);
    }
  }

  /** Whatever fails, over one synchronisation: a row's SEQUENCE rises by one when a row that stands before
      or afterwards changes its state, revision or address, and else stays as it is. */
  lemma SequenceCountsChanges(w: World, env: Env)
    requires WorldOk(w)
    ensures Carries(w.attendees, Attendees) && Carries(w.hosts, Hosts)
    ensures var r := Sync(w, env).world;
      RowsCount(w.attendees.rows, r.attendees.rows) && RowsCount(w.hosts.rows, r.hosts.rows)
  {
    WorldCarries(w);
    hide Serve, ServeHosts, WorldOk, Sync, Opening, Carries;
    if env.ready {
      SyncIs(w, env);
      var o := Opening(w, env);
      var people := CurrentRecipients(o.event, env);
      ServeCounts(Desk(w.attendees, o.run), Attendees, o.event, Wanted(people), Upcoming(o.event, env, people), env.push, env.fate);
      HostsCount(Desk(w.hosts, AttendeeDesk(w, env).run), o.event, env);
    } else {
      SyncIdle(w, env);
    }
  }

  // ---------------------------------------------------------------- when nothing gets through

  /** Every operation is refused or ends the process. */
  ghost predicate NothingWorks(fate: nat -> Fate) {
    forall n: nat :: fate(n) == Refused || fate(n) == Dies
  }

  lemma {:induction false} NothingReconciled(d: Desk, i: nat, wanted: map<string, string>, revision: nat, fate: nat -> Fate)
    requires i <= |d.table.rows| && NothingWorks(fate)
    ensures Reconcile(d, i, wanted, revision, fate).table == d.table
    decreases |d.table.rows| - i
  {
    if d.run.alive && i < |d.table.rows| {
      var next := if Stale(d.table.rows[i], wanted, revision)
        then SaveRow(d, i, Restamped(d.table.rows[i], wanted, revision), fate) else d;
      assert fate(d.run.ops) == Refused || fate(d.run.ops) == Dies;
      NothingReconciled(next, i + 1, wanted, revision, fate);
    }
  }

  lemma {:induction false} NobodyInvited(
    d: Desk, people: seq<Recipient>, j: nat, known: set<string>, revision: nat, kind: Kind, fate: nat -> Fate)
    requires j <= |people| && NothingWorks(fate)
    ensures Invite(d, people, j, known, revision, kind, fate).table == d.table
    decreases |people| - j
  {
    if d.run.alive && j < |people| {
      if people[j].id in known {
        NobodyInvited(d, people, j + 1, known, revision, kind, fate);
      } else {
        assert fate(d.run.ops) == Refused || fate(d.run.ops) == Dies;
        NobodyInvited(Desk(d.table, AfterWrite(d.run, fate(d.run.ops))), people, j + 1, known, revision, kind, fate);
      }
    }
  }

  lemma NothingSentOn(d: Desk, i: nat, c: Channel, kind: Kind, e: Event, mode: PushMode, fate: nat -> Fate)
    requires i < |d.table.rows| && c in d.table.rows[i].delivered && NothingWorks(fate)
    ensures DeliverOn(d, i, c, kind, e, mode, fate).table == d.table
  {
    assert fate(d.run.ops) == Refused || fate(d.run.ops) == Dies;
    hide MessageFor, Recorded, NothingWorks;
  }

  lemma {:induction false} NothingDelivered(d: Desk, i: nat, kind: Kind, e: Event, push: string -> PushMode, fate: nat -> Fate)
    requires i <= |d.table.rows| && Carries(d.table, kind) && NothingWorks(fate)
    ensures DeliverAll(d, i, kind, e, push, fate).table == d.table
    decreases |d.table.rows| - i
  {
    hide DeliverOn, NothingWorks;
    if d.run.alive && i < |d.table.rows| {
      var mode := push(d.table.rows[i].key);
      NothingSentOn(d, i, Mail, kind, e, mode, fate);
      if kind == Attendees {
        var d1 := DeliverOn(d, i, Mail, kind, e, mode, fate);
        NothingSentOn(d1, i, Notice, kind, e, mode, fate);
        NothingSentOn(DeliverOn(d1, i, Notice, kind, e, mode, fate), i, Push, kind, e, mode, fate);
      }
      NothingDelivered(DeliverRow(d, i, kind, e, push, fate), i + 1, kind, e, push, fate);
    }
  }

  lemma NothingServed(
    d: Desk, kind: Kind, e: Event, wanted: map<string, string>, newcomers: seq<Recipient>, push: string -> PushMode, fate: nat -> Fate)
    requires Carries(d.table, kind) && NothingWorks(fate)
    ensures Serve(d, kind, e, wanted, newcomers, push, fate).table == d.table
  {
    hide Reconcile, Invite, DeliverAll, NothingWorks;
    NothingReconciled(d, 0, wanted, e.revision, fate);
    var reconciled := Reconcile(d, 0, wanted, e.revision, fate);
    NobodyInvited(reconciled, newcomers, 0, KeySet(d.table.rows), e.revision, kind, fate);
    var invited := Invite(reconciled, newcomers, 0, KeySet(d.table.rows), e.revision, kind, fate);
    NothingDelivered(invited, 0, kind, e, push, fate);
  }

  /** A synchronisation in which every write and every call is refused, or ends the process, changes
      nothing, sends nothing and does not finish. */
  lemma RefusalsLeaveNoTrace(w: World, env: Env)
    requires WorldOk(w) && NothingWorks(env.fate)
    ensures Carries(w.attendees, Attendees) && Carries(w.hosts, Hosts)
    ensures Sync(w, env) == Outcome(w, false)
  {
    WorldCarries(w);
    hide Serve, TableOk, WorldOk, Carries;
    if env.ready {
      assert env.fate(START.ops) == Refused || env.fate(START.ops) == Dies;
      var o := Opening(w, env);
      assert o.event == w.event;
      var people := CurrentRecipients(o.event, env);
      NothingServed(Desk(w.attendees, o.run), Attendees, o.event, Wanted(people), Upcoming(o.event, env, people), env.push, env.fate);
      var a := AttendeeDesk(w, env);
      HostsLeftAlone(Desk(w.hosts, a.run), o.event, env);
      var h := HostDesk(w, env);
      assert env.fate(h.run.ops) == Refused || env.fate(h.run.ops) == Dies;
      hide NothingWorks;
    }
  }

  lemma HostsLeftAlone(d: Desk, e: Event, env: Env)
    requires Carries(d.table, Hosts) && NothingWorks(env.fate)
    ensures ServeHosts(d, e, env).table == d.table
  {
    hide Serve;
    var gate := PrepareHost(e, d.run, env);
    if gate.proceed {
      var people := CurrentHosts(e, env);
      NothingServed(Desk(d.table, gate.run), Hosts, e, Wanted(people), Upcoming(e, env, people), env.push, env.fate);
    }
  }
}
