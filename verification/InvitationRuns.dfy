/** A whole synchronisation, and whole histories of an event: edits, cancellations and
    synchronisations in any order, with any losses. */
module InvitationRuns {
  import opened Prelude
  import opened BriefEvents
  import opened InvitationSync
  import opened InvitationLaws

  // ---------------------------------------------------------------- serving one table

  lemma {:induction false} WantedLists(people: seq<Recipient>)
    requires Distinct(people)
    ensures Lists(Wanted(people), people)
    ensures forall key :: key in Wanted(people) ==> exists j :: 0 <= j < |people| && people[j].id == key
  {
    if people != [] {
      var rest := people[..|people| - 1];
      WantedLists(rest);
      forall key | key in Wanted(people) ensures exists j :: 0 <= j < |people| && people[j].id == key {
        if key == people[|people| - 1].id {
          assert people[|people| - 1].id == key;
        } else {
          var j :| 0 <= j < |rest| && rest[j].id == key;
          assert people[j].id == key;
        }
      }
    }
  }

  /** What serving a table achieves when the worker is still alive afterwards. */
  ghost predicate Served(r: Desk, kind: Kind, e: Event, wanted: map<string, string>, newcomers: seq<Recipient>) {
    && AllCurrent(r.table.rows, |r.table.rows|, wanted, e)
    && AllKnown(r.table.rows, newcomers, |newcomers|)
    && MailAttended(r, |r.table.rows|, kind)
  }

  lemma DeadServe(
    d: Desk, kind: Kind, e: Event, wanted: map<string, string>, newcomers: seq<Recipient>, push: string -> PushMode, fate: nat -> Fate)
    requires Carries(d.table, kind) && !d.run.alive
    ensures Serve(d, kind, e, wanted, newcomers, push, fate) == d
  {
  }

  lemma ServeLaw(
    d: Desk, kind: Kind, e: Event, wanted: map<string, string>, newcomers: seq<Recipient>, push: string -> PushMode, fate: nat -> Fate)
    requires TableOk(d.table, kind, e) && Carries(d.table, kind)
    requires Distinct(newcomers) && Lists(wanted, newcomers) && OnlyIfScheduled(wanted, e)
    ensures var r := Serve(d, kind, e, wanted, newcomers, push, fate);
      && TableOk(r.table, kind, e) && Grows(d.table, r.table)
      && (r.run.alive ==> Served(r, kind, e, wanted, newcomers))
      && (Calm(push, fate) && d.run.alive ==> r.run.alive && r.run.errors == d.run.errors && AllDelivered(r.table, |r.table.rows|))
  {
    hide TableOk;
    var reconciled := Reconcile(d, 0, wanted, e.revision, fate);
    ReconcileLaw(d, 0, wanted, kind, e, fate);
    ReconcileQuiet(d, 0, wanted, e.revision, fate);
    ReconcileKeeps(d, 0, wanted, e.revision, fate, kind);
    var known := KeySet(d.table.rows);
    var invited := Invite(reconciled, newcomers, 0, known, e.revision, kind, fate);
    InviteLaw(reconciled, newcomers, 0, known, wanted, kind, e, fate);
    InviteKeeps(reconciled, newcomers, 0, known, e.revision, kind, fate);
    GrowsTransitive(d.table, reconciled.table, invited.table);
    if invited.run.alive {
      CountersInRange(invited.table, kind, e);
      DeliverAllKeeps(invited, 0, wanted, kind, e, push, fate);
      DeliverAllDoes(invited, 0, kind, e, push, fate);
      var r := DeliverAll(invited, 0, kind, e, push, fate);
      GrowsTransitive(d.table, invited.table, r.table);
      KnownGrows(invited.table, r.table, newcomers);
    }
  }

  lemma KnownGrows(t: Table, u: Table, people: seq<Recipient>)
    requires Grows(t, u) && AllKnown(t.rows, people, |people|)
    ensures AllKnown(u.rows, people, |people|)
  {
    forall k | 0 <= k < |people| ensures people[k].id in KeySet(u.rows) {
      var i :| 0 <= i < |t.rows| && t.rows[i].key == people[k].id;
      assert u.rows[i].key == people[k].id;
    }
  }

  // ---------------------------------------------------------------- one synchronisation

  lemma RevisionBump(t: Table, kind: Kind, e: Event, e': Event)
    requires TableOk(t, kind, e)
    requires e'.revision > e.revision || (e'.revision == e.revision && e'.status == e.status)
    ensures TableOk(t, kind, e')
  {
    forall i | 0 <= i < |t.rows| ensures RowOk(t.rows[i], kind, e') {
      assert RowOk(t.rows[i], kind, e);
    }
  }

  /** The event as the worker sees it once Zoom has been dealt with. */
  function Opening(w: World, env: Env): EventDesk {
    var checked := AutoCancel(w.event, START, env);
    SyncZoom(checked.event, checked.run, env)
  }

  lemma OpeningLaw(w: World, env: Env)
    requires WorldOk(w)
    ensures var o := Opening(w, env); var e := o.event;
      && e.zoomSynced <= e.revision && ScheduleHolds(e) && e.startAt == w.event.startAt
      && (e.revision > w.event.revision || (e.revision == w.event.revision && e.status == w.event.status))
      && e.revision <= w.event.revision + 1
      && (w.event.status == Cancelled ==> e.status == Cancelled)
      && e.syncError == w.event.syncError
      && (o.run.alive ==> (e.status == Scheduled <==> w.event.status == Scheduled && env.open))
      && (NothingFails(env.fate) ==> o.run.alive && o.run.errors == {} && e.zoomSynced == e.revision)
      && TableOk(w.attendees, Attendees, e) && TableOk(w.hosts, Hosts, e)
  {
    var e := Opening(w, env).event;
    RevisionBump(w.attendees, Attendees, w.event, e);
    RevisionBump(w.hosts, Hosts, w.event, e);
    hide TableOk;
  }

  /** Zoom is told before the event remembers it, so a recorded revision is one Zoom accepted;
      a failure is noted or ends the process. */
  lemma ZoomIsToldFirst(e: Event, run: Progress, env: Env)
    requires run.alive && e.zoomSynced < e.revision
    ensures var r := SyncZoom(e, run, env);
      && (r.event.zoomSynced != e.zoomSynced ==> env.fate(run.ops) == Done && r.event.zoomSynced == e.revision)
      && (r.run.alive ==> r.event.zoomSynced == e.revision || Zoom in r.run.errors)
      && r.event == e.(zoomSynced := r.event.zoomSynced)
  {
  }

  lemma PeopleLaw(e: Event, env: Env)
    requires Distinct(env.recipients)
    ensures var people := CurrentRecipients(e, env); var hosts := CurrentHosts(e, env);
      && Distinct(people) && Distinct(hosts)
      && Distinct(Upcoming(e, env, people)) && Distinct(Upcoming(e, env, hosts))
      && Lists(Wanted(people), Upcoming(e, env, people)) && Lists(Wanted(hosts), Upcoming(e, env, hosts))
      && OnlyIfScheduled(Wanted(people), e) && OnlyIfScheduled(Wanted(hosts), e)
  {
    WantedLists(CurrentRecipients(e, env));
    WantedLists(CurrentHosts(e, env));
  }

  /** A finished synchronisation left the attendee table in order. */
  ghost predicate AttendeesInOrder(t: Table, e: Event, env: Env) {
    var people := CurrentRecipients(e, env);
    && AllCurrent(t.rows, |t.rows|, Wanted(people), e)
    && AllKnown(t.rows, Upcoming(e, env, people), |Upcoming(e, env, people)|)
  }

  ghost predicate HostsInOrder(t: Table, e: Event, env: Env) {
    var people := CurrentHosts(e, env);
    && AllCurrent(t.rows, |t.rows|, Wanted(people), e)
    && AllKnown(t.rows, Upcoming(e, env, people), |Upcoming(e, env, people)|)
  }

  /** Nothing is left to do for the event as it stands. */
  ghost predicate Settled(w: World, env: Env) {
    && w.event.zoomSynced == w.event.revision
    && AttendeesInOrder(w.attendees, w.event, env) && AllDelivered(w.attendees, |w.attendees.rows|)
    && HostsInOrder(w.hosts, w.event, env) && AllDelivered(w.hosts, |w.hosts.rows|)
  }

  ghost predicate SomethingBehind(t: Table) {
    exists i, c :: 0 <= i < |t.rows| && c in t.rows[i].delivered && t.rows[i].delivered[c] < t.rows[i].sequence
  }

  /** The selection predicate of the cron job. */
  ghost predicate Selected(w: World, now: int) {
    || w.event.endAt > now - MILLIS_PER_DAY
    || w.event.zoomSynced < w.event.revision
    || w.event.syncError != {}
    || SomethingBehind(w.attendees)
  }

  lemma AttendeeService(w: World, env: Env)
    requires WorldOk(w) && Distinct(env.recipients)
    ensures var o := Opening(w, env); var e := o.event; var people := CurrentRecipients(e, env);
      var r := Serve(Desk(w.attendees, o.run), Attendees, e, Wanted(people), Upcoming(e, env, people), env.push, env.fate);
      && TableOk(r.table, Attendees, e) && Grows(w.attendees, r.table)
      && (r.run.alive ==> AttendeesInOrder(r.table, e, env) && o.run.alive)
      && (Calm(env.push, env.fate) ==> r.run.alive && r.run.errors == {} && AllDelivered(r.table, |r.table.rows|))
  {
    CarriesAll(w.attendees, Attendees, w.event);
    hide TableOk;
    OpeningLaw(w, env);
    var o := Opening(w, env);
    PeopleLaw(o.event, env);
    var people := CurrentRecipients(o.event, env);
    ServeLaw(Desk(w.attendees, o.run), Attendees, o.event, Wanted(people), Upcoming(o.event, env, people), env.push, env.fate);
    if !o.run.alive {
      DeadServe(Desk(w.attendees, o.run), Attendees, o.event, Wanted(people), Upcoming(o.event, env, people), env.push, env.fate);
    }
  }

  lemma HostService(d: Desk, e: Event, env: Env)
    requires TableOk(d.table, Hosts, e) && Distinct(env.recipients) && Carries(d.table, Hosts)
    ensures var r := ServeHosts(d, e, env);
      && TableOk(r.table, Hosts, e) && Grows(d.table, r.table)
      && (r.run.alive ==> d.run.alive)
      && (r.run.alive ==> HostAccount in r.run.errors || (HostsInOrder(r.table, e, env) && MailAttended(r, |r.table.rows|, Hosts)))
      && (Calm(env.push, env.fate) && d.run.alive ==>
            r.run.alive && r.run.errors == d.run.errors && AllDelivered(r.table, |r.table.rows|) && HostsInOrder(r.table, e, env))
  {
    hide TableOk;
    PeopleLaw(e, env);
    var gate := PrepareHost(e, d.run, env);
    if gate.proceed {
      var people := CurrentHosts(e, env);
      ServeLaw(Desk(d.table, gate.run), Hosts, e, Wanted(people), Upcoming(e, env, people), env.push, env.fate);
    }
  }

  /** The attendee table once the worker has served it. */
  ghost function AttendeeDesk(w: World, env: Env): Desk
    requires Carries(w.attendees, Attendees)
  {
    var o := Opening(w, env);
    var people := CurrentRecipients(o.event, env);
    Serve(Desk(w.attendees, o.run), Attendees, o.event, Wanted(people), Upcoming(o.event, env, people), env.push, env.fate)
  }

  ghost function HostDesk(w: World, env: Env): Desk
    requires Carries(w.attendees, Attendees) && Carries(w.hosts, Hosts)
  {
    ServeHosts(Desk(w.hosts, AttendeeDesk(w, env).run), Opening(w, env).event, env)
  }

  lemma DesksLaw(w: World, env: Env)
    requires WorldOk(w) && Distinct(env.recipients) && Carries(w.attendees, Attendees) && Carries(w.hosts, Hosts)
    ensures var e := Opening(w, env).event; var a := AttendeeDesk(w, env); var h := HostDesk(w, env);
      && TableOk(a.table, Attendees, e) && TableOk(h.table, Hosts, e)
      && Grows(w.attendees, a.table) && Grows(w.hosts, h.table)
      && (h.run.alive ==> AttendeesInOrder(a.table, e, env) && Opening(w, env).run.alive)
      && (h.run.alive && h.run.errors == {} ==> HostsInOrder(h.table, e, env) && AllDelivered(h.table, |h.table.rows|))
      && (Calm(env.push, env.fate) ==>
            h.run.alive && h.run.errors == {} && AllDelivered(a.table, |a.table.rows|))
  {
    hide TableOk, MailAttended, AllDelivered, AllCurrent, AllKnown, Serve, ServeHosts, Opening, Grows, AttendeesInOrder, HostsInOrder;
    OpeningLaw(w, env);
    AttendeeService(w, env);
    var e := Opening(w, env).event;
    HostService(Desk(w.hosts, AttendeeDesk(w, env).run), e, env);
    HostRowsDelivered(HostDesk(w, env), e);
  }

  /** Noting the errors on the event changes nothing the tables are measured by. */
  lemma NotedInOrder(t: Table, e: Event, errors: set<Pending>, env: Env)
    ensures var noted := e.(syncError := errors);
      && (AttendeesInOrder(t, e, env) ==> AttendeesInOrder(t, noted, env))
      && (HostsInOrder(t, e, env) ==> HostsInOrder(t, noted, env))
  {
    var noted := e.(syncError := errors);
    assert CurrentRecipients(noted, env) == CurrentRecipients(e, env) && CurrentHosts(noted, env) == CurrentHosts(e, env);
    assert Upcoming(noted, env, CurrentRecipients(e, env)) == Upcoming(e, env, CurrentRecipients(e, env));
    assert Upcoming(noted, env, CurrentHosts(e, env)) == Upcoming(e, env, CurrentHosts(e, env));
    assert forall row, wanted :: Current(row, wanted, e) ==> Current(row, wanted, noted);
    hide CurrentRecipients, CurrentHosts, Upcoming, Wanted, Current;
  }

  /** A synchronisation, by the two tables it serves. */
  lemma SyncIs(w: World, env: Env)
    requires Carries(w.attendees, Attendees) && Carries(w.hosts, Hosts) && env.ready
    ensures var e := Opening(w, env).event; var a := AttendeeDesk(w, env).table; var h := HostDesk(w, env);
      var o := Sync(w, env);
      && o.world.attendees == a && o.world.hosts == h.table
      && (o.world.event == e || (h.run.alive && o.world.event == e.(syncError := h.run.errors)))
      && (o.finished ==> h.run.alive && o.world.event == e.(syncError := h.run.errors))
      && (NothingFails(env.fate) && h.run.alive ==> o.finished)
  {
    hide Serve, ServeHosts, AutoCancel, SyncZoom;
  }

  /** Over a whole synchronisation, a revision is recorded only after Zoom accepted it, and it is the
      event's present one. */
  lemma RecordedRevisionWasAccepted(w: World, env: Env)
    requires WorldOk(w)
    ensures var r := Sync(w, env).world; var call := if w.event.status == Scheduled && !env.open then 1 else 0;
      r.event.zoomSynced != w.event.zoomSynced ==> env.fate(call) == Done && r.event.zoomSynced == r.event.revision
  {
    WorldCarries(w);
    if env.ready {
      SyncIs(w, env);
      var checked := AutoCancel(w.event, START, env);
      if checked.run.alive && checked.event.zoomSynced < checked.event.revision {
        ZoomIsToldFirst(checked.event, checked.run, env);
      }
    }
    hide Serve, ServeHosts, TableOk;
  }

  /** Over a whole synchronisation that reaches the hosts of an upcoming event: while the host's
      account cannot be prepared, no host row is touched, no host is written to, and a
      synchronisation that ends has noted it. */
  lemma UnpreparedHostIsNotInvited(w: World, env: Env)
    requires WorldOk(w) && env.ready
    requires Carries(w.attendees, Attendees)
    requires var e, run := Opening(w, env).event, AttendeeDesk(w, env).run;
      e.status == Scheduled && env.now < e.endAt && run.alive && env.fate(run.ops) != Done
    ensures Sync(w, env).world.hosts == w.hosts
    ensures Sync(w, env).finished ==> HostAccount in Sync(w, env).world.event.syncError
  {
    CarriesAll(w.hosts, Hosts, w.event);
    hide Serve, AutoCancel, SyncZoom, TableOk;
  }

  lemma SyncKeeps(w: World, env: Env)
    requires WorldOk(w) && Distinct(env.recipients) && env.ready
    requires Carries(w.attendees, Attendees) && Carries(w.hosts, Hosts)
    ensures var o := Sync(w, env);
      && WorldOk(o.world)
      && Grows(w.attendees, o.world.attendees) && Grows(w.hosts, o.world.hosts)
      && w.event.revision <= o.world.event.revision
      && (w.event.status == Cancelled ==> o.world.event.status == Cancelled)
      && o.world.event.startAt == w.event.startAt
  {
    hide TableOk, AllDelivered, AttendeesInOrder, HostsInOrder, Sync, AttendeeDesk, HostDesk, Opening, Grows, Calm, NothingFails;
    OpeningLaw(w, env);
    DesksLaw(w, env);
    SyncIs(w, env);
    var e, o := Opening(w, env).event, Sync(w, env);
    RevisionBump(o.world.attendees, Attendees, e, o.world.event);
    RevisionBump(o.world.hosts, Hosts, e, o.world.event);
  }

  lemma SyncEnds(w: World, env: Env)
    requires WorldOk(w) && Distinct(env.recipients) && env.ready
    requires Carries(w.attendees, Attendees) && Carries(w.hosts, Hosts)
    ensures var o := Sync(w, env); var r := o.world;
      && (o.finished ==> (r.event.status == Scheduled <==> w.event.status == Scheduled && env.open))
      && (o.finished ==> AttendeesInOrder(r.attendees, r.event, env))
      && (o.finished && r.event.syncError == {} ==>
            HostsInOrder(r.hosts, r.event, env) && AllDelivered(r.hosts, |r.hosts.rows|))
      && (Calm(env.push, env.fate) ==> o.finished && r.event.syncError == {} && Settled(r, env))
  {
    hide WorldOk, ScheduleHolds, TableOk, AllDelivered, AttendeesInOrder, HostsInOrder, Sync, AttendeeDesk, HostDesk, Opening, Grows, NothingFails;
    OpeningLaw(w, env);
    DesksLaw(w, env);
    SyncIs(w, env);
    var e, o := Opening(w, env).event, Sync(w, env);
    NotedInOrder(o.world.attendees, e, o.world.event.syncError, env);
    NotedInOrder(o.world.hosts, e, o.world.event.syncError, env);
  }

  /** The event after a synchronisation that ran to its end. */
  lemma SyncLaw(w: World, env: Env)
    requires WorldOk(w) && Distinct(env.recipients)
    ensures var o := Sync(w, env);
      && WorldOk(o.world)
      && Grows(w.attendees, o.world.attendees) && Grows(w.hosts, o.world.hosts)
      && w.event.revision <= o.world.event.revision
      && (w.event.status == Cancelled ==> o.world.event.status == Cancelled)
      && o.world.event.startAt == w.event.startAt
      && (o.finished ==> (o.world.event.status == Scheduled <==> w.event.status == Scheduled && env.open))
      && (o.finished ==> AttendeesInOrder(o.world.attendees, o.world.event, env))
      && (o.finished && o.world.event.syncError == {} ==>
            HostsInOrder(o.world.hosts, o.world.event, env) && AllDelivered(o.world.hosts, |o.world.hosts.rows|))
      && (env.ready && Calm(env.push, env.fate) ==>
            o.finished && o.world.event.syncError == {} && Settled(o.world, env))
  {
    WorldCarries(w);
    hide TableOk, AllDelivered, AttendeesInOrder, HostsInOrder, Sync, Settled, Calm, ScheduleHolds, Grows, Carries;
    if env.ready {
      SyncKeeps(w, env);
      SyncEnds(w, env);
    } else {
      SyncIdle(w, env);
    }
  }

  lemma SyncIdle(w: World, env: Env)
    requires Carries(w.attendees, Attendees) && Carries(w.hosts, Hosts) && !env.ready
    ensures Sync(w, env) == Outcome(w, false) && Grows(w.attendees, w.attendees) && Grows(w.hosts, w.hosts)
  {
  }

  lemma HostRowsDelivered(d: Desk, e: Event)
    requires TableOk(d.table, Hosts, e)
    ensures d.run.errors == {} && MailAttended(d, |d.table.rows|, Hosts) ==> AllDelivered(d.table, |d.table.rows|)
  {
    if d.run.errors == {} && MailAttended(d, |d.table.rows|, Hosts) {
      forall k | 0 <= k < |d.table.rows| ensures Delivered(d.table.rows[k]) {
        assert RowOk(d.table.rows[k], Hosts, e) && Attended(d, k, Mail, Hosts);
      }
    }
  }

  // ---------------------------------------------------------------- histories

  /** The actions that change one event. Every action runs under the event's advisory lock.
      `hostFree` is the answer of the overlap query at that moment. */
  datatype Action =
    | Edit(schedule: Schedule, at: int, hostFree: bool)
    | CancelEvent
    | Work(env: Env)

  ghost predicate Sensible(a: Action) {
    a.Work? ==> Distinct(a.env.recipients)
  }

  ghost function Next(w: World, a: Action): World
    requires WorldOk(w) && Sensible(a)
  {
    WorldCarries(w);
    match a
    case Edit(schedule, at, hostFree) =>
      (match Edited(w.event, schedule, at, hostFree)
       case Ok(e) => w.(event := e)
       case Err(_) => w)
    case CancelEvent => w.(event := CancelledBy(w.event))
    case Work(env) => Sync(w, env).world
  }

  lemma NextLaw(w: World, a: Action)
    requires WorldOk(w) && Sensible(a)
    ensures WorldOk(Next(w, a))
    ensures Grows(w.attendees, Next(w, a).attendees) && Grows(w.hosts, Next(w, a).hosts)
    ensures w.event.revision <= Next(w, a).event.revision
    ensures w.event.status == Cancelled ==> Next(w, a).event.status == Cancelled
  {
    WorldCarries(w);
    match a
    case Work(env) =>
      SyncLaw(w, env);
    case _ =>
      var e := Next(w, a).event;
      RevisionBump(w.attendees, Attendees, w.event, e);
      RevisionBump(w.hosts, Hosts, w.event, e);
  }

  ghost predicate AllSensible(actions: seq<Action>) {
    forall i :: 0 <= i < |actions| ==> Sensible(actions[i])
  }

  /** The world after a history, defined together with the invariant that lets it go on. */
  ghost function After(w: World, actions: seq<Action>): (r: World)
    requires WorldOk(w) && AllSensible(actions)
    ensures WorldOk(r)
  {
    if actions == [] then w
    else
      var before := After(w, actions[..|actions| - 1]);
      NextLaw(before, actions[|actions| - 1]);
      Next(before, actions[|actions| - 1])
  }

  ghost function Fresh(s: Schedule, endAt: int, zoomHost: string): World {
    World(NewEvent(s, endAt, zoomHost), Table([], []), Table([], []))
  }

  lemma FreshIsOk(s: Schedule, now: int, zoomHost: string)
    requires ValidateSchedule(s, now).Ok?
    ensures WorldOk(Fresh(s, ValidateSchedule(s, now).value, zoomHost))
  {
  }

  ghost predicate CountersBounded(t: Table) {
    forall i, c :: 0 <= i < |t.rows| && c in t.rows[i].delivered ==> -1 <= t.rows[i].delivered[c] <= t.rows[i].sequence
  }

  lemma BoundsHold(t: Table, kind: Kind, e: Event)
    requires TableOk(t, kind, e)
    ensures CountersBounded(t)
  {
    forall i | 0 <= i < |t.rows| ensures RowOk(t.rows[i], kind, e) {
    }
  }

  /** Safety over every history of an event that `create` accepted. */
  lemma HistoryIsSafe(s: Schedule, now: int, zoomHost: string, actions: seq<Action>)
    requires ValidateSchedule(s, now).Ok? && AllSensible(actions)
    ensures WorldOk(Fresh(s, ValidateSchedule(s, now).value, zoomHost))
    ensures var w := After(Fresh(s, ValidateSchedule(s, now).value, zoomHost), actions);
      && w.event.zoomSynced <= w.event.revision && ScheduleHolds(w.event)
      && CountersBounded(w.attendees) && CountersBounded(w.hosts)
      && KeysDistinct(w.attendees.rows) && KeysDistinct(w.hosts.rows)
      && Unambiguous(w.attendees.log) && Unambiguous(w.hosts.log)
  {
    FreshIsOk(s, now, zoomHost);
    var w := After(Fresh(s, ValidateSchedule(s, now).value, zoomHost), actions);
    BoundsHold(w.attendees, Attendees, w.event);
    BoundsHold(w.hosts, Hosts, w.event);
  }

  /** Sequences, rows, messages and revisions only ever grow, and a cancelled event stays
      cancelled, from any moment of a history to any later one. */
  lemma {:induction false} HistoryOnlyGrows(w: World, actions: seq<Action>, n: nat)
    requires WorldOk(w) && AllSensible(actions) && n <= |actions|
    ensures var early := After(w, actions[..n]); var late := After(w, actions);
      && Grows(early.attendees, late.attendees) && Grows(early.hosts, late.hosts)
      && early.event.revision <= late.event.revision
      && (early.event.status == Cancelled ==> late.event.status == Cancelled)
    decreases |actions|
  {
    hide WorldOk;
    if n == |actions| {
      assert actions[..n] == actions;
    } else {
      var rest := actions[..|actions| - 1];
      assert rest[..n] == actions[..n];
      HistoryOnlyGrows(w, rest, n);
      var before := After(w, rest);
      var a := actions[|actions| - 1];
      NextLaw(before, a);
      var early := After(w, actions[..n]);
      GrowsTransitive(early.attendees, before.attendees, Next(before, a).attendees);
      GrowsTransitive(early.hosts, before.hosts, Next(before, a).hosts);
    }
  }

  // ---------------------------------------------------------------- what a recipient sees

  /** A calendar keeps the message with the newest SEQUENCE (section 2.1.5 of RFC 5546). */
  function CalendarView(inbox: seq<Message>): (r: Option<Message>)
    ensures r.None? <==> inbox == []
    ensures r.Some? ==> r.value in inbox && forall m :: m in inbox ==> m.sequence <= r.value.sequence
  {
    if inbox == [] then None
    else
      var m := inbox[|inbox| - 1];
      var before := CalendarView(inbox[..|inbox| - 1]);
      assert forall x :: x in inbox ==> x == m || x in inbox[..|inbox| - 1];
      if before.Some? && m.sequence < before.value.sequence then before else Some(m)
  }

  ghost predicate SameContents(a: seq<Message>, b: seq<Message>) {
    forall m :: m in a <==> m in b
  }

  /** Mail about one key, in any order and with any duplicates. */
  ghost predicate MailFrom(inbox: seq<Message>, log: seq<Message>, key: string) {
    forall m :: m in inbox ==> m in log && m.key == key && m.channel == Mail
  }

  /** Duplication and reordering never change what a calendar shows. */
  lemma CalendarIgnoresOrder(log: seq<Message>, key: string, a: seq<Message>, b: seq<Message>)
    requires Unambiguous(log) && MailFrom(a, log, key) && SameContents(a, b)
    ensures var va := CalendarView(a); var vb := CalendarView(b);
      && va.Some? == vb.Some?
      && (va.Some? ==>
           && va.value.sequence == vb.value.sequence && va.value.verb == vb.value.verb
           && va.value.address == vb.value.address
           && (va.value.verb == Request ==> va.value.revision == vb.value.revision))
  {
    assert a != [] ==> a[0] in a;
    assert b != [] ==> b[0] in b;
    if a != [] {
      var m, n := CalendarView(a).value, CalendarView(b).value;
      assert m in b && n in a;
      var j :| 0 <= j < |log| && log[j] == m;
      var k :| 0 <= k < |log| && log[k] == n;
      assert Agree(log[j], log[k]);
    }
  }

  /** The mail that was ever sent for a key. */
  ghost predicate WholeInbox(inbox: seq<Message>, log: seq<Message>, key: string) {
    forall m :: m in inbox <==> m in log && m.key == key && m.channel == Mail
  }

  /** A message with the row's newest sequence says what the row says. */
  lemma NewestIsRows(t: Table, kind: Kind, e: Event, i: nat, m: Message)
    requires TableOk(t, kind, e) && i < |t.rows| && m in t.log && m.key == t.rows[i].key && t.rows[i].sequence <= m.sequence
    ensures Speaks(m, t.rows[i])
  {
    var j :| 0 <= j < |t.log| && t.log[j] == m;
    assert Explained(t.log[j], t.rows);
    var h :| 0 <= h < |t.rows| && Fits(m, t.rows[h]);
    assert h == i;
  }

  /** When a row's mail is delivered up to its sequence, every calendar that got the mail
      shows exactly what the row says. */
  lemma CalendarShowsRow(t: Table, kind: Kind, e: Event, i: nat, inbox: seq<Message>)
    requires TableOk(t, kind, e) && i < |t.rows| && Mail in t.rows[i].delivered
    requires t.rows[i].delivered[Mail] == t.rows[i].sequence && WholeInbox(inbox, t.log, t.rows[i].key)
    ensures CalendarView(inbox).Some? && Speaks(CalendarView(inbox).value, t.rows[i])
  {
    var row := t.rows[i];
    assert Backed(row, t.log);
    var k :| 0 <= k < |t.log| && t.log[k].key == row.key && t.log[k].channel == Mail && t.log[k].sequence == row.sequence;
    assert t.log[k] in inbox;
    var m := CalendarView(inbox).value;
    NewestIsRows(t, kind, e, i, m);
    hide TableOk, Speaks;
  }

  /** Convergence. After a synchronisation without faults, quiet hours aside, every attendee's
      calendar shows a REQUEST at the current revision and at the participant's address
      exactly when the participant is a current recipient of a scheduled event, and a CANCEL
      otherwise; while the event is upcoming, every recipient has a row. */
  lemma CalendarsConverge(w: World, env: Env, i: nat, inbox: seq<Message>)
    requires WorldOk(w) && Distinct(env.recipients) && env.ready && Calm(env.push, env.fate)
    requires var t := Sync(w, env).world.attendees; i < |t.rows| && WholeInbox(inbox, t.log, t.rows[i].key)
    ensures var o := Sync(w, env); var e := o.world.event; var row := o.world.attendees.rows[i];
      var m := CalendarView(inbox);
      && o.finished && m.Some?
      && (m.value.verb == Request <==>
            w.event.status == Scheduled && env.open && exists j :: 0 <= j < |env.recipients| && env.recipients[j].id == row.key)
      && (m.value.verb == Request ==> m.value.revision == e.revision && Recipient(row.key, m.value.address) in env.recipients)
      && (e.status == Scheduled && env.now < e.endAt ==>
            forall p :: p in env.recipients ==> p.id in KeySet(o.world.attendees.rows))
  {
    SyncLaw(w, env);
    var o := Sync(w, env);
    var e := o.world.event;
    var row := o.world.attendees.rows[i];
    var people := CurrentRecipients(e, env);
    PeopleLaw(e, env);
    WantedLists(people);
    assert Delivered(row) && Current(row, Wanted(people), e);
    assert RowOk(row, Attendees, e);
    CalendarShowsRow(o.world.attendees, Attendees, e, i, inbox);
    if row.key in Wanted(people) {
      var j :| 0 <= j < |people| && people[j].id == row.key;
      assert people[j] == Recipient(row.key, row.email);
    }
    hide TableOk, WorldOk;
    if e.status == Scheduled && env.now < e.endAt {
      forall p | p in env.recipients ensures p.id in KeySet(o.world.attendees.rows) {
        var j :| 0 <= j < |people| && people[j] == p;
        assert AllKnown(o.world.attendees.rows, people, |people|);
      }
    }
  }

  /** After such a synchronisation at most one host invitation stands, and it is the
      resolved host's. */
  lemma OneHostStands(w: World, env: Env)
    requires WorldOk(w) && Distinct(env.recipients) && env.ready && Calm(env.push, env.fate)
    ensures var rows := Sync(w, env).world.hosts.rows; var e := Sync(w, env).world.event;
      && (forall i :: 0 <= i < |rows| && rows[i].active ==> rows[i].key == env.host && e.status == Scheduled)
      && (forall i, j :: 0 <= i < |rows| && 0 <= j < |rows| && rows[i].active && rows[j].active ==> i == j)
      && (e.status == Scheduled && env.now < e.endAt ==> exists i :: 0 <= i < |rows| && rows[i].active)
  {
    SyncLaw(w, env);
    var e := Sync(w, env).world.event;
    var rows := Sync(w, env).world.hosts.rows;
    var people := CurrentHosts(e, env);
    WantedLists(people);
    forall i | 0 <= i < |rows| ensures rows[i].active <==> e.status == Scheduled && rows[i].key == env.host {
      assert Current(rows[i], Wanted(people), e);
    }
    if e.status == Scheduled && env.now < e.endAt {
      assert people[0].id in KeySet(rows);
    }
  }

  /** The same for hosts: only the resolved host's calendar shows a REQUEST, at the current
      revision and while the event is scheduled; every earlier host's shows a CANCEL. */
  lemma HostCalendarsConverge(w: World, env: Env, i: nat, inbox: seq<Message>)
    requires WorldOk(w) && Distinct(env.recipients) && env.ready && Calm(env.push, env.fate)
    requires var t := Sync(w, env).world.hosts; i < |t.rows| && WholeInbox(inbox, t.log, t.rows[i].key)
    ensures var e := Sync(w, env).world.event; var row := Sync(w, env).world.hosts.rows[i];
      var m := CalendarView(inbox);
      && m.Some?
      && (m.value.verb == Request <==> w.event.status == Scheduled && env.open && row.key == env.host)
      && (m.value.verb == Request ==> m.value.revision == e.revision && m.value.address == env.host)
  {
    SyncLaw(w, env);
    var e := Sync(w, env).world.event;
    var row := Sync(w, env).world.hosts.rows[i];
    var people := CurrentHosts(e, env);
    WantedLists(people);
    assert Delivered(row) && Current(row, Wanted(people), e);
    assert RowOk(row, Hosts, e);
    CalendarShowsRow(Sync(w, env).world.hosts, Hosts, e, i, inbox);
    hide TableOk, WorldOk;
  }

  // ---------------------------------------------------------------- nothing is forgotten

  /** After every synchronisation that reached its end, whatever failed on the way, either
      nothing is left to do or the cron job selects the event again. */
  lemma NothingForgotten(w: World, env: Env, later: int)
    requires WorldOk(w) && Distinct(env.recipients)
    requires Sync(w, env).finished
    ensures Settled(Sync(w, env).world, env) || Selected(Sync(w, env).world, later)
  {
    SyncLaw(w, env);
    var r := Sync(w, env).world;
    if !SomethingBehind(r.attendees) {
      forall k | 0 <= k < |r.attendees.rows| ensures Delivered(r.attendees.rows[k]) {
        assert RowOk(r.attendees.rows[k], Attendees, r.event);
      }
    }
  }

  lemma {:induction false} NothingToReconcile(d: Desk, i: nat, wanted: map<string, string>, e: Event, fate: nat -> Fate)
    requires i <= |d.table.rows| && AllCurrent(d.table.rows, |d.table.rows|, wanted, e)
    ensures Reconcile(d, i, wanted, e.revision, fate) == d
    decreases |d.table.rows| - i
  {
    if d.run.alive && i < |d.table.rows| {
      assert Current(d.table.rows[i], wanted, e);
      NothingToReconcile(d, i + 1, wanted, e, fate);
    }
  }

  lemma {:induction false} NobodyToInvite(d: Desk, people: seq<Recipient>, j: nat, known: set<string>, revision: nat, kind: Kind, fate: nat -> Fate)
    requires j <= |people| && forall k :: 0 <= k < |people| ==> people[k].id in known
    ensures Invite(d, people, j, known, revision, kind, fate) == d
    decreases |people| - j
  {
    if d.run.alive && j < |people| {
      NobodyToInvite(d, people, j + 1, known, revision, kind, fate);
    }
  }

  lemma {:induction false} NothingToDeliver(d: Desk, i: nat, kind: Kind, e: Event, push: string -> PushMode, fate: nat -> Fate)
    requires i <= |d.table.rows| && Carries(d.table, kind) && AllDelivered(d.table, |d.table.rows|)
    ensures DeliverAll(d, i, kind, e, push, fate) == d
    decreases |d.table.rows| - i
  {
    if d.run.alive && i < |d.table.rows| {
      assert Delivered(d.table.rows[i]);
      NothingToDeliver(d, i + 1, kind, e, push, fate);
    }
  }

  lemma NothingToServe(
    d: Desk, kind: Kind, e: Event, wanted: map<string, string>, newcomers: seq<Recipient>, push: string -> PushMode, fate: nat -> Fate)
    requires Carries(d.table, kind) && AllDelivered(d.table, |d.table.rows|)
    requires AllCurrent(d.table.rows, |d.table.rows|, wanted, e) && AllKnown(d.table.rows, newcomers, |newcomers|)
    ensures Serve(d, kind, e, wanted, newcomers, push, fate) == d
  {
    NothingToReconcile(d, 0, wanted, e, fate);
    NobodyToInvite(d, newcomers, 0, KeySet(d.table.rows), e.revision, kind, fate);
    NothingToDeliver(d, 0, kind, e, push, fate);
  }

  /** Same people and host, in any order, with nothing closed or reopened, and no earlier. */
  ghost predicate SameSurroundings(a: Env, b: Env) {
    && a.open == b.open && a.host == b.host && a.now <= b.now
    && (forall p :: p in a.recipients <==> p in b.recipients)
    && Distinct(a.recipients) && Distinct(b.recipients)
  }

  lemma WantedIncluded(a: seq<Recipient>, b: seq<Recipient>)
    requires Distinct(a) && Distinct(b) && forall p :: p in a ==> p in b
    ensures forall key :: key in Wanted(a) ==> key in Wanted(b) && Wanted(a)[key] == Wanted(b)[key]
  {
    WantedLists(a);
    WantedLists(b);
    forall key | key in Wanted(a) ensures key in Wanted(b) && Wanted(a)[key] == Wanted(b)[key] {
      var j :| 0 <= j < |a| && a[j].id == key;
      assert a[j] in b;
    }
  }

  lemma WantedIgnoresOrder(a: seq<Recipient>, b: seq<Recipient>)
    requires Distinct(a) && Distinct(b) && forall p :: p in a <==> p in b
    ensures Wanted(a) == Wanted(b)
  {
    WantedIncluded(a, b);
    WantedIncluded(b, a);
  }

  /** A second synchronisation right after a faultless one sends nothing and changes no row,
      whatever its own writes and calls would have met. */
  lemma SecondSyncIsSilent(w: World, first: Env, second: Env)
    requires WorldOk(w) && first.ready && Calm(first.push, first.fate) && SameSurroundings(first, second)
    ensures WorldOk(Sync(w, first).world)
    ensures var one := Sync(w, first).world; var two := Sync(one, second).world;
      && two.attendees == one.attendees && two.hosts == one.hosts
      && two.event == one.event.(syncError := two.event.syncError)
  {
    WorldCarries(w);
    hide TableOk, AllCurrent, AllKnown, AllDelivered, NothingFails, Carries;
    SyncLaw(w, first);
    var one := Sync(w, first).world;
    if second.ready {
      var z := Opening(one, second);
      assert z == EventDesk(one.event, START);
      var e := one.event;
      var before, people := CurrentRecipients(e, first), CurrentRecipients(e, second);
      WantedIgnoresOrder(before, people);
      var newcomers := Upcoming(e, second, people);
      forall k | 0 <= k < |newcomers| ensures newcomers[k].id in KeySet(one.attendees.rows) {
        assert newcomers[k] in before;
        var j :| 0 <= j < |before| && before[j] == newcomers[k];
        assert AllKnown(one.attendees.rows, before, |before|);
      }
      WorldCarries(one);
      NothingToServe(Desk(one.attendees, START), Attendees, e, Wanted(people), newcomers, second.push, second.fate);
      SilentHosts(one, first, second, START);
    }
  }

  lemma SilentHosts(one: World, first: Env, second: Env, run: Progress)
    requires Carries(one.hosts, Hosts) && HostsInOrder(one.hosts, one.event, first)
    requires AllDelivered(one.hosts, |one.hosts.rows|) && first.host == second.host && first.now <= second.now
    ensures ServeHosts(Desk(one.hosts, run), one.event, second).table == one.hosts
  {
    var e := one.event;
    var gate := PrepareHost(e, run, second);
    if gate.proceed {
      var people := CurrentHosts(e, second);
      NothingToServe(Desk(one.hosts, gate.run), Hosts, e, Wanted(people), Upcoming(e, second, people), second.push, second.fate);
    }
  }

  lemma DyingServe(d: Desk, kind: Kind, e: Event, env: Env)
    requires Carries(d.table, kind) && d.run.alive && env.fate(d.run.ops) == Dies
    requires forall i :: 0 <= i < |d.table.rows| ==> d.table.rows[i].revision < e.revision
    ensures var r := Serve(d, kind, e, map[], [], env.push, env.fate);
      r.table == d.table && (d.table.rows == [] ==> r == d) && (d.table.rows != [] ==> !r.run.alive)
  {
    if d.table.rows != [] {
      var next := SaveRow(d, 0, Restamped(d.table.rows[0], map[], e.revision), env.fate);
      assert Reconcile(d, 0, map[], e.revision, env.fate) == Reconcile(next, 1, map[], e.revision, env.fate) == next;
    }
  }

  lemma RowsAreOld(w: World, e: Event)
    requires WorldOk(w) && w.event.revision < e.revision
    ensures forall i :: 0 <= i < |w.attendees.rows| ==> w.attendees.rows[i].revision < e.revision
    ensures forall i :: 0 <= i < |w.hosts.rows| ==> w.hosts.rows[i].revision < e.revision
  {
    forall i | 0 <= i < |w.attendees.rows| ensures w.attendees.rows[i].revision < e.revision {
      assert RowOk(w.attendees.rows[i], Attendees, w.event);
    }
    forall i | 0 <= i < |w.hosts.rows| ensures w.hosts.rows[i].revision < e.revision {
      assert RowOk(w.hosts.rows[i], Hosts, w.event);
    }
  }

  /** The proviso "reached its end" is needed. When every row was delivered, a manager cancels,
      and the process dies just after Zoom's new revision was recorded, then from one day after
      the event the cron job never selects it again, although no invitation was withdrawn. */
  lemma DeadSyncCanForget(w: World, env: Env, later: int)
    requires WorldOk(w) && w.event.status == Scheduled && w.event.syncError == {}
    requires w.attendees.rows != [] && AllDelivered(w.attendees, |w.attendees.rows|)
    requires env.ready && Distinct(env.recipients) && w.event.endAt + MILLIS_PER_DAY <= later
    requires forall n: nat :: env.fate(n) == if n < 2 then Done else Dies
    ensures WorldOk(Next(w, CancelEvent))
    ensures var r := Sync(Next(w, CancelEvent), env).world;
      && r.attendees == w.attendees && r.hosts == w.hosts && r.event.status == Cancelled
      && !Settled(r, env) && !Selected(r, later)
  {
    NextLaw(w, CancelEvent);
    var c := Next(w, CancelEvent);
    var e := c.event.(zoomSynced := c.event.revision);
    assert Opening(c, env) == EventDesk(e, Progress(2, {}, true));
    WorldCarries(w);
    RowsAreOld(w, e);
    DyingServe(Desk(w.attendees, Progress(2, {}, true)), Attendees, e, env);
    assert !Current(w.attendees.rows[0], map[], e);
    hide WorldOk;
  }

  /** The `.ics` file a participant downloads between a change and the next synchronisation
      carries the row's old SEQUENCE: it agrees with the mail already sent under that
      SEQUENCE exactly when the row is withdrawn or up to date with the event. */
  lemma DownloadAgrees(t: Table, e: Event, i: nat, k: nat)
    requires TableOk(t, Attendees, e) && i < |t.rows| && k < |t.log|
    requires t.log[k].key == t.rows[i].key && t.log[k].channel == Mail && t.log[k].sequence == t.rows[i].sequence
    ensures Agree(t.log[k], MessageFor(t.rows[i], Mail, e)) <==> !t.rows[i].active || t.rows[i].revision == e.revision
  {
    assert Explained(t.log[k], t.rows) && RowOk(t.rows[i], Attendees, e);
    var h :| 0 <= h < |t.rows| && Fits(t.log[k], t.rows[h]);
    assert h == i;
  }
}
