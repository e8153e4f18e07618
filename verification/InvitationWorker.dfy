/** The worker itself: rows updated in place, loops over them, an error list, one stored event.
    Every method is proved to compute the corresponding function of `InvitationSync`. */
module InvitationWorker {
  import opened BriefEvents
  import opened InvitationSync
  import opened InvitationLaws
  import opened InvitationRuns
  import opened Prelude

  /** One repository of invitation rows together with the record of what was sent. */
  class RowTable {
    const kind: Kind
    var rows: seq<Row>
    ghost var log: seq<Message>

    ghost function Contents(): Table
      reads this
    {
      Table(rows, log)
    }

    constructor (kind: Kind)
      ensures this.kind == kind && Contents() == Table([], [])
    {
      this.kind := kind;
      rows := [];
      log := [];
    }

    method ReconcileRows(run: Progress, wanted: map<string, string>, revision: nat, fate: nat -> Fate) returns (r: Progress)
      modifies this
      ensures Desk(Contents(), r) == Reconcile(Desk(old(Contents()), run), 0, wanted, revision, fate)
    {
      r := run;
      var i := 0;
      while r.alive && i < |rows|
        invariant i <= |rows|
        invariant Reconcile(Desk(Contents(), r), i, wanted, revision, fate)
               == Reconcile(Desk(old(Contents()), run), 0, wanted, revision, fate)
        decreases |rows| - i
      {
        if Stale(rows[i], wanted, revision) {
          var f := fate(r.ops);
          if Applied(f) {
            rows := rows[i := Restamped(rows[i], wanted, revision)];
          }
          r := AfterWrite(r, f);
        }
        i := i + 1;
      }
    }

    method InviteNewcomers(run: Progress, people: seq<Recipient>, known: set<string>, revision: nat, fate: nat -> Fate)
      returns (r: Progress)
      modifies this
      ensures Desk(Contents(), r) == Invite(Desk(old(Contents()), run), people, 0, known, revision, kind, fate)
    {
      r := run;
      var j := 0;
      while r.alive && j < |people|
        invariant j <= |people|
        invariant Invite(Desk(Contents(), r), people, j, known, revision, kind, fate)
               == Invite(Desk(old(Contents()), run), people, 0, known, revision, kind, fate)
      {
        if people[j].id !in known {
          var f := fate(r.ops);
          if Applied(f) {
            rows := rows + [NewRow(people[j], revision, kind)];
          }
          r := AfterWrite(r, f);
        }
        j := j + 1;
      }
    }

    method RecordDelivery(run: Progress, i: nat, c: Channel, fate: nat -> Fate) returns (r: Progress)
      requires i < |rows|
      modifies this
      ensures Desk(Contents(), r) == Record(Desk(old(Contents()), run), i, c, kind, fate)
    {
      match fate(run.ops) {
        case Done =>
          rows := rows[i := Recorded(rows[i], c)];
          r := Went(run);
        case Lost =>
          rows := rows[i := Recorded(rows[i], c)];
          r := Failed(run, Label(kind, c));
        case Refused =>
          r := Failed(run, Label(kind, c));
        case Dies =>
          r := Stopped(run);
      }
    }

    method DeliverOneChannel(run: Progress, i: nat, c: Channel, e: Event, mode: PushMode, fate: nat -> Fate) returns (r: Progress)
      requires i < |rows| && c in rows[i].delivered
      modifies this
      ensures Desk(Contents(), r) == DeliverOn(Desk(old(Contents()), run), i, c, kind, e, mode, fate)
      ensures log == old(log) || log == old(log) + [MessageFor(old(rows[i]), c, e)]
      ensures rows[i].delivered[c] != old(rows[i].delivered[c]) && (c == Push ==> mode == PushOn) ==>
        log == old(log) + [MessageFor(old(rows[i]), c, e)]
    {
      DeliverOnSends(Desk(Contents(), run), i, c, kind, e, mode, fate);
      if !run.alive || rows[i].sequence <= rows[i].delivered[c] {
        return run;
      }
      if c == Push && mode == QuietHours {
        return run;
      }
      if c == Push && mode == PushOff {
        r := RecordDelivery(run, i, c, fate);
        return;
      }
      match fate(run.ops) {
        case Done =>
          log := log + [MessageFor(rows[i], c, e)];
          r := RecordDelivery(Went(run), i, c, fate);
        case Lost =>
          log := log + [MessageFor(rows[i], c, e)];
          r := Failed(run, Label(kind, c));
        case Refused =>
          r := Failed(run, Label(kind, c));
        case Dies =>
          r := Stopped(run);
      }
    }

    method Deliver(run: Progress, i: nat, e: Event, push: string -> PushMode, fate: nat -> Fate) returns (r: Progress)
      requires i < |rows| && Carries(Contents(), kind)
      modifies this
      ensures Desk(Contents(), r) == DeliverRow(Desk(old(Contents()), run), i, kind, e, push, fate)
    {
      var mode := push(rows[i].key);
      r := DeliverOneChannel(run, i, Mail, e, mode, fate);
      if kind == Attendees {
        r := DeliverOneChannel(r, i, Notice, e, mode, fate);
        r := DeliverOneChannel(r, i, Push, e, mode, fate);
      }
    }

    method DeliverPending(run: Progress, e: Event, push: string -> PushMode, fate: nat -> Fate) returns (r: Progress)
      requires Carries(Contents(), kind)
      modifies this
      ensures Desk(Contents(), r) == DeliverAll(Desk(old(Contents()), run), 0, kind, e, push, fate)
    {
      r := run;
      var i := 0;
      while r.alive && i < |rows|
        invariant i <= |rows| && Carries(Contents(), kind)
        invariant DeliverAll(Desk(Contents(), r), i, kind, e, push, fate)
               == DeliverAll(Desk(old(Contents()), run), 0, kind, e, push, fate)
        decreases |rows| - i
      {
        ghost var n := |rows|;
        r := Deliver(r, i, e, push, fate);
        assert |Contents().rows| == n;
        i := i + 1;
      }
    }

    method ServeRows(run: Progress, e: Event, wanted: map<string, string>, newcomers: seq<Recipient>, push: string -> PushMode, fate: nat -> Fate)
      returns (r: Progress)
      requires Carries(Contents(), kind)
      modifies this
      ensures Desk(Contents(), r) == Serve(Desk(old(Contents()), run), kind, e, wanted, newcomers, push, fate)
    {
      ghost var d := Desk(Contents(), run);
      var known := KeySet(rows);
      r := ReconcileRows(run, wanted, e.revision, fate);
      ReconcileKeeps(d, 0, wanted, e.revision, fate, kind);
      ghost var reconciled := Desk(Contents(), r);
      r := InviteNewcomers(r, newcomers, known, e.revision, fate);
      InviteKeeps(reconciled, newcomers, 0, known, e.revision, kind, fate);
      r := DeliverPending(r, e, push, fate);
    }
  }

  /** The stored event and the two repositories that `syncEvent` works on. */
  class EventStore {
    var event: Event
    const attendees: RowTable
    const hosts: RowTable

    ghost predicate Valid()
      reads this, attendees, hosts
    {
      && attendees != hosts
      && attendees.kind == Attendees && hosts.kind == Hosts
      && WorldOk(Contents())
    }

    ghost function Contents(): World
      reads this, attendees, hosts
    {
      World(event, attendees.Contents(), hosts.Contents())
    }

    /** The row `create` saves, with no invitations yet. */
    constructor (s: Schedule, now: int, zoomHost: string)
      requires ValidateSchedule(s, now).Ok?
      ensures Valid() && fresh(attendees) && fresh(hosts)
      ensures Contents() == World(NewEvent(s, ValidateSchedule(s, now).value, zoomHost), Table([], []), Table([], []))
      ensures event == Event(Scheduled, s.startAt, s.startAt + s.minutes * 60000, s.minutes, zoomHost, 0, 0, {Invitations})
    {
      event := NewEvent(s, ValidateSchedule(s, now).value, zoomHost);
      attendees := new RowTable(Attendees);
      hosts := new RowTable(Hosts);
    }

    /** `update`: an accepted edit takes the next revision; a refused one changes nothing. */
    method Update(s: Schedule, now: int, hostFree: bool) returns (r: Result<Event, Refusal>)
      requires Valid()
      modifies this
      ensures Valid() && Contents() == Next(old(Contents()), Edit(s, now, hostFree))
      ensures r.Ok? <==> old(event.status) == Scheduled && ValidateSchedule(s, now).Ok? && hostFree
      ensures r.Ok? ==>
        event == r.value
        == old(event).(startAt := s.startAt, minutes := s.minutes, endAt := s.startAt + s.minutes * 60000, revision := old(event.revision) + 1)
      ensures r.Err? ==> event == old(event)
    {
      NextLaw(Contents(), Edit(s, now, hostFree));
      r := Edited(event, s, now, hostFree);
      if r.Ok? {
        event := r.value;
      }
    }

    method CancelByManager()
      requires Valid()
      modifies this
      ensures Valid() && Contents() == Next(old(Contents()), CancelEvent)
      ensures event == if old(event.status) == Cancelled then old(event)
                       else old(event).(status := Cancelled, revision := old(event.revision) + 1)
    {
      NextLaw(Contents(), CancelEvent);
      event := CancelledBy(event);
    }

    method SyncHosts(run: Progress, e: Event, env: Env) returns (r: Progress)
      requires hosts.kind == Hosts && Carries(hosts.Contents(), Hosts)
      modifies hosts
      ensures Desk(hosts.Contents(), r) == ServeHosts(Desk(old(hosts.Contents()), run), e, env)
    {
      var gate := PrepareHost(e, run, env);
      if !gate.proceed {
        return gate.run;
      }
      var people := CurrentHosts(e, env);
      r := hosts.ServeRows(gate.run, e, Wanted(people), Upcoming(e, env, people), env.push, env.fate);
    }

    /** `syncEvent`: false when it stopped before its last write. */
    method SyncEvent(env: Env) returns (finished: bool)
      requires Valid()
      modifies this, attendees, hosts
      ensures Carries(old(Contents()).attendees, Attendees) && Carries(old(Contents()).hosts, Hosts)
      ensures Outcome(Contents(), finished) == Sync(old(Contents()), env)
      ensures Distinct(env.recipients) ==> Valid()
    {
      if Distinct(env.recipients) {
        SyncLaw(Contents(), env);
      }
      CarriesAll(attendees.Contents(), Attendees, event);
      CarriesAll(hosts.Contents(), Hosts, event);
      if !env.ready {
        return false;
      }
      var checked := AutoCancel(event, START, env);
      var zoomed := SyncZoom(checked.event, checked.run, env);
      event := zoomed.event;
      var people := CurrentRecipients(event, env);
      var run := attendees.ServeRows(zoomed.run, event, Wanted(people), Upcoming(event, env, people), env.push, env.fate);
      run := SyncHosts(run, event, env);
      if !run.alive {
        return false;
      }
      var f := env.fate(run.ops);
      if Applied(f) {
        event := event.(syncError := run.errors);
      }
      finished := f == Done;
    }
  }
}
