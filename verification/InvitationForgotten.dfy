/** When a synchronisation that dies can leave work behind that the cron job never looks for again. */
module InvitationForgotten {
  import opened BriefEvents
  import opened InvitationSync
  import opened InvitationLaws
  import opened InvitationRuns

  /** Work is left, and at `later` the cron job does not select the event. */
  ghost predicate Forgets(w: World, env: Env, later: int)
    requires WorldOk(w)
  {
    Distinct(env.recipients) && !Settled(Sync(w, env).world, env) && !Selected(Sync(w, env).world, later)
  }

  // ---------------------------------------------------------------- noted work is kept

  lemma DeliveredMeansNothingBehind(t: Table)
    requires AllDelivered(t, |t.rows|)
    ensures !SomethingBehind(t)
  {
    forall i | 0 <= i < |t.rows| ensures Delivered(t.rows[i]) {
    }
  }

  /** Whatever happens to a synchronisation, even its death at any operation: if the event carried
      an error before it, then afterwards nothing is left to do or the cron job selects it. */
  lemma NotedWorkIsKept(w: World, env: Env, later: int)
    requires WorldOk(w) && w.event.syncError != {}
    ensures !Forgets(w, env, later)
  {
    if Distinct(env.recipients) && env.ready {
      CarriesAll(w.attendees, Attendees, w.event);
      CarriesAll(w.hosts, Hosts, w.event);
      OpeningLaw(w, env);
      DesksLaw(w, env);
      SyncIs(w, env);
      var e, o := Opening(w, env).event, Sync(w, env);
      NotedInOrder(o.world.attendees, e, o.world.event.syncError, env);
      NotedInOrder(o.world.hosts, e, o.world.event.syncError, env);
      hide TableOk, AllDelivered, AttendeesInOrder, HostsInOrder, Sync, AttendeeDesk, HostDesk, Opening, Grows, WorldOk, SomethingBehind;
    }
  }

  // ---------------------------------------------------------------- cutting a synchronisation off

  /** The process dies at operation `n`, unless it ended before. */
  function Cut(fate: nat -> Fate, n: nat): nat -> Fate {
    (k: nat) => if k < n then fate(k) else Dies
  }

  lemma {:induction false} ReconcileOps(d: Desk, i: nat, wanted: map<string, string>, revision: nat, fate: nat -> Fate)
    requires i <= |d.table.rows|
    ensures d.run.ops <= Reconcile(d, i, wanted, revision, fate).run.ops
    decreases |d.table.rows| - i
  {
    if d.run.alive && i < |d.table.rows| {
      var next := if Stale(d.table.rows[i], wanted, revision)
        then SaveRow(d, i, Restamped(d.table.rows[i], wanted, revision), fate) else d;
      ReconcileOps(next, i + 1, wanted, revision, fate);
    }
  }

  lemma {:induction false} ReconcileCut(d: Desk, i: nat, wanted: map<string, string>, revision: nat, fate: nat -> Fate, n: nat)
    requires i <= |d.table.rows| && Reconcile(d, i, wanted, revision, fate).run.ops <= n
    ensures Reconcile(d, i, wanted, revision, Cut(fate, n)) == Reconcile(d, i, wanted, revision, fate)
    decreases |d.table.rows| - i
  {
    if d.run.alive && i < |d.table.rows| {
      var next := if Stale(d.table.rows[i], wanted, revision)
        then SaveRow(d, i, Restamped(d.table.rows[i], wanted, revision), fate) else d;
      ReconcileOps(next, i + 1, wanted, revision, fate);
      ReconcileCut(next, i + 1, wanted, revision, fate, n);
    }
  }

  lemma DeliverOnOps(d: Desk, i: nat, c: Channel, kind: Kind, e: Event, mode: PushMode, fate: nat -> Fate)
    requires i < |d.table.rows| && c in d.table.rows[i].delivered
    ensures d.run.ops <= DeliverOn(d, i, c, kind, e, mode, fate).run.ops
  {
  }

  lemma DeliverOnCut(d: Desk, i: nat, c: Channel, kind: Kind, e: Event, mode: PushMode, fate: nat -> Fate, n: nat)
    requires i < |d.table.rows| && c in d.table.rows[i].delivered && DeliverOn(d, i, c, kind, e, mode, fate).run.ops <= n
    ensures DeliverOn(d, i, c, kind, e, mode, Cut(fate, n)) == DeliverOn(d, i, c, kind, e, mode, fate)
  {
  }

  lemma DeliverRowOps(d: Desk, i: nat, kind: Kind, e: Event, push: string -> PushMode, fate: nat -> Fate)
    requires i < |d.table.rows| && Carries(d.table, kind)
    ensures d.run.ops <= DeliverRow(d, i, kind, e, push, fate).run.ops
  {
    hide DeliverOn;
    var mode := push(d.table.rows[i].key);
    DeliverOnOps(d, i, Mail, kind, e, mode, fate);
    if kind == Attendees {
      var d1 := DeliverOn(d, i, Mail, kind, e, mode, fate);
      DeliverOnOps(d1, i, Notice, kind, e, mode, fate);
      DeliverOnOps(DeliverOn(d1, i, Notice, kind, e, mode, fate), i, Push, kind, e, mode, fate);
    }
  }

  lemma DeliverRowCut(d: Desk, i: nat, kind: Kind, e: Event, push: string -> PushMode, fate: nat -> Fate, n: nat)
    requires i < |d.table.rows| && Carries(d.table, kind) && DeliverRow(d, i, kind, e, push, fate).run.ops <= n
    ensures DeliverRow(d, i, kind, e, push, Cut(fate, n)) == DeliverRow(d, i, kind, e, push, fate)
  {
    hide DeliverOn, Cut;
    var mode := push(d.table.rows[i].key);
    var d1 := DeliverOn(d, i, Mail, kind, e, mode, fate);
    if kind == Attendees {
      var d2 := DeliverOn(d1, i, Notice, kind, e, mode, fate);
      DeliverOnOps(d1, i, Notice, kind, e, mode, fate);
      DeliverOnOps(d2, i, Push, kind, e, mode, fate);
      DeliverOnCut(d1, i, Notice, kind, e, mode, fate, n);
      DeliverOnCut(d2, i, Push, kind, e, mode, fate, n);
    }
    DeliverOnCut(d, i, Mail, kind, e, mode, fate, n);
  }

  lemma {:induction false} DeliverAllOps(d: Desk, i: nat, kind: Kind, e: Event, push: string -> PushMode, fate: nat -> Fate)
    requires i <= |d.table.rows| && Carries(d.table, kind)
    ensures d.run.ops <= DeliverAll(d, i, kind, e, push, fate).run.ops
    decreases |d.table.rows| - i
  {
    hide DeliverRow;
    if d.run.alive && i < |d.table.rows| {
      DeliverRowOps(d, i, kind, e, push, fate);
      DeliverAllOps(DeliverRow(d, i, kind, e, push, fate), i + 1, kind, e, push, fate);
    }
  }

  lemma {:induction false} DeliverAllCut(d: Desk, i: nat, kind: Kind, e: Event, push: string -> PushMode, fate: nat -> Fate, n: nat)
    requires i <= |d.table.rows| && Carries(d.table, kind) && DeliverAll(d, i, kind, e, push, fate).run.ops <= n
    ensures DeliverAll(d, i, kind, e, push, Cut(fate, n)) == DeliverAll(d, i, kind, e, push, fate)
    decreases |d.table.rows| - i
  {
    hide DeliverRow, Cut;
    if d.run.alive && i < |d.table.rows| {
      var next := DeliverRow(d, i, kind, e, push, fate);
      DeliverAllOps(next, i + 1, kind, e, push, fate);
      DeliverRowCut(d, i, kind, e, push, fate, n);
      DeliverAllCut(next, i + 1, kind, e, push, fate, n);
    }
  }

  /** Serving a table to which nobody is to be invited. */
  lemma ServeIs(d: Desk, kind: Kind, e: Event, wanted: map<string, string>, push: string -> PushMode, fate: nat -> Fate)
    requires Carries(d.table, kind)
    ensures var reconciled := Reconcile(d, 0, wanted, e.revision, fate);
      && Carries(reconciled.table, kind)
      && Serve(d, kind, e, wanted, [], push, fate) == DeliverAll(reconciled, 0, kind, e, push, fate)
  {
    ReconcileKeeps(d, 0, wanted, e.revision, fate, kind);
  }

  lemma ServeCut(d: Desk, kind: Kind, e: Event, wanted: map<string, string>, push: string -> PushMode, fate: nat -> Fate, n: nat)
    requires Carries(d.table, kind) && Serve(d, kind, e, wanted, [], push, fate).run.ops <= n
    ensures Serve(d, kind, e, wanted, [], push, Cut(fate, n)) == Serve(d, kind, e, wanted, [], push, fate)
    ensures d.run.ops <= Serve(d, kind, e, wanted, [], push, fate).run.ops
  {
    ServeIs(d, kind, e, wanted, push, fate);
    ServeIs(d, kind, e, wanted, push, Cut(fate, n));
    hide Serve, Cut, DeliverAll, Reconcile;
    var reconciled := Reconcile(d, 0, wanted, e.revision, fate);
    ReconcileOps(d, 0, wanted, e.revision, fate);
    DeliverAllOps(reconciled, 0, kind, e, push, fate);
    ReconcileCut(d, 0, wanted, e.revision, fate, n);
    DeliverAllCut(reconciled, 0, kind, e, push, fate, n);
  }

  // ---------------------------------------------------------------- a process about to die

  ghost predicate Doomed(run: Progress, fate: nat -> Fate) {
    forall k: nat :: run.ops <= k ==> fate(k) == Dies
  }

  lemma {:induction false} DoomedReconcile(d: Desk, i: nat, wanted: map<string, string>, revision: nat, fate: nat -> Fate)
    requires i <= |d.table.rows| && Doomed(d.run, fate)
    ensures var r := Reconcile(d, i, wanted, revision, fate); r.table == d.table && Doomed(r.run, fate)
    decreases |d.table.rows| - i
  {
    if d.run.alive && i < |d.table.rows| {
      var next := if Stale(d.table.rows[i], wanted, revision)
        then SaveRow(d, i, Restamped(d.table.rows[i], wanted, revision), fate) else d;
      DoomedReconcile(next, i + 1, wanted, revision, fate);
    }
  }

  lemma DoomedDeliverOn(d: Desk, i: nat, c: Channel, kind: Kind, e: Event, mode: PushMode, fate: nat -> Fate)
    requires i < |d.table.rows| && c in d.table.rows[i].delivered && Doomed(d.run, fate)
    ensures var r := DeliverOn(d, i, c, kind, e, mode, fate); r.table == d.table && Doomed(r.run, fate)
  {
  }

  lemma DoomedDeliverRow(d: Desk, i: nat, kind: Kind, e: Event, push: string -> PushMode, fate: nat -> Fate)
    requires i < |d.table.rows| && Carries(d.table, kind) && Doomed(d.run, fate)
    ensures var r := DeliverRow(d, i, kind, e, push, fate); r.table == d.table && Doomed(r.run, fate)
  {
    hide DeliverOn, Doomed;
    var mode := push(d.table.rows[i].key);
    DoomedDeliverOn(d, i, Mail, kind, e, mode, fate);
    if kind == Attendees {
      var d1 := DeliverOn(d, i, Mail, kind, e, mode, fate);
      DoomedDeliverOn(d1, i, Notice, kind, e, mode, fate);
      DoomedDeliverOn(DeliverOn(d1, i, Notice, kind, e, mode, fate), i, Push, kind, e, mode, fate);
    }
  }

  lemma {:induction false} DoomedDeliverAll(d: Desk, i: nat, kind: Kind, e: Event, push: string -> PushMode, fate: nat -> Fate)
    requires i <= |d.table.rows| && Carries(d.table, kind) && Doomed(d.run, fate)
    ensures var r := DeliverAll(d, i, kind, e, push, fate); r.table == d.table && Doomed(r.run, fate)
    decreases |d.table.rows| - i
  {
    hide DeliverRow, Doomed;
    if d.run.alive && i < |d.table.rows| {
      DoomedDeliverRow(d, i, kind, e, push, fate);
      DoomedDeliverAll(DeliverRow(d, i, kind, e, push, fate), i + 1, kind, e, push, fate);
    }
  }

  lemma DoomedServe(d: Desk, kind: Kind, e: Event, wanted: map<string, string>, push: string -> PushMode, fate: nat -> Fate)
    requires Carries(d.table, kind) && Doomed(d.run, fate)
    ensures var r := Serve(d, kind, e, wanted, [], push, fate); r.table == d.table && Doomed(r.run, fate)
  {
    hide Serve, DeliverAll, Reconcile, Doomed;
    ServeIs(d, kind, e, wanted, push, fate);
    var reconciled := Reconcile(d, 0, wanted, e.revision, fate);
    DoomedReconcile(d, 0, wanted, e.revision, fate);
    DoomedDeliverAll(reconciled, 0, kind, e, push, fate);
  }

  /** With the process doomed after the attendees of a cancelled event, the hosts and the event
      stay as they are. */
  lemma DoomedRest(w: World, env: Env)
    requires Carries(w.attendees, Attendees) && Carries(w.hosts, Hosts) && env.ready
    requires Opening(w, env).event.status == Cancelled && Doomed(AttendeeDesk(w, env).run, env.fate)
    ensures Sync(w, env).world == World(Opening(w, env).event, AttendeeDesk(w, env).table, w.hosts)
  {
    hide Serve, AutoCancel, SyncZoom;
    var e, a := Opening(w, env).event, AttendeeDesk(w, env);
    var gate := PrepareHost(e, a.run, env);
    if gate.proceed {
      DoomedServe(Desk(w.hosts, a.run), Hosts, e, Wanted(CurrentHosts(e, env)), env.push, env.fate);
      assert Upcoming(e, env, CurrentHosts(e, env)) == [];
    }
  }

  // ---------------------------------------------------------------- events that can be forgotten

  ghost predicate Withdrawn(t: Table, e: Event) {
    AllCurrent(t.rows, |t.rows|, map[], e)
  }

  ghost predicate HostsPending(w: World) {
    !(Withdrawn(w.hosts, w.event) && AllDelivered(w.hosts, |w.hosts.rows|))
  }

  /** Decided by the stored rows alone: no error is noted, and the event is still scheduled, or a
      host row is pending, or attendee rows are to be withdrawn while none is behind. */
  ghost predicate CanBeForgotten(w: World) {
    && w.event.syncError == {}
    && (|| w.event.status == Scheduled
        || HostsPending(w)
        || (!Withdrawn(w.attendees, w.event) && !SomethingBehind(w.attendees)))
  }

  // ---------------------------------------------------------------- a scheduled event

  function Longest(rows: seq<Row>): nat {
    if rows == [] then 0
    else
      var rest := Longest(rows[..|rows| - 1]);
      if rest < |rows[|rows| - 1].key| then |rows[|rows| - 1].key| else rest
  }

  lemma {:induction false} KeysAreNotLonger(rows: seq<Row>, i: nat)
    requires i < |rows|
    ensures |rows[i].key| <= Longest(rows)
  {
    if i < |rows| - 1 {
      KeysAreNotLonger(rows[..|rows| - 1], i);
    }
  }

  /** A host with no row yet. */
  lemma NewHost(rows: seq<Row>) returns (host: string)
    ensures host !in KeySet(rows)
  {
    host := seq(Longest(rows) + 1, _ => 'h');
    forall i | 0 <= i < |rows| ensures rows[i].key != host {
      KeysAreNotLonger(rows, i);
    }
  }

  /** Everything goes well with an open brief and no recipients. */
  function Smooth(host: string, now: int): Env {
    Env(true, true, [], host, now, key => PushOn, n => Done)
  }

  function CutEnv(env: Env, n: nat): Env {
    env.(fate := Cut(env.fate, n))
  }

  lemma OpeningCut(w: World, env: Env, n: nat)
    requires Opening(w, env).run.ops <= n
    ensures Opening(w, CutEnv(env, n)) == Opening(w, env)
  {
  }

  lemma AttendeesCut(w: World, env: Env, n: nat)
    requires Carries(w.attendees, Attendees) && env.recipients == [] && AttendeeDesk(w, env).run.ops <= n
    ensures Opening(w, CutEnv(env, n)) == Opening(w, env)
    ensures AttendeeDesk(w, CutEnv(env, n)) == AttendeeDesk(w, env)
  {
    hide Serve, Cut, AutoCancel, SyncZoom, Opening;
    var o := Opening(w, env);
    ServeCut(Desk(w.attendees, o.run), Attendees, o.event, map[], env.push, env.fate, n);
    OpeningCut(w, env, n);
  }

  lemma SmoothAttendees(w: World, host: string, now: int)
    requires WorldOk(w) && Carries(w.attendees, Attendees) && Carries(w.hosts, Hosts)
    ensures var a := AttendeeDesk(w, Smooth(host, now)); a.run.alive && AllDelivered(a.table, |a.table.rows|)
  {
    hide AllDelivered, Settled;
    AttendeeService(w, Smooth(host, now));
  }

  /** The process dies when it is about to prepare the account of a host who has just changed. */
  lemma ScheduledCanBeForgotten(w: World) returns (env: Env, later: int)
    requires WorldOk(w) && w.event.syncError == {} && w.event.status == Scheduled
    ensures Forgets(w, env, later)
  {
    WorldCarries(w);
    var host := NewHost(w.hosts.rows);
    var smooth := Smooth(host, w.event.endAt - 1);
    var n := AttendeeDesk(w, smooth).run.ops;
    env := CutEnv(smooth, n);
    later := w.event.endAt + MILLIS_PER_DAY;
    SmoothAttendees(w, host, w.event.endAt - 1);
    AttendeesCut(w, smooth, n);
    var e, a := Opening(w, env).event, AttendeeDesk(w, env);
    DeadAtHost(w, env);
    DeliveredMeansNothingBehind(a.table);
    NewHostOutOfOrder(w.hosts, e, env);
    hide WorldOk, Sync, AttendeeDesk, Opening, SomethingBehind, HostsInOrder, AttendeesInOrder;
  }

  lemma DeadAtHost(w: World, env: Env)
    requires Carries(w.attendees, Attendees) && Carries(w.hosts, Hosts) && env.ready
    requires var e, run := Opening(w, env).event, AttendeeDesk(w, env).run;
      e.status == Scheduled && env.now < e.endAt && run.alive && env.fate(run.ops) == Dies
    ensures Sync(w, env).world == World(Opening(w, env).event, AttendeeDesk(w, env).table, w.hosts)
  {
    hide Serve, AutoCancel, SyncZoom;
  }

  lemma NewHostOutOfOrder(t: Table, e: Event, env: Env)
    requires env.host !in KeySet(t.rows) && e.status == Scheduled && env.now < e.endAt
    ensures !HostsInOrder(t, e, env)
  {
    var people := CurrentHosts(e, env);
    assert people[0].id !in KeySet(t.rows);
  }

  // ---------------------------------------------------------------- a cancelled event

  lemma CancelledOpening(w: World, env: Env)
    requires w.event.status == Cancelled
    ensures var e := Opening(w, env).event; e == w.event.(zoomSynced := e.zoomSynced)
  {
  }

  lemma CancelledOrder(w: World, r: World, env: Env)
    requires w.event.status == Cancelled && r.event == w.event.(zoomSynced := r.event.zoomSynced, syncError := r.event.syncError)
    ensures AttendeesInOrder(r.attendees, r.event, env) <==> Withdrawn(r.attendees, w.event)
    ensures HostsInOrder(r.hosts, r.event, env) <==> Withdrawn(r.hosts, w.event)
  {
    assert Wanted([]) == map[];
    assert forall row :: Current(row, map[], r.event) <==> Current(row, map[], w.event);
    assert Upcoming(r.event, env, []) == [];
    hide Current;
  }

  /** The process dies when it is about to withdraw the first host row. */
  lemma PendingHostsCanBeForgotten(w: World) returns (env: Env, later: int)
    requires WorldOk(w) && w.event.syncError == {} && w.event.status == Cancelled && HostsPending(w)
    ensures Forgets(w, env, later)
  {
    WorldCarries(w);
    var smooth := Smooth("", 0);
    var n := AttendeeDesk(w, smooth).run.ops;
    env := CutEnv(smooth, n);
    later := w.event.endAt + MILLIS_PER_DAY;
    SmoothAttendees(w, "", 0);
    AttendeesCut(w, smooth, n);
    DoomedRest(w, env);
    var r := Sync(w, env).world;
    DeliveredMeansNothingBehind(r.attendees);
    CancelledOrder(w, r, env);
    hide WorldOk, Sync, AttendeeDesk, Opening, SomethingBehind, HostsInOrder, AttendeesInOrder, Withdrawn, AllDelivered, Doomed;
  }

  /** The process dies when it is about to withdraw the first attendee row. */
  lemma StaleAttendeesCanBeForgotten(w: World) returns (env: Env, later: int)
    requires WorldOk(w) && w.event.syncError == {} && w.event.status == Cancelled
    requires !Withdrawn(w.attendees, w.event) && !SomethingBehind(w.attendees)
    ensures Forgets(w, env, later)
  {
    WorldCarries(w);
    var smooth := Smooth("", 0);
    var n := Opening(w, smooth).run.ops;
    env := CutEnv(smooth, n);
    later := w.event.endAt + MILLIS_PER_DAY;
    OpeningCut(w, smooth, n);
    DoomedAttendees(w, env);
    DoomedRest(w, env);
    CancelledOrder(w, Sync(w, env).world, env);
    hide WorldOk, Sync, AttendeeDesk, Opening, SomethingBehind, HostsInOrder, AttendeesInOrder, Withdrawn, AllDelivered, Doomed;
  }

  lemma DoomedAttendees(w: World, env: Env)
    requires Carries(w.attendees, Attendees) && env.recipients == [] && Doomed(Opening(w, env).run, env.fate)
    ensures AttendeeDesk(w, env).table == w.attendees && Doomed(AttendeeDesk(w, env).run, env.fate)
  {
    hide Serve, Doomed, Opening;
    var o := Opening(w, env);
    DoomedServe(Desk(w.attendees, o.run), Attendees, o.event, map[], env.push, env.fate);
  }

  // ---------------------------------------------------------------- nothing else is forgotten

  lemma {:induction false} ReconcileKeepsBehind(d: Desk, i: nat, wanted: map<string, string>, revision: nat, fate: nat -> Fate)
    requires i <= |d.table.rows| && SomethingBehind(d.table)
    ensures SomethingBehind(Reconcile(d, i, wanted, revision, fate).table)
    decreases |d.table.rows| - i
  {
    if d.run.alive && i < |d.table.rows| {
      var next := if Stale(d.table.rows[i], wanted, revision)
        then SaveRow(d, i, Restamped(d.table.rows[i], wanted, revision), fate) else d;
      StampKeepsBehind(d.table, next.table);
      ReconcileKeepsBehind(next, i + 1, wanted, revision, fate);
    }
  }

  lemma StampKeepsBehind(t: Table, u: Table)
    requires SomethingBehind(t) && |u.rows| == |t.rows|
    requires forall k :: 0 <= k < |t.rows| ==> u.rows[k].delivered == t.rows[k].delivered && t.rows[k].sequence <= u.rows[k].sequence
    ensures SomethingBehind(u)
  {
    var k, c :| 0 <= k < |t.rows| && c in t.rows[k].delivered && t.rows[k].delivered[c] < t.rows[k].sequence;
    assert c in u.rows[k].delivered && u.rows[k].delivered[c] < u.rows[k].sequence;
  }

  /** Withdrawing from a cancelled event ends with every row withdrawn, or it died early enough to
      leave behind what was behind. */
  lemma WithdrawalShows(d: Desk, e: Event, push: string -> PushMode, fate: nat -> Fate)
    requires TableOk(d.table, Attendees, e) && Carries(d.table, Attendees) && e.status == Cancelled
    requires Withdrawn(d.table, e) || SomethingBehind(d.table)
    ensures var r := Serve(d, Attendees, e, map[], [], push, fate); Withdrawn(r.table, e) || SomethingBehind(r.table)
  {
    hide TableOk, SomethingBehind;
    ServeIs(d, Attendees, e, map[], push, fate);
    var reconciled := Reconcile(d, 0, map[], e.revision, fate);
    ReconcileLaw(d, 0, map[], Attendees, e, fate);
    if Withdrawn(d.table, e) {
      NothingToReconcile(d, 0, map[], e, fate);
    } else {
      ReconcileKeepsBehind(d, 0, map[], e.revision, fate);
    }
    if Withdrawn(reconciled.table, e) {
      DeliverAllKeeps(reconciled, 0, map[], Attendees, e, push, fate);
    } else {
      assert !reconciled.run.alive;
    }
  }

  lemma SettledHostsStay(d: Desk, e: Event, env: Env)
    requires Carries(d.table, Hosts) && Withdrawn(d.table, e) && AllDelivered(d.table, |d.table.rows|) && e.status == Cancelled
    ensures ServeHosts(d, e, env).table == d.table
  {
    hide Serve;
    var gate := PrepareHost(e, d.run, env);
    assert Wanted([]) == map[] && Upcoming(e, env, CurrentHosts(e, env)) == [];
    if gate.proceed {
      NothingToServe(Desk(d.table, gate.run), Hosts, e, map[], [], env.push, env.fate);
    }
  }

  lemma CancelledTables(w: World, env: Env)
    requires WorldOk(w) && w.event.status == Cancelled && !HostsPending(w) && env.ready
    requires Withdrawn(w.attendees, w.event) || SomethingBehind(w.attendees)
    ensures var r := Sync(w, env).world;
      && r.hosts == w.hosts && (Withdrawn(r.attendees, w.event) || SomethingBehind(r.attendees))
      && r.event == w.event.(zoomSynced := r.event.zoomSynced, syncError := r.event.syncError)
  {
    WorldCarries(w);
    CancelledOpening(w, env);
    var o := Opening(w, env);
    RevisionBump(w.attendees, Attendees, w.event, o.event);
    assert CurrentRecipients(o.event, env) == [] && Upcoming(o.event, env, []) == [];
    WithdrawalShows(Desk(w.attendees, o.run), o.event, env.push, env.fate);
    var a := AttendeeDesk(w, env);
    SettledHostsStay(Desk(w.hosts, a.run), o.event, env);
    SyncIs(w, env);
    hide WorldOk, TableOk, Sync, Opening, Serve, ServeHosts, SomethingBehind, AllDelivered, Withdrawn;
  }

  lemma OthersAreKept(w: World, env: Env, later: int)
    requires WorldOk(w) && !CanBeForgotten(w)
    ensures !Forgets(w, env, later)
  {
    if w.event.syncError != {} {
      NotedWorkIsKept(w, env, later);
    } else if Distinct(env.recipients) {
      CarriesAll(w.attendees, Attendees, w.event);
      CarriesAll(w.hosts, Hosts, w.event);
      var r := Sync(w, env).world;
      SyncLaw(w, env);
      if env.ready {
        CancelledTables(w, env);
      } else {
        SyncIdle(w, env);
      }
      CancelledOrder(w, r, env);
      hide TableOk, Sync, SomethingBehind, AllDelivered, Withdrawn, AttendeesInOrder, HostsInOrder;
    }
  }

  ghost predicate ForgottenSometime(w: World)
    requires WorldOk(w)
  {
    exists env: Env, later: int :: Forgets(w, env, later)
  }

  /** Exactly these events can be forgotten: for any reachable event, some synchronisation, cut off
      at some operation, leaves work behind that the cron job never looks for, if and only if no
      error was noted before it and the event is scheduled, has a pending host row, or has attendee
      rows to withdraw and none behind. */
  lemma ForgottenExactly(w: World)
    requires WorldOk(w)
    ensures ForgottenSometime(w) <==> CanBeForgotten(w)
  {
    if CanBeForgotten(w) {
      var env, later;
      if w.event.status == Scheduled {
        env, later := ScheduledCanBeForgotten(w);
      } else if HostsPending(w) {
        env, later := PendingHostsCanBeForgotten(w);
      } else {
        env, later := StaleAttendeesCanBeForgotten(w);
      }
      assert Forgets(w, env, later);
    } else {
      forall env: Env, later: int ensures !Forgets(w, env, later) {
        OthersAreKept(w, env, later);
      }
    }
    hide Forgets, WorldOk, CanBeForgotten;
  }
}
