/** One synchronisation of a brief event, as a function of the stored rows, the world around
    the worker and the fate of every single database write and external call.

    The functions recurse in the order the worker loops, so each loop of the worker is
    proved to compute one of them. */
module InvitationSync {
  import opened Prelude
  import opened BriefEvents

  datatype Channel = Mail | Notice | Push

  /** What a recipient is told. Mail goes to an e-mail address; notices and pushes go to
      the participant. `revision` is the event revision the text describes. */
  datatype Message = Message(
    key: string, channel: Channel, verb: Verb, address: string, sequence: nat, revision: nat)

  /** An attendee row (keyed by participant) or a host invitation (keyed by e-mail address).
      `delivered` holds one "delivered up to" counter per channel of the table. */
  datatype Row = Row(
    key: string,
    email: string,
    active: bool,
    sequence: nat,
    revision: nat,
    delivered: map<Channel, int>)

  /** A table of rows with the history of everything sent on its behalf. */
  datatype Table = Table(rows: seq<Row>, log: seq<Message>)

  datatype World = World(event: Event, attendees: Table, hosts: Table)

  datatype Kind = Attendees | Hosts

  /** The fate of one atomic operation. `Lost` took effect although the caller saw an error;
      `Refused` did not take effect; `Dies` ends the process before the operation. */
  datatype Fate = Done | Refused | Lost | Dies

  datatype PushMode = PushOn | PushOff | QuietHours

  datatype Recipient = Recipient(id: string, email: string)

  /** Everything one synchronisation finds outside its own rows. `ready` is false when the
      advisory lock is taken or the event's brief has no organisation. `open` is false when
      the brief or its organisation is deleted, inactive or not approved. */
  datatype Env = Env(
    ready: bool,
    open: bool,
    recipients: seq<Recipient>,
    host: string,
    now: int,
    push: string -> PushMode,
    fate: nat -> Fate)

  /** The worker's own variables: operations issued so far, the collected errors, and
      whether the process is still running without an exception. */
  datatype Progress = Progress(ops: nat, errors: set<Pending>, alive: bool)

  datatype Desk = Desk(table: Table, run: Progress)

  ghost predicate Distinct(people: seq<Recipient>) {
    forall i, j :: 0 <= i < j < |people| ==> people[i].id != people[j].id
  }

  // ---------------------------------------------------------------- small operations

  function Channels(kind: Kind): set<Channel> {
    match kind case Attendees => {Mail, Notice, Push} case Hosts => {Mail}
  }

  function Label(kind: Kind, c: Channel): Pending {
    if kind == Hosts then HostInvitations
    else match c case Mail => Emails case Notice => InApp case Push => Pushes
  }

  function Stopped(run: Progress): Progress {
    run.(ops := run.ops + 1, alive := false)
  }

  function Failed(run: Progress, p: Pending): Progress {
    run.(ops := run.ops + 1, errors := run.errors + {p})
  }

  function Went(run: Progress): Progress {
    run.(ops := run.ops + 1)
  }

  /** A write outside any `try`: every error ends the synchronisation. */
  function Applied(f: Fate): bool {
    f == Done || f == Lost
  }

  function AfterWrite(run: Progress, f: Fate): Progress {
    if f == Done then Went(run) else Stopped(run)
  }

  function Stale(row: Row, wanted: map<string, string>, revision: nat): bool {
    || row.active != (row.key in wanted)
    || row.revision != revision
    || (row.key in wanted && row.email != wanted[row.key])
  }

  function Restamped(row: Row, wanted: map<string, string>, revision: nat): Row {
    var desired := row.key in wanted;
    row.(
      sequence := if row.active || desired then row.sequence + 1 else row.sequence,
      active := desired,
      revision := revision,
      email := if desired then wanted[row.key] else row.email)
  }

  function NewRow(p: Recipient, revision: nat, kind: Kind): Row {
    Row(p.id, p.email, true, 0, revision, map c | c in Channels(kind) :: -1)
  }

  function Address(row: Row, c: Channel): string {
    if c == Mail then row.email else row.key
  }

  function MessageFor(row: Row, c: Channel, e: Event): Message {
    Message(row.key, c, if !row.active || e.status == Cancelled then Cancel else Request,
            Address(row, c), row.sequence, e.revision)
  }

  function Recorded(row: Row, c: Channel): Row {
    row.(delivered := row.delivered[c := row.sequence])
  }

  ghost function SaveRow(d: Desk, i: nat, row: Row, fate: nat -> Fate): Desk
    requires i < |d.table.rows|
  {
    var f := fate(d.run.ops);
    Desk(if Applied(f) then d.table.(rows := d.table.rows[i := row]) else d.table, AfterWrite(d.run, f))
  }

  ghost function Record(d: Desk, i: nat, c: Channel, kind: Kind, fate: nat -> Fate): Desk
    requires i < |d.table.rows|
  {
    var recorded := d.table.(rows := d.table.rows[i := Recorded(d.table.rows[i], c)]);
    match fate(d.run.ops)
    case Done => Desk(recorded, Went(d.run))
    case Lost => Desk(recorded, Failed(d.run, Label(kind, c)))
    case Refused => Desk(d.table, Failed(d.run, Label(kind, c)))
    case Dies => Desk(d.table, Stopped(d.run))
  }

  ghost function Send(d: Desk, i: nat, c: Channel, kind: Kind, e: Event, fate: nat -> Fate): Desk
    requires i < |d.table.rows|
  {
    var sent := d.table.(log := d.table.log + [MessageFor(d.table.rows[i], c, e)]);
    match fate(d.run.ops)
    case Done => Record(Desk(sent, Went(d.run)), i, c, kind, fate)
    case Lost => Desk(sent, Failed(d.run, Label(kind, c)))
    case Refused => Desk(d.table, Failed(d.run, Label(kind, c)))
    case Dies => Desk(d.table, Stopped(d.run))
  }

  // ---------------------------------------------------------------- the three loops

  ghost function Reconcile(d: Desk, i: nat, wanted: map<string, string>, revision: nat, fate: nat -> Fate): Desk
    requires i <= |d.table.rows|
    decreases |d.table.rows| - i
  {
    if !d.run.alive || i == |d.table.rows| then d
    else if Stale(d.table.rows[i], wanted, revision) then
      Reconcile(SaveRow(d, i, Restamped(d.table.rows[i], wanted, revision), fate), i + 1, wanted, revision, fate)
    else Reconcile(d, i + 1, wanted, revision, fate)
  }

  ghost function Invite(
    d: Desk, people: seq<Recipient>, j: nat, known: set<string>, revision: nat, kind: Kind, fate: nat -> Fate
  ): Desk
    requires j <= |people|
    decreases |people| - j
  {
    if !d.run.alive || j == |people| then d
    else if people[j].id in known then Invite(d, people, j + 1, known, revision, kind, fate)
    else
      var f := fate(d.run.ops);
      var added := d.table.(rows := d.table.rows + [NewRow(people[j], revision, kind)]);
      Invite(Desk(if Applied(f) then added else d.table, AfterWrite(d.run, f)),
             people, j + 1, known, revision, kind, fate)
  }

  ghost function DeliverOn(d: Desk, i: nat, c: Channel, kind: Kind, e: Event, mode: PushMode, fate: nat -> Fate): (r: Desk)
    requires i < |d.table.rows| && c in d.table.rows[i].delivered
    ensures OnlyDelivery(d.table, r.table, i)
  {
    if !d.run.alive || d.table.rows[i].sequence <= d.table.rows[i].delivered[c] then d
    else if c == Push && mode == QuietHours then d
    else if c == Push && mode == PushOff then Record(d, i, c, kind, fate)
    else Send(d, i, c, kind, e, fate)
  }

  /** Only the counters of row `i` may differ. */
  ghost predicate OnlyDelivery(t: Table, u: Table, i: nat)
    requires i < |t.rows|
  {
    && |u.rows| == |t.rows|
    && u.rows == t.rows[i := u.rows[i]]
    && u.rows[i] == t.rows[i].(delivered := u.rows[i].delivered)
    && u.rows[i].delivered.Keys == t.rows[i].delivered.Keys
  }

  ghost predicate Carries(t: Table, kind: Kind) {
    forall i :: 0 <= i < |t.rows| ==> t.rows[i].delivered.Keys == Channels(kind)
  }

  ghost function DeliverRow(d: Desk, i: nat, kind: Kind, e: Event, push: string -> PushMode, fate: nat -> Fate): (r: Desk)
    requires i < |d.table.rows| && Carries(d.table, kind)
    ensures |r.table.rows| == |d.table.rows| && Carries(r.table, kind)
  {
    var mode := push(d.table.rows[i].key);
    var mailed := DeliverOn(d, i, Mail, kind, e, mode, fate);
    if kind == Hosts then mailed
    else DeliverOn(DeliverOn(mailed, i, Notice, kind, e, mode, fate), i, Push, kind, e, mode, fate)
  }

  ghost function DeliverAll(d: Desk, i: nat, kind: Kind, e: Event, push: string -> PushMode, fate: nat -> Fate): Desk
    requires i <= |d.table.rows| && Carries(d.table, kind)
    decreases |d.table.rows| - i
  {
    if !d.run.alive || i == |d.table.rows| then d
    else DeliverAll(DeliverRow(d, i, kind, e, push, fate), i + 1, kind, e, push, fate)
  }

  // ---------------------------------------------------------------- a whole synchronisation

  function KeySet(rows: seq<Row>): set<string> {
    set i | 0 <= i < |rows| :: rows[i].key
  }

  /** The `active` map of the worker. */
  function Wanted(people: seq<Recipient>): map<string, string> {
    if people == [] then map[]
    else Wanted(people[..|people| - 1])[people[|people| - 1].id := people[|people| - 1].email]
  }

  lemma ReconcileKeeps(d: Desk, i: nat, wanted: map<string, string>, revision: nat, fate: nat -> Fate, kind: Kind)
    requires i <= |d.table.rows| && Carries(d.table, kind)
    ensures var r := Reconcile(d, i, wanted, revision, fate);
            Carries(r.table, kind) && |r.table.rows| == |d.table.rows| && KeySet(r.table.rows) == KeySet(d.table.rows)
    decreases |d.table.rows| - i
  {
    if d.run.alive && i < |d.table.rows| {
      var next := if Stale(d.table.rows[i], wanted, revision)
        then SaveRow(d, i, Restamped(d.table.rows[i], wanted, revision), fate) else d;
      assert forall k :: 0 <= k < |d.table.rows| ==> next.table.rows[k].key == d.table.rows[k].key;
      assert KeySet(next.table.rows) == KeySet(d.table.rows);
      ReconcileKeeps(next, i + 1, wanted, revision, fate, kind);
    }
  }

  lemma InviteKeeps(d: Desk, people: seq<Recipient>, j: nat, known: set<string>, revision: nat, kind: Kind, fate: nat -> Fate)
    requires j <= |people| && Carries(d.table, kind)
    ensures Carries(Invite(d, people, j, known, revision, kind, fate).table, kind)
    decreases |people| - j
  {
    if d.run.alive && j < |people| {
      if people[j].id in known {
        InviteKeeps(d, people, j + 1, known, revision, kind, fate);
      } else {
        var f := fate(d.run.ops);
        var added := d.table.(rows := d.table.rows + [NewRow(people[j], revision, kind)]);
        InviteKeeps(Desk(if Applied(f) then added else d.table, AfterWrite(d.run, f)),
                    people, j + 1, known, revision, kind, fate);
      }
    }
  }

  /** Bring one table up to date and deliver what is behind. `newcomers` is empty once the
      event has ended. */
  ghost function Serve(
    d: Desk, kind: Kind, e: Event, wanted: map<string, string>, newcomers: seq<Recipient>,
    push: string -> PushMode, fate: nat -> Fate
  ): Desk
    requires Carries(d.table, kind)
  {
    var reconciled := Reconcile(d, 0, wanted, e.revision, fate);
    ReconcileKeeps(d, 0, wanted, e.revision, fate, kind);
    var invited := Invite(reconciled, newcomers, 0, KeySet(d.table.rows), e.revision, kind, fate);
    InviteKeeps(reconciled, newcomers, 0, KeySet(d.table.rows), e.revision, kind, fate);
    DeliverAll(invited, 0, kind, e, push, fate)
  }

  function CurrentRecipients(e: Event, env: Env): seq<Recipient> {
    if e.status == Scheduled then env.recipients else []
  }

  function CurrentHosts(e: Event, env: Env): seq<Recipient> {
    if e.status == Scheduled then [Recipient(env.host, env.host)] else []
  }

  function Upcoming(e: Event, env: Env, people: seq<Recipient>): seq<Recipient> {
    if env.now < e.endAt then people else []
  }

  datatype EventDesk = EventDesk(event: Event, run: Progress)

  function AutoCancel(e: Event, run: Progress, env: Env): EventDesk {
    if e.status == Scheduled && !env.open then
      var f := env.fate(run.ops);
      EventDesk(if Applied(f) then CancelledBy(e) else e, AfterWrite(run, f))
    else EventDesk(e, run)
  }

  /** Zoom is told first, then the event remembers the revision Zoom has. */
  function SyncZoom(e: Event, run: Progress, env: Env): EventDesk {
    if !run.alive || e.revision <= e.zoomSynced then EventDesk(e, run)
    else
      match env.fate(run.ops)
      case Dies => EventDesk(e, Stopped(run))
      case Refused => EventDesk(e, Failed(run, Zoom))
      case Lost => EventDesk(e, Failed(run, Zoom))
      case Done =>
        var told := Went(run);
        match env.fate(told.ops)
        case Done => EventDesk(e.(zoomSynced := e.revision), Went(told))
        case Lost => EventDesk(e.(zoomSynced := e.revision), Failed(told, Zoom))
        case Refused => EventDesk(e, Failed(told, Zoom))
        case Dies => EventDesk(e, Stopped(told))
  }

  /** A host account is prepared only for an upcoming scheduled event; when that fails the
      host invitations are left alone. */
  datatype HostGate = HostGate(proceed: bool, run: Progress)

  function PrepareHost(e: Event, run: Progress, env: Env): HostGate {
    if !run.alive then HostGate(false, run)
    else if e.status == Scheduled && env.now < e.endAt then
      match env.fate(run.ops)
      case Done => HostGate(true, Went(run))
      case Lost => HostGate(false, Failed(run, HostAccount))
      case Refused => HostGate(false, Failed(run, HostAccount))
      case Dies => HostGate(false, Stopped(run))
    else HostGate(true, run)
  }

  ghost function ServeHosts(d: Desk, e: Event, env: Env): Desk
    requires Carries(d.table, Hosts)
  {
    var gate := PrepareHost(e, d.run, env);
    if !gate.proceed then Desk(d.table, gate.run)
    else Serve(Desk(d.table, gate.run), Hosts, e, Wanted(CurrentHosts(e, env)),
               Upcoming(e, env, CurrentHosts(e, env)), env.push, env.fate)
  }

  datatype Outcome = Outcome(world: World, finished: bool)

  const START := Progress(0, {}, true)

  ghost function Sync(w: World, env: Env): Outcome
    requires Carries(w.attendees, Attendees) && Carries(w.hosts, Hosts)
  {
    if !env.ready then Outcome(w, false)
    else
      var checked := AutoCancel(w.event, START, env);
      var zoomed := SyncZoom(checked.event, checked.run, env);
      var e := zoomed.event;
      var people := CurrentRecipients(e, env);
      var attended := Serve(Desk(w.attendees, zoomed.run), Attendees, e, Wanted(people), Upcoming(e, env, people), env.push, env.fate);
      var hosted := ServeHosts(Desk(w.hosts, attended.run), e, env);
      var noted := e.(syncError := hosted.run.errors);
      if !hosted.run.alive then Outcome(World(e, attended.table, hosted.table), false)
      else
        var f := env.fate(hosted.run.ops);
        Outcome(World(if Applied(f) then noted else e, attended.table, hosted.table), f == Done)
  }
}
