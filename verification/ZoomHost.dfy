/** Bookings of the shared Zoom host, under every interleaving of the transactions of `create`,
    `update` and `cancel` and of the worker's automatic cancellation. */
module ZoomHost {
  import opened Prelude
  import opened BriefEvents

  type Id = string

  datatype Lock = HostLock | EventLock(id: Id)

  /** `endAt` of a new or edited event is computed by `ValidateSchedule`. */
  datatype Job =
    | Creation(id: Id, schedule: Schedule, now: int, zoomHost: string)
    | Update(id: Id, schedule: Schedule, now: int)
    | Cancellation(id: Id)
    | AutoCancellation(id: Id)

  /** `taken` counts the locks of `Needs(job)` taken so far. `plan` is the row to be written,
      once the checks have passed. */
  datatype Tx = Tx(job: Job, taken: nat, plan: Option<Event>)

  datatype System = System(events: map<Id, Event>, txs: map<nat, Tx>)

  datatype Label =
    | Begin(t: nat, job: Job)
    | Take(t: nat)
    | Check(t: nat)
    | Commit(t: nat)
    | Abort(t: nat)

  /** `lockHost` takes the host lock, then the event's; the worker takes only the event's. */
  function Needs(job: Job): seq<Lock> {
    match job
    case Creation(_, _, _, _) => [HostLock]
    case Update(id, _, _) => [HostLock, EventLock(id)]
    case Cancellation(id) => [HostLock, EventLock(id)]
    case AutoCancellation(id) => [EventLock(id)]
  }

  predicate Holds(tx: Tx, lock: Lock) {
    tx.taken <= |Needs(tx.job)| && lock in Needs(tx.job)[..tx.taken]
  }

  predicate Clash(a: Event, b: Event) {
    && a.status == Scheduled && b.status == Scheduled && a.zoomHost == b.zoomHost
    && a.startAt < b.endAt && a.endAt > b.startAt
  }

  /** The overlap query: no other scheduled event of the host in the half-open interval. */
  function HostFree(events: map<Id, Event>, zoomHost: string, startAt: int, endAt: int, except: Option<Id>): bool {
    forall id :: id in events && except != Some(id) ==>
      !(events[id].status == Scheduled && events[id].zoomHost == zoomHost
        && events[id].startAt < endAt && events[id].endAt > startAt)
  }

  function EndOf(s: Schedule): int {
    s.startAt + s.minutes * MILLIS_PER_MINUTE
  }

  /** What a transaction that holds its locks decides to write; `None` when it refuses or has
      nothing to do. */
  function Planned(events: map<Id, Event>, job: Job): Option<Event> {
    match job
    case Creation(id, s, now, zoomHost) =>
      if id !in events && ValidateSchedule(s, now).Ok? && HostFree(events, zoomHost, s.startAt, EndOf(s), None)
      then Some(NewEvent(s, EndOf(s), zoomHost)) else None
    case Update(id, s, now) =>
      if id !in events then None
      else
        (match Edited(events[id], s, now, HostFree(events, events[id].zoomHost, s.startAt, EndOf(s), Some(id)))
         case Ok(e) => Some(e)
         case Err(_) => None)
    case Cancellation(id) => if id in events && events[id].status == Scheduled then Some(CancelledBy(events[id])) else None
    case AutoCancellation(id) => if id in events && events[id].status == Scheduled then Some(CancelledBy(events[id])) else None
  }

  ghost predicate Enabled(s: System, l: Label) {
    match l
    case Begin(t, _) => t !in s.txs
    case Take(t) =>
      && t in s.txs && s.txs[t].taken < |Needs(s.txs[t].job)|
      && forall u :: u in s.txs ==> !Holds(s.txs[u], Needs(s.txs[t].job)[s.txs[t].taken])
    case Check(t) =>
      && t in s.txs && s.txs[t].taken == |Needs(s.txs[t].job)| && s.txs[t].plan.None?
      && Planned(s.events, s.txs[t].job).Some?
    case Commit(t) => t in s.txs && s.txs[t].plan.Some?
    case Abort(t) => t in s.txs
  }

  ghost function Step(s: System, l: Label): System
    requires Enabled(s, l)
  {
    match l
    case Begin(t, job) => s.(txs := s.txs[t := Tx(job, 0, None)])
    case Take(t) => s.(txs := s.txs[t := s.txs[t].(taken := s.txs[t].taken + 1)])
    case Check(t) => s.(txs := s.txs[t := s.txs[t].(plan := Planned(s.events, s.txs[t].job))])
    case Commit(t) => System(s.events[s.txs[t].job.id := s.txs[t].plan.value], s.txs - {t})
    case Abort(t) => s.(txs := s.txs - {t})
  }

  ghost predicate Disjoint(events: map<Id, Event>) {
    forall a, b :: a in events && b in events && a != b ==> !Clash(events[a], events[b])
  }

  ghost predicate Sound(events: map<Id, Event>) {
    Disjoint(events) && forall id :: id in events ==> ScheduleHolds(events[id])
  }

  /** The plan of a transaction still fits what is committed now. */
  ghost predicate PlanFits(events: map<Id, Event>, tx: Tx) {
    tx.plan.Some? ==>
      && tx.taken == |Needs(tx.job)|
      && Sound(events[tx.job.id := tx.plan.value])
      && (tx.job.Creation? <==> tx.job.id !in events)
      && (!tx.job.Creation? ==> events[tx.job.id].status == Scheduled && tx.plan.value.revision == events[tx.job.id].revision + 1)
      && (tx.job.Cancellation? || tx.job.AutoCancellation? ==> tx.plan.value.status == Cancelled)
  }

  ghost predicate Invariant(s: System) {
    && Sound(s.events)
    && (forall t :: t in s.txs ==> s.txs[t].taken <= |Needs(s.txs[t].job)| && PlanFits(s.events, s.txs[t]))
    && (forall t, u, lock :: t in s.txs && u in s.txs && Holds(s.txs[t], lock) && Holds(s.txs[u], lock) ==> t == u)
  }

  // ---------------------------------------------------------------- proofs

  lemma PlannedFits(events: map<Id, Event>, job: Job)
    requires Sound(events) && Planned(events, job).Some?
    ensures PlanFits(events, Tx(job, |Needs(job)|, Planned(events, job)))
  {
    var e := Planned(events, job).value;
    var after := events[job.id := e];
    forall a, b | a in after && b in after && a != b ensures !Clash(after[a], after[b]) {
      if a != job.id && b != job.id {
        assert !Clash(events[a], events[b]);
      }
    }
  }

  /** The overlap check asks neither too much nor too little: an event may take a time, or move there,
      if and only if it ends before, or starts after, every other scheduled event on its host; and that
      is so if and only if the table with it has no overlap. Cancelled events block nothing. */
  lemma FreeExactly(events: map<Id, Event>, id: Id, e: Event)
    requires Sound(events) && ScheduleHolds(e) && e.status == Scheduled
    ensures HostFree(events, e.zoomHost, e.startAt, e.endAt, if id in events then Some(id) else None) <==>
            forall other :: other in events && other != id && events[other].status == Scheduled && events[other].zoomHost == e.zoomHost ==>
              events[other].endAt <= e.startAt || e.endAt <= events[other].startAt
    ensures HostFree(events, e.zoomHost, e.startAt, e.endAt, if id in events then Some(id) else None) <==> Disjoint(events[id := e])
  {
    var after := events[id := e];
    if Disjoint(after) {
      forall other | other in events && other != id ensures !Clash(after[other], after[id]) {
      }
    }
    if HostFree(events, e.zoomHost, e.startAt, e.endAt, if id in events then Some(id) else None) {
      forall a, b | a in after && b in after && a != b ensures !Clash(after[a], after[b]) {
        if a != id && b != id {
          assert !Clash(events[a], events[b]);
        }
      }
    }
  }

  /** What each job may do, in terms of the stored events: a new event needs a valid schedule and a free
      host, an edit also a scheduled event, which keeps its host and does not block itself; a
      cancellation needs a scheduled event. */
  lemma PlannedExactly(events: map<Id, Event>, job: Job)
    requires Sound(events)
    ensures (job.Creation? || job.Update?) ==>
      (Planned(events, job).Some? <==>
         && (job.Creation? <==> job.id !in events)
         && (job.Update? && job.id in events ==> events[job.id].status == Scheduled)
         && job.now < job.schedule.startAt && job.schedule.wellFormed && 15 <= job.schedule.minutes <= 480
         && var host := if job.Creation? then job.zoomHost else if job.id in events then events[job.id].zoomHost else "";
            forall other :: other in events && other != job.id && events[other].status == Scheduled && events[other].zoomHost == host ==>
              events[other].endAt <= job.schedule.startAt
              || job.schedule.startAt + job.schedule.minutes * 60000 <= events[other].startAt)
    ensures (job.Cancellation? || job.AutoCancellation?) ==>
      (Planned(events, job).Some? <==> job.id in events && events[job.id].status == Scheduled)
  {
    if job.Creation? || (job.Update? && job.id in events) {
      var host := if job.Creation? then job.zoomHost else events[job.id].zoomHost;
      if ValidateSchedule(job.schedule, job.now).Ok? && (job.Creation? ==> job.id !in events) {
        FreeExactly(events, job.id, NewEvent(job.schedule, EndOf(job.schedule), host));
      }
    }
    hide Disjoint;
  }

  /** What is written: a new or edited event is scheduled at the asked time, a cancellation changes the
      status and the revision only. */
  lemma PlannedIs(events: map<Id, Event>, job: Job)
    requires Planned(events, job).Some?
    ensures var e := Planned(events, job).value;
      && (job.Creation? ==> e == Event(Scheduled, job.schedule.startAt, job.schedule.startAt + job.schedule.minutes * 60000,
                                       job.schedule.minutes, job.zoomHost, 0, 0, {Invitations}))
      && (job.Update? ==> e == events[job.id].(startAt := job.schedule.startAt, minutes := job.schedule.minutes,
                                               endAt := job.schedule.startAt + job.schedule.minutes * 60000,
                                               revision := events[job.id].revision + 1))
      && (job.Cancellation? || job.AutoCancellation? ==>
            e == events[job.id].(status := Cancelled, revision := events[job.id].revision + 1))
  {
  }

  lemma CancelKeepsSound(events: map<Id, Event>, id: Id, e: Event)
    requires Sound(events) && e.status == Cancelled && ScheduleHolds(e)
    ensures Sound(events[id := e])
  {
    var after := events[id := e];
    forall a, b | a in after && b in after && a != b ensures !Clash(after[a], after[b]) {
      if a != id && b != id {
        assert !Clash(events[a], events[b]);
      }
    }
  }

  /** Two transactions with plans: one of them is the worker's, and they write different rows. */
  lemma PlansDiffer(s: System, t: nat, u: nat)
    requires Invariant(s) && t in s.txs && u in s.txs && t != u
    requires s.txs[t].plan.Some? && s.txs[u].plan.Some?
    ensures s.txs[t].job.AutoCancellation? || s.txs[u].job.AutoCancellation?
    ensures s.txs[t].job.id != s.txs[u].job.id
  {
    var a, b := s.txs[t], s.txs[u];
    assert Needs(a.job)[..a.taken] == Needs(a.job) && Needs(b.job)[..b.taken] == Needs(b.job);
    if !a.job.AutoCancellation? && !b.job.AutoCancellation? {
      assert Needs(a.job)[0] == HostLock && Needs(b.job)[0] == HostLock;
      assert Holds(a, HostLock) && Holds(b, HostLock);
    }
    if a.job.id == b.job.id && !a.job.Creation? && !b.job.Creation? {
      assert EventLock(a.job.id) in Needs(a.job) && EventLock(a.job.id) in Needs(b.job);
      assert Holds(a, EventLock(a.job.id)) && Holds(b, EventLock(a.job.id));
    }
  }

  lemma CommitKeepsPlans(s: System, u: nat, t: nat)
    requires Invariant(s) && u in s.txs && s.txs[u].plan.Some? && t in s.txs && t != u
    ensures PlanFits(s.events[s.txs[u].job.id := s.txs[u].plan.value], s.txs[t])
  {
    var a, b := s.txs[t], s.txs[u];
    if a.plan.Some? {
      PlansDiffer(s, t, u);
      var after := s.events[b.job.id := b.plan.value];
      if a.job.AutoCancellation? {
        assert ScheduleHolds(s.events[a.job.id := a.plan.value][a.job.id]);
        CancelKeepsSound(after, a.job.id, a.plan.value);
      } else {
        var planned := s.events[a.job.id := a.plan.value];
        assert ScheduleHolds(s.events[b.job.id := b.plan.value][b.job.id]);
        CancelKeepsSound(planned, b.job.id, b.plan.value);
        assert after[a.job.id := a.plan.value] == planned[b.job.id := b.plan.value];
      }
    }
  }

  lemma TakeKeepsInvariant(s: System, t: nat)
    requires Invariant(s) && Enabled(s, Take(t))
    ensures Invariant(Step(s, Take(t)))
  {
    var needs := Needs(s.txs[t].job);
    assert needs[..s.txs[t].taken + 1] == needs[..s.txs[t].taken] + [needs[s.txs[t].taken]];
  }

  lemma StepKeepsInvariant(s: System, l: Label)
    requires Invariant(s) && Enabled(s, l)
    ensures Invariant(Step(s, l))
  {
    var r := Step(s, l);
    match l
    case Begin(t, job) =>
    case Take(t) =>
      TakeKeepsInvariant(s, t);
    case Check(t) =>
      PlannedFits(s.events, s.txs[t].job);
    case Commit(t) =>
      forall u | u in r.txs ensures PlanFits(r.events, r.txs[u]) {
        CommitKeepsPlans(s, t, u);
      }
    case Abort(t) =>
  }

  // ---------------------------------------------------------------- progress

  /** The transaction can go on, or has all its locks and nothing to write. */
  ghost predicate GoesOn(s: System, t: nat) {
    && t in s.txs
    && (|| Enabled(s, Take(t)) || Enabled(s, Check(t)) || Enabled(s, Commit(t))
        || (s.txs[t].taken == |Needs(s.txs[t].job)| && Planned(s.events, s.txs[t].job).None?))
  }

  lemma WithAllLocks(s: System, t: nat)
    requires t in s.txs && s.txs[t].taken == |Needs(s.txs[t].job)|
    ensures GoesOn(s, t)
  {
  }

  /** An event's lock is the last one its holder takes. */
  lemma EventLockIsLast(s: System, t: nat, id: Id)
    requires t in s.txs && s.txs[t].taken <= |Needs(s.txs[t].job)| && Holds(s.txs[t], EventLock(id))
    ensures s.txs[t].taken == |Needs(s.txs[t].job)|
  {
  }

  /** One transaction, or the one that holds the lock it waits for, or the one that that one waits for,
      goes on. */
  lemma SomebodyGoesOn(s: System, t: nat) returns (u: nat)
    requires Invariant(s) && t in s.txs
    ensures GoesOn(s, u)
  {
    u := t;
    if s.txs[t].taken == |Needs(s.txs[t].job)| {
      WithAllLocks(s, t);
    } else if !Enabled(s, Take(t)) {
      var lock := Needs(s.txs[t].job)[s.txs[t].taken];
      u :| u in s.txs && Holds(s.txs[u], lock);
      if lock == HostLock && !Enabled(s, Take(u)) && s.txs[u].taken < |Needs(s.txs[u].job)| {
        var next := Needs(s.txs[u].job)[s.txs[u].taken];
        assert next.EventLock?;
        u :| u in s.txs && Holds(s.txs[u], next);
        EventLockIsLast(s, u, next.id);
      } else if lock.EventLock? {
        EventLockIsLast(s, u, lock.id);
      }
      if s.txs[u].taken == |Needs(s.txs[u].job)| {
        WithAllLocks(s, u);
      }
    }
  }

  /** The labels lead from one state to the other. */
  ghost predicate Leads(s: System, labels: seq<Label>, r: System)
    decreases labels
  {
    if labels == [] then s == r else Enabled(s, labels[0]) && Leads(Step(s, labels[0]), labels[1..], r)
  }

  lemma {:induction false} LeadsOn(s: System, a: seq<Label>, m: System, b: seq<Label>, r: System)
    requires Leads(s, a, m) && Leads(m, b, r)
    ensures Leads(s, a + b, r)
    decreases a
  {
    if a == [] {
      assert a + b == b;
    } else {
      LeadsOn(Step(s, a[0]), a[1..], m, b, r);
      assert (a + b)[1..] == a[1..] + b;
    }
    hide Enabled, Step;
  }

  lemma OneLeads(s: System, l: Label)
    requires Enabled(s, l)
    ensures Leads(s, [l], Step(s, l))
  {
    hide Enabled, Step;
  }

  predicate NobodyHolds(s: System, job: Job) {
    forall u, k :: u in s.txs && 0 <= k < |Needs(job)| ==> !Holds(s.txs[u], Needs(job)[k])
  }

  function Takes(t: nat, job: Job): seq<Label> {
    if job.AutoCancellation? || job.Creation? then [Begin(t, job), Take(t)] else [Begin(t, job), Take(t), Take(t)]
  }

  function WithTx(s: System, t: nat, tx: Tx): System {
    s.(txs := s.txs[t := tx])
  }

  lemma TakesOne(s: System, t: nat, job: Job, n: nat)
    requires t !in s.txs && NobodyHolds(s, job) && n < |Needs(job)|
    ensures Leads(WithTx(s, t, Tx(job, n, None)), [Take(t)], WithTx(s, t, Tx(job, n + 1, None)))
  {
    var from := WithTx(s, t, Tx(job, n, None));
    OneLeads(from, Take(t));
    assert Step(from, Take(t)).txs == WithTx(s, t, Tx(job, n + 1, None)).txs;
  }

  lemma TakesAll(s: System, t: nat, job: Job)
    requires t !in s.txs && NobodyHolds(s, job)
    ensures Leads(s, Takes(t, job), WithTx(s, t, Tx(job, |Needs(job)|, None)))
  {
    var begun, one := WithTx(s, t, Tx(job, 0, None)), WithTx(s, t, Tx(job, 1, None));
    OneLeads(s, Begin(t, job));
    TakesOne(s, t, job, 0);
    LeadsOn(s, [Begin(t, job)], begun, [Take(t)], one);
    if |Needs(job)| == 2 {
      TakesOne(s, t, job, 1);
      LeadsOn(s, [Begin(t, job), Take(t)], one, [Take(t)], WithTx(s, t, Tx(job, 2, None)));
    }
    hide Leads, NobodyHolds;
  }

  lemma Finishes(s: System, t: nat, job: Job)
    requires t !in s.txs && Planned(s.events, job).Some?
    ensures Leads(WithTx(s, t, Tx(job, |Needs(job)|, None)), [Check(t), Commit(t)],
                  System(s.events[job.id := Planned(s.events, job).value], s.txs))
  {
    hide Planned, Leads;
    var ready := WithTx(s, t, Tx(job, |Needs(job)|, None));
    var checked := Step(ready, Check(t));
    var r := Step(checked, Commit(t));
    OneLeads(ready, Check(t));
    OneLeads(checked, Commit(t));
    LeadsOn(ready, [Check(t)], checked, [Commit(t)], r);
    assert r.txs == s.txs;
    assert [Check(t)] + [Commit(t)] == [Check(t), Commit(t)];
  }

  /** A transaction whose locks nobody holds goes through: it begins, takes its locks in order, checks,
      and commits the row it planned, and leaves everything else alone. */
  lemma UnhinderedGoesThrough(s: System, t: nat, job: Job)
    requires t !in s.txs && NobodyHolds(s, job) && Planned(s.events, job).Some?
    ensures Leads(s, Takes(t, job) + [Check(t), Commit(t)],
                  System(s.events[job.id := Planned(s.events, job).value], s.txs))
  {
    hide Planned, Leads, NobodyHolds, Takes;
    TakesAll(s, t, job);
    Finishes(s, t, job);
    LeadsOn(s, Takes(t, job), WithTx(s, t, Tx(job, |Needs(job)|, None)), [Check(t), Commit(t)],
            System(s.events[job.id := Planned(s.events, job).value], s.txs));
  }

  // ---------------------------------------------------------------- runs

  ghost predicate CanStep(s: System, r: System) {
    exists l :: Enabled(s, l) && r == Step(s, l)
  }

  ghost predicate IsRun(run: seq<System>) {
    && 0 < |run| && run[0] == System(map[], map[])
    && forall i :: 0 <= i < |run| - 1 ==> CanStep(run[i], run[i + 1])
  }

  lemma {:induction false} RunKeepsInvariant(run: seq<System>, i: nat)
    requires IsRun(run) && i < |run|
    ensures Invariant(run[i])
  {
    if i > 0 {
      RunKeepsInvariant(run, i - 1);
      assert CanStep(run[i - 1], run[i - 1 + 1]);
      var l :| Enabled(run[i - 1], l) && run[i] == Step(run[i - 1], l);
      StepKeepsInvariant(run[i - 1], l);
    }
  }

  /** In every state of every run, scheduled events on one Zoom host never overlap, and every
      event ends when its duration of 15 to 480 minutes is over. */
  lemma HostIsNeverDoubleBooked(run: seq<System>, i: nat, a: Id, b: Id)
    requires IsRun(run) && i < |run| && a in run[i].events && b in run[i].events
    ensures ScheduleHolds(run[i].events[a])
    ensures var x, y := run[i].events[a], run[i].events[b];
      a != b && x.status == Scheduled && y.status == Scheduled && x.zoomHost == y.zoomHost ==>
        x.endAt <= y.startAt || y.endAt <= x.startAt
  {
    RunKeepsInvariant(run, i);
    if a != b {
      assert !Clash(run[i].events[a], run[i].events[b]);
    }
  }

  /** No deadlock: in every state of every interleaving in which transactions are open, one of them can
      take its next lock, check or commit, or has all its locks and nothing to write. */
  lemma NoDeadlock(run: seq<System>, i: nat)
    requires IsRun(run) && i < |run| && run[i].txs != map[]
    ensures exists t :: GoesOn(run[i], t)
  {
    RunKeepsInvariant(run, i);
    var t :| t in run[i].txs;
    var u := SomebodyGoesOn(run[i], t);
    hide GoesOn, Invariant;
  }

  lemma EventKept(s: System, l: Label, id: Id)
    requires Invariant(s) && Enabled(s, l) && id in s.events
    ensures var r := Step(s, l);
      && id in r.events && s.events[id].revision <= r.events[id].revision
      && (s.events[id].status == Cancelled ==> r.events[id] == s.events[id])
  {
    if l.Commit? {
      assert PlanFits(s.events, s.txs[l.t]);
    }
  }

  /** No event disappears, revisions never decrease (no update is lost), and a cancelled event
      never becomes scheduled again. */
  lemma {:induction false} CancelledForever(run: seq<System>, i: nat, j: nat, id: Id)
    requires IsRun(run) && i <= j < |run| && id in run[i].events
    ensures id in run[j].events
    ensures run[i].events[id].revision <= run[j].events[id].revision
    ensures run[i].events[id].status == Cancelled ==> run[j].events[id] == run[i].events[id]
    decreases j - i
  {
    hide Step, Enabled, Invariant;
    if i < j {
      CancelledForever(run, i, j - 1, id);
      RunKeepsInvariant(run, j - 1);
      assert CanStep(run[j - 1], run[j - 1 + 1]);
      var l :| Enabled(run[j - 1], l) && run[j] == Step(run[j - 1], l);
      EventKept(run[j - 1], l, id);
    }
  }

  // ---------------------------------------------------------------- one transaction in place

  /** The outcome of the foreign calls inside `create`. */
  datatype ZoomFate = ZoomFate(created: bool, saved: bool, removed: bool)

  /** The committed rows, and the meetings that exist at Zoom for them. */
  class HostCalendar {
    var events: map<Id, Event>
    ghost var meetings: set<Id>

    ghost predicate Valid()
      reads this
    {
      Sound(events) && events.Keys <= meetings
    }

    constructor ()
      ensures Valid() && events == map[]
    {
      events := map[];
      meetings := {};
    }

    /** `create` with its compensation: a meeting whose row could not be saved is removed. */
    method Create(id: Id, s: Schedule, now: int, zoomHost: string, fate: ZoomFate) returns (r: Result<Event, Refusal>)
      requires Valid() && id !in meetings
      modifies this
      ensures Valid()
      ensures r.Ok? <==> fate.created && fate.saved && ValidateSchedule(s, now).Ok?
                         && HostFree(old(events), zoomHost, s.startAt, EndOf(s), None)
      ensures r.Err? ==> (r.error == BadRequest <==> !(now < s.startAt && s.wellFormed && 15 <= s.minutes <= 480))
      ensures r.Err? ==> (r.error == Conflict <==>
        && now < s.startAt && s.wellFormed && 15 <= s.minutes <= 480
        && exists other ::
             && other in old(events) && old(events)[other].status == Scheduled && old(events)[other].zoomHost == zoomHost
             && old(events)[other].startAt < s.startAt + s.minutes * 60000 && s.startAt < old(events)[other].endAt)
      ensures r.Ok? ==> events == old(events)[id := r.value] && meetings == old(meetings) + {id}
      ensures r.Ok? ==> Some(r.value) == Planned(old(events), Creation(id, s, now, zoomHost))
      ensures r.Err? ==> events == old(events)
      ensures r.Err? && (fate.removed || !fate.created) ==> meetings == old(meetings)
    {
      var dates := ValidateSchedule(s, now);
      if dates.Err? {
        return Err(dates.error);
      }
      if !HostFree(events, zoomHost, s.startAt, dates.value, None) {
        return Err(Conflict);
      }
      if !fate.created {
        return Err(Unavailable);
      }
      meetings := meetings + {id};
      if !fate.saved {
        if fate.removed {
          meetings := meetings - {id};
        }
        return Err(Unavailable);
      }
      var e := NewEvent(s, dates.value, zoomHost);
      PlannedFits(events, Creation(id, s, now, zoomHost));
      events := events[id := e];
      r := Ok(e);
    }

    /** `update` of a stored event; it keeps its host and does not stand in its own way. */
    method Update(id: Id, s: Schedule, now: int) returns (r: Result<Event, Refusal>)
      requires Valid() && id in events
      modifies this`events
      ensures Valid() && (r.Ok? <==> Planned(old(events), Job.Update(id, s, now)).Some?)
      ensures r.Ok? ==> Some(r.value) == Planned(old(events), Job.Update(id, s, now)) && events == old(events)[id := r.value]
      ensures r.Err? ==> events == old(events)
      ensures r.Err? ==> (r.error == Conflict <==>
        && old(events)[id].status == Scheduled && now < s.startAt && s.wellFormed && 15 <= s.minutes <= 480
        && exists other ::
             && other in old(events) && other != id && old(events)[other].status == Scheduled
             && old(events)[other].zoomHost == old(events)[id].zoomHost
             && old(events)[other].startAt < s.startAt + s.minutes * 60000 && s.startAt < old(events)[other].endAt)
    {
      var e := events[id];
      if e.status == Cancelled {
        return Err(BadRequest);
      }
      var dates := ValidateSchedule(s, now);
      if dates.Err? {
        return Err(dates.error);
      }
      if !HostFree(events, e.zoomHost, s.startAt, dates.value, Some(id)) {
        return Err(Conflict);
      }
      PlannedFits(events, Job.Update(id, s, now));
      r := Ok(e.(startAt := s.startAt, endAt := dates.value, minutes := s.minutes, revision := e.revision + 1));
      events := events[id := r.value];
    }

    /** `cancel`: a second cancellation changes nothing. */
    method Cancel(id: Id) returns (e: Event)
      requires Valid() && id in events
      modifies this`events
      ensures Valid() && events == old(events)[id := e]
      ensures e == if old(events)[id].status == Cancelled then old(events)[id]
                   else old(events)[id].(status := Cancelled, revision := old(events)[id].revision + 1)
    {
      e := CancelledBy(events[id]);
      CancelKeepsSound(events, id, e);
      events := events[id := e];
    }
  }
}
