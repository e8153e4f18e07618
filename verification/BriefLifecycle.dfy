/** The life of briefs: statuses, the brief count of each vertical, and a revision history that
    keeps the editable fields as they were before every edit. */
module BriefLifecycle {
  import opened Prelude

  type Id = string

  /** A column or JSON field: absent, null, or a value. */
  datatype Maybe<+T> = Undefined | Null | Value(value: T)

  /** The nine editable fields that a revision snapshots. */
  datatype Fields = Fields(
    title: Maybe<string>,
    description: Maybe<string>,
    problemStatement: Maybe<string>,
    expectedOutcomes: Maybe<string>,
    verticalId: Maybe<Id>,
    tags: Maybe<seq<string>>,
    resources: Maybe<seq<string>>,
    maxTeams: Maybe<int>,
    secondaryContact: Maybe<map<string, string>>)

  datatype Status = Draft | Submitted | InReview | Approved | Rejected | RevisionRequested

  datatype Brief = Brief(status: Status, fields: Fields, version: nat)

  datatype Vertical = Vertical(count: int, cap: int)

  datatype Revision = Revision(brief: Id, version: nat, previous: Option<Fields>)

  /** `snapshots[id][v - 1]` is the snapshot that version `v` of a brief had; it is kept for the
      statements below and read by no operation. */
  datatype Desk = Desk(
    briefs: map<Id, Brief>,
    verticals: map<Id, Vertical>,
    revisions: seq<Revision>,
    snapshots: map<Id, seq<Fields>>)

  datatype Decision = Approve | Reject | RequestRevision

  datatype Step =
    | AddVertical(vertical: Id, cap: int)
    | SetCap(vertical: Id, cap: int)
    | Create(id: Id, fields: Fields)
    | Update(id: Id, fields: Fields)
    | Submit(id: Id)
    | StartReview(id: Id)
    | Review(id: Id, decision: Decision, feedback: bool)
    | Delete(id: Id, soft: bool)
    | StaffUpdate(id: Id, fields: Fields)
    | Restore(id: Id, revision: nat)

  // ---------------------------------------------------------------- fields

  function Pick<T>(kept: Maybe<T>, change: Maybe<T>): Maybe<T> {
    if change.Undefined? then kept else change
  }

  /** `Object.assign` followed by a save that skips absent fields. */
  function Assigned(f: Fields, dto: Fields): Fields {
    Fields(Pick(f.title, dto.title), Pick(f.description, dto.description),
           Pick(f.problemStatement, dto.problemStatement), Pick(f.expectedOutcomes, dto.expectedOutcomes),
           Pick(f.verticalId, dto.verticalId), Pick(f.tags, dto.tags), Pick(f.resources, dto.resources),
           Pick(f.maxTeams, dto.maxTeams), Pick(f.secondaryContact, dto.secondaryContact))
  }

  function Snapshot(f: Fields): Fields {
    f.(tags := if f.tags.Value? then f.tags else Value([]),
       secondaryContact := if f.secondaryContact.Value? then f.secondaryContact else Value(map[]))
  }

  /** Absent fields stay; a missing tag list becomes empty, missing resources become null. */
  function Restored(f: Fields, previous: Fields): Fields {
    Assigned(f, previous).(
      tags := if previous.tags.Undefined? then f.tags else if previous.tags.Value? then previous.tags else Value([]),
      resources := if previous.resources.Undefined? then f.resources else if previous.resources.Value? then previous.resources else Null)
  }

  const NULLS := Fields(Null, Null, Null, Null, Null, Null, Null, Null, Null)

  /** A row read from the database has no absent field. */
  ghost predicate Loaded(f: Fields) {
    && !f.title.Undefined? && !f.description.Undefined? && !f.problemStatement.Undefined?
    && !f.expectedOutcomes.Undefined? && !f.verticalId.Undefined? && !f.tags.Undefined?
    && !f.resources.Undefined? && !f.maxTeams.Undefined? && !f.secondaryContact.Undefined?
  }

  /** Restoring a snapshot brings back every field it defines and keeps the others. */
  lemma RestoreBringsBack(f: Fields, earlier: Fields)
    ensures Snapshot(Restored(f, Snapshot(earlier))) == Snapshot(Assigned(f, Snapshot(earlier)))
    ensures Loaded(earlier) ==> Snapshot(Restored(f, Snapshot(earlier))) == Snapshot(earlier)
    ensures Loaded(f) ==> Loaded(Restored(f, Snapshot(earlier)))
    ensures Loaded(earlier) ==> Restored(f, Snapshot(earlier)) == earlier.(
      tags := if earlier.tags == Null then Value([]) else earlier.tags,
      secondaryContact := if earlier.secondaryContact == Null then Value(map[]) else earlier.secondaryContact)
  {
  }

  // ---------------------------------------------------------------- the guards

  function Editable(s: Status): bool {
    s == Draft || s == RevisionRequested
  }

  /** A vertical's count includes the briefs in these statuses. */
  predicate Counted(s: Status) {
    s == Submitted || s == InReview || s == Approved
  }

  predicate HasRoom(d: Desk, vertical: Id) {
    vertical in d.verticals && d.verticals[vertical].count < d.verticals[vertical].cap
  }

  /** A change of vertical needs a vertical that exists and, when `checked`, has room. */
  predicate MayMove(d: Desk, from: Maybe<Id>, to: Maybe<Id>, checked: bool) {
    to.Value? && to != from ==> to.value in d.verticals && (checked ==> HasRoom(d, to.value))
  }

  predicate HasRevisions(d: Desk, id: Id) {
    exists k :: 0 <= k < |d.revisions| && d.revisions[k].brief == id
  }

  /** A brief with events is only marked as deleted; any other row goes, which the revisions' foreign
      key refuses while there are any. */
  predicate Accepted(d: Desk, s: Step) {
    match s
    case AddVertical(v, _) => v !in d.verticals
    case SetCap(v, _) => v in d.verticals
    case Create(id, f) => id !in d.snapshots && id !in d.briefs && MayMove(d, Null, f.verticalId, true)
    case Update(id, f) =>
      id in d.briefs && Editable(d.briefs[id].status) && MayMove(d, d.briefs[id].fields.verticalId, f.verticalId, true)
    case Submit(id) =>
      && id in d.briefs && Editable(d.briefs[id].status)
      && var v := d.briefs[id].fields.verticalId;
         (v.Value? && v.value in d.verticals ==> HasRoom(d, v.value))
    case StartReview(id) => id in d.briefs && d.briefs[id].status == Submitted
    case Review(id, decision, feedback) =>
      && id in d.briefs && (d.briefs[id].status == Submitted || d.briefs[id].status == InReview)
      && (decision == Approve || feedback)
    case Delete(id, soft) => id in d.briefs && d.briefs[id].status == Draft && (soft || !HasRevisions(d, id))
    case StaffUpdate(id, f) =>
      id in d.briefs && MayMove(d, d.briefs[id].fields.verticalId, f.verticalId, d.briefs[id].status != Draft)
    case Restore(id, k) =>
      && id in d.briefs && k < |d.revisions| && d.revisions[k].brief == id && d.revisions[k].previous.Some?
      && MayMove(d, d.briefs[id].fields.verticalId, d.revisions[k].previous.value.verticalId, d.briefs[id].status != Draft)
  }

  // ---------------------------------------------------------------- the effects

  function Bumped(verticals: map<Id, Vertical>, v: Maybe<Id>, delta: int): map<Id, Vertical> {
    if v.Value? && v.value in verticals
    then verticals[v.value := verticals[v.value].(count := verticals[v.value].count + delta)] else verticals
  }

  /** An edit: the next version, with a revision that holds the fields as they were. */
  function Edited(d: Desk, id: Id, fields: Fields): Desk
    requires id in d.briefs
  {
    var b := d.briefs[id];
    d.(briefs := d.briefs[id := b.(fields := fields, version := b.version + 1)],
       revisions := d.revisions + [Revision(id, b.version + 1, Some(Snapshot(b.fields)))],
       snapshots := if id in d.snapshots then d.snapshots[id := d.snapshots[id] + [Snapshot(fields)]] else d.snapshots)
  }

  function Noted(d: Desk, id: Id): seq<Revision>
    requires id in d.briefs
  {
    d.revisions + [Revision(id, d.briefs[id].version, None)]
  }

  function Performed(d: Desk, s: Step): Desk
    requires Accepted(d, s)
  {
    match s
    case AddVertical(v, cap) => d.(verticals := d.verticals[v := Vertical(0, cap)])
    case SetCap(v, cap) => d.(verticals := d.verticals[v := d.verticals[v].(cap := cap)])
    case Create(id, f) =>
      var fields := Assigned(NULLS, f);
      d.(briefs := d.briefs[id := Brief(Draft, fields, 1)], snapshots := d.snapshots[id := [Snapshot(fields)]])
    case Update(id, f) => Edited(d, id, Assigned(d.briefs[id].fields, f))
    case Submit(id) =>
      d.(briefs := d.briefs[id := d.briefs[id].(status := Submitted)],
         verticals := Bumped(d.verticals, d.briefs[id].fields.verticalId, 1), revisions := Noted(d, id))
    case StartReview(id) => d.(briefs := d.briefs[id := d.briefs[id].(status := InReview)])
    case Review(id, decision, _) =>
      var to := match decision case Approve => Approved case Reject => Rejected case RequestRevision => RevisionRequested;
      d.(briefs := d.briefs[id := d.briefs[id].(status := to)],
         verticals := if decision == Approve then d.verticals else Bumped(d.verticals, d.briefs[id].fields.verticalId, -1),
         revisions := Noted(d, id))
    case Delete(id, _) => d.(briefs := d.briefs - {id})
    case StaffUpdate(id, f) => Edited(d, id, Assigned(d.briefs[id].fields, f))
    case Restore(id, k) => Edited(d, id, Restored(d.briefs[id].fields, d.revisions[k].previous.value))
  }

  function Next(d: Desk, s: Step): Desk {
    if Accepted(d, s) then Performed(d, s) else d
  }

  // ---------------------------------------------------------------- conservation

  function CountedIn(briefs: map<Id, Brief>, v: Id): set<Id> {
    set id | id in briefs && Counted(briefs[id].status) && briefs[id].fields.verticalId == Value(v)
  }

  ghost predicate Conserved(d: Desk) {
    && (forall v :: v in d.verticals ==> d.verticals[v].count == |CountedIn(d.briefs, v)|)
    && (forall id :: id in d.briefs && d.briefs[id].fields.verticalId.Value? ==> d.briefs[id].fields.verticalId.value in d.verticals)
  }

  ghost predicate WithinCaps(d: Desk) {
    forall v :: v in d.verticals ==> d.verticals[v].count <= d.verticals[v].cap
  }

  /** The vertical a staff edit or a restore leaves the brief in. */
  function VerticalAfter(d: Desk, s: Step): Maybe<Id>
    requires Accepted(d, s) && (s.StaffUpdate? || s.Restore?)
  {
    Performed(d, s).briefs[s.id].fields.verticalId
  }

  predicate SameVertical(a: Maybe<Id>, b: Maybe<Id>) {
    a.Value? || b.Value? ==> a == b
  }

  /** Staff edits and restores leave a counted brief in its vertical. */
  predicate KeepsCountedVerticals(d: Desk, s: Step) {
    Accepted(d, s) && (s.StaffUpdate? || s.Restore?) ==>
      !Counted(d.briefs[s.id].status) || SameVertical(VerticalAfter(d, s), d.briefs[s.id].fields.verticalId)
  }

  predicate LowersNoCap(d: Desk, s: Step) {
    && (s.SetCap? && s.vertical in d.verticals ==> d.verticals[s.vertical].cap <= s.cap)
    && (s.AddVertical? ==> 0 <= s.cap)
  }

  lemma CountAfter(briefs: map<Id, Brief>, id: Id, b: Brief, v: Id)
    ensures var here := Counted(b.status) && b.fields.verticalId == Value(v);
      CountedIn(briefs[id := b], v) == (CountedIn(briefs, v) - {id}) + (if here then {id} else {})
  {
    var after := briefs[id := b];
    forall other | other != id ensures other in CountedIn(after, v) <==> other in CountedIn(briefs, v) {
    }
  }

  /** Writing one brief moves each vertical's number by what the brief itself contributes. */
  lemma CountMoves(briefs: map<Id, Brief>, id: Id, b: Brief, v: Id)
    ensures var before := if id in CountedIn(briefs, v) then 1 else 0;
      var after := if Counted(b.status) && b.fields.verticalId == Value(v) then 1 else 0;
      |CountedIn(briefs[id := b], v)| == |CountedIn(briefs, v)| - before + after
  {
    CountAfter(briefs, id, b, v);
    hide CountedIn;
    var rest := CountedIn(briefs, v) - {id};
    assert id in CountedIn(briefs, v) ==> CountedIn(briefs, v) == rest + {id};
    assert id !in CountedIn(briefs, v) ==> CountedIn(briefs, v) == rest;
  }

  lemma EditConserves(d: Desk, id: Id, fields: Fields)
    requires Conserved(d) && id in d.briefs
    requires fields.verticalId.Value? ==> fields.verticalId.value in d.verticals
    ensures Conserved(Edited(d, id, fields)) <==>
            !Counted(d.briefs[id].status) || SameVertical(fields.verticalId, d.briefs[id].fields.verticalId)
  {
    var r := Edited(d, id, fields);
    var b := r.briefs[id];
    var from, to := d.briefs[id].fields.verticalId, fields.verticalId;
    forall v | v in d.verticals
      ensures |CountedIn(r.briefs, v)| == |CountedIn(d.briefs, v)|
                - (if Counted(b.status) && from == Value(v) then 1 else 0) + (if Counted(b.status) && to == Value(v) then 1 else 0)
    {
      CountMoves(d.briefs, id, b, v);
    }
    if Counted(b.status) && !SameVertical(from, to) {
      var v := if from.Value? then from.value else to.value;
      assert v in d.verticals && r.verticals[v].count != |CountedIn(r.briefs, v)|;
    }
  }

  /** A staff edit or a restore conserves the counts exactly when the brief is not counted or
      stays in its vertical. */
  lemma StaffEditConserves(d: Desk, s: Step)
    requires Conserved(d) && Accepted(d, s) && (s.StaffUpdate? || s.Restore?)
    ensures Conserved(Performed(d, s)) <==>
            !Counted(d.briefs[s.id].status) || SameVertical(VerticalAfter(d, s), d.briefs[s.id].fields.verticalId)
  {
    EditConserves(d, s.id, Performed(d, s).briefs[s.id].fields);
    hide Conserved;
  }

  /** A status change conserves when the vertical's count moves with it. */
  lemma StatusConserves(d: Desk, r: Desk, id: Id, b: Brief, delta: int)
    requires Conserved(d) && id in d.briefs && b.fields == d.briefs[id].fields && r.briefs == d.briefs[id := b]
    requires delta == (if Counted(b.status) then 1 else 0) - (if Counted(d.briefs[id].status) then 1 else 0)
    requires r.verticals == Bumped(d.verticals, b.fields.verticalId, delta)
    ensures Conserved(r)
  {
    forall v | v in r.verticals ensures r.verticals[v].count == |CountedIn(r.briefs, v)| {
      CountMoves(d.briefs, id, b, v);
    }
  }

  lemma CreateConserves(d: Desk, id: Id, f: Fields)
    requires Conserved(d) && Accepted(d, Create(id, f))
    ensures Conserved(Performed(d, Create(id, f)))
  {
    var r := Performed(d, Create(id, f));
    forall v | v in r.verticals ensures r.verticals[v].count == |CountedIn(r.briefs, v)| {
      CountMoves(d.briefs, id, r.briefs[id], v);
    }
  }

  lemma DeleteConserves(d: Desk, id: Id)
    requires Conserved(d) && id in d.briefs && !Counted(d.briefs[id].status)
    ensures Conserved(d.(briefs := d.briefs - {id}))
  {
    forall v | v in d.verticals ensures CountedIn(d.briefs - {id}, v) == CountedIn(d.briefs, v) {
    }
  }

  lemma NewVerticalConserves(d: Desk, v: Id, cap: int)
    requires Conserved(d) && v !in d.verticals
    ensures Conserved(d.(verticals := d.verticals[v := Vertical(0, cap)]))
  {
    assert CountedIn(d.briefs, v) == {};
  }

  /** Every accepted step but a staff edit or restore that moves a counted brief conserves the
      counts. */
  lemma StepConserves(d: Desk, s: Step)
    requires Conserved(d) && Accepted(d, s) && KeepsCountedVerticals(d, s)
    ensures Conserved(Performed(d, s))
  {
    var r := Performed(d, s);
    match s
    case AddVertical(v, cap) => NewVerticalConserves(d, v, cap);
    case SetCap(_, _) =>
    case Create(id, f) => CreateConserves(d, id, f);
    case Update(id, f) => EditConserves(d, id, r.briefs[id].fields);
    case Submit(id) => StatusConserves(d, r, id, r.briefs[id], 1);
    case StartReview(id) =>
      StatusConserves(d, r, id, r.briefs[id], 0);
    case Review(id, decision, _) =>
      StatusConserves(d, r, id, r.briefs[id], if decision == Approve then 0 else -1);
    case Delete(id, _) => DeleteConserves(d, id);
    case StaffUpdate(_, _) => StaffEditConserves(d, s);
    case Restore(_, _) => StaffEditConserves(d, s);
    hide CountedIn;
  }

  lemma StepKeepsCaps(d: Desk, s: Step)
    requires WithinCaps(d) && Accepted(d, s) && LowersNoCap(d, s)
    ensures WithinCaps(Performed(d, s))
  {
  }

  // ---------------------------------------------------------------- revision history

  /** Revision `k` records the edit of brief `id` that made version `v`. */
  ghost predicate Records(d: Desk, k: nat, id: Id, v: nat) {
    k < |d.revisions| && d.revisions[k].brief == id && d.revisions[k].version == v && d.revisions[k].previous.Some?
  }

  ghost predicate Recorded(d: Desk, id: Id, v: nat) {
    exists k: nat :: Records(d, k, id, v)
  }

  /** The brief's snapshots are those of its versions, the last one its present fields. */
  ghost predicate SnapshotsHold(d: Desk) {
    forall id :: id in d.briefs ==>
      && id in d.snapshots && 1 <= d.briefs[id].version == |d.snapshots[id]|
      && d.snapshots[id][d.briefs[id].version - 1] == Snapshot(d.briefs[id].fields)
      && Loaded(d.briefs[id].fields)
  }

  ghost predicate SnapshotsAreWhole(d: Desk) {
    forall id, i :: id in d.snapshots && 0 <= i < |d.snapshots[id]| ==>
      Loaded(d.snapshots[id][i]) && Snapshot(d.snapshots[id][i]) == d.snapshots[id][i]
  }

  /** Each recorded version lies between 2 and the present one, holds the snapshot of the
      version before it, and is recorded once. */
  ghost predicate RecordsHold(d: Desk) {
    && (forall k: nat, id, v: nat :: Records(d, k, id, v) ==>
          && id in d.snapshots && 2 <= v <= |d.snapshots[id]|
          && d.revisions[k].previous == Some(d.snapshots[id][v - 2]))
    && (forall j: nat, k: nat, id, v: nat :: Records(d, j, id, v) && Records(d, k, id, v) ==> j == k)
  }

  ghost predicate NothingMissing(d: Desk) {
    forall id, v: nat :: id in d.snapshots && 2 <= v <= |d.snapshots[id]| ==> Recorded(d, id, v)
  }

  ghost predicate HistoryHolds(d: Desk) {
    SnapshotsHold(d) && SnapshotsAreWhole(d) && RecordsHold(d) && NothingMissing(d)
  }

  lemma SnapshotIsWhole(f: Fields)
    requires Loaded(f)
    ensures Loaded(Snapshot(f)) && Snapshot(Snapshot(f)) == Snapshot(f)
  {
  }

  lemma EditKeepsSnapshots(d: Desk, id: Id, fields: Fields)
    requires SnapshotsHold(d) && SnapshotsAreWhole(d) && id in d.briefs && Loaded(fields)
    ensures SnapshotsHold(Edited(d, id, fields)) && SnapshotsAreWhole(Edited(d, id, fields))
  {
    SnapshotIsWhole(fields);
    hide Snapshot, Loaded;
  }

  /** The records after an edit are those before it and the edit's own. */
  lemma EditRecords(d: Desk, id: Id, fields: Fields, k: nat, other: Id, v: nat)
    requires id in d.briefs
    ensures Records(Edited(d, id, fields), k, other, v) <==>
            Records(d, k, other, v) || (k == |d.revisions| && other == id && v == d.briefs[id].version + 1)
  {
  }

  lemma EditKeepsRecords(d: Desk, id: Id, fields: Fields)
    requires SnapshotsHold(d) && RecordsHold(d) && id in d.briefs
    ensures RecordsHold(Edited(d, id, fields))
  {
    var r, n := Edited(d, id, fields), |d.revisions|;
    forall k: nat, other, v: nat | Records(r, k, other, v)
      ensures other in r.snapshots && 2 <= v <= |r.snapshots[other]|
              && r.revisions[k].previous == Some(r.snapshots[other][v - 2])
    {
      EditRecords(d, id, fields, k, other, v);
    }
    forall j: nat, k: nat, other, v: nat | Records(r, j, other, v) && Records(r, k, other, v) ensures j == k {
      EditRecords(d, id, fields, j, other, v);
      EditRecords(d, id, fields, k, other, v);
      if j < n { assert Records(d, j, other, v); }
      if k < n { assert Records(d, k, other, v); }
    }
  }

  lemma EditMissesNothing(d: Desk, id: Id, fields: Fields)
    requires SnapshotsHold(d) && NothingMissing(d) && id in d.briefs
    ensures NothingMissing(Edited(d, id, fields))
  {
    var r := Edited(d, id, fields);
    forall other, v: nat | other in r.snapshots && 2 <= v <= |r.snapshots[other]| ensures Recorded(r, other, v) {
      if other == id && v == |r.snapshots[id]| {
        EditRecords(d, id, fields, |d.revisions|, id, v);
        assert Records(r, |d.revisions|, id, v);
      } else {
        assert Recorded(d, other, v);
        var k: nat :| Records(d, k, other, v);
        EditRecords(d, id, fields, k, other, v);
        assert Records(r, k, other, v);
      }
    }
  }

  lemma EditKeepsHistory(d: Desk, id: Id, fields: Fields)
    requires HistoryHolds(d) && id in d.briefs && Loaded(fields)
    ensures HistoryHolds(Edited(d, id, fields))
  {
    hide SnapshotsHold, SnapshotsAreWhole, RecordsHold, NothingMissing;
    EditKeepsSnapshots(d, id, fields);
    EditKeepsRecords(d, id, fields);
    EditMissesNothing(d, id, fields);
  }

  /** Steps that only append a note without fields, or touch no revision. */
  lemma NoteKeepsHistory(d: Desk, r: Desk)
    requires HistoryHolds(d) && r.snapshots == d.snapshots && SnapshotsHold(r)
    requires d.revisions <= r.revisions && forall k :: |d.revisions| <= k < |r.revisions| ==> r.revisions[k].previous.None?
    ensures HistoryHolds(r)
  {
    assert forall k: nat :: k < |d.revisions| ==> r.revisions[k] == d.revisions[k];
    forall k: nat, id, v: nat ensures Records(r, k, id, v) <==> Records(d, k, id, v) {
    }
    forall id, v: nat | id in r.snapshots && 2 <= v <= |r.snapshots[id]| ensures Recorded(r, id, v) {
      assert Recorded(d, id, v);
      var k: nat :| Records(d, k, id, v);
      assert Records(r, k, id, v);
    }
  }

  lemma CreateKeepsSnapshots(d: Desk, id: Id, f: Fields)
    requires SnapshotsHold(d) && SnapshotsAreWhole(d) && Accepted(d, Create(id, f))
    ensures SnapshotsHold(Performed(d, Create(id, f))) && SnapshotsAreWhole(Performed(d, Create(id, f)))
  {
    assert Loaded(Assigned(NULLS, f));
    SnapshotIsWhole(Assigned(NULLS, f));
    hide Snapshot, Loaded, Assigned;
  }

  lemma CreateKeepsRecords(d: Desk, id: Id, f: Fields)
    requires RecordsHold(d) && NothingMissing(d) && Accepted(d, Create(id, f))
    ensures RecordsHold(Performed(d, Create(id, f))) && NothingMissing(Performed(d, Create(id, f)))
  {
    hide Snapshot, Assigned;
    var r := Performed(d, Create(id, f));
    assert forall k: nat, other, v: nat :: Records(r, k, other, v) <==> Records(d, k, other, v);
    forall other, v: nat | other in r.snapshots && 2 <= v <= |r.snapshots[other]| ensures Recorded(r, other, v) {
      assert Recorded(d, other, v);
      var k: nat :| Records(d, k, other, v);
      assert Records(r, k, other, v);
    }
  }

  lemma CreateKeepsHistory(d: Desk, id: Id, f: Fields)
    requires HistoryHolds(d) && Accepted(d, Create(id, f))
    ensures HistoryHolds(Performed(d, Create(id, f)))
  {
    hide SnapshotsHold, SnapshotsAreWhole, RecordsHold, NothingMissing, Accepted, Performed;
    CreateKeepsSnapshots(d, id, f);
    CreateKeepsRecords(d, id, f);
  }

  predicate Edits(s: Step) {
    s.Update? || s.StaffUpdate? || s.Restore?
  }

  lemma OthersKeepFields(d: Desk, s: Step)
    requires Accepted(d, s) && !Edits(s) && !s.Create?
    ensures var r := Performed(d, s);
      && r.snapshots == d.snapshots
      && forall id :: id in r.briefs ==>
           id in d.briefs && r.briefs[id].fields == d.briefs[id].fields && r.briefs[id].version == d.briefs[id].version
  {
  }

  lemma OthersKeepSnapshots(d: Desk, s: Step)
    requires SnapshotsHold(d) && Accepted(d, s) && !Edits(s) && !s.Create?
    ensures SnapshotsHold(Performed(d, s)) && Performed(d, s).snapshots == d.snapshots
  {
    OthersKeepFields(d, s);
    hide Performed, Accepted, Snapshot, Loaded;
  }

  lemma OthersOnlyNote(d: Desk, s: Step)
    requires Accepted(d, s) && !Edits(s) && !s.Create?
    ensures d.revisions <= Performed(d, s).revisions
    ensures forall k :: |d.revisions| <= k < |Performed(d, s).revisions| ==> Performed(d, s).revisions[k].previous.None?
  {
  }

  lemma OthersKeepHistory(d: Desk, s: Step)
    requires HistoryHolds(d) && Accepted(d, s) && !Edits(s) && !s.Create?
    ensures HistoryHolds(Performed(d, s))
  {
    hide SnapshotsHold, RecordsHold, NothingMissing, SnapshotsAreWhole, Performed;
    OthersKeepSnapshots(d, s);
    OthersOnlyNote(d, s);
    NoteKeepsHistory(d, Performed(d, s));
  }

  lemma EditLoads(d: Desk, s: Step)
    requires SnapshotsHold(d) && Accepted(d, s) && Edits(s)
    ensures Loaded(Performed(d, s).briefs[s.id].fields)
  {
    assert Loaded(d.briefs[s.id].fields);
  }

  lemma EditsKeepHistory(d: Desk, s: Step)
    requires HistoryHolds(d) && Accepted(d, s) && Edits(s)
    ensures HistoryHolds(Performed(d, s))
  {
    EditLoads(d, s);
    EditKeepsHistory(d, s.id, Performed(d, s).briefs[s.id].fields);
    hide HistoryHolds, Loaded, Snapshot, Assigned, Restored, Bumped, MayMove;
  }

  lemma StepKeepsHistory(d: Desk, s: Step)
    requires HistoryHolds(d) && Accepted(d, s)
    ensures HistoryHolds(Performed(d, s))
  {
    hide HistoryHolds, Accepted, Performed;
    if s.Create? {
      CreateKeepsHistory(d, s.id, s.fields);
    } else if Edits(s) {
      EditsKeepHistory(d, s);
    } else {
      OthersKeepHistory(d, s);
    }
  }

  // ---------------------------------------------------------------- histories

  const EMPTY := Desk(map[], map[], [], map[])

  function After(steps: seq<Step>): Desk {
    if steps == [] then EMPTY else Next(After(steps[..|steps| - 1]), steps[|steps| - 1])
  }

  ghost predicate AllKeepVerticals(steps: seq<Step>) {
    forall i :: 0 <= i < |steps| ==> KeepsCountedVerticals(After(steps[..i]), steps[i])
  }

  ghost predicate NoCapLowered(steps: seq<Step>) {
    forall i :: 0 <= i < |steps| ==> LowersNoCap(After(steps[..i]), steps[i])
  }

  lemma Prefix(steps: seq<Step>)
    requires steps != []
    ensures var rest := steps[..|steps| - 1]; forall i :: 0 <= i < |rest| ==> rest[..i] == steps[..i] && rest[i] == steps[i]
  {
  }

  /** Over every history in which staff edits and restores keep counted briefs in their
      vertical, each vertical's count is the number of its counted briefs, so never negative. */
  lemma {:induction false} CountsAreConserved(steps: seq<Step>)
    requires AllKeepVerticals(steps)
    ensures Conserved(After(steps))
  {
    if steps != [] {
      Prefix(steps);
      CountsAreConserved(steps[..|steps| - 1]);
      var d := After(steps[..|steps| - 1]);
      if Accepted(d, steps[|steps| - 1]) {
        StepConserves(d, steps[|steps| - 1]);
      }
    }
  }

  /** Over every history that lowers no cap, no vertical exceeds its cap. */
  lemma {:induction false} CapsAreKept(steps: seq<Step>)
    requires NoCapLowered(steps)
    ensures WithinCaps(After(steps))
  {
    if steps != [] {
      Prefix(steps);
      CapsAreKept(steps[..|steps| - 1]);
      var d := After(steps[..|steps| - 1]);
      if Accepted(d, steps[|steps| - 1]) {
        StepKeepsCaps(d, steps[|steps| - 1]);
      }
    }
  }

  /** Over every history the revisions with fields are, for each brief, exactly one for every
      version from 2 to the present, each holding the snapshot of the version before. */
  lemma {:induction false} HistoryIsComplete(steps: seq<Step>)
    ensures HistoryHolds(After(steps))
  {
    hide HistoryHolds;
    if steps == [] {
      EmptyHistory();
    } else {
      HistoryIsComplete(steps[..|steps| - 1]);
      var d := After(steps[..|steps| - 1]);
      if Accepted(d, steps[|steps| - 1]) {
        StepKeepsHistory(d, steps[|steps| - 1]);
      }
    }
  }

  lemma EmptyHistory()
    ensures HistoryHolds(EMPTY)
  {
  }

  /** Verticals are never removed, so a brief's vertical exists. */
  ghost predicate VerticalsExist(d: Desk) {
    forall id :: id in d.briefs && d.briefs[id].fields.verticalId.Value? ==> d.briefs[id].fields.verticalId.value in d.verticals
  }

  lemma StepKeepsVerticals(d: Desk, s: Step)
    requires VerticalsExist(d) && Accepted(d, s)
    ensures VerticalsExist(Performed(d, s))
  {
  }

  lemma {:induction false} VerticalsAlwaysExist(steps: seq<Step>)
    ensures VerticalsExist(After(steps))
  {
    if steps != [] {
      VerticalsAlwaysExist(steps[..|steps| - 1]);
      var d := After(steps[..|steps| - 1]);
      if Accepted(d, steps[|steps| - 1]) {
        StepKeepsVerticals(d, steps[|steps| - 1]);
      }
    }
  }

  /** The vertical the brief would come back to by undoing restore `k` can take it. */
  predicate CanComeBack(d: Desk, id: Id, k: nat)
    requires id in d.briefs && k < |d.revisions| && d.revisions[k].previous.Some?
  {
    var from := d.briefs[id].fields.verticalId;
    || !from.Value? || from == d.revisions[k].previous.value.verticalId
    || d.briefs[id].status == Draft || HasRoom(d, from.value)
  }

  /** The restore gives back the snapshot of the version before the revision's. Restoring the
      revision this leaves behind is accepted if and only if the brief can come back to its
      vertical, and then undoes the restore. */
  ghost predicate UndoneIfRoom(d: Desk, id: Id, k: nat)
    requires Accepted(d, Restore(id, k))
  {
    var r := Performed(d, Restore(id, k));
    var undo := Restore(id, |r.revisions| - 1);
    && id in d.snapshots && 2 <= d.revisions[k].version <= |d.snapshots[id]|
    && Snapshot(r.briefs[id].fields) == d.snapshots[id][d.revisions[k].version - 2]
    && (Accepted(r, undo) <==> CanComeBack(d, id, k))
    && (Accepted(r, undo) ==> Snapshot(Performed(r, undo).briefs[id].fields) == Snapshot(d.briefs[id].fields))
  }

  lemma RestoreUndoes(d: Desk, id: Id, k: nat)
    requires HistoryHolds(d) && VerticalsExist(d) && Accepted(d, Restore(id, k))
    ensures UndoneIfRoom(d, id, k)
  {
    hide HistoryHolds, VerticalsExist, Snapshot, Restored, Loaded, CanComeBack, Accepted;
    var r := Performed(d, Restore(id, k));
    StepKeepsHistory(d, Restore(id, k));
    Restores(d, id, k);
    UndoIsAccepted(d, id, k);
    LastHolds(d, id, k);
    if Accepted(r, Restore(id, |r.revisions| - 1)) {
      Restores(r, id, |r.revisions| - 1);
    }
  }

  lemma LastHolds(d: Desk, id: Id, k: nat)
    requires Accepted(d, Restore(id, k))
    ensures var r := Performed(d, Restore(id, k)); var last := |r.revisions| - 1;
      0 <= last && r.revisions[last] == Revision(id, d.briefs[id].version + 1, Some(Snapshot(d.briefs[id].fields)))
  {
    hide Snapshot, Restored;
  }

  lemma UndoIsAccepted(d: Desk, id: Id, k: nat)
    requires HistoryHolds(d) && VerticalsExist(d) && Accepted(d, Restore(id, k))
    ensures var r := Performed(d, Restore(id, k)); 0 < |r.revisions| && (Accepted(r, Restore(id, |r.revisions| - 1)) <==> CanComeBack(d, id, k))
  {
    RestoredVertical(d, id, k);
    LastHolds(d, id, k);
    hide HistoryHolds, Restored, Loaded;
  }

  /** The restored revision records an edit, so the brief gets back the snapshot before it. */
  lemma Restores(d: Desk, id: Id, k: nat)
    requires HistoryHolds(d) && Accepted(d, Restore(id, k))
    ensures id in d.snapshots && 2 <= d.revisions[k].version <= |d.snapshots[id]|
    ensures d.revisions[k].previous.value == d.snapshots[id][d.revisions[k].version - 2]
    ensures Snapshot(Performed(d, Restore(id, k)).briefs[id].fields) == d.revisions[k].previous.value
  {
    assert Records(d, k, id, d.revisions[k].version);
  }

  lemma RestoredVertical(d: Desk, id: Id, k: nat)
    requires HistoryHolds(d) && Accepted(d, Restore(id, k))
    ensures Performed(d, Restore(id, k)).briefs[id].fields.verticalId == d.revisions[k].previous.value.verticalId
  {
    assert Records(d, k, id, d.revisions[k].version);
  }

  /** The same at the end of every history. */
  lemma HistoryRestoreUndoes(steps: seq<Step>, id: Id, k: nat)
    requires Accepted(After(steps), Restore(id, k))
    ensures UndoneIfRoom(After(steps), id, k)
  {
    HistoryIsComplete(steps);
    VerticalsAlwaysExist(steps);
    RestoreUndoes(After(steps), id, k);
    hide HistoryHolds, VerticalsExist, UndoneIfRoom, After;
  }

  function In(vertical: Id): Fields {
    NULLS.(verticalId := Value(vertical))
  }

  const MOVES := [AddVertical("1", 1), AddVertical("2", 1), Create("b", In("2")), Update("b", In("1")), Submit("b")]

  lemma {:induction false} AfterOneMore(steps: seq<Step>, s: Step)
    ensures After(steps + [s]) == Next(After(steps), s)
  {
    assert (steps + [s])[..|steps|] == steps;
  }

  lemma AfterThreeMoves()
    ensures After(MOVES[..3]) == EMPTY.(
      verticals := map["1" := Vertical(0, 1), "2" := Vertical(0, 1)],
      briefs := map["b" := Brief(Draft, In("2"), 1)], snapshots := map["b" := [Snapshot(In("2"))]])
  {
    hide After;
    AfterNothing();
    AfterOneMore([], MOVES[0]);
    AfterOneMore(MOVES[..1], MOVES[1]);
    AfterOneMore(MOVES[..2], MOVES[2]);
    assert [] + [MOVES[0]] == MOVES[..1] && MOVES[..1] + [MOVES[1]] == MOVES[..2] && MOVES[..2] + [MOVES[2]] == MOVES[..3];
  }

  lemma AfterMoves()
    ensures var d := After(MOVES);
      && d.verticals == map["1" := Vertical(1, 1), "2" := Vertical(0, 1)]
      && d.briefs == map["b" := Brief(Submitted, In("1"), 2)]
      && d.revisions == [Revision("b", 2, Some(Snapshot(In("2")))), Revision("b", 2, None)]
  {
    hide After;
    AfterThreeMoves();
    AfterOneMore(MOVES[..3], MOVES[3]);
    AfterOneMore(MOVES[..4], MOVES[4]);
    assert MOVES[..3] + [MOVES[3]] == MOVES[..4] && MOVES[..4] + [MOVES[4]] == MOVES;
  }

  lemma AfterNothing()
    ensures After([]) == EMPTY
  {
  }

  /** A restore that cannot be undone: it takes a submitted brief out of a vertical whose count
      the restore leaves full. */
  lemma RestoreCanBeFinal()
    ensures var d := After(MOVES); var undone := Restore("b", 0);
      && Accepted(d, undone)
      && var r := Performed(d, undone); !Accepted(r, Restore("b", |r.revisions| - 1))
  {
    AfterMoves();
  }

  // ---------------------------------------------------------------- the rows in place

  /** The three tables, and the snapshots the statements above speak of. */
  class BriefDesk {
    var briefs: map<Id, Brief>
    var verticals: map<Id, Vertical>
    var revisions: seq<Revision>
    ghost var snapshots: map<Id, seq<Fields>>

    ghost function Contents(): Desk
      reads this
    {
      Desk(briefs, verticals, revisions, snapshots)
    }

    constructor ()
      ensures Contents() == EMPTY
    {
      briefs, verticals, revisions, snapshots := map[], map[], [], map[];
    }

    method ChangeCount(vertical: Maybe<Id>, delta: int)
      modifies this`verticals
      ensures verticals == Bumped(old(verticals), vertical, delta)
    {
      if vertical.Value? && vertical.value in verticals {
        var v := verticals[vertical.value];
        verticals := verticals[vertical.value := v.(count := v.count + delta)];
      }
    }

    method Create(id: Id, dto: Fields) returns (ok: bool)
      requires id !in snapshots && id !in briefs
      modifies this
      ensures ok == Accepted(old(Contents()), Step.Create(id, dto)) && Contents() == Next(old(Contents()), Step.Create(id, dto))
    {
      ok := MayMoveTo(Null, dto.verticalId, true);
      if ok {
        var fields := Assigned(NULLS, dto);
        briefs := briefs[id := Brief(Draft, fields, 1)];
        snapshots := snapshots[id := [Snapshot(fields)]];
      }
    }

    method StartReview(id: Id) returns (ok: bool)
      modifies this
      ensures ok == Accepted(old(Contents()), Step.StartReview(id)) && Contents() == Next(old(Contents()), Step.StartReview(id))
    {
      ok := id in briefs && briefs[id].status == Submitted;
      if ok {
        briefs := briefs[id := briefs[id].(status := InReview)];
      }
    }

    method Delete(id: Id, soft: bool) returns (ok: bool)
      modifies this
      ensures ok == Accepted(old(Contents()), Step.Delete(id, soft)) && Contents() == Next(old(Contents()), Step.Delete(id, soft))
    {
      ok := id in briefs && briefs[id].status == Draft && (soft || forall k :: 0 <= k < |revisions| ==> revisions[k].brief != id);
      if ok {
        briefs := briefs - {id};
      }
    }

    method Submit(id: Id) returns (ok: bool)
      modifies this
      ensures ok == Accepted(old(Contents()), Step.Submit(id)) && Contents() == Next(old(Contents()), Step.Submit(id))
    {
      if id !in briefs || !Editable(briefs[id].status) {
        return false;
      }
      var brief := briefs[id];
      var v := brief.fields.verticalId;
      if v.Value? && v.value in verticals && verticals[v.value].cap <= verticals[v.value].count {
        return false;
      }
      briefs := briefs[id := brief.(status := Submitted)];
      ChangeCount(v, 1);
      revisions := revisions + [Revision(id, brief.version, None)];
      ok := true;
    }

    method Review(id: Id, decision: Decision, feedback: bool) returns (ok: bool)
      modifies this
      ensures ok == Accepted(old(Contents()), Step.Review(id, decision, feedback))
      ensures Contents() == Next(old(Contents()), Step.Review(id, decision, feedback))
      ensures ok <==>
        && id in old(briefs) && (old(briefs)[id].status == Submitted || old(briefs)[id].status == InReview)
        && (decision == Approve || feedback)
      ensures ok && decision == Approve ==> briefs == old(briefs)[id := old(briefs)[id].(status := Approved)]
      ensures ok && decision == Reject ==> briefs == old(briefs)[id := old(briefs)[id].(status := Rejected)]
      ensures ok && decision == RequestRevision ==> briefs == old(briefs)[id := old(briefs)[id].(status := RevisionRequested)]
    {
      if id !in briefs || (briefs[id].status != Submitted && briefs[id].status != InReview) {
        return false;
      }
      if decision != Approve && !feedback {
        return false;
      }
      var brief := briefs[id];
      var status := Approved;
      match decision {
        case Approve =>
        case Reject =>
          status := Rejected;
          ChangeCount(brief.fields.verticalId, -1);
        case RequestRevision =>
          status := RevisionRequested;
          ChangeCount(brief.fields.verticalId, -1);
      }
      briefs := briefs[id := brief.(status := status)];
      revisions := revisions + [Revision(id, brief.version, None)];
      ok := true;
    }

    /** Save the next version, then record what the fields were. */
    method SaveEdit(id: Id, fields: Fields)
      requires id in briefs
      modifies this
      ensures Contents() == Edited(old(Contents()), id, fields)
    {
      var brief := briefs[id];
      var previous := Snapshot(brief.fields);
      briefs := briefs[id := brief.(fields := fields, version := brief.version + 1)];
      revisions := revisions + [Revision(id, brief.version + 1, Some(previous))];
      if id in snapshots {
        snapshots := snapshots[id := snapshots[id] + [Snapshot(fields)]];
      }
    }

    method MayMoveTo(from: Maybe<Id>, to: Maybe<Id>, checked: bool) returns (ok: bool)
      ensures ok == MayMove(Contents(), from, to, checked)
    {
      if !to.Value? || to == from {
        return true;
      }
      if to.value !in verticals {
        return false;
      }
      ok := !checked || verticals[to.value].count < verticals[to.value].cap;
    }

    method Update(id: Id, dto: Fields) returns (ok: bool)
      modifies this
      ensures ok == Accepted(old(Contents()), Step.Update(id, dto)) && Contents() == Next(old(Contents()), Step.Update(id, dto))
    {
      if id !in briefs || !Editable(briefs[id].status) {
        return false;
      }
      ok := MayMoveTo(briefs[id].fields.verticalId, dto.verticalId, true);
      if ok {
        SaveEdit(id, Assigned(briefs[id].fields, dto));
      }
    }

    method StaffUpdate(id: Id, dto: Fields) returns (ok: bool)
      modifies this
      ensures ok == Accepted(old(Contents()), Step.StaffUpdate(id, dto)) && Contents() == Next(old(Contents()), Step.StaffUpdate(id, dto))
    {
      if id !in briefs {
        return false;
      }
      ok := MayMoveTo(briefs[id].fields.verticalId, dto.verticalId, briefs[id].status != Draft);
      if ok {
        SaveEdit(id, Assigned(briefs[id].fields, dto));
      }
    }

    method RestoreRevision(id: Id, k: nat) returns (ok: bool)
      modifies this
      ensures ok == Accepted(old(Contents()), Step.Restore(id, k)) && Contents() == Next(old(Contents()), Step.Restore(id, k))
    {
      if id !in briefs || |revisions| <= k || revisions[k].brief != id || revisions[k].previous.None? {
        return false;
      }
      var previous := revisions[k].previous.value;
      ok := MayMoveTo(briefs[id].fields.verticalId, previous.verticalId, briefs[id].status != Draft);
      if ok {
        SaveEdit(id, Restored(briefs[id].fields, previous));
      }
    }
  }
}
