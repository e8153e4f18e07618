/** What each operation on a brief means in terms of its columns, and what that makes of a decision:
    approval and rejection are final, and a request for revision gives the brief back to its authors. */
module BriefVerdicts {
  import opened BriefLifecycle
  import opened Prelude

  // ---------------------------------------------------------------- one step

  /** Which statuses an accepted operation takes a brief from and to. */
  predicate Moves(from: Status, s: Step, to: Status) {
    match s
    case Submit(_) => (from == Draft || from == RevisionRequested) && to == Submitted
    case StartReview(_) => from == Submitted && to == InReview
    case Review(_, decision, _) =>
      && (from == Submitted || from == InReview)
      && (decision == Approve ==> to == Approved)
      && (decision == Reject ==> to == Rejected)
      && (decision == RequestRevision ==> to == RevisionRequested)
    case Update(_, _) => (from == Draft || from == RevisionRequested) && to == from
    case _ => to == from
  }

  predicate Concerns(s: Step, id: Id) {
    !s.AddVertical? && !s.SetCap? && s.id == id
  }

  lemma OneStepMoves(d: Desk, s: Step, id: Id)
    requires id in d.briefs && id in d.snapshots
    ensures var r := Next(d, s);
      && id in r.snapshots
      && (Accepted(d, s) && Concerns(s, id) ==> !s.Create?)
      && (id !in r.briefs ==> Accepted(d, s) && s.Delete? && s.id == id && d.briefs[id].status == Draft)
      && (id in r.briefs && Accepted(d, s) && Concerns(s, id) ==> Moves(d.briefs[id].status, s, r.briefs[id].status))
      && (id in r.briefs && !(Accepted(d, s) && Concerns(s, id)) ==> r.briefs[id] == d.briefs[id])
  {
  }

  /** `Review` is accepted exactly for a brief that waits for a decision, with feedback unless it approves.
      The brief takes the status of the decision; but for approvals it leaves its place in the vertical;
      nothing else about any brief changes, and one note is added. */
  lemma ReviewVerdict(d: Desk, id: Id, decision: Decision, feedback: bool)
    ensures Accepted(d, Review(id, decision, feedback)) <==>
      && id in d.briefs && d.briefs[id].status in {Submitted, InReview}
      && (feedback || decision == Approve)
    ensures Accepted(d, Review(id, decision, feedback)) ==>
      var r := Performed(d, Review(id, decision, feedback));
      var to := if decision == Approve then Approved else if decision == Reject then Rejected else RevisionRequested;
      && r.briefs == d.briefs[id := Brief(to, d.briefs[id].fields, d.briefs[id].version)]
      && r.verticals.Keys == d.verticals.Keys
      && (forall v :: v in d.verticals ==>
            var left := if decision != Approve && d.briefs[id].fields.verticalId == Value(v) then 1 else 0;
            r.verticals[v] == Vertical(d.verticals[v].count - left, d.verticals[v].cap))
      && r.revisions == d.revisions + [Revision(id, d.briefs[id].version, None)]
  {
  }

  /** `Submit` is accepted exactly for a draft or a brief sent back for revision, when its vertical has room
      or is unknown. The brief takes a place there and waits for a decision. */
  lemma SubmitVerdict(d: Desk, id: Id)
    ensures Accepted(d, Submit(id)) <==>
      && id in d.briefs && d.briefs[id].status in {Draft, RevisionRequested}
      && forall v :: d.briefs[id].fields.verticalId == Value(v) && v in d.verticals ==> d.verticals[v].count < d.verticals[v].cap
    ensures Accepted(d, Submit(id)) ==>
      var r := Performed(d, Submit(id));
      && r.briefs == d.briefs[id := Brief(Submitted, d.briefs[id].fields, d.briefs[id].version)]
      && r.verticals.Keys == d.verticals.Keys
      && (forall v :: v in d.verticals ==>
            var taken := if d.briefs[id].fields.verticalId == Value(v) then 1 else 0;
            r.verticals[v] == Vertical(d.verticals[v].count + taken, d.verticals[v].cap))
      && r.revisions == d.revisions + [Revision(id, d.briefs[id].version, None)]
  {
  }

  /** A field absent from a request keeps its value; any other, null included, replaces it. */
  predicate Changed<T(==)>(before: Maybe<T>, change: Maybe<T>, now: Maybe<T>) {
    now == if change == Undefined then before else change
  }

  predicate AllChanged(before: Fields, f: Fields, now: Fields) {
    && Changed(before.title, f.title, now.title)
    && Changed(before.description, f.description, now.description)
    && Changed(before.problemStatement, f.problemStatement, now.problemStatement)
    && Changed(before.expectedOutcomes, f.expectedOutcomes, now.expectedOutcomes)
    && Changed(before.verticalId, f.verticalId, now.verticalId)
    && Changed(before.tags, f.tags, now.tags)
    && Changed(before.resources, f.resources, now.resources)
    && Changed(before.maxTeams, f.maxTeams, now.maxTeams)
    && Changed(before.secondaryContact, f.secondaryContact, now.secondaryContact)
  }

  /** A value that was requested is a vertical that exists and, when `room` is asked for, is not full. */
  predicate CanTake(d: Desk, wanted: Maybe<Id>, room: bool) {
    wanted.Value? ==>
      wanted.value in d.verticals && (room ==> d.verticals[wanted.value].count < d.verticals[wanted.value].cap)
  }

  /** One brief got new fields and the next version, and one revision keeps what it was. */
  predicate OneEdit(d: Desk, r: Desk, id: Id, now: Fields)
    requires id in d.briefs
  {
    var b := d.briefs[id];
    && r.briefs == d.briefs[id := Brief(b.status, now, b.version + 1)]
    && r.verticals == d.verticals
    && r.revisions == d.revisions + [Revision(id, b.version + 1, Some(b.fields.(
         tags := if b.fields.tags.Value? then b.fields.tags else Value([]),
         secondaryContact := if b.fields.secondaryContact.Value? then b.fields.secondaryContact else Value(map[]))))]
  }

  /** The edit of an author: only of a draft or of a brief sent back, and into another vertical only if
      it exists and has room. Exactly the fields named change. */
  lemma UpdateVerdict(d: Desk, id: Id, f: Fields)
    ensures Accepted(d, Update(id, f)) <==>
      && id in d.briefs && d.briefs[id].status in {Draft, RevisionRequested}
      && (f.verticalId != d.briefs[id].fields.verticalId ==> CanTake(d, f.verticalId, true))
    ensures Accepted(d, Update(id, f)) ==>
      var r := Performed(d, Update(id, f));
      && id in r.briefs && OneEdit(d, r, id, r.briefs[id].fields)
      && AllChanged(d.briefs[id].fields, f, r.briefs[id].fields)
  {
  }

  /** The edit of staff: in every status; room is asked for unless the brief is a draft. */
  lemma StaffVerdict(d: Desk, id: Id, f: Fields)
    ensures Accepted(d, StaffUpdate(id, f)) <==>
      && id in d.briefs
      && (f.verticalId != d.briefs[id].fields.verticalId ==> CanTake(d, f.verticalId, d.briefs[id].status != Draft))
    ensures Accepted(d, StaffUpdate(id, f)) ==>
      var r := Performed(d, StaffUpdate(id, f));
      && id in r.briefs && OneEdit(d, r, id, r.briefs[id].fields)
      && AllChanged(d.briefs[id].fields, f, r.briefs[id].fields)
  {
  }

  /** A restore: only of a revision of this brief that kept fields, under the conditions of a staff edit. */
  lemma RestoreVerdict(d: Desk, id: Id, k: nat)
    ensures Accepted(d, Restore(id, k)) <==>
      && id in d.briefs && k < |d.revisions| && d.revisions[k].brief == id && d.revisions[k].previous.Some?
      && var wanted := d.revisions[k].previous.value.verticalId;
         (wanted != d.briefs[id].fields.verticalId ==> CanTake(d, wanted, d.briefs[id].status != Draft))
    ensures Accepted(d, Restore(id, k)) && Loaded(d.revisions[k].previous.value) ==>
      var r := Performed(d, Restore(id, k)); var kept := d.revisions[k].previous.value;
      OneEdit(d, r, id, kept.(tags := if kept.tags.Value? then kept.tags else Value([])))
  {
  }

  /** A new brief: a draft at version 1 with the fields given and null for the others, in a vertical that
      exists and has room. It takes no place there yet. */
  lemma CreateVerdict(d: Desk, id: Id, f: Fields)
    requires id !in d.snapshots && id !in d.briefs
    ensures Accepted(d, Create(id, f)) <==> CanTake(d, f.verticalId, true)
    ensures Accepted(d, Create(id, f)) ==>
      var r := Performed(d, Create(id, f));
      && id in r.briefs && r.briefs == d.briefs[id := Brief(Draft, r.briefs[id].fields, 1)]
      && AllChanged(Fields(Null, Null, Null, Null, Null, Null, Null, Null, Null), f, r.briefs[id].fields)
      && r.verticals == d.verticals && r.revisions == d.revisions
  {
  }

  /** A review begins exactly with a submitted brief, and only drafts are deleted: those without
      revisions, or with events, whose row stays. */
  lemma OtherVerdicts(d: Desk, id: Id, soft: bool)
    ensures Accepted(d, StartReview(id)) <==> id in d.briefs && d.briefs[id].status == Submitted
    ensures Accepted(d, StartReview(id)) ==>
      Performed(d, StartReview(id)) == d.(briefs := d.briefs[id := Brief(InReview, d.briefs[id].fields, d.briefs[id].version)])
    ensures Accepted(d, Delete(id, soft)) <==>
      && id in d.briefs && d.briefs[id].status == Draft
      && (soft || forall k :: 0 <= k < |d.revisions| ==> d.revisions[k].brief != id)
    ensures Accepted(d, Delete(id, soft)) ==> Performed(d, Delete(id, soft)) == d.(briefs := d.briefs - {id})
  {
  }

  // ---------------------------------------------------------------- decisions over histories

  predicate AnswersWork(s: Step) {
    s.Update? || s.Submit? || s.StartReview? || s.Review? || s.Delete?
  }

  lemma KnownBrief(steps: seq<Step>, id: Id)
    requires id in After(steps).briefs
    ensures id in After(steps).snapshots
  {
    HistoryIsComplete(steps);
    hide After;
  }

  /** Approval and rejection are final. From the moment a brief is approved or rejected, over any later
      history, it stays there and keeps its status, and every update, submission, review and deletion of
      it is refused. */
  lemma {:induction false} DecidedForGood(steps: seq<Step>, i: nat, id: Id)
    requires i <= |steps| && id in After(steps[..i]).briefs && After(steps[..i]).briefs[id].status in {Approved, Rejected}
    ensures id in After(steps).briefs && After(steps).briefs[id].status == After(steps[..i]).briefs[id].status
    ensures forall k :: i <= k < |steps| && AnswersWork(steps[k]) && steps[k].id == id ==> !Accepted(After(steps[..k]), steps[k])
    decreases |steps|
  {
    hide Performed, Accepted, After;
    if i == |steps| {
      assert steps[..i] == steps;
    } else {
      var n := |steps| - 1;
      var rest := steps[..n];
      assert rest[..i] == steps[..i];
      assert forall k :: 0 <= k <= n ==> rest[..k] == steps[..k];
      DecidedForGood(rest, i, id);
      KnownBrief(rest, id);
      AfterOneMore(rest, steps[n]);
      assert rest + [steps[n]] == steps;
      OneStepMoves(After(rest), steps[n], id);
      if AnswersWork(steps[n]) && steps[n].id == id {
        DecidedStep(After(rest), steps[n], id);
      }
      forall k | i <= k < |steps| && AnswersWork(steps[k]) && steps[k].id == id ensures !Accepted(After(steps[..k]), steps[k]) {
        if k < n {
          assert steps[k] == rest[k] && steps[..k] == rest[..k];
        }
      }
    }
  }

  lemma DecidedStep(d: Desk, s: Step, id: Id)
    requires id in d.briefs && d.briefs[id].status in {Approved, Rejected} && AnswersWork(s) && s.id == id
    ensures !Accepted(d, s)
  {
  }

  /** So an accepted rejection ends the brief's way for ever, and an accepted approval stands. */
  lemma DecisionStands(steps: seq<Step>, i: nat, id: Id, decision: Decision, feedback: bool)
    requires i < |steps| && steps[i] == Review(id, decision, feedback) && Accepted(After(steps[..i]), steps[i])
    requires decision != RequestRevision
    ensures id in After(steps).briefs && After(steps).briefs[id].status == if decision == Approve then Approved else Rejected
    ensures forall k :: i < k < |steps| && AnswersWork(steps[k]) && steps[k].id == id ==> !Accepted(After(steps[..k]), steps[k])
    ensures forall s :: AnswersWork(s) && s.id == id ==> !Accepted(After(steps), s)
  {
    hide Performed, Accepted, After;
    var before := After(steps[..i]);
    AfterOneMore(steps[..i], steps[i]);
    assert steps[..i] + [steps[i]] == steps[..i + 1];
    ReviewVerdict(before, id, decision, feedback);
    DecidedForGood(steps, i + 1, id);
    forall s | AnswersWork(s) && s.id == id ensures !Accepted(After(steps), s) {
      DecidedStep(After(steps), s, id);
    }
  }

  predicate KeepsVertical(d: Desk, id: Id, f: Fields) {
    id in d.briefs && (f.verticalId.Value? ==> f.verticalId == d.briefs[id].fields.verticalId)
  }

  /** A request for revision gives the brief back. After any history an accepted request leaves a brief
      whose authors may change every field but the vertical; and when no cap was lowered they may submit
      it again at once, since the request freed the place it needs. */
  lemma RevisionGivesBack(steps: seq<Step>, id: Id)
    requires Accepted(After(steps), Review(id, RequestRevision, true))
    ensures var r := Performed(After(steps), Review(id, RequestRevision, true));
      && (forall f :: KeepsVertical(r, id, f) ==> Accepted(r, Update(id, f)))
      && (NoCapLowered(steps) ==> Accepted(r, Submit(id)))
      && (Accepted(r, Submit(id)) <==>
            forall v :: r.briefs[id].fields.verticalId == Value(v) && v in r.verticals ==> r.verticals[v].count < r.verticals[v].cap)
  {
    var d := After(steps);
    var r := Performed(d, Review(id, RequestRevision, true));
    ReviewVerdict(d, id, RequestRevision, true);
    SubmitVerdict(r, id);
    if NoCapLowered(steps) {
      CapsAreKept(steps);
    }
    hide After;
  }

  /** It stays with its authors until a submission of it is accepted: over any history without one it is
      not deleted, nobody decides on it, and every update that keeps its vertical is accepted. */
  lemma {:induction false} StaysWithAuthors(steps: seq<Step>, i: nat, id: Id)
    requires i <= |steps| && id in After(steps[..i]).briefs && After(steps[..i]).briefs[id].status == RevisionRequested
    requires forall k :: i <= k < |steps| && steps[k] == Submit(id) ==> !Accepted(After(steps[..k]), steps[k])
    ensures id in After(steps).briefs && After(steps).briefs[id].status == RevisionRequested
    ensures forall f :: KeepsVertical(After(steps), id, f) ==> Accepted(After(steps), Update(id, f))
    decreases |steps|
  {
    hide Performed, Accepted, After;
    if i == |steps| {
      assert steps[..i] == steps;
    } else {
      var n := |steps| - 1;
      var rest := steps[..n];
      assert rest[..i] == steps[..i];
      forall k | i <= k < |rest| && rest[k] == Submit(id) ensures !Accepted(After(rest[..k]), rest[k]) {
        assert rest[..k] == steps[..k] && rest[k] == steps[k];
      }
      StaysWithAuthors(rest, i, id);
      KnownBrief(rest, id);
      AfterOneMore(rest, steps[n]);
      assert rest + [steps[n]] == steps;
      OneStepMoves(After(rest), steps[n], id);
    }
    forall f | KeepsVertical(After(steps), id, f) ensures Accepted(After(steps), Update(id, f)) {
      UpdateVerdict(After(steps), id, f);
    }
  }

  // ---------------------------------------------------------------- places in a vertical

  /** The briefs that take a place in a vertical: those waiting for a decision or approved. */
  function Placed(briefs: map<Id, Brief>, v: Id): set<Id> {
    set id | id in briefs && briefs[id].status in {Submitted, InReview, Approved} && briefs[id].fields.verticalId == Value(v)
  }

  /** Over every history in which staff edits and restores keep counted briefs in their vertical: each
      vertical's count is the number of briefs of it that are submitted, in review or approved; and when no
      cap was lowered either, there are never more of them than the cap. */
  lemma PlacesAreCounted(steps: seq<Step>, v: Id)
    requires AllKeepVerticals(steps) && v in After(steps).verticals
    ensures After(steps).verticals[v].count == |Placed(After(steps).briefs, v)|
    ensures NoCapLowered(steps) ==> |Placed(After(steps).briefs, v)| <= After(steps).verticals[v].cap
  {
    CountsAreConserved(steps);
    assert CountedIn(After(steps).briefs, v) == Placed(After(steps).briefs, v);
    if NoCapLowered(steps) {
      CapsAreKept(steps);
    }
    hide After;
  }
}
