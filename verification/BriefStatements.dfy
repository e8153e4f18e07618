/** The brief operations statement by statement. Each operation reads and checks at one moment and
    then writes the brief, the vertical's count and the revision in separate statements, outside any
    transaction. Nothing locks a brief: operations interleave freely, on one brief too, and each can
    be cut off after any statement. */
module BriefStatements {
  import opened Prelude
  import opened BriefLifecycle

  datatype Statement =
    | Save(id: Id, brief: Brief)
    | Remove(id: Id)
    | Bump(vertical: Id, delta: int)
    | Append(revision: Revision)

  /** The row that a save overwrote or a removal removed. No operation looks at it. */
  datatype Found = NotYet | Missing | There(brief: Brief)

  /** An operation under way: what it read, what it is to save, what its save found, and how many
      statements it has done. A process that was cut off stays, no longer live. */
  datatype Proc = Proc(step: Step, was: Brief, target: Brief, found: Found, done: nat, live: bool)

  datatype System = System(desk: Desk, procs: map<nat, Proc>)

  datatype Label =
    | Start(p: nat, step: Step)
    | Advance(p: nat)
    | Die(p: nat)
    | Direct(step: Step)

  predicate OnBrief(s: Step) {
    !s.AddVertical? && !s.SetCap?
  }

  function Bumps(v: Maybe<Id>, delta: int): seq<Statement> {
    if v.Value? then [Bump(v.value, delta)] else []
  }

  /** The statements of an operation, in the order of the source. */
  function Plan(s: Step, was: Brief, target: Brief): seq<Statement>
    requires OnBrief(s)
  {
    match s
    case Create(id, _) => [Save(id, target)]
    case Update(id, _) => Edit(id, was, target)
    case StaffUpdate(id, _) => Edit(id, was, target)
    case Restore(id, _) => Edit(id, was, target)
    case Submit(id) => [Save(id, target)] + Bumps(was.fields.verticalId, 1) + [Append(Revision(id, was.version, None))]
    case StartReview(id) => [Save(id, target)]
    case Review(id, decision, _) =>
      (if decision == Approve then [] else Bumps(was.fields.verticalId, -1))
      + [Save(id, target)] + [Append(Revision(id, was.version, None))]
    case Delete(id, _) => [Remove(id)]
  }

  function Edit(id: Id, was: Brief, target: Brief): seq<Statement> {
    [Save(id, target), Append(Revision(id, target.version, Some(Snapshot(was.fields))))]
  }

  /** A save writes the whole row, also where the row has gone. A save that makes a new version also
      makes its snapshot. */
  function Apply(d: Desk, st: Statement): Desk {
    match st
    case Save(id, b) =>
      d.(briefs := d.briefs[id := b],
         snapshots :=
           if id !in d.snapshots then d.snapshots[id := [Snapshot(b.fields)]]
           else if |d.snapshots[id]| < b.version then d.snapshots[id := d.snapshots[id] + [Snapshot(b.fields)]]
           else d.snapshots)
    case Remove(id) => d.(briefs := d.briefs - {id})
    case Bump(v, delta) => d.(verticals := Bumped(d.verticals, Value(v), delta))
    case Append(r) => d.(revisions := d.revisions + [r])
  }

  function ApplyAll(d: Desk, plan: seq<Statement>): Desk
    decreases plan
  {
    if plan == [] then d else ApplyAll(Apply(d, plan[0]), plan[1..])
  }

  /** What the operation reads. */
  function Started(d: Desk, s: Step): Proc
    requires OnBrief(s) && Accepted(d, s)
  {
    if s.Delete? then Proc(s, d.briefs[s.id], d.briefs[s.id], NotYet, 0, true)
    else
      var target := Performed(d, s).briefs[s.id];
      Proc(s, if s.Create? then target else d.briefs[s.id], target, NotYet, 0, true)
  }

  lemma ApplyTwo(d: Desk, a: Statement, b: Statement)
    ensures ApplyAll(d, [a, b]) == Apply(Apply(d, a), b)
  {
    assert [a, b][1..] == [b] && [b][1..] == [];
    assert ApplyAll(Apply(d, a), [b]) == ApplyAll(Apply(Apply(d, a), b), []);
  }

  lemma ApplyThree(d: Desk, a: Statement, b: Statement, c: Statement)
    ensures ApplyAll(d, [a, b, c]) == Apply(Apply(Apply(d, a), b), c)
  {
    assert [a, b, c][1..] == [b, c];
    ApplyTwo(Apply(d, a), b, c);
  }

  lemma EditPerforms(d: Desk, s: Step)
    requires SnapshotsHold(d) && Edits(s) && Accepted(d, s)
    ensures var p := Started(d, s); ApplyAll(d, Edit(s.id, p.was, p.target)) == Performed(d, s)
  {
    var p := Started(d, s);
    ApplyTwo(d, Save(s.id, p.target), Append(Revision(s.id, p.target.version, Some(Snapshot(p.was.fields)))));
    hide ApplyAll, Snapshot, Assigned, Restored, Loaded;
  }

  lemma SubmitPerforms(d: Desk, id: Id)
    requires SnapshotsHold(d) && Accepted(d, Submit(id))
    ensures var p := Started(d, Submit(id)); ApplyAll(d, Plan(Submit(id), p.was, p.target)) == Performed(d, Submit(id))
  {
    var p := Started(d, Submit(id));
    var save, note := Save(id, p.target), Append(Revision(id, p.was.version, None));
    ApplyTwo(d, save, note);
    if p.was.fields.verticalId.Value? {
      var bump := Bump(p.was.fields.verticalId.value, 1);
      assert Plan(Submit(id), p.was, p.target) == [save, bump, note];
      ApplyThree(d, save, bump, note);
    } else {
      assert Plan(Submit(id), p.was, p.target) == [save, note];
    }
    hide ApplyAll, Snapshot, Loaded;
  }

  lemma ReviewPerforms(d: Desk, s: Step)
    requires SnapshotsHold(d) && s.Review? && Accepted(d, s)
    ensures var p := Started(d, s); ApplyAll(d, Plan(s, p.was, p.target)) == Performed(d, s)
  {
    var p := Started(d, s);
    var save, note := Save(s.id, p.target), Append(Revision(s.id, p.was.version, None));
    ApplyTwo(d, save, note);
    if s.decision != Approve && p.was.fields.verticalId.Value? {
      var bump := Bump(p.was.fields.verticalId.value, -1);
      assert Plan(s, p.was, p.target) == [bump, save, note];
      ApplyThree(d, bump, save, note);
    } else {
      assert Plan(s, p.was, p.target) == [save, note];
    }
    hide ApplyAll, Snapshot, Loaded;
  }

  lemma ApplyOne(d: Desk, a: Statement)
    ensures ApplyAll(d, [a]) == Apply(d, a)
  {
    assert [a][1..] == [];
  }

  /** An operation that runs to its end alone does what `BriefLifecycle` says. */
  lemma WholePlanPerforms(d: Desk, s: Step)
    requires SnapshotsHold(d) && OnBrief(s) && Accepted(d, s)
    ensures var p := Started(d, s); ApplyAll(d, Plan(s, p.was, p.target)) == Performed(d, s)
  {
    if Edits(s) {
      EditPerforms(d, s);
    } else if s.Submit? {
      SubmitPerforms(d, s.id);
    } else if s.Review? {
      ReviewPerforms(d, s);
    } else {
      ApplyOne(d, if s.Delete? then Remove(s.id) else Save(s.id, Started(d, s).target));
    }
    hide ApplyAll, Edit, Snapshot, Loaded, Assigned, Restored, Bumped, Noted, HasRevisions, MayMove;
  }

  // ---------------------------------------------------------------- steps

  predicate Unfinished(proc: Proc) {
    proc.live && OnBrief(proc.step) && proc.done < |Plan(proc.step, proc.was, proc.target)|
  }

  predicate Works(proc: Proc, id: Id) {
    OnBrief(proc.step) && proc.step.id == id
  }

  /** A new brief's identifier is one that no operation has had. */
  ghost predicate Fresh(s: System, id: Id) {
    forall q :: q in s.procs ==> !Works(s.procs[q], id)
  }

  ghost predicate Enabled(s: System, l: Label) {
    match l
    case Start(p, step) => p !in s.procs && OnBrief(step) && Accepted(s.desk, step) && (step.Create? ==> Fresh(s, step.id))
    case Advance(p) => p in s.procs && Unfinished(s.procs[p])
    case Die(p) => p in s.procs && s.procs[p].live
    case Direct(step) => !OnBrief(step) && Accepted(s.desk, step)
  }

  function NextOf(proc: Proc): Statement
    requires Unfinished(proc)
  {
    Plan(proc.step, proc.was, proc.target)[proc.done]
  }

  function FoundIn(d: Desk, id: Id): Found {
    if id in d.briefs then There(d.briefs[id]) else Missing
  }

  /** The process after its next statement. */
  function Ran(d: Desk, proc: Proc): Proc
    requires Unfinished(proc)
  {
    var st := NextOf(proc);
    proc.(done := proc.done + 1, found := if st.Save? || st.Remove? then FoundIn(d, st.id) else proc.found)
  }

  ghost function Moved(s: System, l: Label): System
    requires Enabled(s, l)
  {
    match l
    case Start(p, step) => s.(procs := s.procs[p := Started(s.desk, step)])
    case Advance(p) => System(Apply(s.desk, NextOf(s.procs[p])), s.procs[p := Ran(s.desk, s.procs[p])])
    case Die(p) => s.(procs := s.procs[p := s.procs[p].(live := false)])
    case Direct(step) => s.(desk := Performed(s.desk, step))
  }

  lemma Advancing(s: System, p: nat)
    requires Enabled(s, Advance(p))
    ensures p in s.procs && Unfinished(s.procs[p])
    ensures Moved(s, Advance(p)) == System(Apply(s.desk, NextOf(s.procs[p])), s.procs[p := Ran(s.desk, s.procs[p])])
  {
  }

  // ---------------------------------------------------------------- what every state keeps

  /** A refusal that has a vertical takes its place away before it saves the brief. */
  predicate Refuses(proc: Proc) {
    proc.step.Review? && proc.step.decision != Approve && proc.was.fields.verticalId.Value?
  }

  predicate Saved(proc: Proc) {
    (if Refuses(proc) then 1 else 0) < proc.done
  }

  /** How what is saved differs from what was read. */
  ghost predicate Shaped(proc: Proc) {
    && OnBrief(proc.step) && proc.done <= |Plan(proc.step, proc.was, proc.target)|
    && (proc.found.NotYet? <==> !Saved(proc))
    && match proc.step
       case Create(_, _) => proc.was == proc.target && proc.target.status == Draft && proc.target.version == 1
       case Submit(_) => Editable(proc.was.status) && proc.target == proc.was.(status := Submitted)
       case StartReview(_) => proc.was.status == Submitted && proc.target == proc.was.(status := InReview)
       case Review(_, decision, _) =>
         && (proc.was.status == Submitted || proc.was.status == InReview)
         && proc.target == proc.was.(status := proc.target.status)
         && (Counted(proc.target.status) <==> decision == Approve)
       case Delete(_, _) => proc.was.status == Draft && proc.target == proc.was
       case _ => proc.target.status == proc.was.status && proc.target.version == proc.was.version + 1
  }

  ghost predicate VerticalKnown(d: Desk, b: Brief) {
    b.fields.verticalId.Value? ==> b.fields.verticalId.value in d.verticals
  }

  /** The version that was read has its snapshot; a brief not yet created has none. */
  ghost predicate Versioned(d: Desk, proc: Proc)
    requires OnBrief(proc.step)
  {
    var id := proc.step.id;
    if proc.step.Create? && !Saved(proc) then id !in d.briefs && id !in d.snapshots
    else id in d.snapshots && 1 <= proc.was.version <= |d.snapshots[id]|
  }

  ghost predicate ProcHolds(d: Desk, proc: Proc) {
    && Shaped(proc) && Versioned(d, proc)
    && VerticalKnown(d, proc.was) && VerticalKnown(d, proc.target)
    && (proc.found.There? ==> VerticalKnown(d, proc.found.brief))
  }

  ghost predicate BriefHolds(d: Desk, id: Id)
    requires id in d.briefs
  {
    VerticalKnown(d, d.briefs[id]) && id in d.snapshots && 1 <= d.briefs[id].version <= |d.snapshots[id]|
  }

  ghost predicate DeskHolds(d: Desk) {
    forall id :: id in d.briefs ==> BriefHolds(d, id)
  }

  predicate Creates(proc: Proc, id: Id) {
    proc.step.Create? && proc.step.id == id
  }

  ghost predicate CreatedOnce(s: System) {
    forall p, q, id :: p in s.procs && q in s.procs && Creates(s.procs[p], id) && Creates(s.procs[q], id) ==> p == q
  }

  ghost predicate Invariant(s: System) {
    && (forall p :: p in s.procs ==> ProcHolds(s.desk, s.procs[p]))
    && CreatedOnce(s) && DeskHolds(s.desk)
  }

  lemma StartedHolds(d: Desk, step: Step)
    requires DeskHolds(d) && OnBrief(step) && Accepted(d, step)
    ensures ProcHolds(d, Started(d, step))
  {
    var proc := Started(d, step);
    assert proc.done == 0 && !Saved(proc);
    if step.Create? {
      assert step.id !in d.briefs;
    } else {
      assert BriefHolds(d, step.id) && proc.was == d.briefs[step.id];
    }
    hide DeskHolds, Bumped, Noted;
  }

  /** Which row the next statement of a process writes, and with what. */
  lemma NextIsOwn(proc: Proc)
    requires Shaped(proc) && Unfinished(proc)
    ensures var st := NextOf(proc); var next := proc.(done := proc.done + 1);
      && (st.Save? ==> st.id == proc.step.id && st.brief == proc.target && !Saved(proc) && !proc.step.Delete? && Saved(next))
      && (st.Remove? ==> st.id == proc.step.id && proc.step.Delete? && !Saved(proc) && Saved(next))
      && (!st.Save? && !st.Remove? ==> Saved(proc) == Saved(next))
      && (proc.step.Create? ==> st.Save?)
  {
  }

  lemma RanIsShaped(d: Desk, proc: Proc)
    requires Shaped(proc) && Unfinished(proc)
    ensures Shaped(Ran(d, proc)) && (Ran(d, proc).found != proc.found ==> Ran(d, proc).found == FoundIn(d, proc.step.id))
  {
    NextIsOwn(proc);
    hide Plan;
  }

  /** Verticals stay, snapshots are only added, and other briefs are left alone. */
  lemma Grows(d: Desk, st: Statement)
    ensures var r := Apply(d, st);
      && d.verticals.Keys == r.verticals.Keys
      && (forall id :: id in d.snapshots ==> id in r.snapshots && d.snapshots[id] <= r.snapshots[id])
      && (forall id :: !(st.Save? && st.id == id) ==> (id in r.snapshots ==> id in d.snapshots) && (id in r.briefs ==> id in d.briefs))
  {
  }

  lemma OtherProcHolds(s: System, p: nat, q: nat)
    requires Invariant(s) && Enabled(s, Advance(p)) && q in s.procs && q != p
    ensures ProcHolds(Apply(s.desk, NextOf(s.procs[p])), s.procs[q])
  {
    var st, proc := NextOf(s.procs[p]), s.procs[q];
    assert ProcHolds(s.desk, s.procs[p]) && ProcHolds(s.desk, proc);
    NextIsOwn(s.procs[p]);
    Grows(s.desk, st);
    assert Creates(s.procs[p], proc.step.id) && Creates(proc, proc.step.id) ==> p == q;
    hide Plan, Shaped, NextOf, Apply, Saved, DeskHolds;
  }

  lemma OwnProcHolds(d: Desk, proc: Proc)
    requires DeskHolds(d) && ProcHolds(d, proc) && Unfinished(proc)
    ensures ProcHolds(Apply(d, NextOf(proc)), Ran(d, proc))
  {
    NextIsOwn(proc);
    RanIsShaped(d, proc);
    Grows(d, NextOf(proc));
    assert proc.step.id in d.briefs ==> BriefHolds(d, proc.step.id);
    hide Plan, Shaped, NextOf, DeskHolds;
  }

  /** What is saved is a version already there, or the next one. */
  lemma SavedVersion(d: Desk, proc: Proc)
    requires ProcHolds(d, proc) && Unfinished(proc) && NextOf(proc).Save?
    ensures var id := proc.step.id;
      && (proc.step.Create? <==> id !in d.snapshots) && (proc.step.Create? ==> proc.target.version == 1)
      && (!proc.step.Create? ==>
            1 <= proc.was.version <= |d.snapshots[id]| && proc.target.version == proc.was.version + if Edits(proc.step) then 1 else 0)
  {
    NextIsOwn(proc);
    hide Plan, NextOf, Saved;
  }

  lemma SaveKeepsDesk(d: Desk, proc: Proc)
    requires DeskHolds(d) && ProcHolds(d, proc) && Unfinished(proc) && NextOf(proc).Save?
    ensures DeskHolds(Apply(d, Save(proc.step.id, proc.target)))
  {
    SavedVersion(d, proc);
    var r := Apply(d, Save(proc.step.id, proc.target));
    forall id | id in r.briefs ensures BriefHolds(r, id) {
      assert id in d.briefs ==> BriefHolds(d, id);
    }
    hide Plan, NextOf, Shaped, Saved;
  }

  lemma AdvanceKeepsDesk(d: Desk, proc: Proc)
    requires DeskHolds(d) && ProcHolds(d, proc) && Unfinished(proc)
    ensures DeskHolds(Apply(d, NextOf(proc)))
  {
    NextIsOwn(proc);
    var st := NextOf(proc);
    if st.Save? {
      SaveKeepsDesk(d, proc);
    } else {
      Grows(d, st);
      assert forall id :: id in d.briefs ==> BriefHolds(d, id);
    }
    hide Plan, NextOf, Shaped, Saved;
  }

  lemma AdvanceKeepsInvariant(s: System, p: nat)
    requires Invariant(s) && Enabled(s, Advance(p))
    ensures Invariant(Moved(s, Advance(p)))
  {
    var r := Moved(s, Advance(p));
    Advancing(s, p);
    forall q | q in r.procs ensures ProcHolds(r.desk, r.procs[q]) {
      if q == p { OwnProcHolds(s.desk, s.procs[p]); } else { OtherProcHolds(s, p, q); }
    }
    AdvanceKeepsDesk(s.desk, s.procs[p]);
    forall q, n, id | q in r.procs && n in r.procs && Creates(r.procs[q], id) && Creates(r.procs[n], id) ensures q == n {
      assert Creates(s.procs[q], id) && Creates(s.procs[n], id);
    }
    hide ProcHolds, DeskHolds, Enabled, Moved, Plan, NextOf;
  }

  lemma DieKeepsInvariant(s: System, p: nat)
    requires Invariant(s) && Enabled(s, Die(p))
    ensures Invariant(Moved(s, Die(p)))
  {
    var r := Moved(s, Die(p));
    DeadHolds(s.desk, s.procs[p]);
    hide ProcHolds, DeskHolds, Plan;
    forall q | q in r.procs ensures ProcHolds(r.desk, r.procs[q]) {
      assert ProcHolds(s.desk, s.procs[q]);
    }
    forall q, n, id | q in r.procs && n in r.procs && Creates(r.procs[q], id) && Creates(r.procs[n], id) ensures q == n {
      assert Creates(s.procs[q], id) && Creates(s.procs[n], id);
    }
  }

  lemma DeadHolds(d: Desk, proc: Proc)
    requires ProcHolds(d, proc)
    ensures ProcHolds(d, proc.(live := false))
  {
    hide Plan;
  }

  lemma DirectKeepsInvariant(s: System, step: Step)
    requires Invariant(s) && Enabled(s, Direct(step))
    ensures Invariant(Moved(s, Direct(step)))
  {
    var r := Moved(s, Direct(step));
    forall q | q in r.procs ensures ProcHolds(r.desk, r.procs[q]) {
      assert ProcHolds(s.desk, s.procs[q]);
    }
    forall id | id in r.desk.briefs ensures BriefHolds(r.desk, id) {
      assert BriefHolds(s.desk, id);
    }
    hide Plan, Shaped;
  }

  lemma StartKeepsInvariant(s: System, p: nat, step: Step)
    requires Invariant(s) && Enabled(s, Start(p, step))
    ensures Invariant(Moved(s, Start(p, step)))
  {
    var r := Moved(s, Start(p, step));
    StartedHolds(s.desk, step);
    assert CreatedOnce(r) by {
      forall q, n, id | q in r.procs && n in r.procs && Creates(r.procs[q], id) && Creates(r.procs[n], id) ensures q == n {
        if q != p && n != p {
          assert Creates(s.procs[q], id) && Creates(s.procs[n], id);
        }
      }
    }
    hide Plan, ProcHolds, DeskHolds, Accepted, Performed;
  }

  /** Every step, also of operations on one brief, keeps what is saved a version that was there or
      the next one, in a vertical that exists. */
  lemma StepKeepsInvariant(s: System, l: Label)
    requires Invariant(s) && Enabled(s, l)
    ensures Invariant(Moved(s, l))
  {
    match l
    case Start(p, step) => StartKeepsInvariant(s, p, step);
    case Die(p) => DieKeepsInvariant(s, p);
    case Direct(step) => DirectKeepsInvariant(s, step);
    case Advance(p) => AdvanceKeepsInvariant(s, p);
    hide Invariant, Moved, Enabled;
  }

  // ---------------------------------------------------------------- operations that do not overlap

  /** Another operation on the brief is under way. */
  predicate Busy(s: System, id: Id) {
    exists p :: p in s.procs && Unfinished(s.procs[p]) && s.procs[p].step.id == id
  }

  predicate StartsAlone(s: System, l: Label) {
    l.Start? && OnBrief(l.step) ==> !Busy(s, l.step.id)
  }

  /** The brief is as the process read it, or as it saved it. */
  ghost predicate Attached(d: Desk, proc: Proc) {
    Unfinished(proc) ==>
      var id := proc.step.id;
      if Saved(proc) then id in d.briefs && d.briefs[id] == proc.target
      else if proc.step.Create? then id !in d.briefs
      else id in d.briefs && d.briefs[id] == proc.was
  }

  /** The save found the row as the operation had read it. */
  predicate AsRead(proc: Proc) {
    proc.found.NotYet? || (if proc.step.Create? then proc.found.Missing? else proc.found == There(proc.was))
  }

  ghost predicate AllAsRead(s: System) {
    forall p :: p in s.procs ==> AsRead(s.procs[p])
  }

  ghost predicate Apart(s: System) {
    && (forall p :: p in s.procs ==> Attached(s.desk, s.procs[p]))
    && (forall p, q :: p in s.procs && q in s.procs && p != q && Unfinished(s.procs[p]) && Unfinished(s.procs[q]) ==>
          s.procs[p].step.id != s.procs[q].step.id)
  }

  lemma OtherStaysAttached(d: Desk, proc: Proc, other: Proc)
    requires ProcHolds(d, proc) && Unfinished(proc) && Attached(d, other)
    requires Unfinished(other) ==> other.step.id != proc.step.id
    ensures Attached(Apply(d, NextOf(proc)), other)
  {
    NextIsOwn(proc);
    hide Plan, NextOf, Shaped, Saved, VerticalKnown, Versioned;
  }

  lemma OwnStaysAttached(d: Desk, proc: Proc)
    requires ProcHolds(d, proc) && Unfinished(proc) && Attached(d, proc) && AsRead(proc)
    ensures Attached(Apply(d, NextOf(proc)), Ran(d, proc)) && AsRead(Ran(d, proc))
  {
    NextIsOwn(proc);
    if NextOf(proc).Remove? {
      RemoveIsLast(proc);
    }
    hide NextOf, Plan, Saved, VerticalKnown, Versioned;
  }

  lemma RemoveIsLast(proc: Proc)
    requires Shaped(proc) && Unfinished(proc) && NextOf(proc).Remove?
    ensures proc.done + 1 == |Plan(proc.step, proc.was, proc.target)|
  {
  }

  lemma AdvanceKeepsApart(s: System, p: nat)
    requires Invariant(s) && Apart(s) && AllAsRead(s) && Enabled(s, Advance(p))
    ensures Apart(Moved(s, Advance(p))) && AllAsRead(Moved(s, Advance(p)))
  {
    Advancing(s, p);
    var r := Moved(s, Advance(p));
    var proc := s.procs[p];
    OwnStaysAttached(s.desk, proc);
    forall q | q in r.procs ensures Attached(r.desk, r.procs[q]) {
      if q != p {
        OtherStaysAttached(s.desk, proc, s.procs[q]);
      }
    }
    assert Unfinished(r.procs[p]) ==> Unfinished(proc) && r.procs[p].step == proc.step;
    hide Attached, ProcHolds, NextOf, Plan, Enabled, Moved, AsRead;
  }

  lemma StartedIsAttached(d: Desk, step: Step)
    requires OnBrief(step) && Accepted(d, step)
    ensures var proc := Started(d, step); Attached(d, proc) && AsRead(proc) && proc.step == step
  {
    hide Plan, Bumped, Noted;
  }

  lemma StartKeepsApart(s: System, p: nat, step: Step)
    requires Invariant(s) && Apart(s) && AllAsRead(s) && Enabled(s, Start(p, step)) && !Busy(s, step.id)
    ensures Apart(Moved(s, Start(p, step))) && AllAsRead(Moved(s, Start(p, step)))
  {
    var r := Moved(s, Start(p, step));
    StartedIsAttached(s.desk, step);
    assert r.desk == s.desk && r.procs == s.procs[p := Started(s.desk, step)];
    hide Plan, Attached, Performed, AsRead, Enabled, Moved, Started, Invariant;
    forall q | q in s.procs && Unfinished(s.procs[q]) ensures s.procs[q].step.id != step.id {
    }
  }

  lemma DieKeepsApart(s: System, p: nat)
    requires Apart(s) && AllAsRead(s) && Enabled(s, Die(p))
    ensures Apart(Moved(s, Die(p))) && AllAsRead(Moved(s, Die(p)))
  {
    var r := Moved(s, Die(p));
    assert !Unfinished(r.procs[p]) && AsRead(s.procs[p]);
    hide Plan;
  }

  lemma DirectKeepsApart(s: System, step: Step)
    requires Apart(s) && AllAsRead(s) && Enabled(s, Direct(step))
    ensures Apart(Moved(s, Direct(step))) && AllAsRead(Moved(s, Direct(step)))
  {
    var r := Moved(s, Direct(step));
    assert r.procs == s.procs && r.desk.briefs == s.desk.briefs;
    forall q | q in r.procs ensures Attached(r.desk, r.procs[q]) {
      assert Attached(s.desk, s.procs[q]);
    }
    hide Plan, Apart, AsRead, Saved;
  }

  /** As long as an operation starts only when no other one on its brief is under way, each finds the
      brief as it read it or saved it. */
  lemma StepKeepsApart(s: System, l: Label)
    requires Invariant(s) && Apart(s) && AllAsRead(s) && Enabled(s, l) && StartsAlone(s, l)
    ensures Apart(Moved(s, l)) && AllAsRead(Moved(s, l))
  {
    match l
    case Start(p, step) => StartKeepsApart(s, p, step);
    case Advance(p) => AdvanceKeepsApart(s, p);
    case Die(p) => DieKeepsApart(s, p);
    case Direct(step) => DirectKeepsApart(s, step);
    hide Plan, Invariant, Apart, AllAsRead, Enabled, Moved;
  }

  // ---------------------------------------------------------------- runs

  ghost predicate CanMove(s: System, r: System) {
    exists l :: Enabled(s, l) && r == Moved(s, l)
  }

  const IDLE := System(EMPTY, map[])

  ghost predicate IsRun(run: seq<System>) {
    0 < |run| && run[0] == IDLE && forall i :: 0 <= i < |run| - 1 ==> CanMove(run[i], run[i + 1])
  }

  lemma {:induction false} RunKeepsInvariant(run: seq<System>, i: nat)
    requires IsRun(run) && i < |run|
    ensures Invariant(run[i])
  {
    if i > 0 {
      RunKeepsInvariant(run, i - 1);
      assert CanMove(run[i - 1], run[i - 1 + 1]);
      var l :| Enabled(run[i - 1], l) && run[i] == Moved(run[i - 1], l);
      StepKeepsInvariant(run[i - 1], l);
    }
    hide Enabled, Moved;
  }

  ghost predicate CanMoveAlone(s: System, r: System) {
    exists l :: Enabled(s, l) && StartsAlone(s, l) && r == Moved(s, l)
  }

  ghost predicate IsRunAlone(run: seq<System>) {
    IsRun(run) && forall i :: 0 <= i < |run| - 1 ==> CanMoveAlone(run[i], run[i + 1])
  }

  /** So without overlapping operations on one brief every save finds the row as its operation read
      it, whatever else interleaves or is cut off. */
  lemma {:induction false} AloneFindsAsRead(run: seq<System>, i: nat)
    requires IsRunAlone(run) && i < |run|
    ensures Apart(run[i]) && AllAsRead(run[i])
  {
    if i > 0 {
      AloneFindsAsRead(run, i - 1);
      RunKeepsInvariant(run, i - 1);
      assert CanMoveAlone(run[i - 1], run[i - 1 + 1]);
      var l :| Enabled(run[i - 1], l) && StartsAlone(run[i - 1], l) && run[i] == Moved(run[i - 1], l);
      StepKeepsApart(run[i - 1], l);
    }
    hide Enabled, Moved, Invariant, StartsAlone;
  }
}
