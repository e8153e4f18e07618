/** The revision history of a brief under operations that interleave, on one brief too, and are cut
    off anywhere: exactly when it stays complete. */
module BriefRevisions {
  import opened Prelude
  import opened BriefLifecycle
  import opened BriefStatements

  /** An edit that has saved its version and not yet recorded it. */
  predicate Awaits(proc: Proc, id: Id, v: nat) {
    Works(proc, id) && Edits(proc.step) && proc.target.version == v && proc.done == 1
  }

  ghost predicate Awaited(s: System, id: Id, v: nat) {
    exists p :: p in s.procs && Awaits(s.procs[p], id, v)
  }

  /** A version is claimed by its revision, or by the edit that has yet to record it. */
  datatype Claim = OfRevision(k: nat) | OfProcess(p: nat)

  ghost predicate Claims(s: System, c: Claim, id: Id, v: nat) {
    match c
    case OfRevision(k) => Records(s.desk, k, id, v)
    case OfProcess(p) => p in s.procs && Awaits(s.procs[p], id, v)
  }

  ghost predicate Claimed(s: System, id: Id, v: nat) {
    exists c :: Claims(s, c, id, v)
  }

  /** What the revision holds, or will hold. */
  ghost function Held(s: System, c: Claim): Option<Fields> {
    match c
    case OfRevision(k) => if k < |s.desk.revisions| then s.desk.revisions[k].previous else None
    case OfProcess(p) => if p in s.procs then Some(Snapshot(s.procs[p].was.fields)) else None
  }

  /** The brief is there, with a snapshot for each of its versions, the last one its present fields. */
  ghost predicate Stands(d: Desk, id: Id) {
    && id in d.briefs && id in d.snapshots && 1 <= d.briefs[id].version == |d.snapshots[id]|
    && d.snapshots[id][d.briefs[id].version - 1] == Snapshot(d.briefs[id].fields)
  }

  ghost predicate ClaimsAreRight(s: System, id: Id)
    requires id in s.desk.snapshots
  {
    forall c, v: nat :: Claims(s, c, id, v) ==>
      2 <= v <= |s.desk.snapshots[id]| && Held(s, c) == Some(s.desk.snapshots[id][v - 2])
  }

  ghost predicate ClaimedOnce(s: System, id: Id) {
    forall c, e, v: nat :: Claims(s, c, id, v) && Claims(s, e, id, v) ==> c == e
  }

  ghost predicate NothingUnclaimed(s: System, id: Id)
    requires id in s.desk.snapshots
  {
    forall v: nat :: 2 <= v <= |s.desk.snapshots[id]| ==> Claimed(s, id, v)
  }

  /** Each version from 2 to the present, and no other, has one revision, recorded or still to be
      recorded by the edit that made it, and this holds the snapshot of the version before. */
  ghost predicate HistoryOf(s: System, id: Id) {
    Stands(s.desk, id) && ClaimsAreRight(s, id) && ClaimedOnce(s, id) && NothingUnclaimed(s, id)
  }

  // ---------------------------------------------------------------- saves that find what was read

  /** The save found no other version than the one its operation had read. */
  predicate MetVersion(proc: Proc) {
    proc.found.There? ==> proc.found.brief.version == proc.was.version
  }

  ghost predicate VersionsMet(s: System, id: Id) {
    forall p :: p in s.procs && Works(s.procs[p], id) ==> MetVersion(s.procs[p])
  }

  /** The brief has not been deleted. */
  ghost predicate Kept(s: System, id: Id) {
    forall p :: p in s.procs && Works(s.procs[p], id) && s.procs[p].step.Delete? ==> s.procs[p].found.NotYet?
  }

  /** What the process read is what that version was. */
  ghost predicate ReadRightly(d: Desk, proc: Proc, id: Id) {
    Works(proc, id) && !(proc.step.Create? && !Saved(proc)) ==>
      && id in d.snapshots && 1 <= proc.was.version <= |d.snapshots[id]|
      && d.snapshots[id][proc.was.version - 1] == Snapshot(proc.was.fields)
  }

  ghost predicate Clean(s: System, id: Id) {
    && (id in s.desk.snapshots ==> HistoryOf(s, id))
    && (id !in s.desk.snapshots ==> forall c, v: nat :: !Claims(s, c, id, v))
    && (forall p :: p in s.procs ==> ReadRightly(s.desk, s.procs[p], id))
  }

  // ---------------------------------------------------------------- what steps do to claims

  /** Nothing about the brief changes but its status. */
  ghost predicate SameBrief(d: Desk, r: Desk, id: Id) {
    && (id in d.snapshots <==> id in r.snapshots) && (id in d.snapshots ==> r.snapshots[id] == d.snapshots[id])
    && (id in d.briefs ==> id in r.briefs && r.briefs[id].version == d.briefs[id].version
                           && Snapshot(r.briefs[id].fields) == Snapshot(d.briefs[id].fields))
  }

  ghost predicate SameClaims(s: System, r: System, id: Id) {
    && (forall c, v: nat :: Claims(s, c, id, v) <==> Claims(r, c, id, v))
    && (forall c, v: nat :: Claims(s, c, id, v) ==> Held(r, c) == Held(s, c))
  }

  lemma SameHistory(s: System, r: System, id: Id)
    requires SameBrief(s.desk, r.desk, id) && SameClaims(s, r, id)
    requires id in s.desk.snapshots && HistoryOf(s, id)
    ensures HistoryOf(r, id)
  {
    forall v: nat | 2 <= v <= |r.desk.snapshots[id]| ensures Claimed(r, id, v) {
      assert Claimed(s, id, v);
      var c :| Claims(s, c, id, v);
      assert Claims(r, c, id, v);
    }
    hide Claims, Held, Snapshot;
  }

  lemma SameIsClean(s: System, r: System, id: Id)
    requires Clean(s, id) && SameBrief(s.desk, r.desk, id) && SameClaims(s, r, id)
    requires forall p :: p in r.procs ==> ReadRightly(r.desk, r.procs[p], id)
    ensures Clean(r, id)
  {
    if id in s.desk.snapshots {
      SameHistory(s, r, id);
    }
    hide HistoryOf, ReadRightly, Claims, Held, Snapshot;
  }

  /** Which statement an edit runs next. */
  lemma EditStatements(proc: Proc)
    requires Shaped(proc) && Unfinished(proc) && Edits(proc.step)
    ensures var id := proc.step.id;
      && proc.done <= 1 && proc.target.version == proc.was.version + 1
      && (proc.done == 0 ==> NextOf(proc) == Save(id, proc.target))
      && (proc.done == 1 ==> NextOf(proc) == Append(Revision(id, proc.target.version, Some(Snapshot(proc.was.fields)))))
  {
  }

  lemma OtherStatements(proc: Proc)
    requires Shaped(proc) && Unfinished(proc) && !Edits(proc.step)
    ensures NextOf(proc).Append? ==> NextOf(proc).revision.previous.None?
    ensures !proc.step.Create? && !proc.step.Delete? ==>
      proc.target.version == proc.was.version && proc.target.fields == proc.was.fields
  {
  }

  /** The claims after a statement: an edit's save adds its own, its note hands it on. */
  lemma ClaimsAfter(s: System, p: nat, c: Claim, id: Id, v: nat)
    requires Invariant(s) && Enabled(s, Advance(p))
    ensures var proc := s.procs[p]; var r := Moved(s, Advance(p));
      var own := Works(proc, id) && Edits(proc.step) && proc.target.version == v;
      && (own && proc.done == 0 ==> (Claims(r, c, id, v) <==> Claims(s, c, id, v) || c == OfProcess(p)) && !Claims(s, OfProcess(p), id, v))
      && (own && proc.done == 1 ==> (Claims(r, c, id, v) <==> (Claims(s, c, id, v) && c != OfProcess(p)) || c == OfRevision(|s.desk.revisions|)))
      && (own && proc.done == 1 ==> Claims(s, OfProcess(p), id, v) && !Claims(s, OfRevision(|s.desk.revisions|), id, v))
      && (!own ==> (Claims(r, c, id, v) <==> Claims(s, c, id, v)))
  {
    Advancing(s, p);
    var proc := s.procs[p];
    assert ProcHolds(s.desk, proc);
    if Edits(proc.step) {
      EditStatements(proc);
    } else {
      OtherStatements(proc);
    }
    hide Invariant, Enabled, Moved, Plan, NextOf, Shaped, Snapshot;
  }

  lemma HeldAfter(s: System, p: nat, c: Claim, id: Id, v: nat)
    requires Invariant(s) && Enabled(s, Advance(p)) && Claims(s, c, id, v)
    ensures Held(Moved(s, Advance(p)), c) == Held(s, c)
  {
    Advancing(s, p);
    hide Invariant, Enabled, Moved, Plan, NextOf, Snapshot;
  }

  lemma NewHolds(s: System, p: nat)
    requires Invariant(s) && Enabled(s, Advance(p)) && Edits(s.procs[p].step)
    ensures var proc := s.procs[p];
      Held(Moved(s, Advance(p)), if proc.done == 0 then OfProcess(p) else OfRevision(|s.desk.revisions|)) == Some(Snapshot(proc.was.fields))
  {
    Advancing(s, p);
    assert ProcHolds(s.desk, s.procs[p]);
    EditStatements(s.procs[p]);
    hide Invariant, Enabled, Moved, Plan, NextOf, Snapshot, Shaped;
  }

  lemma QuietClaims(s: System, p: nat, id: Id)
    requires Invariant(s) && Enabled(s, Advance(p)) && !(Works(s.procs[p], id) && Edits(s.procs[p].step))
    ensures SameClaims(s, Moved(s, Advance(p)), id)
  {
    hide Claims, Held, Invariant, Enabled, Moved, Works;
    var r := Moved(s, Advance(p));
    forall c, v: nat ensures Claims(s, c, id, v) <==> Claims(r, c, id, v) {
      ClaimsAfter(s, p, c, id, v);
    }
    forall c, v: nat | Claims(s, c, id, v) ensures Held(r, c) == Held(s, c) {
      HeldAfter(s, p, c, id, v);
    }
  }

  lemma RightlyReadStays(d: Desk, st: Statement, proc: Proc, id: Id)
    requires ReadRightly(d, proc, id)
    ensures ReadRightly(Apply(d, st), proc, id)
  {
    Grows(d, st);
    hide Apply, Saved, Snapshot;
  }

  lemma OwnReadStays(d: Desk, proc: Proc, id: Id)
    requires ProcHolds(d, proc) && Unfinished(proc) && ReadRightly(d, proc, id)
    ensures ReadRightly(Apply(d, NextOf(proc)), Ran(d, proc), id)
  {
    NextIsOwn(proc);
    if proc.step.Create? && Works(proc, id) {
      assert NextOf(proc) == Save(id, proc.target) && proc.was == proc.target;
    } else {
      RightlyReadStays(d, NextOf(proc), proc, id);
    }
    hide Plan, NextOf, Snapshot, VerticalKnown;
  }

  lemma AdvanceKeepsReading(s: System, p: nat, id: Id)
    requires Invariant(s) && Enabled(s, Advance(p)) && Clean(s, id)
    ensures var r := Moved(s, Advance(p)); forall q :: q in r.procs ==> ReadRightly(r.desk, r.procs[q], id)
  {
    Advancing(s, p);
    var r := Moved(s, Advance(p));
    var proc := s.procs[p];
    assert ProcHolds(s.desk, proc);
    OwnReadStays(s.desk, proc, id);
    forall q | q in r.procs ensures ReadRightly(r.desk, r.procs[q], id) {
      if q != p {
        RightlyReadStays(s.desk, NextOf(proc), s.procs[q], id);
      }
    }
    hide Invariant, Enabled, Moved, Plan, NextOf, ReadRightly, HistoryOf, ProcHolds, Apply;
  }

  lemma OtherRowStays(d: Desk, st: Statement, id: Id)
    requires !((st.Save? || st.Remove?) && st.id == id)
    ensures SameBrief(d, Apply(d, st), id)
  {
  }

  lemma StatusRowStays(d: Desk, id: Id, b: Brief)
    requires Stands(d, id) && b.version == d.briefs[id].version && d.snapshots[id][b.version - 1] == Snapshot(b.fields)
    ensures SameBrief(d, Apply(d, Save(id, b)), id)
  {
    hide Snapshot;
  }

  /** A statement of an operation that makes no version, when its save meets the version it read. */
  lemma QuietIsClean(s: System, p: nat, id: Id)
    requires Invariant(s) && Clean(s, id) && Enabled(s, Advance(p))
    requires var proc := s.procs[p]; !(Works(proc, id) && (Edits(proc.step) || proc.step.Create? || proc.step.Delete?))
    requires Works(s.procs[p], id) ==> MetVersion(Ran(s.desk, s.procs[p]))
    ensures Clean(Moved(s, Advance(p)), id)
  {
    Advancing(s, p);
    var proc, st := s.procs[p], NextOf(s.procs[p]);
    assert ProcHolds(s.desk, proc) && ReadRightly(s.desk, proc, id);
    NextIsOwn(proc);
    OtherStatementsIf(proc);
    if Works(proc, id) && st.Save? {
      StatusRowStays(s.desk, id, proc.target);
    } else {
      OtherRowStays(s.desk, st, id);
    }
    QuietClaims(s, p, id);
    AdvanceKeepsReading(s, p, id);
    SameIsClean(s, Moved(s, Advance(p)), id);
    hide Invariant, Enabled, Moved, Plan, NextOf, Shaped, Snapshot, Apply, Saved, ClaimsAreRight, ClaimedOnce, NothingUnclaimed, SameBrief, SameClaims;
  }

  lemma OtherStatementsIf(proc: Proc)
    requires Shaped(proc) && Unfinished(proc)
    ensures !Edits(proc.step) && !proc.step.Create? && !proc.step.Delete? ==>
      proc.target.version == proc.was.version && proc.target.fields == proc.was.fields
  {
    hide Plan;
  }

  /** The edit's claim is new, all others stay: the version is the next one. */
  lemma SavedIsClaimed(s: System, p: nat, id: Id)
    requires Invariant(s) && HistoryOf(s, id) && Enabled(s, Advance(p))
    requires var proc := s.procs[p]; Works(proc, id) && Edits(proc.step) && proc.done == 0
    requires s.procs[p].was.version == s.desk.briefs[id].version && ReadRightly(s.desk, s.procs[p], id)
    ensures HistoryOf(Moved(s, Advance(p)), id)
  {
    hide Claims, Held, Invariant, Enabled, Moved, Snapshot, NextOf, Unfinished, Ran, Plan;
    Advancing(s, p);
    EditSaves(s, p);
    NewHolds(s, p);
    var proc, r := s.procs[p], Moved(s, Advance(p));
    var n := proc.target.version;
    assert r.desk.snapshots[id] == s.desk.snapshots[id] + [Snapshot(proc.target.fields)];
    forall c, v: nat ensures Claims(r, c, id, v) <==> Claims(s, c, id, v) || (c == OfProcess(p) && v == n)
      ensures v == n ==> !Claims(s, OfProcess(p), id, v)
      ensures Claims(s, c, id, v) ==> Held(r, c) == Held(s, c)
    {
      ClaimsAfter(s, p, c, id, v);
      if Claims(s, c, id, v) {
        HeldAfter(s, p, c, id, v);
      }
    }
    assert Claims(r, OfProcess(p), id, n);
    forall v: nat | 2 <= v <= n ensures Claimed(r, id, v) {
      if v < n {
        assert Claimed(s, id, v);
        var c :| Claims(s, c, id, v);
        assert Claims(r, c, id, v);
      }
    }
  }

  lemma EditSaves(s: System, p: nat)
    requires Invariant(s) && Enabled(s, Advance(p)) && Edits(s.procs[p].step)
    ensures var proc := s.procs[p];
      && proc.target.version == proc.was.version + 1 && !(proc.step.Create? && !Saved(proc))
      && NextOf(proc) == if proc.done == 0 then Save(proc.step.id, proc.target)
                         else Append(Revision(proc.step.id, proc.target.version, Some(Snapshot(proc.was.fields))))
  {
    assert ProcHolds(s.desk, s.procs[p]);
    EditStatements(s.procs[p]);
    hide Plan, NextOf, Shaped, Snapshot;
  }

  /** The edit hands its claim on to its revision. */
  lemma RecordedIsClaimed(s: System, p: nat, id: Id)
    requires Invariant(s) && HistoryOf(s, id) && Enabled(s, Advance(p))
    requires var proc := s.procs[p]; Works(proc, id) && Edits(proc.step) && proc.done != 0
    ensures HistoryOf(Moved(s, Advance(p)), id)
  {
    hide Claims, Held, Invariant, Enabled, Moved, Works, Snapshot, NextOf, Unfinished, Ran, Plan;
    Advancing(s, p);
    EditSaves(s, p);
    RecordingIsSecond(s, p);
    NewHolds(s, p);
    var proc, r := s.procs[p], Moved(s, Advance(p));
    var n, last := proc.target.version, OfRevision(|s.desk.revisions|);
    forall c, v: nat
      ensures Claims(r, c, id, v) <==> (Claims(s, c, id, v) && !(v == n && c == OfProcess(p))) || (c == last && v == n)
      ensures v == n ==> Claims(s, OfProcess(p), id, v) && !Claims(s, last, id, v)
      ensures Claims(s, c, id, v) ==> Held(r, c) == Held(s, c)
    {
      ClaimsAfter(s, p, c, id, v);
      if Claims(s, c, id, v) {
        HeldAfter(s, p, c, id, v);
      }
    }
    assert Claims(s, OfProcess(p), id, n) && Claims(r, last, id, n);
    HandedOn(s, r, id, n, OfProcess(p), last);
  }

  lemma RecordingIsSecond(s: System, p: nat)
    requires Invariant(s) && Enabled(s, Advance(p)) && Edits(s.procs[p].step) && s.procs[p].done != 0
    ensures s.procs[p].done == 1 && Held(s, OfProcess(p)) == Some(Snapshot(s.procs[p].was.fields))
  {
    assert ProcHolds(s.desk, s.procs[p]);
    EditStatements(s.procs[p]);
    hide Plan, NextOf, Shaped, Snapshot;
  }

  /** One claim of version `n` goes over from `from` to `to`. */
  lemma HandedOn(s: System, r: System, id: Id, n: nat, from: Claim, to: Claim)
    requires HistoryOf(s, id) && r.desk.briefs == s.desk.briefs && r.desk.snapshots == s.desk.snapshots
    requires Claims(s, from, id, n) && !Claims(s, to, id, n) && Held(r, to) == Held(s, from)
    requires forall c, v: nat ::
      Claims(r, c, id, v) <==> (Claims(s, c, id, v) && !(v == n && c == from)) || (c == to && v == n)
    requires forall c, v: nat :: Claims(s, c, id, v) ==> Held(r, c) == Held(s, c)
    ensures HistoryOf(r, id)
  {
    hide Claims, Held, Snapshot;
    forall v: nat | 2 <= v <= |r.desk.snapshots[id]| ensures Claimed(r, id, v) {
      assert Claimed(s, id, v);
      var c :| Claims(s, c, id, v);
      assert Claims(r, if v == n then to else c, id, v);
    }
  }

  /** A new brief has its first version and no revision. */
  lemma CreatedIsClean(s: System, p: nat, id: Id)
    requires Invariant(s) && Clean(s, id) && Enabled(s, Advance(p)) && Works(s.procs[p], id) && s.procs[p].step.Create?
    ensures Clean(Moved(s, Advance(p)), id)
  {
    Advancing(s, p);
    var proc, r := s.procs[p], Moved(s, Advance(p));
    assert ProcHolds(s.desk, proc);
    NextIsOwn(proc);
    QuietClaims(s, p, id);
    AdvanceKeepsReading(s, p, id);
    CreatedStands(s.desk, proc);
    assert forall c, v: nat :: !Claims(r, c, id, v);
    hide Invariant, Enabled, Moved, Plan, NextOf, Claims, Held, Snapshot, ReadRightly, ProcHolds, Apply;
  }

  lemma CreatedStands(d: Desk, proc: Proc)
    requires ProcHolds(d, proc) && Unfinished(proc) && proc.step.Create?
    ensures proc.step.id !in d.snapshots
    ensures var r := Apply(d, NextOf(proc)); Stands(r, proc.step.id) && |r.snapshots[proc.step.id]| == 1
  {
    NextIsOwn(proc);
    hide Plan, NextOf, Snapshot;
  }

  // ---------------------------------------------------------------- every step

  lemma EditIsClean(s: System, p: nat, id: Id)
    requires Invariant(s) && Clean(s, id) && Enabled(s, Advance(p)) && Works(s.procs[p], id) && Edits(s.procs[p].step)
    requires MetVersion(Ran(s.desk, s.procs[p]))
    ensures Clean(Moved(s, Advance(p)), id)
  {
    Advancing(s, p);
    var proc := s.procs[p];
    assert ProcHolds(s.desk, proc) && ReadRightly(s.desk, proc, id);
    EditSaves(s, p);
    AdvanceKeepsReading(s, p, id);
    Grows(s.desk, NextOf(proc));
    assert HistoryOf(s, id);
    if proc.done == 0 {
      SavedIsClaimed(s, p, id);
    } else {
      RecordedIsClaimed(s, p, id);
    }
    hide Invariant, Enabled, Moved, Plan, NextOf, Claims, Held, Snapshot, ReadRightly, ProcHolds, Apply, ClaimsAreRight, ClaimedOnce, NothingUnclaimed;
  }

  lemma AdvanceIsClean(s: System, p: nat, id: Id)
    requires Invariant(s) && Clean(s, id) && Enabled(s, Advance(p))
    requires Kept(Moved(s, Advance(p)), id) && VersionsMet(Moved(s, Advance(p)), id)
    ensures Clean(Moved(s, Advance(p)), id)
  {
    Advancing(s, p);
    var proc, r := s.procs[p], Moved(s, Advance(p));
    assert r.procs[p] == Ran(s.desk, proc) && r.procs[p].step == proc.step;
    assert ProcHolds(s.desk, proc);
    if Works(proc, id) && Edits(proc.step) {
      EditIsClean(s, p, id);
    } else if Works(proc, id) && proc.step.Create? {
      CreatedIsClean(s, p, id);
    } else if Works(proc, id) && proc.step.Delete? {
      RemoveFinds(s.desk, proc);
      assert false;
    } else {
      QuietIsClean(s, p, id);
    }
    hide Invariant, Enabled, Moved, Plan, NextOf, ProcHolds, Clean;
  }

  lemma RemoveFinds(d: Desk, proc: Proc)
    requires ProcHolds(d, proc) && Unfinished(proc) && proc.step.Delete?
    ensures !Ran(d, proc).found.NotYet?
  {
  }

  lemma OtherStepIsClean(s: System, l: Label, id: Id)
    requires Invariant(s) && Clean(s, id) && Enabled(s, l) && !l.Advance?
    ensures Clean(Moved(s, l), id)
  {
    var r := Moved(s, l);
    QuietProcs(s, l);
    QuietView(s, r, id);
    QuietReads(s, l, id);
    SameIsClean(s, r, id);
    hide Clean, SameBrief, SameClaims, ReadRightly, Quiet, Enabled, Moved, Invariant;
  }

  lemma QuietReads(s: System, l: Label, id: Id)
    requires Invariant(s) && Clean(s, id) && Enabled(s, l) && !l.Advance?
    ensures var r := Moved(s, l); forall q :: q in r.procs ==> ReadRightly(r.desk, r.procs[q], id)
  {
    var r := Moved(s, l);
    QuietProcs(s, l);
    hide Started, Invariant, HistoryOf, Enabled, Moved, Snapshot, Claims, Saved, ReadRightly, Works;
    forall q | q in r.procs ensures ReadRightly(r.desk, r.procs[q], id) {
      if q in s.procs {
        SameReading(s.desk, r.desk, s.procs[q], r.procs[q].live, id);
      } else {
        StartedReads(s, q, l.step, id);
        SameReading(s.desk, r.desk, Started(s.desk, l.step), true, id);
      }
    }
  }

  lemma SameReading(d: Desk, e: Desk, proc: Proc, live: bool, id: Id)
    requires ReadRightly(d, proc, id) && e.snapshots == d.snapshots
    ensures ReadRightly(e, proc, id) && ReadRightly(e, proc.(live := live), id)
  {
    hide Snapshot;
  }

  /** Processes that gain or lose no statement, over the same rows. */
  ghost predicate Quiet(s: System, r: System) {
    && r.desk.revisions == s.desk.revisions && r.desk.snapshots == s.desk.snapshots && r.desk.briefs == s.desk.briefs
    && (forall q :: q in s.procs ==> q in r.procs && r.procs[q] == s.procs[q].(live := r.procs[q].live))
    && (forall q :: q in r.procs && q !in s.procs ==> r.procs[q].done == 0)
  }

  lemma QuietView(s: System, r: System, id: Id)
    requires Quiet(s, r)
    ensures SameBrief(s.desk, r.desk, id) && SameClaims(s, r, id)
  {
    hide Edits, Snapshot;
  }

  lemma QuietProcs(s: System, l: Label)
    requires Enabled(s, l) && !l.Advance?
    ensures Quiet(s, Moved(s, l))
    ensures forall q :: q in Moved(s, l).procs && q !in s.procs ==>
      l == Start(q, l.step) && Moved(s, l).procs[q] == Started(s.desk, l.step)
  {
    hide Plan;
  }

  lemma StartedReads(s: System, p: nat, step: Step, id: Id)
    requires Invariant(s) && Clean(s, id) && Enabled(s, Start(p, step))
    ensures ReadRightly(s.desk, Started(s.desk, step), id)
  {
    hide Plan, Snapshot, ClaimsAreRight, ClaimedOnce, NothingUnclaimed;
    if step.id == id && !step.Create? {
      assert BriefHolds(s.desk, id);
    }
  }

  lemma StepIsClean(s: System, l: Label, id: Id)
    requires Invariant(s) && Clean(s, id) && Enabled(s, l) && Kept(Moved(s, l), id) && VersionsMet(Moved(s, l), id)
    ensures Clean(Moved(s, l), id)
  {
    if l.Advance? {
      AdvanceIsClean(s, l.p, id);
    } else {
      OtherStepIsClean(s, l, id);
    }
    hide Invariant, Moved, Enabled, Clean;
  }

  // ---------------------------------------------------------------- a save that meets another version

  /** A save that finds another version breaks the history at once: an edit claims a version a second
      time, and any other save takes the brief back behind a version that is claimed. */
  lemma StaleSaveBreaks(s: System, p: nat, id: Id)
    requires Invariant(s) && Clean(s, id) && Enabled(s, Advance(p)) && Works(s.procs[p], id)
    requires MetVersion(s.procs[p]) && !MetVersion(Ran(s.desk, s.procs[p])) && !s.procs[p].step.Delete?
    ensures id in Moved(s, Advance(p)).desk.snapshots && !HistoryOf(Moved(s, Advance(p)), id)
  {
    hide Claims, Invariant, Enabled, Moved, Snapshot, NextOf, Plan, Clean, Edits;
    Advancing(s, p);
    StaleSave(s, p, id);
    var proc, r := s.procs[p], Moved(s, Advance(p));
    var v := if Edits(proc.step) then proc.target.version else s.desk.briefs[id].version;
    assert Claimed(s, id, v);
    var c :| Claims(s, c, id, v);
    ClaimsAfter(s, p, c, id, v);
    ClaimsAfter(s, p, OfProcess(p), id, v);
    Grows(s.desk, NextOf(proc));
    assert Claims(r, c, id, v);
    if Edits(proc.step) {
      assert Claims(r, OfProcess(p), id, v) && c != OfProcess(p);
    } else {
      assert r.desk.briefs[id].version < v;
    }
  }

  lemma StaleSave(s: System, p: nat, id: Id)
    requires Invariant(s) && Clean(s, id) && Enabled(s, Advance(p)) && Works(s.procs[p], id)
    requires MetVersion(s.procs[p]) && !MetVersion(Ran(s.desk, s.procs[p])) && !s.procs[p].step.Delete?
    ensures var proc := s.procs[p];
      && HistoryOf(s, id) && 1 <= proc.was.version < s.desk.briefs[id].version && proc.done <= 1
      && (Edits(proc.step) ==> proc.done == 0 && proc.target.version == proc.was.version + 1)
      && (!Edits(proc.step) ==> proc.target.version == proc.was.version)
      && NextOf(proc) == Save(id, proc.target)
  {
    var proc := s.procs[p];
    assert ProcHolds(s.desk, proc) && ReadRightly(s.desk, proc, id);
    NextIsOwn(proc);
    SavedVersion(s.desk, proc);
    if Edits(proc.step) {
      EditStatements(proc);
    }
    hide NextOf, Snapshot, ClaimsAreRight, ClaimedOnce, NothingUnclaimed, Plan;
  }

  // ---------------------------------------------------------------- the law

  lemma RanFinds(d: Desk, proc: Proc)
    requires ProcHolds(d, proc) && Unfinished(proc)
    ensures !proc.found.NotYet? ==> Ran(d, proc).found == proc.found
  {
    NextIsOwn(proc);
    hide Plan, NextOf;
  }

  /** What a save found is never forgotten. */
  lemma FoundStays(s: System, l: Label, p: nat)
    requires Invariant(s) && Enabled(s, l) && p in s.procs
    ensures p in Moved(s, l).procs
    ensures var a, b := s.procs[p], Moved(s, l).procs[p];
      b.step == a.step && b.was == a.was && (!a.found.NotYet? ==> b.found == a.found)
      && (b.found != a.found ==> l == Advance(p) && b == Ran(s.desk, a))
  {
    assert ProcHolds(s.desk, s.procs[p]);
    if l == Advance(p) {
      RanFinds(s.desk, s.procs[p]);
    }
    hide Plan, Ran, ProcHolds;
  }

  lemma StepsForget(s: System, l: Label, id: Id)
    requires Invariant(s) && Enabled(s, l)
    ensures Kept(Moved(s, l), id) ==> Kept(s, id)
    ensures VersionsMet(Moved(s, l), id) ==> VersionsMet(s, id)
  {
    forall p | p in s.procs
      ensures p in Moved(s, l).procs
      ensures var a, b := s.procs[p], Moved(s, l).procs[p]; b.step == a.step && b.was == a.was && (!a.found.NotYet? ==> b.found == a.found)
    {
      FoundStays(s, l, p);
    }
    hide Invariant, Enabled, Moved;
  }

  lemma IdleIsClean(id: Id)
    ensures Clean(IDLE, id) && VersionsMet(IDLE, id)
  {
  }

  lemma {:induction false} RunIsClean(run: seq<System>, i: nat, id: Id)
    requires IsRun(run) && i < |run| && Kept(run[i], id) && VersionsMet(run[i], id)
    ensures Invariant(run[i]) && Clean(run[i], id)
    ensures forall j :: 0 <= j <= i && id in run[j].desk.snapshots ==> HistoryOf(run[j], id)
  {
    hide Enabled, Moved, Invariant, Kept, VersionsMet, HistoryOf, ReadRightly, Claims;
    RunKeepsInvariant(run, i);
    if i == 0 {
      IdleIsClean(id);
    } else {
      RunKeepsInvariant(run, i - 1);
      assert CanMove(run[i - 1], run[i - 1 + 1]);
      var l :| Enabled(run[i - 1], l) && run[i] == Moved(run[i - 1], l);
      StepsForget(run[i - 1], l, id);
      RunIsClean(run, i - 1, id);
      StepIsClean(run[i - 1], l, id);
    }
  }

  /** Once a save has met another version, the history was broken at some moment. */
  lemma {:induction false} BrokenBy(run: seq<System>, i: nat, id: Id) returns (j: nat)
    requires IsRun(run) && i < |run| && Kept(run[i], id) && !VersionsMet(run[i], id)
    ensures j <= i && id in run[j].desk.snapshots && !HistoryOf(run[j], id)
  {
    hide Enabled, Moved, Invariant, HistoryOf, Clean, Kept, VersionsMet;
    IdleIsClean(id);
    assert CanMove(run[i - 1], run[i - 1 + 1]);
    var l :| Enabled(run[i - 1], l) && run[i] == Moved(run[i - 1], l);
    RunKeepsInvariant(run, i - 1);
    StepsForget(run[i - 1], l, id);
    if VersionsMet(run[i - 1], id) {
      RunIsClean(run, i - 1, id);
      BreakingStep(run[i - 1], l, id);
      j := i;
    } else {
      j := BrokenBy(run, i - 1, id);
    }
  }

  lemma BreakingStep(s: System, l: Label, id: Id)
    requires Invariant(s) && Clean(s, id) && VersionsMet(s, id) && Enabled(s, l)
    requires Kept(Moved(s, l), id) && !VersionsMet(Moved(s, l), id)
    ensures id in Moved(s, l).desk.snapshots && !HistoryOf(Moved(s, l), id)
  {
    var r := Moved(s, l);
    var p :| p in r.procs && Works(r.procs[p], id) && !MetVersion(r.procs[p]);
    if p in s.procs {
      FoundStays(s, l, p);
      assert MetVersion(s.procs[p]) && l == Advance(p);
      StaleSaveBreaks(s, p, id);
    } else {
      NewFindsNothing(s, l, p);
    }
    hide Invariant, Enabled, Moved, HistoryOf, Clean, Ran;
  }

  lemma NewFindsNothing(s: System, l: Label, p: nat)
    requires Enabled(s, l) && p !in s.procs && p in Moved(s, l).procs
    ensures Moved(s, l).procs[p].found.NotYet?
  {
    hide Plan, Performed, Accepted, Ran;
  }

  /** In every interleaving, of operations on one brief too, with any of them cut off anywhere, and as
      long as the brief is not deleted: its history was complete in every state so far if and only if
      every save so far found the version its operation had read. */
  lemma HistoryStandsExactly(run: seq<System>, i: nat, id: Id)
    requires IsRun(run) && i < |run| && Kept(run[i], id)
    ensures (forall j :: 0 <= j <= i && id in run[j].desk.snapshots ==> HistoryOf(run[j], id)) <==> VersionsMet(run[i], id)
  {
    if VersionsMet(run[i], id) {
      RunIsClean(run, i, id);
    } else {
      var j := BrokenBy(run, i, id);
    }
    hide HistoryOf, IsRun, Kept, VersionsMet;
  }

  /** While that is so, a version has its revision exactly when the edit that made it is not waiting,
      or cut off, before recording it; and a revision with fields holds the snapshot of the version
      before and is the only one of its version. */
  lemma VersionsAreAccounted(run: seq<System>, i: nat, id: Id, v: nat)
    requires IsRun(run) && i < |run| && Kept(run[i], id) && VersionsMet(run[i], id)
    requires id in run[i].desk.briefs && 2 <= v <= run[i].desk.briefs[id].version
    ensures Recorded(run[i].desk, id, v) <==> !Awaited(run[i], id, v)
    ensures id in run[i].desk.snapshots && run[i].desk.briefs[id].version == |run[i].desk.snapshots[id]|
    ensures forall k: nat :: Records(run[i].desk, k, id, v) ==>
      && run[i].desk.revisions[k].previous == Some(run[i].desk.snapshots[id][v - 2])
      && forall j: nat :: Records(run[i].desk, j, id, v) ==> j == k
  {
    RunIsClean(run, i, id);
    var s := run[i];
    assert BriefHolds(s.desk, id);
    assert HistoryOf(s, id);
    assert Claimed(s, id, v);
    var c :| Claims(s, c, id, v);
    forall k: nat | Records(s.desk, k, id, v) ensures c == OfRevision(k) {
      assert Claims(s, OfRevision(k), id, v);
    }
    forall p | p in s.procs && Awaits(s.procs[p], id, v) ensures c == OfProcess(p) {
      assert Claims(s, OfProcess(p), id, v);
    }
    hide IsRun, Kept, VersionsMet, Records, Awaits, ProcHolds, CreatedOnce;
  }

  /** Operations on one brief that do not overlap meet the versions they read. */
  lemma AloneMeetsVersions(run: seq<System>, i: nat, id: Id)
    requires IsRunAlone(run) && i < |run|
    ensures VersionsMet(run[i], id)
  {
    AloneFindsAsRead(run, i);
    hide IsRunAlone, Apart;
  }

  /** Two updates that both read one version make the next one twice: the version is raised once and
      has two revisions. */
  lemma OverlappingUpdatesClash(d: Desk, id: Id, f: Fields, g: Fields)
    requires Accepted(d, Update(id, f)) && Accepted(d, Update(id, g))
    ensures var a, b := Started(d, Update(id, f)), Started(d, Update(id, g));
      var first, second := Plan(a.step, a.was, a.target), Plan(b.step, b.was, b.target);
      var r := ApplyAll(ApplyAll(d, [first[0], second[0]]), [first[1], second[1]]);
      id in r.briefs && r.briefs[id].version == d.briefs[id].version + 1 && !RecordsHold(r)
  {
    var a, b := Started(d, Update(id, f)), Started(d, Update(id, g));
    var first, second := Plan(a.step, a.was, a.target), Plan(b.step, b.was, b.target);
    var saved := ApplyAll(d, [first[0], second[0]]);
    ApplyTwo(d, first[0], second[0]);
    ApplyTwo(saved, first[1], second[1]);
    var r := ApplyAll(saved, [first[1], second[1]]);
    hide ApplyAll, Assigned, Snapshot;
    var n := |d.revisions|;
    assert Records(r, n, id, a.target.version) && Records(r, n + 1, id, a.target.version);
  }
}
