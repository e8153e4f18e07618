/** The count that each vertical keeps of its briefs, under operations that interleave and are cut off
    anywhere: how far it is from the truth, and when it can exceed the vertical's cap. */
module BriefCounts {
  import opened Prelude
  import opened BriefLifecycle
  import opened BriefStatements

  // ---------------------------------------------------------------- what the count misses

  /** Does the brief count in the vertical? */
  predicate CountsIn(b: Brief, v: Id) {
    Counted(b.status) && b.fields.verticalId == Value(v)
  }

  /** Between its two writes a submission, and a refusal, leaves the vertical's count one short. */
  predicate Owes(proc: Proc, v: Id) {
    && proc.done == 1 && proc.was.fields.verticalId == Value(v)
    && (proc.step.Submit? || (proc.step.Review? && proc.step.decision != Approve))
  }

  /** Must the overwritten row have counted for the save to leave the count right? An edit moves no
      count, so the row must have counted where the edited one does; any other operation moves the
      count from what it read. */
  predicate Supposed(proc: Proc, v: Id) {
    CountsIn(if Edits(proc.step) then proc.target else proc.was, v)
  }

  predicate FoundCounted(proc: Proc, v: Id) {
    proc.found.There? && CountsIn(proc.found.brief, v)
  }

  datatype Account = Owing | Gaining | Losing | Adding

  /** `Owing`: between two writes. `Gaining`: the save put a counted brief where the count expects
      one already. `Losing`: the save took away, or counts again, a brief the count still has.
      `Adding`: a live submission that will still raise the count. */
  predicate Belongs(a: Account, proc: Proc, v: Id) {
    match a
    case Owing => Owes(proc, v)
    case Gaining => !proc.found.NotYet? && Supposed(proc, v) && !FoundCounted(proc, v)
    case Losing => !proc.found.NotYet? && !Supposed(proc, v) && FoundCounted(proc, v)
    case Adding => proc.live && proc.step.Submit? && proc.was.fields.verticalId == Value(v) && proc.done <= 1
  }

  function Those(procs: map<nat, Proc>, a: Account, v: Id): set<nat> {
    set p | p in procs && Belongs(a, procs[p], v)
  }

  function One(b: bool): int {
    if b then 1 else 0
  }

  lemma ThoseAfter(procs: map<nat, Proc>, p: nat, proc: Proc, a: Account, v: Id)
    ensures Those(procs[p := proc], a, v) == (Those(procs, a, v) - {p}) + (if Belongs(a, proc, v) then {p} else {})
    ensures p in Those(procs, a, v) <==> p in procs && Belongs(a, procs[p], v)
  {
    hide Belongs;
  }

  /** Changing one process moves each account by what that process contributes. */
  lemma ThoseMove(procs: map<nat, Proc>, p: nat, proc: Proc, a: Account, v: Id)
    ensures |Those(procs[p := proc], a, v)|
         == |Those(procs, a, v)| - One(p in procs && Belongs(a, procs[p], v)) + One(Belongs(a, proc, v))
  {
    hide Those, Belongs;
    ThoseAfter(procs, p, proc, a, v);
    var rest := Those(procs, a, v) - {p};
    assert Those(procs, a, v) == rest + (if p in Those(procs, a, v) then {p} else {});
  }

  // ---------------------------------------------------------------- the law

  /** The balance of a vertical: it is zero in every state. */
  function Balance(s: System, v: Id): int
    requires v in s.desk.verticals
  {
    s.desk.verticals[v].count + |Those(s.procs, Owing, v)| + |Those(s.procs, Gaining, v)|
    - |Those(s.procs, Losing, v)| - |CountedIn(s.desk.briefs, v)|
  }

  ghost predicate CountsBalance(s: System) {
    forall v :: v in s.desk.verticals ==> Balance(s, v) == 0
  }

  /** How far a statement moves the count, what is owed, and the number of counted briefs: what the
      process itself does not account for is exactly the difference between the row its save was
      supposed to overwrite and the row it found. */
  lemma StatementMoves(d: Desk, proc: Proc, v: Id)
    requires Shaped(proc) && Unfinished(proc)
    ensures var st := NextOf(proc); var next := Ran(d, proc);
      var owed := One(Owes(next, v)) - One(Owes(proc, v));
      && (st.Save? ==> owed + One(Supposed(proc, v)) == One(CountsIn(proc.target, v)))
      && (st.Bump? ==> (if st.vertical == v then st.delta else 0) + owed == 0)
      && (st.Remove? ==> owed == 0 && !Supposed(proc, v))
      && (st.Append? ==> owed == 0)
  {
  }

  lemma FindingMoves(d: Desk, proc: Proc, v: Id)
    requires Shaped(proc) && Unfinished(proc)
    ensures var st := NextOf(proc); var next := Ran(d, proc);
      One(Belongs(Gaining, next, v)) - One(Belongs(Gaining, proc, v)) - One(Belongs(Losing, next, v)) + One(Belongs(Losing, proc, v))
      == if st.Save? || st.Remove?
         then One(Supposed(proc, v)) - One(proc.step.id in d.briefs && CountsIn(d.briefs[proc.step.id], v)) else 0
  {
    NextIsOwn(proc);
    hide NextOf, Plan, Saved, CountsIn;
  }

  lemma RemoveMoves(briefs: map<Id, Brief>, id: Id, v: Id)
    ensures |CountedIn(briefs - {id}, v)| == |CountedIn(briefs, v)| - One(id in briefs && CountsIn(briefs[id], v))
  {
    assert CountedIn(briefs - {id}, v) == CountedIn(briefs, v) - {id};
  }

  lemma SaveMoves(briefs: map<Id, Brief>, id: Id, b: Brief, v: Id)
    ensures |CountedIn(briefs[id := b], v)|
         == |CountedIn(briefs, v)| - One(id in briefs && CountsIn(briefs[id], v)) + One(CountsIn(b, v))
  {
    CountMoves(briefs, id, b, v);
  }

  lemma BriefsMove(d: Desk, proc: Proc, v: Id)
    requires Shaped(proc) && Unfinished(proc)
    ensures var st := NextOf(proc); var id := proc.step.id; var found := One(id in d.briefs && CountsIn(d.briefs[id], v));
      |CountedIn(Apply(d, st).briefs, v)| == |CountedIn(d.briefs, v)|
        + (if st.Save? then One(CountsIn(proc.target, v)) - found else if st.Remove? then -found else 0)
  {
    NextIsOwn(proc);
    hide NextOf, Plan, CountedIn, CountsIn;
    SaveMoves(d.briefs, proc.step.id, proc.target, v);
    RemoveMoves(d.briefs, proc.step.id, v);
  }

  lemma VerticalAfterStatement(d: Desk, st: Statement, v: Id)
    ensures v in Apply(d, st).verticals <==> v in d.verticals
    ensures v in d.verticals ==>
      Apply(d, st).verticals[v]
      == d.verticals[v].(count := d.verticals[v].count + if st.Bump? && st.vertical == v then st.delta else 0)
  {
  }

  lemma AdvanceKeepsBalance(s: System, p: nat, v: Id)
    requires Invariant(s) && Enabled(s, Advance(p)) && v in s.desk.verticals
    ensures v in Moved(s, Advance(p)).desk.verticals && Balance(Moved(s, Advance(p)), v) == Balance(s, v)
  {
    hide Enabled, Moved, Those, Belongs, CountedIn, CountsIn, Supposed, Owes, Plan, NextOf, Ran, Unfinished, Shaped, Apply, DeskHolds;
    Advancing(s, p);
    var proc := s.procs[p];
    assert ProcHolds(s.desk, proc);
    VerticalAfterStatement(s.desk, NextOf(proc), v);
    StatementMoves(s.desk, proc, v);
    FindingMoves(s.desk, proc, v);
    BriefsMove(s.desk, proc, v);
    AllMove(s.procs, p, Ran(s.desk, proc), v);
  }

  lemma AllMove(procs: map<nat, Proc>, p: nat, proc: Proc, v: Id)
    requires p in procs
    ensures |Those(procs[p := proc], Owing, v)| == |Those(procs, Owing, v)| - One(Owes(procs[p], v)) + One(Owes(proc, v))
    ensures |Those(procs[p := proc], Gaining, v)| - |Those(procs[p := proc], Losing, v)|
         == |Those(procs, Gaining, v)| - |Those(procs, Losing, v)|
            - One(Belongs(Gaining, procs[p], v)) + One(Belongs(Gaining, proc, v))
            + One(Belongs(Losing, procs[p], v)) - One(Belongs(Losing, proc, v))
  {
    ThoseMove(procs, p, proc, Owing, v);
    ThoseMove(procs, p, proc, Gaining, v);
    ThoseMove(procs, p, proc, Losing, v);
    hide Those, Supposed, FoundCounted, Owes;
  }

  lemma StartKeepsBalance(s: System, p: nat, step: Step, v: Id)
    requires CountsBalance(s) && Enabled(s, Start(p, step)) && v in Moved(s, Start(p, step)).desk.verticals
    ensures Balance(Moved(s, Start(p, step)), v) == 0
  {
    assert Balance(s, v) == 0;
    var proc := Started(s.desk, step);
    ThoseMove(s.procs, p, proc, Owing, v);
    ThoseMove(s.procs, p, proc, Gaining, v);
    ThoseMove(s.procs, p, proc, Losing, v);
    hide Those, Plan, Performed, CountedIn;
  }

  lemma DieKeepsBalance(s: System, p: nat, v: Id)
    requires CountsBalance(s) && Enabled(s, Die(p)) && v in Moved(s, Die(p)).desk.verticals
    ensures Balance(Moved(s, Die(p)), v) == 0
  {
    assert Balance(s, v) == 0;
    AllMove(s.procs, p, s.procs[p].(live := false), v);
    hide Those, Plan, CountedIn;
  }

  lemma UnknownVerticalIsEmpty(s: System, v: Id, a: Account)
    requires Invariant(s) && v !in s.desk.verticals
    ensures CountedIn(s.desk.briefs, v) == {} && Those(s.procs, a, v) == {}
  {
    forall p | p in s.procs ensures !Belongs(a, s.procs[p], v) {
      assert ProcHolds(s.desk, s.procs[p]);
    }
    forall id | id in s.desk.briefs ensures s.desk.briefs[id].fields.verticalId != Value(v) {
      assert BriefHolds(s.desk, id);
    }
    hide Shaped;
  }

  lemma DirectKeepsBalance(s: System, step: Step, v: Id)
    requires Invariant(s) && CountsBalance(s) && Enabled(s, Direct(step)) && v in Moved(s, Direct(step)).desk.verticals
    ensures Balance(Moved(s, Direct(step)), v) == 0
  {
    if v !in s.desk.verticals {
      UnknownVerticalIsEmpty(s, v, Owing);
      UnknownVerticalIsEmpty(s, v, Gaining);
      UnknownVerticalIsEmpty(s, v, Losing);
    } else {
      assert Balance(s, v) == 0;
    }
    hide Invariant, Those, CountedIn, Plan;
  }

  lemma StepKeepsBalance(s: System, l: Label)
    requires Invariant(s) && CountsBalance(s) && Enabled(s, l)
    ensures CountsBalance(Moved(s, l))
  {
    hide Invariant, Enabled, Moved, Balance;
    var r := Moved(s, l);
    forall v | v in r.desk.verticals ensures Balance(r, v) == 0 {
      match l
      case Advance(p) =>
        NoNewVertical(s, p, v);
        AdvanceKeepsBalance(s, p, v);
      case Start(p, step) => StartKeepsBalance(s, p, step, v);
      case Die(p) => DieKeepsBalance(s, p, v);
      case Direct(step) => DirectKeepsBalance(s, step, v);
    }
  }

  lemma NoNewVertical(s: System, p: nat, v: Id)
    requires Enabled(s, Advance(p)) && v in Moved(s, Advance(p)).desk.verticals
    ensures v in s.desk.verticals
  {
    VerticalAfterStatement(s.desk, NextOf(s.procs[p]), v);
    hide Plan, NextOf, Apply;
  }

  lemma {:induction false} RunKeepsBalance(run: seq<System>, i: nat)
    requires IsRun(run) && i < |run|
    ensures Invariant(run[i]) && CountsBalance(run[i])
  {
    RunKeepsInvariant(run, i);
    if i > 0 {
      RunKeepsBalance(run, i - 1);
      assert CanMove(run[i - 1], run[i - 1 + 1]);
      var l :| Enabled(run[i - 1], l) && run[i] == Moved(run[i - 1], l);
      StepKeepsBalance(run[i - 1], l);
    }
    hide Enabled, Moved, Invariant;
  }

  /** In every state of every interleaving, of operations on one brief too, with any of them cut off
      anywhere, and wherever staff edits and restores move counted briefs: count, owed places and
      gaining saves together are the vertical's counted briefs and losing saves together. So the count
      is right if and only if owed places and gaining saves are as many as losing saves. */
  lemma CountsAddUp(run: seq<System>, i: nat, v: Id)
    requires IsRun(run) && i < |run| && v in run[i].desk.verticals
    ensures var count, briefs := run[i].desk.verticals[v].count, |CountedIn(run[i].desk.briefs, v)|;
      var short := |Those(run[i].procs, Owing, v)| + |Those(run[i].procs, Gaining, v)|;
      && count + short == briefs + |Those(run[i].procs, Losing, v)|
      && (count == briefs <==> short == |Those(run[i].procs, Losing, v)|)
  {
    RunKeepsBalance(run, i);
    hide Those, CountedIn, Invariant, IsRun;
    assert Balance(run[i], v) == 0;
  }

  // ---------------------------------------------------------------- saves that find what was read

  /** An edit under way leaves a counted brief in its vertical. */
  predicate KeepsVertical(proc: Proc) {
    Edits(proc.step) && Counted(proc.was.status) ==> SameVertical(proc.target.fields.verticalId, proc.was.fields.verticalId)
  }

  ghost predicate AllKeepVertical(s: System) {
    forall p :: p in s.procs ==> KeepsVertical(s.procs[p])
  }

  lemma AsReadHasNoDrift(d: Desk, proc: Proc, v: Id)
    requires ProcHolds(d, proc) && AsRead(proc) && KeepsVertical(proc)
    ensures !Belongs(Gaining, proc, v) && !Belongs(Losing, proc, v)
  {
    hide Plan;
  }

  /** While every save found the row as its operation had read it, as it does when operations on one
      brief do not overlap, and staff edits and restores kept counted briefs in place: the count falls
      short of the counted briefs by exactly the submissions and refusals between their two writes, so
      it is right if and only if there are none, and never too high. */
  lemma CountFallsShort(run: seq<System>, i: nat, v: Id)
    requires IsRun(run) && i < |run| && v in run[i].desk.verticals && AllAsRead(run[i]) && AllKeepVertical(run[i])
    ensures var count, briefs := run[i].desk.verticals[v].count, |CountedIn(run[i].desk.briefs, v)|;
      && count + |Those(run[i].procs, Owing, v)| == briefs
      && (count == briefs <==> Those(run[i].procs, Owing, v) == {})
  {
    CountsAddUp(run, i, v);
    RunKeepsInvariant(run, i);
    forall p | p in run[i].procs
      ensures !Belongs(Gaining, run[i].procs[p], v) && !Belongs(Losing, run[i].procs[p], v)
    {
      assert ProcHolds(run[i].desk, run[i].procs[p]);
      AsReadHasNoDrift(run[i].desk, run[i].procs[p], v);
    }
    assert Those(run[i].procs, Gaining, v) == {} && Those(run[i].procs, Losing, v) == {};
    hide CountedIn, Belongs, IsRun, ProcHolds, DeskHolds;
  }

  /** What a process has found, and what a cut-off one owes, stays. */
  lemma {:induction false} CutOffStays(run: seq<System>, i: nat, j: nat, p: nat)
    requires IsRun(run) && i <= j < |run| && p in run[i].procs && !run[i].procs[p].live
    ensures p in run[j].procs && run[j].procs[p] == run[i].procs[p]
    decreases j - i
  {
    if i < j {
      CutOffStays(run, i, j - 1, p);
      assert CanMove(run[j - 1], run[j - 1 + 1]);
      var l :| Enabled(run[j - 1], l) && run[j] == Moved(run[j - 1], l);
    }
    hide Plan, Performed, Accepted;
  }

  /** So once a submission or refusal is cut off between its writes, its vertical's count is too low
      in every such later state. */
  lemma CountStaysShort(run: seq<System>, i: nat, j: nat, p: nat, v: Id)
    requires IsRun(run) && i <= j < |run| && v in run[j].desk.verticals && AllAsRead(run[j]) && AllKeepVertical(run[j])
    requires p in run[i].procs && Owes(run[i].procs[p], v) && !run[i].procs[p].live
    ensures run[j].desk.verticals[v].count < |CountedIn(run[j].desk.briefs, v)|
  {
    CutOffStays(run, i, j, p);
    CountFallsShort(run, j, v);
    assert p in Those(run[j].procs, Owing, v);
    hide CountedIn, IsRun, AllAsRead, AllKeepVertical;
  }

  // ---------------------------------------------------------------- the caps

  function CountOf(d: Desk, v: Id): int {
    if v in d.verticals then d.verticals[v].count else 0
  }

  /** The count with the submissions under way. */
  function Reserved(s: System, v: Id): int {
    CountOf(s.desk, v) + |Those(s.procs, Adding, v)|
  }

  ghost predicate ReservedWithinCaps(s: System) {
    forall v :: v in s.desk.verticals ==> Reserved(s, v) <= s.desk.verticals[v].cap
  }

  /** A submission starts only where there is room with those under way too; no cap is lowered. */
  ghost predicate StartsWithRoom(s: System, l: Label) {
    && (l.Start? && l.step.Submit? && l.step.id in s.desk.briefs ==>
          var v := s.desk.briefs[l.step.id].fields.verticalId;
          v.Value? && v.value in s.desk.verticals ==> Reserved(s, v.value) < s.desk.verticals[v.value].cap)
    && (l.Direct? ==> LowersNoCap(s.desk, l.step))
  }

  /** A submission's own statements leave its reservation as it was; a refusal gives one back. */
  lemma StatementReserves(proc: Proc, found: Found, v: Id)
    requires Shaped(proc) && Unfinished(proc)
    ensures var st := NextOf(proc); var next := proc.(done := proc.done + 1, found := found);
      var moved := (if st.Bump? && st.vertical == v then st.delta else 0) + One(Belongs(Adding, next, v)) - One(Belongs(Adding, proc, v));
      moved <= 0 && (proc.step.Submit? ==> moved == 0)
  {
  }

  lemma AdvanceReserves(s: System, p: nat, v: Id)
    requires Invariant(s) && Enabled(s, Advance(p)) && v in s.desk.verticals
    ensures var r := Moved(s, Advance(p));
      && v in r.desk.verticals && r.desk.verticals[v].cap == s.desk.verticals[v].cap
      && Reserved(r, v) <= Reserved(s, v) && (s.procs[p].step.Submit? ==> Reserved(r, v) == Reserved(s, v))
  {
    hide Enabled, Moved, Those, Belongs, Plan, NextOf, Unfinished, Shaped, Apply, DeskHolds;
    Advancing(s, p);
    assert ProcHolds(s.desk, s.procs[p]);
    VerticalAfterStatement(s.desk, NextOf(s.procs[p]), v);
    StatementReserves(s.procs[p], Ran(s.desk, s.procs[p]).found, v);
    ThoseMove(s.procs, p, Ran(s.desk, s.procs[p]), Adding, v);
  }

  lemma DieReserves(s: System, p: nat, v: Id)
    requires Enabled(s, Die(p))
    ensures var r := Moved(s, Die(p)); r.desk == s.desk && Reserved(r, v) <= Reserved(s, v)
  {
    ThoseMove(s.procs, p, s.procs[p].(live := false), Adding, v);
    hide Those, Plan;
  }

  lemma StartReserves(s: System, p: nat, step: Step, v: Id)
    requires Enabled(s, Start(p, step))
    ensures var r := Moved(s, Start(p, step));
      var added := if step.Submit? && s.desk.briefs[step.id].fields.verticalId == Value(v) then 1 else 0;
      r.desk == s.desk && Reserved(r, v) == Reserved(s, v) + added
  {
    ThoseMove(s.procs, p, Started(s.desk, step), Adding, v);
    hide Those, Plan;
  }

  lemma StartKeepsReserved(s: System, p: nat, step: Step, v: Id)
    requires ReservedWithinCaps(s) && Enabled(s, Start(p, step)) && StartsWithRoom(s, Start(p, step))
    requires v in Moved(s, Start(p, step)).desk.verticals
    ensures Reserved(Moved(s, Start(p, step)), v) <= Moved(s, Start(p, step)).desk.verticals[v].cap
  {
    StartReserves(s, p, step, v);
    hide Reserved, Plan, Moved, Those;
  }

  lemma DirectKeepsReserved(s: System, step: Step, v: Id)
    requires Invariant(s) && ReservedWithinCaps(s) && Enabled(s, Direct(step)) && LowersNoCap(s.desk, step)
    requires v in Moved(s, Direct(step)).desk.verticals
    ensures Reserved(Moved(s, Direct(step)), v) <= Moved(s, Direct(step)).desk.verticals[v].cap
  {
    if v !in s.desk.verticals {
      UnknownVerticalIsEmpty(s, v, Adding);
    }
    hide Invariant, Those, Plan;
  }

  lemma StepKeepsReserved(s: System, l: Label)
    requires Invariant(s) && ReservedWithinCaps(s) && Enabled(s, l) && StartsWithRoom(s, l)
    ensures ReservedWithinCaps(Moved(s, l))
  {
    hide Invariant, Enabled, Moved, Reserved;
    var r := Moved(s, l);
    forall v | v in r.desk.verticals ensures Reserved(r, v) <= r.desk.verticals[v].cap {
      match l
      case Advance(p) =>
        NoNewVertical(s, p, v);
        AdvanceReserves(s, p, v);
      case Die(p) => DieReserves(s, p, v);
      case Start(p, step) =>
        StartKeepsReserved(s, p, step, v);
      case Direct(step) => DirectKeepsReserved(s, step, v);
    }
  }

  // ---------------------------------------------------------------- when a cap can be overrun

  /** Nothing new starts: the processes go on or die. */
  ghost predicate GoesOn(s: System, r: System) {
    exists l: Label :: (l.Advance? || l.Die?) && Enabled(s, l) && r == Moved(s, l)
  }

  ghost predicate Continuation(s: System, path: seq<System>) {
    && 0 < |path| && path[0] == s
    && forall i :: 0 <= i < |path| - 1 ==> GoesOn(path[i], path[i + 1])
  }

  lemma {:induction false} ContinuationReserves(s: System, path: seq<System>, j: nat, v: Id)
    requires Invariant(s) && v in s.desk.verticals && Continuation(s, path) && j < |path|
    ensures Invariant(path[j]) && v in path[j].desk.verticals
    ensures path[j].desk.verticals[v].cap == s.desk.verticals[v].cap && Reserved(path[j], v) <= Reserved(s, v)
  {
    hide Invariant, Enabled, Moved, Reserved;
    if j > 0 {
      ContinuationReserves(s, path, j - 1, v);
      assert GoesOn(path[j - 1], path[j - 1 + 1]);
      var l: Label :| (l.Advance? || l.Die?) && Enabled(path[j - 1], l) && path[j] == Moved(path[j - 1], l);
      StepKeepsInvariant(path[j - 1], l);
      if l.Advance? {
        AdvanceReserves(path[j - 1], l.p, v);
      } else {
        DieReserves(path[j - 1], l.p, v);
      }
    }
  }

  /** Every submission under way can reach its count. */
  lemma {:induction false} SubmissionsFinish(s: System, v: Id) returns (path: seq<System>)
    requires Invariant(s) && v in s.desk.verticals
    ensures Continuation(s, path)
    ensures var r := path[|path| - 1];
      v in r.desk.verticals && r.desk.verticals[v].count == Reserved(s, v) && r.desk.verticals[v].cap == s.desk.verticals[v].cap
    decreases |Those(s.procs, Adding, v)|
  {
    if Those(s.procs, Adding, v) == {} {
      path := [s];
    } else {
      var p :| p in Those(s.procs, Adding, v);
      var head, r := SubmissionCounts(s, v, p);
      var tail := SubmissionsFinish(r, v);
      path := head + tail;
    }
    hide Invariant, Those, GoesOn;
  }

  lemma SubmissionCounts(s: System, v: Id, p: nat) returns (head: seq<System>, r: System)
    requires Invariant(s) && v in s.desk.verticals && p in Those(s.procs, Adding, v)
    ensures Continuation(s, head) && GoesOn(head[|head| - 1], r) && Invariant(r)
    ensures v in r.desk.verticals && r.desk.verticals[v].cap == s.desk.verticals[v].cap
    ensures Reserved(r, v) == Reserved(s, v) && |Those(r.procs, Adding, v)| < |Those(s.procs, Adding, v)|
  {
    hide Invariant, Enabled, Moved, Reserved, Plan, Apply, NextOf, Unfinished;
    var s1 := s;
    head := [s];
    SubmissionHasWork(s, v, p);
    if s.procs[p].done == 0 {
      var first := Advance(p);
      assert Enabled(s, first);
      StepKeepsInvariant(s, first);
      AdvanceReserves(s, p, v);
      Advancing(s, p);
      s1 := Moved(s, first);
      assert GoesOn(s, s1);
      head := [s, s1];
      ThoseMove(s.procs, p, s1.procs[p], Adding, v);
      SubmissionHasWork(s1, v, p);
    }
    var second := Advance(p);
    assert Enabled(s1, second);
    StepKeepsInvariant(s1, second);
    AdvanceReserves(s1, p, v);
    Advancing(s1, p);
    r := Moved(s1, second);
    ThoseMove(s1.procs, p, r.procs[p], Adding, v);
    hide Those, Ran;
  }

  lemma SubmissionHasWork(s: System, v: Id, p: nat)
    requires Invariant(s) && p in Those(s.procs, Adding, v)
    ensures p in s.procs && Belongs(Adding, s.procs[p], v) && s.procs[p].done <= 1 && s.procs[p].step.Submit? && Enabled(s, Advance(p))
  {
    assert ProcHolds(s.desk, s.procs[p]);
  }

  ghost predicate Overruns(s: System, v: Id)
    requires v in s.desk.verticals
  {
    exists path: seq<System> :: Continuation(s, path) && v in path[|path| - 1].desk.verticals
      && s.desk.verticals[v].cap < path[|path| - 1].desk.verticals[v].count
  }

  /** A vertical can come to exceed its cap, with nothing new starting, if and only if its count and
      the submissions under way exceed it already: the check before a submission ignores them. */
  lemma OverrunExactly(s: System, v: Id)
    requires Invariant(s) && v in s.desk.verticals
    ensures Overruns(s, v) <==> s.desk.verticals[v].cap < Reserved(s, v)
  {
    if s.desk.verticals[v].cap < Reserved(s, v) {
      var path := SubmissionsFinish(s, v);
      assert Continuation(s, path);
    } else {
      forall path: seq<System> | Continuation(s, path)
        ensures v in path[|path| - 1].desk.verticals && path[|path| - 1].desk.verticals[v].count <= s.desk.verticals[v].cap
      {
        ContinuationReserves(s, path, |path| - 1, v);
      }
    }
    hide Invariant, Continuation, Those;
  }

  ghost predicate CanMoveWithRoom(s: System, r: System) {
    exists l :: Enabled(s, l) && StartsWithRoom(s, l) && r == Moved(s, l)
  }

  ghost predicate IsRunWithRoom(run: seq<System>) {
    0 < |run| && run[0] == IDLE && forall i :: 0 <= i < |run| - 1 ==> CanMoveWithRoom(run[i], run[i + 1])
  }

  lemma {:induction false} RunKeepsReserved(run: seq<System>, i: nat)
    requires IsRunWithRoom(run) && i < |run|
    ensures Invariant(run[i]) && ReservedWithinCaps(run[i])
  {
    if i > 0 {
      RunKeepsReserved(run, i - 1);
      assert CanMoveWithRoom(run[i - 1], run[i - 1 + 1]);
      var l :| Enabled(run[i - 1], l) && StartsWithRoom(run[i - 1], l) && run[i] == Moved(run[i - 1], l);
      StepKeepsInvariant(run[i - 1], l);
      StepKeepsReserved(run[i - 1], l);
    }
    hide Enabled, Moved;
  }

  /** In every interleaving, of operations on one brief too, in which a submission starts only where there is room with those under
      way too, and no cap is lowered, no count ever exceeds its cap. */
  lemma CountStaysWithinCap(run: seq<System>, i: nat, v: Id)
    requires IsRunWithRoom(run) && i < |run| && v in run[i].desk.verticals
    ensures run[i].desk.verticals[v].count <= run[i].desk.verticals[v].cap
  {
    RunKeepsReserved(run, i);
    hide Invariant;
  }

  /** Two submissions into the last place of a vertical both pass the check, and then the cap can be
      overrun. */
  lemma RacingSubmissionsOverrun(s: System, v: Id, a: Id, b: Id, p: nat, q: nat)
    requires Invariant(s) && v in s.desk.verticals && s.desk.verticals[v].count + 1 == s.desk.verticals[v].cap
    requires a in s.desk.briefs && b in s.desk.briefs
    requires s.desk.briefs[a].fields.verticalId == Value(v) && Editable(s.desk.briefs[a].status)
    requires s.desk.briefs[b].fields.verticalId == Value(v) && Editable(s.desk.briefs[b].status)
    requires p !in s.procs && q !in s.procs && p != q
    ensures Enabled(s, Start(p, Submit(a))) && Enabled(Moved(s, Start(p, Submit(a))), Start(q, Submit(b)))
    ensures var r := Moved(Moved(s, Start(p, Submit(a))), Start(q, Submit(b)));
      v in r.desk.verticals && Overruns(r, v)
  {
    var one := Moved(s, Start(p, Submit(a)));
    StartReserves(s, p, Submit(a), v);
    StepKeepsInvariant(s, Start(p, Submit(a)));
    StartReserves(one, q, Submit(b), v);
    StepKeepsInvariant(one, Start(q, Submit(b)));
    var r := Moved(one, Start(q, Submit(b)));
    OverrunExactly(r, v);
    hide Invariant, Overruns, Plan, Those, Performed;
  }

  /** Nothing keeps two submissions of one brief from both reading the draft, and then they count it
      twice. */
  lemma DoubleSubmissionCountsTwice(d: Desk, id: Id, v: Id)
    requires Conserved(d) && Accepted(d, Submit(id)) && d.briefs[id].fields.verticalId == Value(v)
    ensures var p := Started(d, Submit(id)); var plan := Plan(p.step, p.was, p.target);
      var r := ApplyAll(ApplyAll(d, plan), plan);
      v in r.verticals && r.verticals[v].count == |CountedIn(r.briefs, v)| + 1
  {
    var p := Started(d, Submit(id));
    var note := Revision(id, p.was.version, None);
    assert Plan(p.step, p.was, p.target) == [Save(id, p.target), Bump(v, 1), Append(note)];
    CountMoves(d.briefs, id, p.target, v);
    SubmissionApplied(d, id, p.target, v, note);
    SubmissionApplied(ApplyAll(d, Plan(p.step, p.was, p.target)), id, p.target, v, note);
    assert d.briefs[id := p.target][id := p.target] == d.briefs[id := p.target];
    hide CountedIn, ApplyAll;
  }

  lemma SubmissionApplied(d: Desk, id: Id, target: Brief, v: Id, note: Revision)
    requires v in d.verticals
    ensures var r := ApplyAll(d, [Save(id, target), Bump(v, 1), Append(note)]);
      r.briefs == d.briefs[id := target] && v in r.verticals && r.verticals[v].count == d.verticals[v].count + 1
  {
    ApplyThree(d, Save(id, target), Bump(v, 1), Append(note));
    hide ApplyAll;
  }
}
