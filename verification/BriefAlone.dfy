/** One brief operation whose statements nobody interrupts, as a run of the interleaved model. */
module BriefAlone {
  import opened Prelude
  import opened BriefLifecycle
  import opened BriefStatements

  /** The labels lead from one state to the other. */
  ghost predicate Leads(s: System, labels: seq<Label>, r: System)
    decreases labels
  {
    if labels == [] then s == r else Enabled(s, labels[0]) && Leads(Moved(s, labels[0]), labels[1..], r)
  }

  function Advances(p: nat, n: nat): seq<Label> {
    if n == 0 then [] else [Advance(p)] + Advances(p, n - 1)
  }

  function PlanOf(proc: Proc): seq<Statement>
    requires OnBrief(proc.step)
  {
    Plan(proc.step, proc.was, proc.target)
  }

  ghost predicate Underway(s: System, p: nat) {
    p in s.procs && s.procs[p].live && OnBrief(s.procs[p].step) && s.procs[p].done <= |PlanOf(s.procs[p])|
  }

  /** The other statements follow one after the other. */
  lemma {:induction false} Finishes(s: System, p: nat) returns (r: System)
    requires Underway(s, p)
    ensures Leads(s, Advances(p, |PlanOf(s.procs[p])| - s.procs[p].done), r)
    ensures r.desk == ApplyAll(s.desk, PlanOf(s.procs[p])[s.procs[p].done..])
    ensures p in r.procs && r.procs - {p} == s.procs - {p}
    ensures r.procs[p].step == s.procs[p].step && r.procs[p].done == |PlanOf(s.procs[p])|
    decreases |PlanOf(s.procs[p])| - s.procs[p].done
  {
    hide Plan, Apply, Enabled, Moved;
    var proc := s.procs[p];
    var plan := PlanOf(proc);
    if proc.done == |plan| {
      r := s;
      assert plan[proc.done..] == [];
    } else {
      CanAdvance(s, p);
      var next := Moved(s, Advance(p));
      r := Finishes(next, p);
      var n := |plan| - proc.done;
      assert Advances(p, n)[1..] == Advances(p, n - 1);
      assert plan[proc.done..][1..] == plan[proc.done + 1..];
    }
  }

  lemma CanAdvance(s: System, p: nat)
    requires Underway(s, p) && s.procs[p].done < |PlanOf(s.procs[p])|
    ensures Enabled(s, Advance(p))
    ensures var next := Moved(s, Advance(p)); var proc := s.procs[p];
      && Underway(next, p) && next.desk == Apply(s.desk, PlanOf(proc)[proc.done])
      && PlanOf(next.procs[p]) == PlanOf(proc) && next.procs[p].step == proc.step && next.procs[p].done == proc.done + 1
      && next.procs - {p} == s.procs - {p}
  {
    hide Plan, Apply;
  }

  /** An accepted operation can always start, and when nothing comes between its statements, it does
      exactly what its step does, and leaves every other operation where it was. */
  lemma UninterruptedPerforms(s: System, p: nat, step: Step) returns (n: nat, r: System)
    requires SnapshotsHold(s.desk) && p !in s.procs && OnBrief(step) && Accepted(s.desk, step)
    requires step.Create? ==> Fresh(s, step.id)
    ensures Leads(s, [Start(p, step)] + Advances(p, n), r)
    ensures r.desk == Performed(s.desk, step) && r.procs - {p} == s.procs
  {
    hide Plan, Apply, Accepted, Performed, SnapshotsHold;
    var started := s.(procs := s.procs[p := Started(s.desk, step)]);
    assert Enabled(s, Start(p, step)) && Moved(s, Start(p, step)) == started;
    StartedIs(s.desk, step);
    r := Finishes(started, p);
    n := |PlanOf(started.procs[p])|;
    WholePlanPerforms(s.desk, step);
    assert ([Start(p, step)] + Advances(p, n))[1..] == Advances(p, n);
    assert started.procs - {p} == s.procs;
    hide Enabled, Moved;
  }

  lemma StartedIs(d: Desk, step: Step)
    requires OnBrief(step) && Accepted(d, step)
    ensures var proc := Started(d, step); proc.step == step && proc.done == 0 && proc.live && proc.found == NotYet
  {
    hide Accepted, Performed;
  }
}
