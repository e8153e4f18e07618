/** What the interleaved trigger answers, and which claims the sessions that transactions write
    belong to. */
module BookingRuns {
  import opened Prelude
  import opened Bookings

  // ---------------------------------------------------------------- the claims behind the sessions

  /** The session belongs to an active claim of its team and mentor. */
  predicate Claimed(claims: map<Id, Claim>, row: Session) {
    row.claim in claims && claims[row.claim].active && claims[row.claim].team == row.team && claims[row.claim].mentor == row.mentor
  }

  predicate TakesTime(row: Session) {
    !row.deleted && (row.status == Scheduled || row.status == Confirmed)
  }

  /** What a transaction has checked stays so: it holds the locks of those claims. */
  ghost predicate TxClaimed(claims: map<Id, Claim>, tx: Tx) {
    && (forall id :: id in Intent(tx) && TakesTime(Intent(tx)[id]) ==>
          Claimed(claims, Intent(tx)[id]) && ClaimRow(Intent(tx)[id].claim) in tx.locks)
    && (tx.stage.ClaimLocked? ==> ClaimRow(tx.stage.row.claim) in tx.locks)
    && (tx.stage.ClaimChecked? || tx.stage.MentorLocked? ==>
          Claimed(claims, tx.stage.row) && ClaimRow(tx.stage.row.claim) in tx.locks)
  }

  lemma OwnIntent(s: System, l: Label, t: nat)
    requires Enabled(s, l) && !l.ChangeClaim? && l.t == t && t in s.txs && t in Step(s, l).txs
    ensures var was, tx := s.txs[t], Step(s, l).txs[t];
      Intent(tx) == if l.SkipChecks? || l.CheckOverlap? then Intent(was)[was.stage.id := was.stage.row] else Intent(was)
  {
    hide Available, CountedFor, MentorFree, Booked, ClaimMatches;
  }

  lemma OwnStage(s: System, l: Label, t: nat)
    requires Enabled(s, l) && !l.ChangeClaim? && l.t == t && t in s.txs && t in Step(s, l).txs
    ensures var was, tx := s.txs[t], Step(s, l).txs[t];
      && was.locks <= tx.locks && Step(s, l).claims == s.claims
      && (tx.stage.ClaimLocked? ==> ClaimRow(tx.stage.row.claim) in tx.locks)
      && (tx.stage.ClaimChecked? ==> was.stage.ClaimLocked? && was.stage.row == tx.stage.row && Claimed(s.claims, tx.stage.row))
      && (tx.stage.MentorLocked? ==> was.stage.ClaimChecked? && was.stage.row == tx.stage.row)
      && (l.SkipChecks? ==> was.stage.Entered? && !TakesTime(was.stage.row))
      && (l.CheckOverlap? ==> was.stage.MentorLocked?)
  {
    hide Available, CountedFor, MentorFree, Intent;
  }

  lemma OtherStep(s: System, l: Label, t: nat)
    requires Enabled(s, l) && (l.ChangeClaim? || l.t != t) && t in Step(s, l).txs
    ensures t in s.txs && Step(s, l).txs[t] == s.txs[t]
    ensures forall claim :: ClaimRow(claim) in s.txs[t].locks && claim in s.claims ==>
      claim in Step(s, l).claims && Step(s, l).claims[claim] == s.claims[claim]
  {
    hide Available, CountedFor, MentorFree, Booked, ClaimMatches;
  }

  lemma NewTx(s: System, l: Label, t: nat)
    requires Enabled(s, l) && t in Step(s, l).txs && t !in s.txs
    ensures Step(s, l).txs[t] == Tx(map[], {}, Idle)
  {
    hide Available, CountedFor, MentorFree, Booked, ClaimMatches;
  }

  lemma OtherKeepsClaimed(s: System, l: Label, t: nat)
    requires Enabled(s, l) && (l.ChangeClaim? || l.t != t) && t in Step(s, l).txs && t in s.txs && TxClaimed(s.claims, s.txs[t])
    ensures TxClaimed(Step(s, l).claims, Step(s, l).txs[t])
  {
    OtherStep(s, l, t);
    hide Enabled, Step, Intent, TakesTime;
  }

  lemma OwnKeepsClaimed(s: System, l: Label, t: nat)
    requires Enabled(s, l) && !l.ChangeClaim? && l.t == t && t in Step(s, l).txs && t in s.txs && TxClaimed(s.claims, s.txs[t])
    ensures TxClaimed(Step(s, l).claims, Step(s, l).txs[t])
  {
    OwnIntent(s, l, t);
    OwnStage(s, l, t);
    hide Enabled, Step, Intent, Claimed, TakesTime;
  }

  lemma StepKeepsClaimed(s: System, l: Label, t: nat)
    requires Enabled(s, l) && t in Step(s, l).txs && (t in s.txs ==> TxClaimed(s.claims, s.txs[t]))
    ensures TxClaimed(Step(s, l).claims, Step(s, l).txs[t])
  {
    hide Enabled, Step;
    if t !in s.txs {
      NewTx(s, l, t);
    } else if l.ChangeClaim? || l.t != t {
      OtherKeepsClaimed(s, l, t);
    } else {
      OwnKeepsClaimed(s, l, t);
    }
  }

  lemma {:induction false} RunKeepsClaimed(run: seq<System>, i: nat, t: nat)
    requires IsRun(run) && i < |run| && t in run[i].txs
    ensures TxClaimed(run[i].claims, run[i].txs[t])
  {
    hide TxClaimed, Enabled, Step;
    if i > 0 {
      assert CanStep(run[i - 1], run[i - 1 + 1]);
      var l :| Enabled(run[i - 1], l) && run[i] == Step(run[i - 1], l);
      if t in run[i - 1].txs {
        RunKeepsClaimed(run, i - 1, t);
      }
      StepKeepsClaimed(run[i - 1], l, t);
    }
  }

  /** Under every interleaving of transactions and of changes to claims: when a transaction commits,
      each session it writes that takes the mentor's time belongs, at that moment, to an active claim of
      its team and mentor. */
  lemma CommittedSessionsAreClaimed(run: seq<System>, i: nat, t: nat, id: Id)
    requires IsRun(run) && i < |run| && Enabled(run[i], Commit(t)) && id in run[i].txs[t].pending
    ensures var row := run[i].txs[t].pending[id];
      !row.deleted && (row.status == Scheduled || row.status == Confirmed) ==>
        && row.claim in run[i].claims && run[i].claims[row.claim].active
        && run[i].claims[row.claim].team == row.team && run[i].claims[row.claim].mentor == row.mentor
  {
    RunKeepsClaimed(run, i, t);
    assert Intent(run[i].txs[t]) == run[i].txs[t].pending;
  }

  ghost predicate ClaimsStand(run: seq<System>) {
    forall i :: 0 <= i < |run| ==> run[i].claims == run[0].claims
  }

  ghost predicate AllClaimed(claims: map<Id, Claim>, sessions: map<Id, Session>) {
    forall id :: id in sessions && TakesTime(sessions[id]) ==> Claimed(claims, sessions[id])
  }

  lemma StepKeepsAllClaimed(s: System, l: Label)
    requires Enabled(s, l) && AllClaimed(s.claims, s.sessions) && Step(s, l).claims == s.claims
    requires forall t :: t in s.txs ==> TxClaimed(s.claims, s.txs[t])
    ensures AllClaimed(Step(s, l).claims, Step(s, l).sessions)
  {
    SessionsAfter(s, l);
    if l.Commit? {
      assert TxClaimed(s.claims, s.txs[l.t]);
    }
    hide Enabled, Step, Claimed;
  }

  /** So while claims stand, every committed session that takes the mentor's time belongs to one. */
  lemma {:induction false} SessionsAreClaimed(run: seq<System>, i: nat)
    requires IsRun(run) && ClaimsStand(run) && i < |run|
    ensures AllClaimed(run[i].claims, run[i].sessions)
  {
    hide Enabled, Step, TxClaimed;
    if i > 0 {
      SessionsAreClaimed(run, i - 1);
      assert CanStep(run[i - 1], run[i - 1 + 1]);
      var l :| Enabled(run[i - 1], l) && run[i] == Step(run[i - 1], l);
      var before := run[i - 1];
      forall t | t in before.txs ensures TxClaimed(before.claims, before.txs[t]) {
        RunKeepsClaimed(run, i - 1, t);
      }
      StepKeepsAllClaimed(run[i - 1], l);
    }
  }

  // ---------------------------------------------------------------- one verdict

  /** Under every interleaving the trigger answers what `Judge` answers for the rows its transaction sees:
      it skips its checks exactly for rows that take no time, gets past the claim exactly when the verdict
      is not about the claim, and past the overlap check exactly when the mentor is free. */
  lemma StepsGiveTheVerdict(s: System, t: nat)
    requires t in s.txs && !s.txs[t].stage.Idle?
    ensures var tx := s.txs[t]; var id, row := tx.stage.id, tx.stage.row; var v := Judge(View(s, tx), s.claims, id, row);
      && (tx.stage.Entered? ==> (Enabled(s, SkipChecks(t)) <==> row.deleted || (row.status != Scheduled && row.status != Confirmed)))
      && (tx.stage.Entered? && Enabled(s, SkipChecks(t)) ==> v == Accepted && !Enabled(s, LockClaim(t)))
      && (tx.stage.ClaimLocked? && TakesTime(row) ==> (Enabled(s, CheckClaim(t)) <==> v == Accepted || v == MentorIsBusy))
      && (tx.stage.MentorLocked? && TakesTime(row) && v != NotAnActiveClaim && v != ClaimIsFull ==>
            (Enabled(s, CheckOverlap(t)) <==> v == Accepted))
  {
    hide CountedFor, MentorFree;
  }

  // ---------------------------------------------------------------- one transaction alone

  /** The labels lead from one state to the other. */
  ghost predicate Leads(s: System, labels: seq<Label>, r: System)
    decreases labels
  {
    if labels == [] then s == r else Enabled(s, labels[0]) && Leads(Step(s, labels[0]), labels[1..], r)
  }

  lemma {:induction false} LeadsOn(s: System, a: seq<Label>, m: System, l: Label)
    requires Leads(s, a, m) && Enabled(m, l)
    ensures Leads(s, a + [l], Step(m, l))
    decreases a
  {
    hide Enabled, Step;
    if a == [] {
      assert a + [l] == [l];
      assert [l][1..] == [];
      assert Leads(Step(m, l), [], Step(m, l));
    } else {
      LeadsOn(Step(s, a[0]), a[1..], m, l);
      assert (a + [l])[1..] == a[1..] + [l];
    }
  }

  function WithTx(s: System, t: nat, tx: Tx): System {
    s.(txs := s.txs[t := tx])
  }

  /** Nobody holds a lock the row needs. */
  ghost predicate Free(s: System, id: Id, row: Session) {
    forall u :: u in s.txs ==> s.txs[u].locks !! {SessionRow(id), ClaimRow(row.claim), MentorRow(row.mentor)}
  }

  /** The transaction's record while it works on the row with the locks taken so far. */
  function Busy(locks: set<Lock>, stage: Stage): Tx {
    Tx(map[], locks, stage)
  }

  lemma Entering(s: System, t: nat, id: Id, row: Session)
    requires t !in s.txs && Free(s, id, row)
    ensures var begun := WithTx(s, t, Busy({}, Idle)); var entered := WithTx(s, t, Busy({SessionRow(id)}, Entered(id, row)));
      && Enabled(s, Begin(t)) && Step(s, Begin(t)) == begun
      && Enabled(begun, Enter(t, id, row)) && Step(begun, Enter(t, id, row)) == entered
  {
    hide CountedFor, MentorFree, Booked, ClaimMatches;
    assert {} + {SessionRow(id)} == {SessionRow(id)};
    var begun := WithTx(s, t, Busy({}, Idle));
    assert Step(begun, Enter(t, id, row)).txs == WithTx(s, t, Busy({SessionRow(id)}, Entered(id, row))).txs;
  }

  lemma LockingClaim(s: System, t: nat, id: Id, row: Session)
    requires t !in s.txs && Free(s, id, row) && TakesTime(row)
    ensures var entered := WithTx(s, t, Busy({SessionRow(id)}, Entered(id, row)));
      var locked := WithTx(s, t, Busy({SessionRow(id), ClaimRow(row.claim)}, ClaimLocked(id, row)));
      Enabled(entered, LockClaim(t)) && Step(entered, LockClaim(t)) == locked
  {
    hide CountedFor, MentorFree, ClaimMatches;
    var entered := WithTx(s, t, Busy({SessionRow(id)}, Entered(id, row)));
    assert {SessionRow(id)} + {ClaimRow(row.claim)} == {SessionRow(id), ClaimRow(row.claim)};
    assert Step(entered, LockClaim(t)).txs == WithTx(s, t, Busy({SessionRow(id), ClaimRow(row.claim)}, ClaimLocked(id, row))).txs;
  }

  lemma CheckingClaim(s: System, t: nat, id: Id, row: Session)
    requires t !in s.txs && Claimed(s.claims, row) && |CountedFor(s.sessions, row.claim) - {id}| < 3
    ensures var two := {SessionRow(id), ClaimRow(row.claim)};
      var locked := WithTx(s, t, Busy(two, ClaimLocked(id, row)));
      Enabled(locked, CheckClaim(t)) && Step(locked, CheckClaim(t)) == WithTx(s, t, Busy(two, ClaimChecked(id, row)))
  {
    hide CountedFor, MentorFree, Available, Booked;
    var two := {SessionRow(id), ClaimRow(row.claim)};
    var locked := WithTx(s, t, Busy(two, ClaimLocked(id, row)));
    assert s.sessions + map[] == s.sessions;
    assert View(locked, locked.txs[t]) == s.sessions;
    assert Step(locked, CheckClaim(t)).txs == WithTx(s, t, Busy(two, ClaimChecked(id, row))).txs;
  }

  lemma LockingMentor(s: System, t: nat, id: Id, row: Session)
    requires t !in s.txs && Free(s, id, row)
    ensures var two := {SessionRow(id), ClaimRow(row.claim)};
      var checked := WithTx(s, t, Busy(two, ClaimChecked(id, row)));
      && Enabled(checked, LockMentor(t))
      && Step(checked, LockMentor(t)) == WithTx(s, t, Busy(two + {MentorRow(row.mentor)}, MentorLocked(id, row)))
  {
    hide CountedFor, MentorFree, Booked, ClaimMatches;
    var two := {SessionRow(id), ClaimRow(row.claim)};
    var checked := WithTx(s, t, Busy(two, ClaimChecked(id, row)));
    assert Step(checked, LockMentor(t)).txs == WithTx(s, t, Busy(two + {MentorRow(row.mentor)}, MentorLocked(id, row))).txs;
  }

  lemma CheckingOverlap(s: System, t: nat, id: Id, row: Session)
    requires t !in s.txs && MentorFree(s.sessions, id, row)
    ensures var three := {SessionRow(id), ClaimRow(row.claim)} + {MentorRow(row.mentor)};
      var locked := WithTx(s, t, Busy(three, MentorLocked(id, row)));
      Enabled(locked, CheckOverlap(t)) && Step(locked, CheckOverlap(t)) == WithTx(s, t, Busy(three, Checked(id, row)))
  {
    hide CountedFor, MentorFree, Booked, ClaimMatches, Available;
    var three := {SessionRow(id), ClaimRow(row.claim)} + {MentorRow(row.mentor)};
    var locked := WithTx(s, t, Busy(three, MentorLocked(id, row)));
    assert s.sessions + map[] == s.sessions;
    assert Step(locked, CheckOverlap(t)).txs == WithTx(s, t, Busy(three, Checked(id, row))).txs;
  }

  lemma Writing(s: System, t: nat, id: Id, row: Session, locks: set<Lock>)
    requires t !in s.txs
    ensures var checked := WithTx(s, t, Busy(locks, Checked(id, row))); var written := WithTx(s, t, Tx(map[id := row], locks, Idle));
      && Enabled(checked, Bookings.Write(t)) && Step(checked, Bookings.Write(t)) == written
      && Enabled(written, Commit(t)) && Step(written, Commit(t)) == s.(sessions := s.sessions[id := row])
  {
    hide CountedFor, MentorFree, Booked, ClaimMatches, Available;
    var checked := WithTx(s, t, Busy(locks, Checked(id, row)));
    var written := WithTx(s, t, Tx(map[id := row], locks, Idle));
    assert Step(checked, Bookings.Write(t)).txs == written.txs;
    assert Step(written, Commit(t)).txs == s.txs;
    assert s.sessions + map[id := row] == s.sessions[id := row];
  }

  /** The steps of one row. */
  function Labels(t: nat, id: Id, row: Session): seq<Label> {
    (if TakesTime(row)
     then [Begin(t)] + [Enter(t, id, row)] + [LockClaim(t)] + [CheckClaim(t)] + [LockMentor(t)] + [CheckOverlap(t)]
     else [Begin(t)] + [Enter(t, id, row)] + [SkipChecks(t)]) + [Bookings.Write(t)] + [Commit(t)]
  }

  lemma Skipping(s: System, t: nat, id: Id, row: Session)
    requires t !in s.txs && !TakesTime(row)
    ensures var entered := WithTx(s, t, Busy({SessionRow(id)}, Entered(id, row)));
      Enabled(entered, SkipChecks(t)) && Step(entered, SkipChecks(t)) == WithTx(s, t, Busy({SessionRow(id)}, Checked(id, row)))
  {
    hide CountedFor, MentorFree, ClaimMatches, Available;
    var entered := WithTx(s, t, Busy({SessionRow(id)}, Entered(id, row)));
    assert Step(entered, SkipChecks(t)).txs == WithTx(s, t, Busy({SessionRow(id)}, Checked(id, row))).txs;
  }

  lemma FirstLabel(s: System, l: Label)
    requires Enabled(s, l)
    ensures Leads(s, [l], Step(s, l))
  {
    hide Enabled, Step;
  }

  lemma EnteringLeads(s: System, t: nat, id: Id, row: Session)
    requires t !in s.txs && Free(s, id, row)
    ensures Leads(s, [Begin(t)] + [Enter(t, id, row)], WithTx(s, t, Busy({SessionRow(id)}, Entered(id, row))))
  {
    Entering(s, t, id, row);
    FirstLabel(s, Begin(t));
    LeadsOn(s, [Begin(t)], Step(s, Begin(t)), Enter(t, id, row));
    hide Leads, Enabled, Step;
  }

  /** A transaction that writes one row, while nobody holds the locks it needs, goes through whenever the
      verdict is `Accepted`: it leaves the table with that row and everything else alone. */
  lemma AcceptedGoesThrough(s: System, t: nat, id: Id, row: Session)
    requires t !in s.txs && Free(s, id, row) && Judge(s.sessions, s.claims, id, row) == Accepted
    ensures Leads(s, Labels(t, id, row), s.(sessions := s.sessions[id := row]))
  {
    hide Leads, Enabled, Step, CountedFor, MentorFree, Free;
    EnteringLeads(s, t, id, row);
    var entered := WithTx(s, t, Busy({SessionRow(id)}, Entered(id, row)));
    var labels, locks := [Begin(t)] + [Enter(t, id, row)], {SessionRow(id)};
    if TakesTime(row) {
      LockingClaim(s, t, id, row);
      CheckingClaim(s, t, id, row);
      LockingMentor(s, t, id, row);
      CheckingOverlap(s, t, id, row);
      var claimLocked, claimChecked := Step(entered, LockClaim(t)), Step(Step(entered, LockClaim(t)), CheckClaim(t));
      LeadsOn(s, labels, entered, LockClaim(t));
      labels := labels + [LockClaim(t)];
      LeadsOn(s, labels, claimLocked, CheckClaim(t));
      labels := labels + [CheckClaim(t)];
      LeadsOn(s, labels, claimChecked, LockMentor(t));
      labels := labels + [LockMentor(t)];
      LeadsOn(s, labels, Step(claimChecked, LockMentor(t)), CheckOverlap(t));
      labels := labels + [CheckOverlap(t)];
      locks := {SessionRow(id), ClaimRow(row.claim)} + {MentorRow(row.mentor)};
    } else {
      Skipping(s, t, id, row);
      LeadsOn(s, labels, entered, SkipChecks(t));
      labels := labels + [SkipChecks(t)];
    }
    Writing(s, t, id, row, locks);
    var checked := WithTx(s, t, Busy(locks, Checked(id, row)));
    LeadsOn(s, labels, checked, Bookings.Write(t));
    LeadsOn(s, labels + [Bookings.Write(t)], Step(checked, Bookings.Write(t)), Commit(t));
  }

  lemma ClaimReached(s: System, t: nat, id: Id, row: Session) returns (labels: seq<Label>, m: System)
    requires t !in s.txs && Free(s, id, row) && TakesTime(row)
    ensures m == WithTx(s, t, Busy({SessionRow(id), ClaimRow(row.claim)}, ClaimLocked(id, row))) && Leads(s, labels, m)
  {
    hide Leads, Enabled, Step, Free;
    EnteringLeads(s, t, id, row);
    LockingClaim(s, t, id, row);
    var entered := WithTx(s, t, Busy({SessionRow(id)}, Entered(id, row)));
    LeadsOn(s, [Begin(t)] + [Enter(t, id, row)], entered, LockClaim(t));
    labels, m := [Begin(t)] + [Enter(t, id, row)] + [LockClaim(t)], Step(entered, LockClaim(t));
  }

  lemma MentorReached(s: System, t: nat, id: Id, row: Session) returns (labels: seq<Label>, m: System)
    requires t !in s.txs && Free(s, id, row) && TakesTime(row)
    requires Claimed(s.claims, row) && |CountedFor(s.sessions, row.claim) - {id}| < 3
    ensures m == WithTx(s, t, Busy({SessionRow(id), ClaimRow(row.claim)} + {MentorRow(row.mentor)}, MentorLocked(id, row)))
    ensures Leads(s, labels, m)
  {
    hide Leads, Enabled, Step, CountedFor;
    labels, m := ClaimReached(s, t, id, row);
    CheckingClaim(s, t, id, row);
    LeadsOn(s, labels, m, CheckClaim(t));
    LockingMentor(s, t, id, row);
    LeadsOn(s, labels + [CheckClaim(t)], Step(m, CheckClaim(t)), LockMentor(t));
    labels, m := labels + [CheckClaim(t)] + [LockMentor(t)], Step(Step(m, CheckClaim(t)), LockMentor(t));
  }

  lemma AbortGoesBack(s: System, t: nat, tx: Tx)
    requires t !in s.txs
    ensures Enabled(WithTx(s, t, tx), Abort(t)) && Step(WithTx(s, t, tx), Abort(t)) == s
  {
    assert Step(WithTx(s, t, tx), Abort(t)).txs == s.txs;
    hide Available, CountedFor, MentorFree, Booked, ClaimMatches;
  }

  lemma CheckOrAbort(m: System, t: nat, l: Label)
    requires t in m.txs && !l.ChangeClaim? && l.t == t && Enabled(m, l)
    ensures m.txs[t].stage.ClaimLocked? ==> l == CheckClaim(t) || l == Abort(t)
    ensures m.txs[t].stage.MentorLocked? ==> l == CheckOverlap(t) || l == Abort(t)
  {
    hide Available, CountedFor, MentorFree, Booked, ClaimMatches;
  }

  lemma OnlyAbort(s: System, t: nat, tx: Tx)
    requires t !in s.txs && tx.pending == map[]
    requires tx.stage.ClaimLocked? || tx.stage.MentorLocked?
    requires Judge(s.sessions, s.claims, tx.stage.id, tx.stage.row) != Accepted && TakesTime(tx.stage.row)
    requires tx.stage.ClaimLocked? <==> Judge(s.sessions, s.claims, tx.stage.id, tx.stage.row) != MentorIsBusy
    ensures forall l: Label :: !l.ChangeClaim? && l.t == t && Enabled(WithTx(s, t, tx), l) ==> l == Abort(t)
  {
    hide Enabled, Judge;
    var m := WithTx(s, t, tx);
    assert s.sessions + map[] == s.sessions;
    assert View(m, m.txs[t]) == s.sessions;
    StepsGiveTheVerdict(m, t);
    forall l: Label | !l.ChangeClaim? && l.t == t && Enabled(m, l) ensures l == Abort(t) {
      CheckOrAbort(m, t, l);
    }
  }

  /** A refused one gets stuck at the check the verdict names: it comes to a state in which all it can do
      is abort, and that leaves everything as it was. */
  lemma RefusedChangesNothing(s: System, t: nat, id: Id, row: Session) returns (labels: seq<Label>, m: System)
    requires t !in s.txs && Free(s, id, row) && Judge(s.sessions, s.claims, id, row) != Accepted
    ensures Leads(s, labels, m) && t in m.txs
    ensures m.txs[t].stage == if Judge(s.sessions, s.claims, id, row) == MentorIsBusy then MentorLocked(id, row) else ClaimLocked(id, row)
    ensures forall l: Label :: !l.ChangeClaim? && l.t == t && Enabled(m, l) ==> l == Abort(t)
    ensures Enabled(m, Abort(t)) && Step(m, Abort(t)) == s
  {
    hide Leads, Enabled, Step, CountedFor, MentorFree, Free;
    if Judge(s.sessions, s.claims, id, row) == MentorIsBusy {
      labels, m := MentorReached(s, t, id, row);
    } else {
      labels, m := ClaimReached(s, t, id, row);
    }
    OnlyAbort(s, t, m.txs[t]);
    AbortGoesBack(s, t, m.txs[t]);
  }
}
