/** Mentor sessions under concurrent transactions. Each write runs the overlap trigger: row
    locks, checks against what is committed plus the transaction's own writes, then the write;
    locks are kept until commit or abort. */
module Bookings {
  import opened Prelude

  type Id = string

  datatype SessionStatus = Scheduled | Confirmed | Completed | Ended

  /** Instants are minutes. */
  datatype Session = Session(
    mentor: Id, claim: Id, team: Id, startAt: int, minutes: int, status: SessionStatus, deleted: bool)

  datatype Claim = Claim(active: bool, team: Id, mentor: Id)

  datatype Lock = SessionRow(id: Id) | ClaimRow(id: Id) | MentorRow(id: Id)

  /** Where the trigger stands for the row being written. */
  datatype Stage =
    | Idle
    | Entered(id: Id, row: Session)
    | ClaimLocked(id: Id, row: Session)
    | ClaimChecked(id: Id, row: Session)
    | MentorLocked(id: Id, row: Session)
    | Checked(id: Id, row: Session)

  datatype Tx = Tx(pending: map<Id, Session>, locks: set<Lock>, stage: Stage)

  datatype System = System(sessions: map<Id, Session>, claims: map<Id, Claim>, txs: map<nat, Tx>)

  datatype Label =
    | Begin(t: nat)
    | Enter(t: nat, id: Id, row: Session)
    | SkipChecks(t: nat)
    | LockClaim(t: nat)
    | CheckClaim(t: nat)
    | LockMentor(t: nat)
    | CheckOverlap(t: nat)
    | Write(t: nat)
    | Commit(t: nat)
    | Abort(t: nat)
    | ChangeClaim(claim: Id, to: Claim)

  const MAX_SESSIONS_PER_CLAIM := 3

  /** Holds the mentor's time. */
  predicate Booked(s: Session) {
    (s.status == Scheduled || s.status == Confirmed) && !s.deleted
  }

  /** Uses one of the claim's sessions. */
  predicate Counts(s: Session) {
    (s.status == Scheduled || s.status == Confirmed || s.status == Completed) && !s.deleted
  }

  function EndAt(s: Session): int {
    s.startAt + s.minutes
  }

  predicate Overlaps(a: Session, b: Session) {
    Booked(a) && Booked(b) && a.mentor == b.mentor && a.startAt < EndAt(b) && EndAt(a) > b.startAt
  }

  function CountedFor(table: map<Id, Session>, claim: Id): set<Id> {
    set id | id in table && Counts(table[id]) && table[id].claim == claim
  }

  function View(s: System, tx: Tx): map<Id, Session> {
    s.sessions + tx.pending
  }

  predicate ClaimMatches(s: System, row: Session) {
    && row.claim in s.claims
    && s.claims[row.claim] == Claim(true, row.team, row.mentor)
  }

  predicate MentorFree(table: map<Id, Session>, id: Id, row: Session) {
    && 0 < row.minutes
    && forall other :: other in table && other != id ==> !Overlaps(table[other], row)
  }

  ghost predicate Available(s: System, t: nat, lock: Lock) {
    forall u :: u in s.txs && u != t ==> lock !in s.txs[u].locks
  }

  ghost predicate Enabled(s: System, l: Label) {
    match l
    case Begin(t) => t !in s.txs
    case Enter(t, id, row) => t in s.txs && s.txs[t].stage == Idle && Available(s, t, SessionRow(id))
    case SkipChecks(t) => t in s.txs && s.txs[t].stage.Entered? && !Booked(s.txs[t].stage.row)
    case LockClaim(t) =>
      && t in s.txs && s.txs[t].stage.Entered? && Booked(s.txs[t].stage.row)
      && Available(s, t, ClaimRow(s.txs[t].stage.row.claim))
    case CheckClaim(t) =>
      && t in s.txs && s.txs[t].stage.ClaimLocked?
      && var st := s.txs[t].stage;
         && ClaimMatches(s, st.row)
         && |CountedFor(View(s, s.txs[t]), st.row.claim) - {st.id}| < MAX_SESSIONS_PER_CLAIM
    case LockMentor(t) =>
      t in s.txs && s.txs[t].stage.ClaimChecked? && Available(s, t, MentorRow(s.txs[t].stage.row.mentor))
    case CheckOverlap(t) =>
      && t in s.txs && s.txs[t].stage.MentorLocked?
      && MentorFree(View(s, s.txs[t]), s.txs[t].stage.id, s.txs[t].stage.row)
    case Write(t) => t in s.txs && s.txs[t].stage.Checked?
    case Commit(t) => t in s.txs && s.txs[t].stage == Idle
    case Abort(t) => t in s.txs
    case ChangeClaim(claim, _) => forall u :: u in s.txs ==> ClaimRow(claim) !in s.txs[u].locks
  }

  function Locked(tx: Tx, lock: Lock, stage: Stage): Tx {
    tx.(locks := tx.locks + {lock}, stage := stage)
  }

  ghost function Step(s: System, l: Label): System
    requires Enabled(s, l)
  {
    match l
    case Begin(t) => s.(txs := s.txs[t := Tx(map[], {}, Idle)])
    case Enter(t, id, row) => s.(txs := s.txs[t := Locked(s.txs[t], SessionRow(id), Entered(id, row))])
    case SkipChecks(t) => s.(txs := s.txs[t := s.txs[t].(stage := Checked(s.txs[t].stage.id, s.txs[t].stage.row))])
    case LockClaim(t) =>
      var st := s.txs[t].stage;
      s.(txs := s.txs[t := Locked(s.txs[t], ClaimRow(st.row.claim), ClaimLocked(st.id, st.row))])
    case CheckClaim(t) => s.(txs := s.txs[t := s.txs[t].(stage := ClaimChecked(s.txs[t].stage.id, s.txs[t].stage.row))])
    case LockMentor(t) =>
      var st := s.txs[t].stage;
      s.(txs := s.txs[t := Locked(s.txs[t], MentorRow(st.row.mentor), MentorLocked(st.id, st.row))])
    case CheckOverlap(t) => s.(txs := s.txs[t := s.txs[t].(stage := Checked(s.txs[t].stage.id, s.txs[t].stage.row))])
    case Write(t) =>
      var st := s.txs[t].stage;
      s.(txs := s.txs[t := s.txs[t].(pending := s.txs[t].pending[st.id := st.row], stage := Idle)])
    case Commit(t) => s.(sessions := s.sessions + s.txs[t].pending, txs := s.txs - {t})
    case Abort(t) => s.(txs := s.txs - {t})
    case ChangeClaim(claim, to) => s.(claims := s.claims[claim := to])
  }

  // ---------------------------------------------------------------- what every state keeps

  /** The writes a transaction has made, and the one whose checks have passed. */
  function Intent(tx: Tx): map<Id, Session> {
    if tx.stage.Checked? then tx.pending[tx.stage.id := tx.stage.row] else tx.pending
  }

  function Future(s: System, tx: Tx): map<Id, Session> {
    s.sessions + Intent(tx)
  }

  /** Locks exclude each other, and cover what a transaction is about to do. */
  ghost predicate TxLocked(tx: Tx) {
    && (forall id :: id in Intent(tx) ==> SessionRow(id) in tx.locks)
    && (forall id :: id in Intent(tx) && Booked(Intent(tx)[id]) ==> MentorRow(Intent(tx)[id].mentor) in tx.locks)
    && (!tx.stage.Idle? ==> SessionRow(tx.stage.id) in tx.locks)
    && (tx.stage.ClaimLocked? || tx.stage.ClaimChecked? || tx.stage.MentorLocked? ==> ClaimRow(tx.stage.row.claim) in tx.locks)
    && (tx.stage.MentorLocked? ==> MentorRow(tx.stage.row.mentor) in tx.locks)
  }

  ghost predicate LocksHold(s: System) {
    && (forall t :: t in s.txs ==> TxLocked(s.txs[t]))
    && (forall t, u :: t in s.txs && u in s.txs && t != u ==> s.txs[t].locks !! s.txs[u].locks)
  }

  ghost predicate NoOverlap(table: map<Id, Session>) {
    forall a, b :: a in table && b in table && a != b ==> !Overlaps(table[a], table[b])
  }

  ghost predicate OverlapHolds(s: System) {
    && NoOverlap(s.sessions)
    && forall t :: t in s.txs ==> NoOverlap(Future(s, s.txs[t]))
  }

  lemma TxStaysLocked(s: System, l: Label, t: nat)
    requires Enabled(s, l) && t in Step(s, l).txs && (t in s.txs ==> TxLocked(s.txs[t]))
    ensures TxLocked(Step(s, l).txs[t])
  {
    if t in s.txs && !l.ChangeClaim? && l.t == t {
      var was, tx := s.txs[t], Step(s, l).txs[t];
      if l.SkipChecks? || l.CheckOverlap? {
        assert Intent(tx) == Intent(was)[was.stage.id := was.stage.row];
      } else {
        assert Intent(tx) == Intent(was);
      }
    }
  }

  lemma LocksStayApart(s: System, l: Label, t: nat, u: nat)
    requires Enabled(s, l) && t in Step(s, l).txs && u in Step(s, l).txs && t != u
    requires t in s.txs && u in s.txs ==> s.txs[t].locks !! s.txs[u].locks
    ensures Step(s, l).txs[t].locks !! Step(s, l).txs[u].locks
  {
  }

  lemma StepKeepsLocks(s: System, l: Label)
    requires LocksHold(s) && Enabled(s, l)
    ensures LocksHold(Step(s, l))
  {
    var r := Step(s, l);
    forall t | t in r.txs ensures TxLocked(r.txs[t]) {
      TxStaysLocked(s, l, t);
    }
    forall t, u | t in r.txs && u in r.txs && t != u ensures r.txs[t].locks !! r.txs[u].locks {
      LocksStayApart(s, l, t, u);
    }
    hide TxLocked, Enabled, Step;
  }

  /** Two transactions never plan to write the same row, nor to book the same mentor. */
  lemma IntentsApart(s: System, t: nat, u: nat)
    requires LocksHold(s) && t in s.txs && u in s.txs && t != u
    ensures Intent(s.txs[t]).Keys !! Intent(s.txs[u]).Keys
    ensures forall a, b :: a in Intent(s.txs[t]) && b in Intent(s.txs[u])
              && Booked(Intent(s.txs[t])[a]) && Booked(Intent(s.txs[u])[b])
              ==> Intent(s.txs[t])[a].mentor != Intent(s.txs[u])[b].mentor
  {
    assert TxLocked(s.txs[t]) && TxLocked(s.txs[u]);
    forall id | id in Intent(s.txs[t]) ensures id !in Intent(s.txs[u]) {
      assert SessionRow(id) in s.txs[t].locks;
    }
  }

  lemma CommitKeepsNoOverlap(s: System, u: nat, t: nat)
    requires LocksHold(s) && OverlapHolds(s) && u in s.txs && s.txs[u].stage == Idle && t in s.txs && t != u
    ensures NoOverlap(s.sessions + s.txs[u].pending + Intent(s.txs[t]))
  {
    var mine, theirs := Intent(s.txs[t]), Intent(s.txs[u]);
    IntentsApart(s, t, u);
    var table := s.sessions + theirs + mine;
    var myFuture, theirFuture := Future(s, s.txs[t]), Future(s, s.txs[u]);
    assert NoOverlap(myFuture) && NoOverlap(theirFuture);
    forall a, b | a in table && b in table && a != b ensures !Overlaps(table[a], table[b]) {
      assert a !in theirs ==> a in myFuture && myFuture[a] == table[a];
      assert b !in theirs ==> b in myFuture && myFuture[b] == table[b];
      assert a !in mine ==> a in theirFuture && theirFuture[a] == table[a];
      assert b !in mine ==> b in theirFuture && theirFuture[b] == table[b];
    }
  }

  /** Steps of other transactions leave the future alone until they commit. */
  lemma FutureUnmoved(s: System, l: Label, t: nat)
    requires Enabled(s, l) && t in s.txs && t in Step(s, l).txs && !l.Commit?
    requires l.SkipChecks? || l.CheckOverlap? ==> l.t != t
    ensures Future(Step(s, l), Step(s, l).txs[t]) == Future(s, s.txs[t])
  {
    if l.Write? && l.t == t {
      assert Intent(Step(s, l).txs[t]) == Intent(s.txs[t]);
    }
  }

  /** Only a commit changes the committed table. */
  lemma SessionsAfter(s: System, l: Label)
    requires Enabled(s, l)
    ensures if l.Commit? then l.t in s.txs && Step(s, l).sessions == Future(s, s.txs[l.t]) else Step(s, l).sessions == s.sessions
  {
  }

  lemma StepKeepsNoOverlap(s: System, l: Label)
    requires LocksHold(s) && OverlapHolds(s) && Enabled(s, l)
    ensures OverlapHolds(Step(s, l))
  {
    var r := Step(s, l);
    forall t | t in r.txs ensures NoOverlap(Future(r, r.txs[t])) {
      if l.Commit? {
        CommitKeepsNoOverlap(s, l.t, t);
      } else if t !in s.txs {
        assert Future(r, r.txs[t]) == s.sessions;
      } else if (l.SkipChecks? || l.CheckOverlap?) && l.t == t {
        BookingKept(s, t);
      } else {
        FutureUnmoved(s, l, t);
      }
    }
    SessionsAfter(s, l);
    hide NoOverlap, Enabled, Future, Step;
  }

  lemma FreeRowFits(before: map<Id, Session>, id: Id, row: Session)
    requires NoOverlap(before) && (!Booked(row) || MentorFree(before, id, row))
    ensures NoOverlap(before[id := row])
  {
    var after := before[id := row];
    forall a, b | a in after && b in after && a != b ensures !Overlaps(after[a], after[b]) {
      if a != id && b != id {
        assert !Overlaps(before[a], before[b]);
      }
    }
  }

  lemma BookingKept(s: System, t: nat)
    requires OverlapHolds(s) && t in s.txs
    requires s.txs[t].stage.Entered? || s.txs[t].stage.MentorLocked?
    requires var st := s.txs[t].stage; !Booked(st.row) || MentorFree(View(s, s.txs[t]), st.id, st.row)
    ensures var st := s.txs[t].stage;
            NoOverlap(Future(s, s.txs[t].(stage := Checked(st.id, st.row))))
  {
    hide NoOverlap, Booked, MentorFree;
    var st := s.txs[t].stage;
    var before := Future(s, s.txs[t]);
    assert before == View(s, s.txs[t]);
    FreeRowFits(before, st.id, st.row);
    assert Future(s, s.txs[t].(stage := Checked(st.id, st.row))) == before[st.id := st.row];
  }

  // ---------------------------------------------------------------- three sessions per claim

  /** Rows that skip the trigger's checks may count only where a counting row of the same claim
      stood: completed sessions come from scheduled or confirmed ones. */
  ghost predicate CompletesOnly(s: System, l: Label)
    requires Enabled(s, l)
  {
    l.SkipChecks? && Counts(s.txs[l.t].stage.row) ==>
      var st := s.txs[l.t].stage;
      st.id in CountedFor(View(s, s.txs[l.t]), st.row.claim)
  }

  ghost predicate WithinCap(table: map<Id, Session>) {
    forall claim :: |CountedFor(table, claim)| <= MAX_SESSIONS_PER_CLAIM
  }

  /** A counting write is made under the claim's lock or replaces a row that counted for it. */
  ghost predicate Covered(s: System, tx: Tx) {
    forall id :: id in Intent(tx) && Counts(Intent(tx)[id]) ==>
      ClaimRow(Intent(tx)[id].claim) in tx.locks || id in CountedFor(s.sessions, Intent(tx)[id].claim)
  }

  ghost predicate RoomLeft(s: System, tx: Tx) {
    tx.stage.ClaimChecked? || tx.stage.MentorLocked? ==>
      |CountedFor(Future(s, tx), tx.stage.row.claim) - {tx.stage.id}| < MAX_SESSIONS_PER_CLAIM
  }

  ghost predicate CapHolds(s: System) {
    && WithinCap(s.sessions)
    && forall t :: t in s.txs ==> WithinCap(Future(s, s.txs[t])) && Covered(s, s.txs[t]) && RoomLeft(s, s.txs[t])
  }

  lemma CountedAfter(table: map<Id, Session>, id: Id, row: Session, claim: Id)
    ensures CountedFor(table[id := row], claim)
         == (CountedFor(table, claim) - {id}) + (if Counts(row) && row.claim == claim then {id} else {})
  {
    var after := table[id := row];
    forall other | other != id ensures other in CountedFor(after, claim) <==> other in CountedFor(table, claim) {
    }
  }

  /** Committing `u` adds nothing to a claim that `u` has not locked. */
  lemma UnlockedClaimsShrink(s: System, u: nat, t: nat, claim: Id)
    requires LocksHold(s) && CapHolds(s) && u in s.txs && t in s.txs && t != u
    requires ClaimRow(claim) !in s.txs[u].locks
    ensures CountedFor(s.sessions + Intent(s.txs[u]) + Intent(s.txs[t]), claim) <= CountedFor(Future(s, s.txs[t]), claim)
  {
    hide RoomLeft, WithinCap, TxLocked;
    IntentsApart(s, t, u);
    assert Covered(s, s.txs[u]);
    hide LocksHold;
  }

  /** What `t` sees once `u` has committed. */
  function FutureAfter(s: System, u: nat, t: nat): map<Id, Session>
    requires u in s.txs && t in s.txs
  {
    s.sessions + Intent(s.txs[u]) + Intent(s.txs[t])
  }

  lemma CommitsSwap(s: System, u: nat, t: nat)
    requires LocksHold(s) && u in s.txs && t in s.txs && t != u
    ensures FutureAfter(s, u, t) == FutureAfter(s, t, u)
  {
    IntentsApart(s, t, u);
  }

  lemma CommitKeepsClaimCap(s: System, u: nat, t: nat, claim: Id)
    requires LocksHold(s) && CapHolds(s) && u in s.txs && t in s.txs && t != u
    ensures |CountedFor(FutureAfter(s, u, t), claim)| <= MAX_SESSIONS_PER_CLAIM
  {
    hide CountedFor, FutureAfter, Future;
    assert WithinCap(Future(s, s.txs[t])) && WithinCap(Future(s, s.txs[u]));
    if ClaimRow(claim) in s.txs[u].locks {
      CommitsSwap(s, u, t);
      UnlockedAfter(s, t, u, claim);
      SubsetSize(CountedFor(FutureAfter(s, t, u), claim), CountedFor(Future(s, s.txs[u]), claim));
    } else {
      UnlockedAfter(s, u, t, claim);
      SubsetSize(CountedFor(FutureAfter(s, u, t), claim), CountedFor(Future(s, s.txs[t]), claim));
    }
  }

  lemma CommitKeepsRoom(s: System, u: nat, t: nat)
    requires LocksHold(s) && CapHolds(s) && u in s.txs && t in s.txs && t != u
    requires s.txs[t].stage.ClaimChecked? || s.txs[t].stage.MentorLocked?
    ensures var st := s.txs[t].stage;
            |CountedFor(FutureAfter(s, u, t), st.row.claim) - {st.id}| < MAX_SESSIONS_PER_CLAIM
  {
    hide CountedFor, FutureAfter;
    var st := s.txs[t].stage;
    assert TxLocked(s.txs[t]) && RoomLeft(s, s.txs[t]);
    UnlockedAfter(s, u, t, st.row.claim);
    SubsetSize(CountedFor(FutureAfter(s, u, t), st.row.claim) - {st.id}, CountedFor(Future(s, s.txs[t]), st.row.claim) - {st.id});
  }

  lemma UnlockedAfter(s: System, u: nat, t: nat, claim: Id)
    requires LocksHold(s) && CapHolds(s) && u in s.txs && t in s.txs && t != u
    requires ClaimRow(claim) !in s.txs[u].locks
    ensures CountedFor(FutureAfter(s, u, t), claim) <= CountedFor(Future(s, s.txs[t]), claim)
  {
    hide CapHolds, CountedFor;
    UnlockedClaimsShrink(s, u, t, claim);
  }

  lemma CommitKeepsCap(s: System, u: nat, t: nat)
    requires LocksHold(s) && CapHolds(s) && u in s.txs && s.txs[u].stage == Idle && t in s.txs && t != u
    ensures var r := Step(s, Commit(u));
            WithinCap(Future(r, s.txs[t])) && Covered(r, s.txs[t]) && RoomLeft(r, s.txs[t])
  {
    hide CountedFor, LocksHold, CapHolds;
    var r := Step(s, Commit(u));
    assert Future(r, s.txs[t]) == FutureAfter(s, u, t);
    hide Future, FutureAfter;
    forall claim ensures |CountedFor(Future(r, s.txs[t]), claim)| <= MAX_SESSIONS_PER_CLAIM {
      CommitKeepsClaimCap(s, u, t, claim);
    }
    if s.txs[t].stage.ClaimChecked? || s.txs[t].stage.MentorLocked? {
      CommitKeepsRoom(s, u, t);
    }
    CommitKeepsCover(s, u, t);
  }

  lemma CommitKeepsCover(s: System, u: nat, t: nat)
    requires CapHolds(s) && u in s.txs && s.txs[u].stage == Idle && t in s.txs && t != u && LocksHold(s)
    ensures Covered(Step(s, Commit(u)), s.txs[t])
  {
    assert Covered(s, s.txs[t]);
    hide LocksHold, RoomLeft, WithinCap;
  }

  /** A row whose checks just passed fits: it had room, or it replaces a counting row. */
  lemma RowFitsCap(before: map<Id, Session>, id: Id, row: Session, claim: Id)
    requires |CountedFor(before, claim)| <= MAX_SESSIONS_PER_CLAIM
    requires claim == row.claim && Counts(row) ==>
      id in CountedFor(before, claim) || |CountedFor(before, claim) - {id}| < MAX_SESSIONS_PER_CLAIM
    ensures |CountedFor(before[id := row], claim)| <= MAX_SESSIONS_PER_CLAIM
  {
    CountedAfter(before, id, row, claim);
    hide CountedFor, Counts;
    var counted := CountedFor(before, claim);
    SubsetSize(counted - {id}, counted);
    if id in counted {
      assert (counted - {id}) + {id} == counted;
    }
  }

  ghost predicate RowHasRoom(before: map<Id, Session>, id: Id, row: Session) {
    Counts(row) ==>
      id in CountedFor(before, row.claim) || |CountedFor(before, row.claim) - {id}| < MAX_SESSIONS_PER_CLAIM
  }

  lemma CheckedRowHasRoom(s: System, t: nat)
    requires t in s.txs && RoomLeft(s, s.txs[t])
    requires s.txs[t].stage.Entered? || s.txs[t].stage.MentorLocked?
    requires s.txs[t].stage.Entered? ==> !Booked(s.txs[t].stage.row) && CompletesOnly(s, SkipChecks(t))
    ensures RowHasRoom(Future(s, s.txs[t]), s.txs[t].stage.id, s.txs[t].stage.row)
  {
    assert Future(s, s.txs[t]) == View(s, s.txs[t]);
    hide CountedFor, Counts;
  }

  lemma RowKeepsCap(before: map<Id, Session>, id: Id, row: Session)
    requires WithinCap(before) && RowHasRoom(before, id, row)
    ensures WithinCap(before[id := row])
  {
    var after := before[id := row];
    forall claim ensures |CountedFor(after, claim)| <= MAX_SESSIONS_PER_CLAIM {
      RowFitsCap(before, id, row, claim);
    }
  }

  lemma CheckedWithinCap(s: System, t: nat)
    requires t in s.txs && TxLocked(s.txs[t]) && Covered(s, s.txs[t]) && RoomLeft(s, s.txs[t]) && WithinCap(Future(s, s.txs[t]))
    requires s.txs[t].stage.Entered? || s.txs[t].stage.MentorLocked?
    requires s.txs[t].stage.Entered? ==> !Booked(s.txs[t].stage.row) && CompletesOnly(s, SkipChecks(t))
    ensures var tx := s.txs[t].(stage := Checked(s.txs[t].stage.id, s.txs[t].stage.row));
            WithinCap(Future(s, tx)) && Covered(s, tx)
  {
    hide WithinCap, Covered, RoomLeft, TxLocked, RowHasRoom, CompletesOnly;
    var st := s.txs[t].stage;
    var tx := s.txs[t].(stage := Checked(st.id, st.row));
    CheckedRowHasRoom(s, t);
    RowKeepsCap(Future(s, s.txs[t]), st.id, st.row);
    assert Future(s, tx) == Future(s, s.txs[t])[st.id := st.row];
    CheckedIsCovered(s, t);
  }

  lemma CheckedIsCovered(s: System, t: nat)
    requires t in s.txs && TxLocked(s.txs[t]) && Covered(s, s.txs[t])
    requires s.txs[t].stage.Entered? || s.txs[t].stage.MentorLocked?
    requires s.txs[t].stage.Entered? ==> !Booked(s.txs[t].stage.row) && CompletesOnly(s, SkipChecks(t))
    ensures Covered(s, s.txs[t].(stage := Checked(s.txs[t].stage.id, s.txs[t].stage.row)))
  {
    var st, was := s.txs[t].stage, s.txs[t];
    var tx := was.(stage := Checked(st.id, st.row));
    assert Intent(tx) == Intent(was)[st.id := st.row];
    if Counts(st.row) && st.Entered? {
      assert st.id in CountedFor(View(s, was), st.row.claim);
      assert st.id in was.pending ==> st.id in Intent(was) && Intent(was)[st.id] == was.pending[st.id];
      assert st.id !in was.pending ==> st.id in CountedFor(s.sessions, st.row.claim);
    }
  }

  lemma OthersStayCovered(s: System, l: Label, t: nat)
    requires Enabled(s, l) && t in s.txs && t in Step(s, l).txs && !l.Commit? && Covered(s, s.txs[t])
    requires l.SkipChecks? || l.CheckOverlap? ==> l.t != t
    ensures Covered(Step(s, l), Step(s, l).txs[t])
  {
    var tx := Step(s, l).txs[t];
    assert Intent(tx) == Intent(s.txs[t]) && s.txs[t].locks <= tx.locks && Step(s, l).sessions == s.sessions;
  }

  lemma OthersKeepCap(s: System, l: Label, t: nat)
    requires CapHolds(s) && Enabled(s, l) && t in s.txs && t in Step(s, l).txs && !l.Commit?
    requires l.SkipChecks? || l.CheckOverlap? ==> l.t != t
    ensures var r := Step(s, l); WithinCap(Future(r, r.txs[t])) && Covered(r, r.txs[t]) && RoomLeft(r, r.txs[t])
  {
    hide WithinCap, CountedFor, Covered, RoomLeft, Enabled, Step, Future;
    assert Covered(s, s.txs[t]) && RoomLeft(s, s.txs[t]) && WithinCap(Future(s, s.txs[t]));
    FutureUnmoved(s, l, t);
    OthersStayCovered(s, l, t);
    OthersKeepRoom(s, l, t);
  }

  /** Where a transaction that has room left comes from. */
  lemma StageBefore(s: System, l: Label, t: nat)
    requires Enabled(s, l) && t in s.txs && t in Step(s, l).txs && !l.Commit?
    requires Step(s, l).txs[t].stage.ClaimChecked? || Step(s, l).txs[t].stage.MentorLocked?
    ensures var was, st := s.txs[t].stage, Step(s, l).txs[t].stage;
      || ((was.ClaimChecked? || was.MentorLocked?) && was.id == st.id && was.row == st.row)
      || (was.ClaimLocked? && was.id == st.id && was.row == st.row
          && |CountedFor(View(s, s.txs[t]), st.row.claim) - {st.id}| < MAX_SESSIONS_PER_CLAIM)
  {
    hide CountedFor, MentorFree, Booked, ClaimMatches, Available, View;
  }

  lemma OthersKeepRoom(s: System, l: Label, t: nat)
    requires Enabled(s, l) && t in s.txs && t in Step(s, l).txs && !l.Commit? && RoomLeft(s, s.txs[t])
    requires Future(Step(s, l), Step(s, l).txs[t]) == Future(s, s.txs[t])
    ensures RoomLeft(Step(s, l), Step(s, l).txs[t])
  {
    hide CountedFor, Enabled, Step, Future, View;
    var r := Step(s, l);
    if r.txs[t].stage.ClaimChecked? || r.txs[t].stage.MentorLocked? {
      StageBefore(s, l, t);
      if s.txs[t].stage.ClaimLocked? {
        ViewIsFuture(s, s.txs[t]);
      }
    }
  }

  lemma ViewIsFuture(s: System, tx: Tx)
    requires !tx.stage.Checked?
    ensures View(s, tx) == Future(s, tx)
  {
  }

  lemma CoveredBySessions(s: System, r: System, tx: Tx)
    requires Covered(s, tx) && r.sessions == s.sessions
    ensures Covered(r, tx)
  {
  }

  lemma TxKeepsCap(s: System, l: Label, t: nat)
    requires LocksHold(s) && CapHolds(s) && Enabled(s, l) && CompletesOnly(s, l) && t in Step(s, l).txs
    ensures var r := Step(s, l); WithinCap(Future(r, r.txs[t])) && Covered(r, r.txs[t]) && RoomLeft(r, r.txs[t])
  {
    hide WithinCap, CountedFor, LocksHold, CompletesOnly, Covered;
    if l.Commit? {
      CommitKeepsCap(s, l.t, t);
    } else if t !in s.txs {
      NewTxKeepsCap(Step(s, l));
    } else if (l.SkipChecks? || l.CheckOverlap?) && l.t == t {
      LockedTx(s, t);
      CheckedWithinCap(s, t);
      CoveredBySessions(s, Step(s, l), Step(s, l).txs[t]);
    } else {
      OthersKeepCap(s, l, t);
    }
  }

  lemma NewTxKeepsCap(s: System)
    requires WithinCap(s.sessions)
    ensures var tx := Tx(map[], {}, Idle); WithinCap(Future(s, tx)) && Covered(s, tx) && RoomLeft(s, tx)
    ensures Future(s, Tx(map[], {}, Idle)) == s.sessions
  {
    assert Future(s, Tx(map[], {}, Idle)) == s.sessions;
  }

  lemma LockedTx(s: System, t: nat)
    requires LocksHold(s) && t in s.txs
    ensures TxLocked(s.txs[t])
  {
  }

  lemma StepKeepsCap(s: System, l: Label)
    requires LocksHold(s) && CapHolds(s) && Enabled(s, l) && CompletesOnly(s, l)
    ensures CapHolds(Step(s, l))
  {
    hide WithinCap, CountedFor, Covered, RoomLeft, LocksHold, CompletesOnly;
    var r := Step(s, l);
    SessionsAfter(s, l);
    hide Enabled, Step, Future;
    forall t | t in r.txs ensures WithinCap(Future(r, r.txs[t])) && Covered(r, r.txs[t]) && RoomLeft(r, r.txs[t]) {
      TxKeepsCap(s, l, t);
    }
  }

  // ---------------------------------------------------------------- runs

  ghost predicate Starts(s: System) {
    s.txs == map[] && s.sessions == map[]
  }

  ghost predicate CanStep(s: System, r: System) {
    exists l :: Enabled(s, l) && r == Step(s, l)
  }

  ghost predicate CanStepCompleting(s: System, r: System) {
    exists l :: Enabled(s, l) && CompletesOnly(s, l) && r == Step(s, l)
  }

  ghost predicate IsRun(run: seq<System>) {
    && 0 < |run| && Starts(run[0])
    && forall i :: 0 <= i < |run| - 1 ==> CanStep(run[i], run[i + 1])
  }

  ghost predicate IsCompletingRun(run: seq<System>) {
    && 0 < |run| && Starts(run[0])
    && forall i :: 0 <= i < |run| - 1 ==> CanStepCompleting(run[i], run[i + 1])
  }

  lemma {:induction false} RunKeepsNoOverlap(run: seq<System>, i: nat)
    requires IsRun(run) && i < |run|
    ensures LocksHold(run[i]) && OverlapHolds(run[i])
  {
    if i > 0 {
      RunKeepsNoOverlap(run, i - 1);
      assert CanStep(run[i - 1], run[i - 1 + 1]);
      var l :| Enabled(run[i - 1], l) && run[i] == Step(run[i - 1], l);
      StepKeepsLocks(run[i - 1], l);
      StepKeepsNoOverlap(run[i - 1], l);
    }
  }

  /** Under every interleaving the committed scheduled and confirmed sessions of one mentor
      occupy pairwise disjoint half-open intervals. */
  lemma MentorIsNeverDoubleBooked(run: seq<System>, i: nat, a: Id, b: Id)
    requires IsRun(run) && i < |run| && a in run[i].sessions && b in run[i].sessions && a != b
    ensures var x, y := run[i].sessions[a], run[i].sessions[b];
            && !x.deleted && (x.status == Scheduled || x.status == Confirmed)
            && !y.deleted && (y.status == Scheduled || y.status == Confirmed) && x.mentor == y.mentor ==>
              x.startAt + x.minutes <= y.startAt || y.startAt + y.minutes <= x.startAt
  {
    RunKeepsNoOverlap(run, i);
    assert !Overlaps(run[i].sessions[a], run[i].sessions[b]);
  }

  lemma {:induction false} RunKeepsCap(run: seq<System>, i: nat)
    requires IsCompletingRun(run) && i < |run|
    ensures LocksHold(run[i]) && CapHolds(run[i])
  {
    if i > 0 {
      RunKeepsCap(run, i - 1);
      assert CanStepCompleting(run[i - 1], run[i - 1 + 1]);
      var l :| Enabled(run[i - 1], l) && CompletesOnly(run[i - 1], l) && run[i] == Step(run[i - 1], l);
      StepKeepsLocks(run[i - 1], l);
      StepKeepsCap(run[i - 1], l);
    } else {
      assert forall claim :: CountedFor(run[0].sessions, claim) == {};
    }
  }

  /** Under every interleaving in which completed sessions come only from scheduled or
      confirmed ones, no claim ever has more than three sessions. */
  lemma ClaimHasAtMostThreeSessions(run: seq<System>, i: nat, claim: Id)
    requires IsCompletingRun(run) && i < |run|
    ensures var all := run[i].sessions;
      |set id | id in all && all[id].claim == claim && !all[id].deleted
                && (all[id].status == Scheduled || all[id].status == Confirmed || all[id].status == Completed)| <= 3
  {
    RunKeepsCap(run, i);
    UsedSessions(run[i].sessions, claim);
  }

  /** The sessions that use up a claim, by their columns. */
  lemma UsedSessions(table: map<Id, Session>, claim: Id)
    ensures CountedFor(table, claim)
         == set id | id in table && table[id].claim == claim && !table[id].deleted
                     && (table[id].status == Scheduled || table[id].status == Confirmed || table[id].status == Completed)
  {
  }

  /** The proviso is exact: a row that enters as completed skips the count, and keeps the
      claim within its cap if and only if it replaces a counting row or there was room. */
  lemma CompletedRowSkipsTheCount(table: map<Id, Session>, id: Id, row: Session)
    requires |CountedFor(table, row.claim)| <= MAX_SESSIONS_PER_CLAIM
    requires row.status == Completed && !row.deleted
    ensures |CountedFor(table[id := row], row.claim)| <= MAX_SESSIONS_PER_CLAIM <==>
            id in CountedFor(table, row.claim) || |CountedFor(table, row.claim)| < MAX_SESSIONS_PER_CLAIM
  {
    CountedAfter(table, id, row, row.claim);
    hide CountedFor;
  }

  // ---------------------------------------------------------------- the trigger in place

  datatype Verdict = Accepted | NotAnActiveClaim | ClaimIsFull | MentorIsBusy

  /** The trigger's answer for a transaction that runs alone. */
  function Judge(sessions: map<Id, Session>, claims: map<Id, Claim>, id: Id, row: Session): Verdict {
    if !Booked(row) then Accepted
    else if row.claim !in claims || claims[row.claim] != Claim(true, row.team, row.mentor) then NotAnActiveClaim
    else if |CountedFor(sessions, row.claim) - {id}| >= MAX_SESSIONS_PER_CLAIM then ClaimIsFull
    else if !MentorFree(sessions, id, row) then MentorIsBusy
    else Accepted
  }

  /** Any row that is deleted, or neither scheduled nor confirmed, is accepted. A scheduled or
      confirmed one is accepted if and only if it belongs to an active claim of its team and mentor,
      takes time, keeps clear of every other such session of the mentor, and the table with it has no
      fourth session of the claim. */
  lemma AcceptedExactly(sessions: map<Id, Session>, claims: map<Id, Claim>, id: Id, row: Session)
    ensures row.deleted || (row.status != Scheduled && row.status != Confirmed) ==> Judge(sessions, claims, id, row) == Accepted
    ensures !row.deleted && (row.status == Scheduled || row.status == Confirmed) ==>
      (Judge(sessions, claims, id, row) == Accepted <==>
         && row.claim in claims && claims[row.claim].active && claims[row.claim].team == row.team && claims[row.claim].mentor == row.mentor
         && 0 < row.minutes
         && (forall other :: other in sessions && other != id && !sessions[other].deleted && sessions[other].mentor == row.mentor
                             && (sessions[other].status == Scheduled || sessions[other].status == Confirmed) ==>
               sessions[other].startAt + sessions[other].minutes <= row.startAt
               || row.startAt + row.minutes <= sessions[other].startAt)
         && var after := sessions[id := row];
            |set other | other in after && after[other].claim == row.claim && !after[other].deleted
                         && (after[other].status == Scheduled || after[other].status == Confirmed || after[other].status == Completed)| <= 3)
  {
    CountedAfter(sessions, id, row, row.claim);
    UsedSessions(sessions[id := row], row.claim);
  }

  /** The trigger refuses exactly what would spoil the table: a booked row is accepted if and
      only if it belongs to an active claim, takes time, and the table with it has neither an
      overlap nor a fourth session of the claim. */
  lemma AcceptedIffTheTableStaysRight(sessions: map<Id, Session>, claims: map<Id, Claim>, id: Id, row: Session)
    requires NoOverlap(sessions)
    ensures Judge(sessions, claims, id, row) == Accepted <==>
            row.deleted || (row.status != Scheduled && row.status != Confirmed) ||
            (&& row.claim in claims && claims[row.claim] == Claim(true, row.team, row.mentor) && 0 < row.minutes
             && |CountedFor(sessions[id := row], row.claim)| <= MAX_SESSIONS_PER_CLAIM
             && NoOverlap(sessions[id := row]))
  {
    if Booked(row) {
      var after := sessions[id := row];
      CountedAfter(sessions, id, row, row.claim);
      if 0 < row.minutes && MentorFree(sessions, id, row) {
        FreeRowFits(sessions, id, row);
      }
      if NoOverlap(after) {
        forall other | other in sessions && other != id ensures !Overlaps(sessions[other], row) {
          assert !Overlaps(after[other], after[id]);
        }
      }
    }
  }

  /** A refusal names the first check that fails. */
  lemma RefusalIsTheFirst(sessions: map<Id, Session>, claims: map<Id, Claim>, id: Id, row: Session)
    requires !row.deleted && (row.status == Scheduled || row.status == Confirmed)
    ensures var v := Judge(sessions, claims, id, row);
      var claimed := row.claim in claims && claims[row.claim] == Claim(true, row.team, row.mentor);
      var others := set other | other in sessions && other != id && sessions[other].claim == row.claim && !sessions[other].deleted
                      && (sessions[other].status == Scheduled || sessions[other].status == Confirmed || sessions[other].status == Completed);
      && (v == NotAnActiveClaim <==> !claimed)
      && (v == ClaimIsFull <==> claimed && 3 <= |others|)
      && (v == MentorIsBusy ==> claimed && |others| < 3)
  {
    UsedSessions(sessions, row.claim);
    var others := set other | other in sessions && other != id && sessions[other].claim == row.claim && !sessions[other].deleted
                    && (sessions[other].status == Scheduled || sessions[other].status == Confirmed || sessions[other].status == Completed);
    assert CountedFor(sessions, row.claim) - {id} == others;
    hide CountedFor, MentorFree;
  }

  lemma AcceptedKeeps(sessions: map<Id, Session>, claims: map<Id, Claim>, id: Id, row: Session)
    requires NoOverlap(sessions) && Judge(sessions, claims, id, row) == Accepted
    ensures NoOverlap(sessions[id := row])
    ensures Booked(row) ==>
      id in CountedFor(sessions[id := row], row.claim) && |CountedFor(sessions[id := row], row.claim)| <= MAX_SESSIONS_PER_CLAIM
  {
    FreeRowFits(sessions, id, row);
    CountedAfter(sessions, id, row, row.claim);
    hide NoOverlap, CountedFor, MentorFree;
  }

  /** The committed table, written by one transaction at a time. */
  class SessionTable {
    var sessions: map<Id, Session>
    var claims: map<Id, Claim>

    ghost predicate Valid()
      reads this
    {
      NoOverlap(sessions)
    }

    constructor (claims: map<Id, Claim>)
      ensures Valid() && sessions == map[] && this.claims == claims
    {
      this.claims := claims;
      sessions := map[];
    }

    /** INSERT or UPDATE of one row behind the trigger. */
    method Save(id: Id, row: Session) returns (v: Verdict)
      requires Valid()
      modifies this`sessions
      ensures Valid() && v == Judge(old(sessions), claims, id, row)
      ensures sessions == if v == Accepted then old(sessions)[id := row] else old(sessions)
      ensures Booked(row) && v == Accepted ==> id in CountedFor(sessions, row.claim) && |CountedFor(sessions, row.claim)| <= 3
    {
      hide Judge, NoOverlap, CountedFor, MentorFree;
      v := Judge(sessions, claims, id, row);
      if v == Accepted {
        AcceptedKeeps(sessions, claims, id, row);
        sessions := sessions[id := row];
      }
    }
  }
}
