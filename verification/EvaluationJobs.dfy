/** One evaluation job under every interleaving of workers, cancellations and enqueues.

    Commits are atomic. `commitResults` and `cancelJob` are transactions under one advisory
    lock; a transaction that has written the job row also keeps its row lock until it ends.
    Every other write to the job row is a single statement. */
module EvaluationJobs {
  import opened Prelude

  datatype JobStatus = Pending | Processing | Completed | Failed | Cancelled

  datatype Store = Store(status: JobStatus, evaluation: Option<nat>, submissionEvaluated: bool)

  /** What a worker's open transaction has written so far. */
  datatype Buffer = Buffer(evaluation: bool, submission: bool, completed: bool)

  datatype WorkerPhase =
    | Started | Admitted | Running | Confirmed
    | Locked | Reading(buffer: Buffer) | Writing(buffer: Buffer) | Written(buffer: Buffer)
    | Raising

  datatype CancelPhase = Asked | Holding | Allowed | Saved

  /** `Requeue` holds a record whose status in memory is pending. */
  datatype EnqueuePhase = Requeue | Adding

  datatype Proc =
    | Worker(phase: WorkerPhase, result: nat)
    | Canceller(cancel: CancelPhase)
    | Retrier
    | Enqueuer(enqueue: EnqueuePhase)

  datatype System = System(store: Store, lock: Option<nat>, rowLock: Option<nat>, procs: map<nat, Proc>)

  datatype Label =
    | SpawnWorker(p: nat, result: nat)
    | SpawnCanceller(p: nat)
    | RetryRead(p: nat)
    | ReconcileRead(p: nat)
    | WorkerRead(p: nat)
    | WorkerMark(p: nat)
    | WorkerCheck(p: nat)
    | TakeLock(p: nat)
    | TxRead(p: nat)
    | SaveEvaluation(p: nat)
    | SaveSubmission(p: nat)
    | SaveJob(p: nat)
    | WorkerCommit(p: nat)
    | WorkerRaise(p: nat)
    | WorkerReport(p: nat, again: bool)
    | CancelRead(p: nat)
    | CancelSave(p: nat)
    | CancelCommit(p: nat)
    | RetrySave(p: nat)
    | EnqueueSave(p: nat)
    | EnqueueAdd(p: nat, ok: bool)
    | Vanish(p: nat)

  predicate InTx(proc: Proc) {
    || (proc.Worker? && (proc.phase.Locked? || proc.phase.Reading? || proc.phase.Writing? || proc.phase.Written?))
    || (proc.Canceller? && proc.cancel != Asked)
  }

  const NOTHING := Buffer(false, false, false)

  predicate RowFree(s: System) {
    s.rowLock.None?
  }

  predicate IsWorker(s: System, p: nat, phase: WorkerPhase) {
    p in s.procs && s.procs[p].Worker? && s.procs[p].phase == phase
  }

  predicate IsCanceller(s: System, p: nat, phase: CancelPhase) {
    p in s.procs && s.procs[p] == Canceller(phase)
  }

  ghost predicate Enabled(s: System, l: Label) {
    match l
    case SpawnWorker(p, _) => p !in s.procs
    case SpawnCanceller(p) => p !in s.procs
    case RetryRead(p) => p !in s.procs && s.store.status == Failed
    case ReconcileRead(p) => p !in s.procs && s.store.status == Pending
    case WorkerRead(p) => IsWorker(s, p, Started)
    case WorkerMark(p) => IsWorker(s, p, Admitted) && RowFree(s)
    case WorkerCheck(p) => IsWorker(s, p, Running)
    case TakeLock(p) => s.lock.None? && (IsWorker(s, p, Confirmed) || IsCanceller(s, p, Asked))
    case TxRead(p) => IsWorker(s, p, Locked)
    case SaveEvaluation(p) => IsWorker(s, p, Reading(NOTHING))
    case SaveSubmission(p) => IsWorker(s, p, Writing(Buffer(true, false, false)))
    case SaveJob(p) => IsWorker(s, p, Writing(Buffer(true, true, false))) && RowFree(s)
    case WorkerCommit(p) => p in s.procs && s.procs[p].Worker? && s.procs[p].phase.Written?
    case WorkerRaise(p) => p in s.procs && s.procs[p].Worker? && s.procs[p].phase != Started
    case WorkerReport(p, _) => IsWorker(s, p, Raising) && RowFree(s)
    case CancelRead(p) => IsCanceller(s, p, Holding)
    case CancelSave(p) => IsCanceller(s, p, Allowed) && RowFree(s)
    case CancelCommit(p) => IsCanceller(s, p, Saved)
    case RetrySave(p) => p in s.procs && s.procs[p].Retrier? && RowFree(s)
    case EnqueueSave(p) => p in s.procs && s.procs[p] == Enqueuer(Requeue) && RowFree(s)
    case EnqueueAdd(p, _) => p in s.procs && s.procs[p] == Enqueuer(Adding) && RowFree(s)
    case Vanish(p) => p in s.procs
  }

  function At(s: System, p: nat, proc: Proc): System {
    s.(procs := s.procs[p := proc])
  }

  /** A process ends; a transaction it still had open is rolled back. */
  function Gone(s: System, p: nat): System {
    System(s.store, if s.lock == Some(p) then None else s.lock,
           if s.rowLock == Some(p) then None else s.rowLock, s.procs - {p})
  }

  function WithStatus(s: System, status: JobStatus): System {
    s.(store := s.store.(status := status))
  }

  /** `updateJobStatus`: one statement that skips a cancelled row. */
  function UpdateJobStatus(s: System, status: JobStatus): System {
    if s.store.status == Cancelled then s else WithStatus(s, status)
  }

  function Committed(store: Store, b: Buffer, result: nat): Store {
    Store(if b.completed then Completed else store.status,
          if b.evaluation then Some(result) else store.evaluation,
          b.submission || store.submissionEvaluated)
  }

  ghost function Step(s: System, l: Label): System
    requires Enabled(s, l)
  {
    match l
    case SpawnWorker(p, result) => At(s, p, Worker(Started, result))
    case SpawnCanceller(p) => At(s, p, Canceller(Asked))
    case RetryRead(p) => At(s, p, Retrier)
    case ReconcileRead(p) => At(s, p, Enqueuer(Requeue))
    case WorkerRead(p) => if s.store.status == Cancelled then Gone(s, p) else At(s, p, s.procs[p].(phase := Admitted))
    case WorkerMark(p) => At(UpdateJobStatus(s, Processing), p, s.procs[p].(phase := Running))
    case WorkerCheck(p) => if s.store.status == Cancelled then Gone(s, p) else At(s, p, s.procs[p].(phase := Confirmed))
    case TakeLock(p) =>
      At(s.(lock := Some(p)), p, if s.procs[p].Worker? then s.procs[p].(phase := Locked) else Canceller(Holding))
    case TxRead(p) =>
      if s.store.status == Cancelled then Gone(s, p) else At(s, p, s.procs[p].(phase := Reading(NOTHING)))
    case SaveEvaluation(p) => At(s, p, s.procs[p].(phase := Writing(Buffer(true, false, false))))
    case SaveSubmission(p) => At(s, p, s.procs[p].(phase := Writing(Buffer(true, true, false))))
    case SaveJob(p) =>
      At(s.(rowLock := Some(p)), p, s.procs[p].(phase := Written(Buffer(true, true, s.store.status != Cancelled))))
    case WorkerCommit(p) =>
      var store := Committed(s.store, s.procs[p].phase.buffer, s.procs[p].result);
      Gone(s.(store := store), p)
    case WorkerRaise(p) => At(Gone(s, p), p, s.procs[p].(phase := Raising))
    case WorkerReport(p, again) => Gone(UpdateJobStatus(s, if again then Pending else Failed), p)
    case CancelRead(p) => if s.store.status == Completed then Gone(s, p) else At(s, p, Canceller(Allowed))
    case CancelSave(p) => At(s.(rowLock := Some(p)), p, Canceller(Saved))
    case CancelCommit(p) => Gone(WithStatus(s, Cancelled), p)
    case RetrySave(p) => At(WithStatus(s, Pending), p, Enqueuer(Requeue))
    case EnqueueSave(p) => At(WithStatus(s, Pending), p, Enqueuer(Adding))
    case EnqueueAdd(p, ok) => if ok then Gone(s, p) else Gone(WithStatus(s, Failed), p)
    case Vanish(p) => Gone(s, p)
  }

  // ---------------------------------------------------------------- what every state keeps

  ghost predicate ProcHolds(s: System, p: nat)
    requires p in s.procs
  {
    var proc := s.procs[p];
    && (InTx(proc) <==> s.lock == Some(p))
    && (s.rowLock == Some(p) <==> (proc.Worker? && proc.phase.Written?) || proc == Canceller(Saved))
    && (proc.Worker? && (proc.phase.Reading? || proc.phase.Writing? || proc.phase.Written?) ==> s.store.status != Cancelled)
    && (proc.Worker? && proc.phase.Written? ==> proc.phase.buffer == Buffer(true, true, true))
    && (proc.Canceller? && (proc.cancel == Allowed || proc.cancel == Saved) ==> s.store.status != Completed)
  }

  ghost predicate Invariant(s: System) {
    && (s.lock.Some? ==> s.lock.value in s.procs)
    && (s.rowLock.Some? ==> s.rowLock.value in s.procs)
    && forall p :: p in s.procs ==> ProcHolds(s, p)
  }

  lemma OwnProcKept(s: System, l: Label)
    requires Invariant(s) && Enabled(s, l) && l.p in Step(s, l).procs
    ensures ProcHolds(Step(s, l), l.p)
  {
    assert l.p in s.procs ==> ProcHolds(s, l.p);
  }

  lemma OtherProcKept(s: System, l: Label, p: nat)
    requires Invariant(s) && Enabled(s, l) && p in Step(s, l).procs && p != l.p
    ensures ProcHolds(Step(s, l), p)
  {
    assert ProcHolds(s, p);
    assert l.p in s.procs ==> ProcHolds(s, l.p);
    hide Invariant;
  }

  lemma ProcKept(s: System, l: Label, p: nat)
    requires Invariant(s) && Enabled(s, l) && p in Step(s, l).procs
    ensures ProcHolds(Step(s, l), p)
  {
    if p == l.p {
      OwnProcKept(s, l);
    } else {
      OtherProcKept(s, l, p);
    }
    hide Invariant, Enabled, Step, ProcHolds;
  }

  lemma LocksKept(s: System, l: Label)
    requires Invariant(s) && Enabled(s, l)
    ensures var r := Step(s, l);
      (r.lock.Some? ==> r.lock.value in r.procs) && (r.rowLock.Some? ==> r.rowLock.value in r.procs)
  {
    hide ProcHolds;
  }

  lemma StepKeepsInvariant(s: System, l: Label)
    requires Invariant(s) && Enabled(s, l)
    ensures Invariant(Step(s, l))
  {
    var r := Step(s, l);
    forall p | p in r.procs ensures ProcHolds(r, p) {
      ProcKept(s, l, p);
    }
    LocksKept(s, l);
    hide Step, Enabled, ProcHolds;
  }

  /** A job just created, about to be enqueued. */
  ghost predicate Starts(s: System) {
    s == System(Store(Pending, None, false), None, None, map[0 := Enqueuer(Requeue)])
  }

  ghost predicate CanStep(s: System, r: System) {
    exists l :: Enabled(s, l) && r == Step(s, l)
  }

  ghost predicate IsRun(run: seq<System>) {
    && 0 < |run| && Starts(run[0])
    && forall i :: 0 <= i < |run| - 1 ==> CanStep(run[i], run[i + 1])
  }

  lemma {:induction false} RunKeepsInvariant(run: seq<System>, i: nat)
    requires IsRun(run) && i < |run|
    ensures Invariant(run[i])
  {
    if i > 0 {
      RunKeepsInvariant(run, i - 1);
      assert CanStep(run[i - 1], run[i - 1 + 1]);
      var l :| Enabled(run[i - 1], l) && run[i] == Step(run[i - 1], l);
      StepKeepsInvariant(run[i - 1], l);
    }
  }

  /** Results arrive together or not at all: the only step that touches the evaluation or the
      submission, or that completes the job, writes all three. */
  lemma ResultsArriveTogether(run: seq<System>, i: nat)
    requires IsRun(run) && i + 1 < |run|
    ensures var before, after := run[i].store, run[i + 1].store;
      || (after.evaluation == before.evaluation && after.submissionEvaluated == before.submissionEvaluated
          && (after.status == Completed ==> before.status == Completed))
      || (after.status == Completed && after.evaluation.Some? && after.submissionEvaluated && before.status != Cancelled)
  {
    RunKeepsInvariant(run, i);
    assert CanStep(run[i], run[i + 1]);
    var l :| Enabled(run[i], l) && run[i + 1] == Step(run[i], l);
    if l.WorkerCommit? {
      assert ProcHolds(run[i], l.p);
    }
  }

  /** So in every state of a run the evaluation is written exactly when the submission is marked,
      and a completed job has both. */
  lemma {:induction false} ResultsAreWhole(run: seq<System>, i: nat)
    requires IsRun(run) && i < |run|
    ensures run[i].store.evaluation.Some? <==> run[i].store.submissionEvaluated
    ensures run[i].store.status == Completed ==> run[i].store.submissionEvaluated
  {
    if i > 0 {
      ResultsAreWhole(run, i - 1);
      ResultsArriveTogether(run, i - 1);
    }
  }

  lemma OthersWait(s: System, l: Label, p: nat)
    requires Invariant(s) && Enabled(s, l) && s.rowLock == Some(p) && p in Step(s, l).procs && Step(s, l).procs[p] == s.procs[p]
    ensures Step(s, l).store == s.store && Step(s, l).rowLock == s.rowLock
  {
    assert ProcHolds(s, p);
    assert l.p in s.procs ==> ProcHolds(s, l.p);
  }

  /** Between a worker's or a canceller's write of the job row and its commit everybody else waits: while
      the process that wrote it takes no step, no status, evaluation or submission changes. */
  lemma LockedRowIsLeftAlone(run: seq<System>, i: nat, p: nat)
    requires IsRun(run) && i + 1 < |run| && run[i].rowLock == Some(p)
    requires p in run[i + 1].procs && p in run[i].procs && run[i + 1].procs[p] == run[i].procs[p]
    ensures run[i + 1].store == run[i].store && run[i + 1].rowLock == Some(p)
  {
    hide Invariant, Enabled, Step;
    RunKeepsInvariant(run, i);
    assert CanStep(run[i], run[i + 1]);
    var l :| Enabled(run[i], l) && run[i + 1] == Step(run[i], l);
    OthersWait(run[i], l, p);
  }

  /** No step cancels a completed job. */
  lemma CompletedIsNotCancelled(run: seq<System>, i: nat)
    requires IsRun(run) && i + 1 < |run|
    ensures !(run[i].store.status == Completed && run[i + 1].store.status == Cancelled)
  {
    RunKeepsInvariant(run, i);
    assert CanStep(run[i], run[i + 1]);
    var l :| Enabled(run[i], l) && run[i + 1] == Step(run[i], l);
    if l.CancelCommit? {
      assert ProcHolds(run[i], l.p);
    }
  }

  // ---------------------------------------------------------------- cancelled for good

  /** The three writes that do not look at the status they overwrite. */
  predicate Unguarded(l: Label) {
    l.RetrySave? || l.EnqueueSave? || (l.EnqueueAdd? && !l.ok)
  }

  /** Exactly these revive a cancelled job. */
  lemma OnlyUnguardedWritesRevive(s: System, l: Label)
    requires Invariant(s) && Enabled(s, l) && s.store.status == Cancelled
    ensures Step(s, l).store.status != Cancelled <==> Unguarded(l)
    ensures Step(s, l).store.evaluation == s.store.evaluation
    ensures Step(s, l).store.submissionEvaluated == s.store.submissionEvaluated
  {
    assert l.WorkerCommit? ==> ProcHolds(s, l.p);
  }

  /** A retry that has read the failed row, or a hand-over to the queue, is under way. */
  predicate HandsOver(proc: Proc) {
    proc.Retrier? || proc.Enqueuer?
  }

  predicate NoHandover(s: System) {
    forall p :: p in s.procs ==> !HandsOver(s.procs[p])
  }

  /** While the job is cancelled no hand-over can start, and without one nothing revives it. */
  lemma CancelledStepKeepsOut(s: System, l: Label)
    requires Invariant(s) && Enabled(s, l) && s.store.status == Cancelled && NoHandover(s)
    ensures NoHandover(Step(s, l)) && Step(s, l).store == s.store
  {
    OnlyUnguardedWritesRevive(s, l);
    assert !Unguarded(l);
  }

  /** What can follow a state. */
  ghost predicate Continues(s: System, path: seq<System>) {
    && 0 < |path| && path[0] == s
    && forall i :: 0 <= i < |path| - 1 ==> CanStep(path[i], path[i + 1])
  }

  lemma {:induction false} CancelledPathKeepsOut(s: System, path: seq<System>, j: nat)
    requires Invariant(s) && s.store.status == Cancelled && NoHandover(s) && Continues(s, path) && j < |path|
    ensures Invariant(path[j]) && NoHandover(path[j]) && path[j].store == s.store
  {
    if j > 0 {
      CancelledPathKeepsOut(s, path, j - 1);
      assert CanStep(path[j - 1], path[j - 1 + 1]);
      var l :| Enabled(path[j - 1], l) && path[j] == Step(path[j - 1], l);
      StepKeepsInvariant(path[j - 1], l);
      CancelledStepKeepsOut(path[j - 1], l);
    }
  }

  /** From a committed cancellation on, unless a retry or a hand-over was under way at that moment,
      the job, its evaluation and its submission never change again. */
  lemma CancelledStaysCancelled(run: seq<System>, i: nat, j: nat)
    requires IsRun(run) && i <= j < |run| && run[i].store.status == Cancelled && NoHandover(run[i])
    ensures run[j].store == run[i].store
  {
    RunKeepsInvariant(run, i);
    forall k | i <= k < |run| - 1 ensures CanStep(run[k], run[k + 1]) {
    }
    assert Continues(run[i], run[i..]);
    CancelledPathKeepsOut(run[i], run[i..], j - i);
  }

  /** Only a cancellation that has saved, but not committed, can hold the row of a cancelled job. */
  lemma RowHolder(s: System)
    requires Invariant(s) && s.store.status == Cancelled && s.rowLock.Some?
    ensures s.rowLock.value in s.procs && s.procs[s.rowLock.value] == Canceller(Saved)
  {
    assert ProcHolds(s, s.rowLock.value);
  }

  /** The step by which a hand-over overwrites a cancelled job whose row is free. */
  function Overwrite(p: nat, proc: Proc): Label
    requires HandsOver(proc)
  {
    match proc
    case Retrier => RetrySave(p)
    case Enqueuer(Requeue) => EnqueueSave(p)
    case Enqueuer(Adding) => EnqueueAdd(p, false)
  }

  lemma OverwriteRevives(s: System, p: nat)
    requires s.store.status == Cancelled && RowFree(s) && p in s.procs && HandsOver(s.procs[p])
    ensures var l := Overwrite(p, s.procs[p]); Enabled(s, l) && Step(s, l).store.status != Cancelled
  {
  }

  lemma SavedCommits(s: System, p: nat)
    requires Invariant(s) && IsCanceller(s, p, Saved)
    ensures Enabled(s, CancelCommit(p))
    ensures var r := Step(s, CancelCommit(p)); RowFree(r) && r.procs == s.procs - {p} && r.store.status == Cancelled
  {
    assert ProcHolds(s, p);
  }

  lemma HandoverRevives(s: System, p: nat) returns (path: seq<System>)
    requires Invariant(s) && s.store.status == Cancelled && p in s.procs && HandsOver(s.procs[p])
    ensures Continues(s, path) && path[|path| - 1].store.status != Cancelled
  {
    hide Enabled, Step, Invariant;
    var free := s;
    path := [s];
    if s.rowLock.Some? {
      RowHolder(s);
      var holder := s.rowLock.value;
      SavedCommits(s, holder);
      free := Step(s, CancelCommit(holder));
      assert CanStep(s, free);
      path := [s, free];
    }
    OverwriteRevives(free, p);
    var l := Overwrite(p, s.procs[p]);
    assert CanStep(free, Step(free, l));
    path := path + [Step(free, l)];
  }

  ghost predicate FinallyCancelled(s: System) {
    forall path: seq<System> :: Continues(s, path) ==> path[|path| - 1].store == s.store
  }

  /** Exactly then is a cancellation final: whatever happens later leaves the job, its evaluation
      and its submission alone if and only if no retry or hand-over is under way now. */
  lemma CancellationIsFinal(s: System)
    requires Invariant(s) && s.store.status == Cancelled
    ensures FinallyCancelled(s) <==> NoHandover(s)
  {
    if NoHandover(s) {
      forall path: seq<System> | Continues(s, path) ensures path[|path| - 1].store == s.store {
        CancelledPathKeepsOut(s, path, |path| - 1);
      }
    } else {
      var p :| p in s.procs && HandsOver(s.procs[p]);
      var path := HandoverRevives(s, p);
      assert Continues(s, path);
    }
  }

  /** A job being handed to the queue while a cancellation stands at `cancel`. */
  function Race(status: JobStatus, enqueue: EnqueuePhase, cancel: CancelPhase, lock: Option<nat>, rowLock: Option<nat>): System {
    System(Store(status, None, false), lock, rowLock, map[0 := Enqueuer(enqueue), 1 := Canceller(cancel)])
  }

  lemma CancellationLocks()
    ensures CanStep(Race(Pending, Adding, Asked, None, None), Race(Pending, Adding, Holding, Some(1), None))
  {
    var a := Race(Pending, Adding, Asked, None, None);
    assert Enabled(a, TakeLock(1)) && Step(a, TakeLock(1)) == Race(Pending, Adding, Holding, Some(1), None);
  }

  lemma CancellationReads()
    ensures CanStep(Race(Pending, Adding, Holding, Some(1), None), Race(Pending, Adding, Allowed, Some(1), None))
  {
    var b := Race(Pending, Adding, Holding, Some(1), None);
    assert Enabled(b, CancelRead(1)) && Step(b, CancelRead(1)) == Race(Pending, Adding, Allowed, Some(1), None);
  }

  lemma CancellationSaves()
    ensures CanStep(Race(Pending, Adding, Allowed, Some(1), None), Race(Pending, Adding, Saved, Some(1), Some(1)))
  {
    var c := Race(Pending, Adding, Allowed, Some(1), None);
    assert Enabled(c, CancelSave(1)) && Step(c, CancelSave(1)) == Race(Pending, Adding, Saved, Some(1), Some(1));
  }

  function HandingOver(status: JobStatus, enqueue: EnqueuePhase): System {
    System(Store(status, None, false), None, None, map[0 := Enqueuer(enqueue)])
  }

  lemma EnqueueStarts()
    ensures CanStep(HandingOver(Pending, Requeue), HandingOver(Pending, Adding))
    ensures CanStep(HandingOver(Pending, Adding), Race(Pending, Adding, Asked, None, None))
  {
    var a, b := HandingOver(Pending, Requeue), HandingOver(Pending, Adding);
    assert Enabled(a, EnqueueSave(0)) && Step(a, EnqueueSave(0)) == b;
    assert Enabled(b, SpawnCanceller(1)) && Step(b, SpawnCanceller(1)) == Race(Pending, Adding, Asked, None, None);
  }

  lemma CancellationCommits()
    ensures CanStep(Race(Pending, Adding, Saved, Some(1), Some(1)), HandingOver(Cancelled, Adding))
  {
    var a := Race(Pending, Adding, Saved, Some(1), Some(1));
    assert Enabled(a, CancelCommit(1)) && Step(a, CancelCommit(1)) == HandingOver(Cancelled, Adding);
  }

  lemma FailureFollows()
    ensures CanStep(HandingOver(Cancelled, Adding), System(Store(Failed, None, false), None, None, map[]))
  {
    var b := HandingOver(Cancelled, Adding);
    assert Enabled(b, EnqueueAdd(0, false)) && Step(b, EnqueueAdd(0, false)) == System(Store(Failed, None, false), None, None, map[]);
  }

  /** Such an overwrite does happen: a cancellation commits between the row's save and a
      failing hand-over to the queue, whose error path then marks the job failed. */
  lemma FailedEnqueueRevives() returns (run: seq<System>)
    ensures IsRun(run) && |run| == 8
    ensures run[6].store.status == Cancelled && run[7].store.status == Failed
  {
    hide Enabled, Step, CanStep;
    EnqueueStarts();
    CancellationLocks();
    CancellationReads();
    CancellationSaves();
    CancellationCommits();
    FailureFollows();
    run := [HandingOver(Pending, Requeue), HandingOver(Pending, Adding),
            Race(Pending, Adding, Asked, None, None), Race(Pending, Adding, Holding, Some(1), None),
            Race(Pending, Adding, Allowed, Some(1), None), Race(Pending, Adding, Saved, Some(1), Some(1)),
            HandingOver(Cancelled, Adding), System(Store(Failed, None, false), None, None, map[])];
  }

  // ---------------------------------------------------------------- completed for good

  /** Nothing but cancellations is under way. */
  predicate OnlyCancellers(s: System) {
    forall p :: p in s.procs ==> s.procs[p].Canceller?
  }

  /** A step other than a new delivery of the job. */
  ghost predicate GoesOn(s: System, r: System) {
    exists l: Label :: !l.SpawnWorker? && Enabled(s, l) && r == Step(s, l)
  }

  /** What can follow a state without a new delivery. */
  ghost predicate Follows(s: System, path: seq<System>) {
    && 0 < |path| && path[0] == s
    && forall i :: 0 <= i < |path| - 1 ==> GoesOn(path[i], path[i + 1])
  }

  lemma CompletedStepKeepsOut(s: System, l: Label)
    requires Invariant(s) && Enabled(s, l) && !l.SpawnWorker? && s.store.status == Completed && OnlyCancellers(s)
    ensures OnlyCancellers(Step(s, l)) && Step(s, l).store == s.store
  {
    assert l.p in s.procs ==> ProcHolds(s, l.p);
  }

  lemma {:induction false} CompletedPathKeepsOut(s: System, path: seq<System>, j: nat)
    requires Invariant(s) && s.store.status == Completed && OnlyCancellers(s) && Follows(s, path) && j < |path|
    ensures Invariant(path[j]) && OnlyCancellers(path[j]) && path[j].store == s.store
  {
    if j > 0 {
      CompletedPathKeepsOut(s, path, j - 1);
      assert GoesOn(path[j - 1], path[j - 1 + 1]);
      var l: Label :| !l.SpawnWorker? && Enabled(path[j - 1], l) && path[j] == Step(path[j - 1], l);
      StepKeepsInvariant(path[j - 1], l);
      CompletedStepKeepsOut(path[j - 1], l);
    }
    hide Step, Enabled, Invariant, OnlyCancellers;
  }

  lemma FollowsByOne(s: System, a: Label)
    requires Enabled(s, a) && !a.SpawnWorker?
    ensures Follows(s, [s, Step(s, a)])
  {
    assert GoesOn(s, Step(s, a));
    hide Step, Enabled;
  }

  lemma FollowsByTwo(s: System, a: Label, b: Label)
    requires Enabled(s, a) && !a.SpawnWorker? && Enabled(Step(s, a), b) && !b.SpawnWorker?
    ensures Follows(s, [s, Step(s, a), Step(Step(s, a), b)])
  {
    assert GoesOn(s, Step(s, a)) && GoesOn(Step(s, a), Step(Step(s, a), b));
    hide Step, Enabled;
  }

  /** A worker past its first read can fail, and its report takes the job back. */
  lemma FailureReopens(s: System, p: nat) returns (path: seq<System>)
    requires Invariant(s) && s.store.status == Completed && p in s.procs && s.procs[p].Worker? && s.procs[p].phase != Started
    requires RowFree(s) || s.rowLock == Some(p)
    ensures Follows(s, path) && path[|path| - 1].store.status != Completed
  {
    var raised := Step(s, WorkerRaise(p));
    FollowsByTwo(s, WorkerRaise(p), WorkerReport(p, true));
    path := [s, raised, Step(raised, WorkerReport(p, true))];
  }

  lemma WorkReopens(s: System, p: nat) returns (path: seq<System>)
    requires Invariant(s) && s.store.status == Completed && p in s.procs && !s.procs[p].Canceller?
    ensures Follows(s, path) && path[|path| - 1].store.status != Completed
  {
    if s.rowLock.Some? {
      assert ProcHolds(s, s.rowLock.value);
      path := FailureReopens(s, s.rowLock.value);
    } else if s.procs[p].Worker? && s.procs[p].phase != Started {
      path := FailureReopens(s, p);
    } else if s.procs[p].Worker? {
      var read := Step(s, WorkerRead(p));
      FollowsByTwo(s, WorkerRead(p), WorkerMark(p));
      path := [s, read, Step(read, WorkerMark(p))];
    } else {
      var l := Overwrite(p, s.procs[p]);
      FollowsByOne(s, l);
      path := [s, Step(s, l)];
    }
  }

  ghost predicate FinallyCompleted(s: System) {
    forall path: seq<System> :: Follows(s, path) ==> path[|path| - 1].store == s.store
  }

  /** Whatever happens later, other than a new delivery, leaves a completed job, its evaluation and its
      submission alone if and only if nothing but cancellations is under way now. */
  lemma CompletionIsFinal(s: System)
    requires Invariant(s) && s.store.status == Completed
    ensures FinallyCompleted(s) <==> OnlyCancellers(s)
  {
    if OnlyCancellers(s) {
      forall path: seq<System> | Follows(s, path) ensures path[|path| - 1].store == s.store {
        CompletedPathKeepsOut(s, path, |path| - 1);
      }
    } else {
      var p :| p in s.procs && !s.procs[p].Canceller?;
      var path := WorkReopens(s, p);
      assert Follows(s, path);
    }
    hide Invariant, Follows;
  }

  // ---------------------------------------------------------------- the rows in place

  /** The steps that a process takes when it runs alone. */
  ghost predicate Plays(s: System, labels: seq<Label>, r: System)
    decreases labels
  {
    if labels == [] then r == s
    else Enabled(s, labels[0]) && Plays(Step(s, labels[0]), labels[1..], r)
  }

  lemma {:induction false} PlaysOn(s: System, a: seq<Label>, m: System, b: seq<Label>, r: System)
    requires Plays(s, a, m) && Plays(m, b, r)
    ensures Plays(s, a + b, r)
    decreases a
  {
    if a == [] {
      assert a + b == b;
    } else {
      PlaysOn(Step(s, a[0]), a[1..], m, b, r);
      assert (a + b)[1..] == a[1..] + b;
    }
  }

  lemma PlaysOne(s: System, l: Label)
    requires Enabled(s, l)
    ensures Plays(s, [l], Step(s, l))
  {
    assert [l][1..] == [];
  }

  function Alone(store: Store, proc: Proc): System {
    System(store, None, None, map[0 := proc])
  }

  function Done(store: Store): System {
    System(store, None, None, map[])
  }

  function InTransaction(store: Store, proc: Proc): System {
    System(store, Some(0), None, map[0 := proc])
  }

  /** What `commitResults` does to the rows. */
  function Finished(store: Store, result: nat): Store {
    if store.status == Cancelled then store else Store(Completed, Some(result), true)
  }

  function CommitLabels(store: Store): seq<Label> {
    if store.status == Cancelled then [TakeLock(0), TxRead(0)]
    else [TakeLock(0), TxRead(0)] + [SaveEvaluation(0), SaveSubmission(0)] + [SaveJob(0), WorkerCommit(0)]
  }

  lemma CommitOpens(store: Store, result: nat)
    ensures Plays(Alone(store, Worker(Confirmed, result)), [TakeLock(0), TxRead(0)],
                  if store.status == Cancelled then Done(store) else InTransaction(store, Worker(Reading(NOTHING), result)))
  {
    var s := Alone(store, Worker(Confirmed, result));
    var locked := InTransaction(store, Worker(Locked, result));
    assert Step(s, TakeLock(0)) == locked;
    PlaysOne(s, TakeLock(0));
    PlaysOne(locked, TxRead(0));
    PlaysOn(s, [TakeLock(0)], locked, [TxRead(0)], Step(locked, TxRead(0)));
    assert [TakeLock(0)] + [TxRead(0)] == [TakeLock(0), TxRead(0)];
  }

  lemma CommitWrites(store: Store, result: nat)
    ensures Plays(InTransaction(store, Worker(Reading(NOTHING), result)), [SaveEvaluation(0), SaveSubmission(0)],
                  InTransaction(store, Worker(Writing(Buffer(true, true, false)), result)))
  {
    var s := InTransaction(store, Worker(Reading(NOTHING), result));
    var half := InTransaction(store, Worker(Writing(Buffer(true, false, false)), result));
    assert Step(s, SaveEvaluation(0)) == half;
    PlaysOne(s, SaveEvaluation(0));
    PlaysOne(half, SaveSubmission(0));
    PlaysOn(s, [SaveEvaluation(0)], half, [SaveSubmission(0)], Step(half, SaveSubmission(0)));
    assert [SaveEvaluation(0)] + [SaveSubmission(0)] == [SaveEvaluation(0), SaveSubmission(0)];
  }

  lemma CommitEnds(store: Store, result: nat)
    requires store.status != Cancelled
    ensures Plays(InTransaction(store, Worker(Writing(Buffer(true, true, false)), result)), [SaveJob(0), WorkerCommit(0)],
                  Done(Store(Completed, Some(result), true)))
  {
    var s := InTransaction(store, Worker(Writing(Buffer(true, true, false)), result));
    var written := Step(s, SaveJob(0));
    PlaysOne(s, SaveJob(0));
    PlaysOne(written, WorkerCommit(0));
    PlaysOn(s, [SaveJob(0)], written, [WorkerCommit(0)], Step(written, WorkerCommit(0)));
    assert [SaveJob(0)] + [WorkerCommit(0)] == [SaveJob(0), WorkerCommit(0)];
  }

  lemma CommitAlone(store: Store, result: nat)
    ensures Plays(Alone(store, Worker(Confirmed, result)), CommitLabels(store), Done(Finished(store, result)))
  {
    hide Plays;
    CommitOpens(store, result);
    if store.status != Cancelled {
      var s := Alone(store, Worker(Confirmed, result));
      var reading := InTransaction(store, Worker(Reading(NOTHING), result));
      var writing := InTransaction(store, Worker(Writing(Buffer(true, true, false)), result));
      CommitWrites(store, result);
      CommitEnds(store, result);
      PlaysOn(s, [TakeLock(0), TxRead(0)], reading, [SaveEvaluation(0), SaveSubmission(0)], writing);
      PlaysOn(s, [TakeLock(0), TxRead(0)] + [SaveEvaluation(0), SaveSubmission(0)], writing, [SaveJob(0), WorkerCommit(0)],
              Done(Store(Completed, Some(result), true)));
    }
  }

  function CancelLabels(store: Store): seq<Label> {
    if store.status == Completed then [TakeLock(0)] + [CancelRead(0)]
    else [TakeLock(0)] + [CancelRead(0)] + [CancelSave(0)] + [CancelCommit(0)]
  }

  lemma CancelOpens(store: Store)
    ensures Plays(Alone(store, Canceller(Asked)), [TakeLock(0)] + [CancelRead(0)],
                  if store.status == Completed then Done(store) else InTransaction(store, Canceller(Allowed)))
  {
    var s := Alone(store, Canceller(Asked));
    var holding := InTransaction(store, Canceller(Holding));
    assert Step(s, TakeLock(0)) == holding;
    PlaysOne(s, TakeLock(0));
    PlaysOne(holding, CancelRead(0));
    PlaysOn(s, [TakeLock(0)], holding, [CancelRead(0)], Step(holding, CancelRead(0)));
    hide Plays;
  }

  lemma CancelAlone(store: Store)
    ensures Plays(Alone(store, Canceller(Asked)), CancelLabels(store),
                  Done(if store.status == Completed then store else store.(status := Cancelled)))
  {
    hide Plays;
    CancelOpens(store);
    if store.status != Completed {
      CancelWrites(store);
      PlaysOn(Alone(store, Canceller(Asked)), [TakeLock(0)] + [CancelRead(0)], InTransaction(store, Canceller(Allowed)),
              [CancelSave(0)] + [CancelCommit(0)], Done(store.(status := Cancelled)));
      assert CancelLabels(store) == [TakeLock(0)] + [CancelRead(0)] + ([CancelSave(0)] + [CancelCommit(0)]);
    }
  }

  lemma CancelWrites(store: Store)
    ensures Plays(InTransaction(store, Canceller(Allowed)), [CancelSave(0)] + [CancelCommit(0)], Done(store.(status := Cancelled)))
  {
    var allowed := InTransaction(store, Canceller(Allowed));
    var saved := Step(allowed, CancelSave(0));
    PlaysOne(allowed, CancelSave(0));
    PlaysOne(saved, CancelCommit(0));
    PlaysOn(allowed, [CancelSave(0)], saved, [CancelCommit(0)], Step(saved, CancelCommit(0)));
  }

  /** The answer of one evaluation: a result, or a failure after which the queue tries again or not. */
  datatype Answer = Answered(result: nat) | Broke(again: bool)

  function ResultOf(answer: Answer): nat {
    if answer.Answered? then answer.result else 0
  }

  /** All steps of a worker that runs alone. */
  function WorkLabels(store: Store, answer: Answer): seq<Label> {
    if store.status == Cancelled then [WorkerRead(0)]
    else
      [WorkerRead(0)] + [WorkerMark(0)] +
      (match answer
       case Answered(_) => [WorkerCheck(0)] + CommitLabels(store.(status := Processing))
       case Broke(again) => [WorkerRaise(0)] + [WorkerReport(0, again)])
  }

  function Worked(store: Store, answer: Answer): Store {
    if store.status == Cancelled then store
    else
      match answer
      case Answered(result) => Store(Completed, Some(result), true)
      case Broke(again) => store.(status := if again then Pending else Failed)
  }

  lemma WorkStarts(store: Store, result: nat)
    requires store.status != Cancelled
    ensures Plays(Alone(store, Worker(Started, result)), [WorkerRead(0)] + [WorkerMark(0)],
                  Alone(store.(status := Processing), Worker(Running, result)))
  {
    var s := Alone(store, Worker(Started, result));
    var admitted := Alone(store, Worker(Admitted, result));
    assert Step(s, WorkerRead(0)) == admitted;
    PlaysOne(s, WorkerRead(0));
    PlaysOne(admitted, WorkerMark(0));
    PlaysOn(s, [WorkerRead(0)], admitted, [WorkerMark(0)], Step(admitted, WorkerMark(0)));
    assert Step(admitted, WorkerMark(0)) == Alone(store.(status := Processing), Worker(Running, result));
  }

  lemma WorkBreaks(store: Store, again: bool)
    requires store.status == Processing
    ensures Plays(Alone(store, Worker(Running, 0)), [WorkerRaise(0)] + [WorkerReport(0, again)],
                  Done(store.(status := if again then Pending else Failed)))
  {
    var s := Alone(store, Worker(Running, 0));
    var raising := Alone(store, Worker(Raising, 0));
    assert Step(s, WorkerRaise(0)) == raising;
    PlaysOne(s, WorkerRaise(0));
    PlaysOne(raising, WorkerReport(0, again));
    PlaysOn(s, [WorkerRaise(0)], raising, [WorkerReport(0, again)], Step(raising, WorkerReport(0, again)));
    hide Plays;
    assert Step(raising, WorkerReport(0, again)) == Done(store.(status := if again then Pending else Failed));
  }

  lemma WorkChecks(store: Store, result: nat)
    requires store.status == Processing
    ensures Plays(Alone(store, Worker(Running, result)), [WorkerCheck(0)], Alone(store, Worker(Confirmed, result)))
  {
    var s := Alone(store, Worker(Running, result));
    PlaysOne(s, WorkerCheck(0));
    assert Step(s, WorkerCheck(0)) == Alone(store, Worker(Confirmed, result));
  }

  lemma WorkAlone(store: Store, answer: Answer)
    ensures Plays(Alone(store, Worker(Started, ResultOf(answer))), WorkLabels(store, answer), Done(Worked(store, answer)))
  {
    var s := Alone(store, Worker(Started, ResultOf(answer)));
    if store.status == Cancelled {
      PlaysOne(s, WorkerRead(0));
    } else {
      var marked := store.(status := Processing);
      var running := Alone(marked, Worker(Running, ResultOf(answer)));
      WorkStarts(store, ResultOf(answer));
      match answer
      case Answered(result) =>
        WorkChecks(marked, result);
        CommitAlone(marked, result);
        PlaysOn(running, [WorkerCheck(0)], Alone(marked, Worker(Confirmed, result)), CommitLabels(marked), Done(Finished(marked, result)));
        PlaysOn(s, [WorkerRead(0)] + [WorkerMark(0)], running, [WorkerCheck(0)] + CommitLabels(marked), Done(Finished(marked, result)));
      case Broke(again) =>
        WorkBreaks(marked, again);
        PlaysOn(s, [WorkerRead(0)] + [WorkerMark(0)], running, [WorkerRaise(0)] + [WorkerReport(0, again)],
                Done(marked.(status := if again then Pending else Failed)));
    }
    hide Plays, CommitLabels;
  }

  function RetryLabels(added: bool): seq<Label> {
    [RetryRead(0)] + [RetrySave(0)] + [EnqueueSave(0)] + [EnqueueAdd(0, added)]
  }

  lemma RetrySaves(store: Store)
    requires store.status == Failed
    ensures Plays(Done(store), [RetryRead(0)] + [RetrySave(0)], Alone(store.(status := Pending), Enqueuer(Requeue)))
  {
    var a, b := Done(store), Alone(store, Retrier);
    assert Step(a, RetryRead(0)) == b;
    PlaysOne(a, RetryRead(0));
    PlaysOne(b, RetrySave(0));
    PlaysOn(a, [RetryRead(0)], b, [RetrySave(0)], Step(b, RetrySave(0)));
    hide Plays;
    assert Step(b, RetrySave(0)) == Alone(store.(status := Pending), Enqueuer(Requeue));
  }

  lemma Enqueues(store: Store, added: bool)
    requires store.status == Pending
    ensures Plays(Alone(store, Enqueuer(Requeue)), [EnqueueSave(0)] + [EnqueueAdd(0, added)],
                  Done(store.(status := if added then Pending else Failed)))
  {
    var a, b := Alone(store, Enqueuer(Requeue)), Alone(store, Enqueuer(Adding));
    assert Step(a, EnqueueSave(0)) == b;
    PlaysOne(a, EnqueueSave(0));
    PlaysOne(b, EnqueueAdd(0, added));
    PlaysOn(a, [EnqueueSave(0)], b, [EnqueueAdd(0, added)], Step(b, EnqueueAdd(0, added)));
    hide Plays;
    assert Step(b, EnqueueAdd(0, added)) == Done(store.(status := if added then Pending else Failed));
  }

  lemma RetryAlone(store: Store, added: bool)
    requires store.status == Failed
    ensures Plays(Done(store), RetryLabels(added), Done(store.(status := if added then Pending else Failed)))
  {
    hide Plays;
    var pending := store.(status := Pending);
    RetrySaves(store);
    Enqueues(pending, added);
    PlaysOn(Done(store), [RetryRead(0)] + [RetrySave(0)], Alone(pending, Enqueuer(Requeue)),
            [EnqueueSave(0)] + [EnqueueAdd(0, added)], Done(store.(status := if added then Pending else Failed)));
    assert RetryLabels(added) == [RetryRead(0)] + [RetrySave(0)] + ([EnqueueSave(0)] + [EnqueueAdd(0, added)]);
  }

  /** The job from its first hand-over to a completion, a second delivery that marks it as processing
      and goes no further, and a cancellation. */
  function ReopeningLabels(result: nat): seq<Label> {
    [EnqueueSave(0)] + [EnqueueAdd(0, true)] + [SpawnWorker(0, result)] + WorkLabels(Store(Pending, None, false), Answered(result))
    + ([SpawnWorker(0, result)] + ([WorkerRead(0)] + [WorkerMark(0)]) + [Vanish(0)]
       + [SpawnCanceller(0)] + CancelLabels(Store(Processing, Some(result), true)))
  }

  lemma HandedToWorker(result: nat)
    ensures Plays(HandingOver(Pending, Requeue), [EnqueueSave(0)] + [EnqueueAdd(0, true)] + [SpawnWorker(0, result)],
                  Alone(Store(Pending, None, false), Worker(Started, result)))
  {
    hide Plays;
    var pending := Store(Pending, None, false);
    var done := Done(pending);
    assert Enabled(done, SpawnWorker(0, result)) && Step(done, SpawnWorker(0, result)) == Alone(pending, Worker(Started, result));
    Enqueues(pending, true);
    PlaysOne(done, SpawnWorker(0, result));
    PlaysOn(HandingOver(Pending, Requeue), [EnqueueSave(0)] + [EnqueueAdd(0, true)], done, [SpawnWorker(0, result)],
            Step(done, SpawnWorker(0, result)));
  }

  lemma SecondDelivery(store: Store, result: nat)
    requires store.status == Completed
    ensures var marked := store.(status := Processing);
      Plays(Done(store), [SpawnWorker(0, result)] + ([WorkerRead(0)] + [WorkerMark(0)]) + [Vanish(0)] + [SpawnCanceller(0)],
            Alone(marked, Canceller(Asked)))
  {
    var marked := store.(status := Processing);
    var a, b, c, d := Done(store), Alone(store, Worker(Started, result)), Alone(marked, Worker(Running, result)), Done(marked);
    assert Step(a, SpawnWorker(0, result)) == b && Step(c, Vanish(0)) == d;
    PlaysOne(a, SpawnWorker(0, result));
    WorkStarts(store, result);
    PlaysOne(c, Vanish(0));
    PlaysOne(d, SpawnCanceller(0));
    PlaysOn(a, [SpawnWorker(0, result)], b, [WorkerRead(0)] + [WorkerMark(0)], c);
    PlaysOn(a, [SpawnWorker(0, result)] + ([WorkerRead(0)] + [WorkerMark(0)]), c, [Vanish(0)], d);
    PlaysOn(a, [SpawnWorker(0, result)] + ([WorkerRead(0)] + [WorkerMark(0)]) + [Vanish(0)], d, [SpawnCanceller(0)], Step(d, SpawnCanceller(0)));
    hide Plays;
  }

  /** A second delivery takes a completed job back, and it can then be cancelled although its evaluation
      is written: a run from the start, for every result. */
  lemma CompletedCanBeCancelled(result: nat)
    ensures Starts(HandingOver(Pending, Requeue))
    ensures Plays(HandingOver(Pending, Requeue), ReopeningLabels(result), Done(Store(Cancelled, Some(result), true)))
  {
    var start, pending, completed := HandingOver(Pending, Requeue), Store(Pending, None, false), Store(Completed, Some(result), true);
    var marked := Store(Processing, Some(result), true);
    var handed := [EnqueueSave(0)] + [EnqueueAdd(0, true)] + [SpawnWorker(0, result)];
    var again := [SpawnWorker(0, result)] + ([WorkerRead(0)] + [WorkerMark(0)]) + [Vanish(0)] + [SpawnCanceller(0)];
    HandedToWorker(result);
    WorkAlone(pending, Answered(result));
    SecondDelivery(completed, result);
    CancelAlone(marked);
    PlaysOn(start, handed, Alone(pending, Worker(Started, result)), WorkLabels(pending, Answered(result)), Done(completed));
    PlaysOn(Done(completed), again, Alone(marked, Canceller(Asked)), CancelLabels(marked), Done(Store(Cancelled, Some(result), true)));
    PlaysOn(start, handed + WorkLabels(pending, Answered(result)), Done(completed), again + CancelLabels(marked),
            Done(Store(Cancelled, Some(result), true)));
    hide Plays, WorkLabels, CancelLabels;
  }

  /** The job row with the evaluation and submission it feeds. Run alone, each operation does
      exactly what its steps do in the interleaved model. */
  class JobRows {
    var status: JobStatus
    var evaluation: Option<nat>
    var submissionEvaluated: bool

    function Contents(): Store
      reads this
    {
      Store(status, evaluation, submissionEvaluated)
    }

    constructor ()
      ensures Contents() == Store(Pending, None, false)
    {
      status, evaluation, submissionEvaluated := Pending, None, false;
    }

    method UpdateStatus(to: JobStatus)
      modifies this`status
      ensures Done(Contents()) == UpdateJobStatus(Done(old(Contents())), to)
    {
      if status != Cancelled {
        status := to;
      }
    }

    /** `commitResults`, entered after the worker's last check. */
    method CommitResults(result: nat)
      modifies this
      ensures Contents() == Finished(old(Contents()), result)
      ensures Plays(Alone(old(Contents()), Worker(Confirmed, result)), CommitLabels(old(Contents())), Done(Contents()))
    {
      CommitAlone(Contents(), result);
      if status == Cancelled {
        return;
      }
      evaluation := Some(result);
      submissionEvaluated := true;
      UpdateStatus(Completed);
    }

    /** `process`, from the first read to the commit or the report of a failure. */
    method Process(answer: Answer)
      modifies this
      ensures Plays(Alone(old(Contents()), Worker(Started, ResultOf(answer))), WorkLabels(old(Contents()), answer), Done(Contents()))
    {
      WorkAlone(Contents(), answer);
      hide Plays;
      if status == Cancelled {
        return;
      }
      UpdateStatus(Processing);
      match answer {
        case Answered(result) =>
          CommitResults(result);
        case Broke(again) =>
          UpdateStatus(if again then Pending else Failed);
      }
    }

    method CancelJob() returns (ok: bool)
      modifies this`status
      ensures ok <==> old(status) != Completed
      ensures Plays(Alone(old(Contents()), Canceller(Asked)), CancelLabels(old(Contents())), Done(Contents()))
    {
      CancelAlone(Contents());
      ok := status != Completed;
      if ok {
        status := Cancelled;
      }
    }

    /** `retryFailedJob` with the hand-over to the queue; `added` is the queue's answer. */
    method RetryFailedJob(attemptsLeft: bool, added: bool) returns (ok: bool)
      modifies this`status
      ensures ok <==> old(status) == Failed && attemptsLeft && added
      ensures old(status) != Failed || !attemptsLeft ==> Contents() == old(Contents())
      ensures old(status) == Failed && attemptsLeft ==> Plays(Done(old(Contents())), RetryLabels(added), Done(Contents()))
    {
      if status != Failed || !attemptsLeft {
        return false;
      }
      RetryAlone(Contents(), added);
      status := Pending;
      if !added {
        status := Failed;
      }
      ok := added;
    }
  }
}
