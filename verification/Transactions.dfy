/** Nested transactional calls that share one database transaction and one list of effects to
    run after the outermost commit. */
module Transactions {

  /** The body of an operation. `Call` invokes another transactional operation, inside a
      savepoint; `caught` tells whether the caller catches its failure. */
  datatype Op =
    | Write(key: string, value: int)
    | AfterCommit(effect: int)
    | Fail
    | Call(body: seq<Op>, caught: bool)

  datatype Outcome = Outcome(ok: bool, store: map<string, int>, effects: seq<int>)

  /** Runs the body up to its end or its first uncaught failure. A failed call gives back the
      store of its savepoint; the effects it registered stay on the shared list. */
  function Run(ops: seq<Op>, store: map<string, int>, effects: seq<int>): Outcome {
    if ops == [] then Outcome(true, store, effects)
    else
      match ops[0]
      case Write(k, v) => Run(ops[1..], store[k := v], effects)
      case AfterCommit(e) => Run(ops[1..], store, effects + [e])
      case Fail => Outcome(false, store, effects)
      case Call(body, caught) =>
        var inner := Run(body, store, effects);
        if inner.ok then Run(ops[1..], inner.store, inner.effects)
        else if caught then Run(ops[1..], store, inner.effects)
        else Outcome(false, store, inner.effects)
  }

  // ---------------------------------------------------------------- what the body asks for

  /** Every write, in program order, through all nested calls. */
  function Writes(ops: seq<Op>): seq<(string, int)> {
    if ops == [] then []
    else (match ops[0]
          case Write(k, v) => [(k, v)]
          case Call(body, _) => Writes(body)
          case _ => []) + Writes(ops[1..])
  }

  function Effects(ops: seq<Op>): seq<int> {
    if ops == [] then []
    else (match ops[0]
          case AfterCommit(e) => [e]
          case Call(body, _) => Effects(body)
          case _ => []) + Effects(ops[1..])
  }

  predicate NeverFails(ops: seq<Op>) {
    ops == [] ||
    ((match ops[0]
      case Fail => false
      case Call(body, _) => NeverFails(body)
      case _ => true) && NeverFails(ops[1..]))
  }

  predicate NeverCatches(ops: seq<Op>) {
    ops == [] ||
    ((match ops[0]
      case Call(body, caught) => !caught && NeverCatches(body)
      case _ => true) && NeverCatches(ops[1..]))
  }

  function Apply(store: map<string, int>, writes: seq<(string, int)>): map<string, int>
    decreases writes
  {
    if writes == [] then store else Apply(store[writes[0].0 := writes[0].1], writes[1..])
  }

  lemma {:induction false} ApplySplits(store: map<string, int>, a: seq<(string, int)>, b: seq<(string, int)>)
    ensures Apply(store, a + b) == Apply(Apply(store, a), b)
    decreases a
  {
    if a == [] {
      assert a + b == b;
    } else {
      assert (a + b)[1..] == a[1..] + b;
      ApplySplits(store[a[0].0 := a[0].1], a[1..], b);
    }
  }

  // ---------------------------------------------------------------- with catches

  /** Does the body reach its end? */
  predicate Completes(ops: seq<Op>) {
    ops == [] ||
    ((match ops[0]
      case Fail => false
      case Call(body, caught) => caught || Completes(body)
      case _ => true) && Completes(ops[1..]))
  }

  /** The effects of the work that is kept, for a body that completes. */
  function Kept(ops: seq<Op>): seq<int> {
    if ops == [] then []
    else (match ops[0]
          case AfterCommit(e) => [e]
          case Call(body, _) => if Completes(body) then Kept(body) else []
          case _ => []) + Kept(ops[1..])
  }

  /** Every effect registered before the end or the first uncaught failure. */
  function Registered(ops: seq<Op>): seq<int> {
    if ops == [] then []
    else
      match ops[0]
      case Write(_, _) => Registered(ops[1..])
      case AfterCommit(e) => [e] + Registered(ops[1..])
      case Fail => []
      case Call(body, caught) =>
        Registered(body) + (if caught || Completes(body) then Registered(ops[1..]) else [])
  }

  /** No call that failed and was caught had registered an effect. */
  predicate NoOrphans(ops: seq<Op>) {
    ops == [] ||
    (match ops[0]
     case Fail => true
     case Call(body, _) => (if Completes(body) then NoOrphans(body) else Registered(body) == []) && NoOrphans(ops[1..])
     case _ => NoOrphans(ops[1..]))
  }

  lemma {:induction false} RunRegisters(ops: seq<Op>, store: map<string, int>, effects: seq<int>)
    ensures var r := Run(ops, store, effects);
      (r.ok <==> Completes(ops)) && r.effects == effects + Registered(ops)
    decreases ops
  {
    if ops == [] {
      assert effects + [] == effects;
    } else {
      match ops[0]
      case Write(k, v) => RunRegisters(ops[1..], store[k := v], effects);
      case AfterCommit(e) =>
        RunRegisters(ops[1..], store, effects + [e]);
        assert effects + [e] + Registered(ops[1..]) == effects + ([e] + Registered(ops[1..]));
      case Fail =>
        assert effects + [] == effects;
      case Call(body, caught) =>
        RunRegisters(body, store, effects);
        var inner := Run(body, store, effects);
        RunRegisters(ops[1..], if inner.ok then inner.store else store, inner.effects);
        assert effects + Registered(body) + Registered(ops[1..]) == effects + (Registered(body) + Registered(ops[1..]));
        assert Registered(body) + [] == Registered(body);
    }
  }

  lemma {:induction false} OrphansAreExtra(ops: seq<Op>)
    requires Completes(ops)
    ensures |Kept(ops)| <= |Registered(ops)|
    ensures |Registered(ops)| == |Kept(ops)| <==> NoOrphans(ops)
    decreases ops
  {
    if ops != [] {
      OrphansAreExtra(ops[1..]);
      if ops[0].Call? && Completes(ops[0].body) {
        OrphansAreExtra(ops[0].body);
      }
    }
  }

  lemma {:induction false} WithoutOrphansSame(ops: seq<Op>)
    requires Completes(ops) && NoOrphans(ops)
    ensures Registered(ops) == Kept(ops)
    decreases ops
  {
    if ops != [] {
      WithoutOrphansSame(ops[1..]);
      if ops[0].Call? && Completes(ops[0].body) {
        WithoutOrphansSame(ops[0].body);
      }
    }
  }

  // ---------------------------------------------------------------- without catches

  lemma {:induction false} UncaughtMeansCompleteOrFail(ops: seq<Op>)
    requires NeverCatches(ops)
    ensures Completes(ops) <==> NeverFails(ops)
    ensures NeverFails(ops) ==> Registered(ops) == Effects(ops)
    decreases ops
  {
    if ops != [] {
      UncaughtMeansCompleteOrFail(ops[1..]);
      if ops[0].Call? {
        UncaughtMeansCompleteOrFail(ops[0].body);
      }
    }
  }

  /** Without catches a body that completes performs all its writes, in program order. */
  lemma {:induction false} RunWritesAll(ops: seq<Op>, store: map<string, int>, effects: seq<int>)
    requires NeverCatches(ops) && Completes(ops)
    ensures Run(ops, store, effects).store == Apply(store, Writes(ops))
    decreases ops
  {
    if ops != [] {
      match ops[0]
      case Write(k, v) =>
        RunWritesAll(ops[1..], store[k := v], effects);
        ApplySplits(store, [(k, v)], Writes(ops[1..]));
      case AfterCommit(e) =>
        RunWritesAll(ops[1..], store, effects + [e]);
        assert Writes(ops) == Writes(ops[1..]);
      case Call(body, caught) =>
        RunRegisters(body, store, effects);
        RunWritesAll(body, store, effects);
        var inner := Run(body, store, effects);
        RunWritesAll(ops[1..], inner.store, inner.effects);
        ApplySplits(store, Writes(body), Writes(ops[1..]));
    }
  }

  // ---------------------------------------------------------------- the outermost call

  /** What an operation started outside any transaction leaves behind: the store, and the
      effects that were run. `commits` is the database's answer to COMMIT. */
  datatype Result = Result(ok: bool, store: map<string, int>, ran: seq<int>)

  function Perform(body: seq<Op>, store: map<string, int>, commits: bool): Result {
    var r := Run(body, store, []);
    if r.ok && commits then Result(true, r.store, r.effects) else Result(false, store, [])
  }

  /** All or nothing, for any tree of calls that catch no nested failure: success commits every
      write and runs every effect once, in order; failure changes nothing and runs nothing. */
  lemma PerformIsAllOrNothing(body: seq<Op>, store: map<string, int>, commits: bool)
    requires NeverCatches(body)
    ensures var r := Perform(body, store, commits);
      && (r.ok <==> NeverFails(body) && commits)
      && (r.ok ==> r.store == Apply(store, Writes(body)) && r.ran == Effects(body))
      && (!r.ok ==> r.store == store && r.ran == [])
  {
    RunRegisters(body, store, []);
    UncaughtMeansCompleteOrFail(body);
    assert [] + Registered(body) == Registered(body);
    if Completes(body) {
      RunWritesAll(body, store, []);
    }
  }

  /** With catches, the effects that run are those of the work that was kept exactly when no
      caught failure had registered one. */
  lemma CaughtFailuresStillRunEffects(body: seq<Op>, store: map<string, int>)
    requires Perform(body, store, true).ok
    ensures Perform(body, store, true).ran == Kept(body) <==> NoOrphans(body)
  {
    RunRegisters(body, store, []);
    assert [] + Registered(body) == Registered(body);
    OrphansAreExtra(body);
    if NoOrphans(body) {
      WithoutOrphansSame(body);
    }
  }

  /** A service with its store; `effects` is the list the decorator hangs on the scoped copies
      of the service, `ran` the effects started after commit. */
  class Service {
    var store: map<string, int>
    var effects: seq<int>
    var ran: seq<int>

    constructor ()
      ensures store == map[] && effects == [] && ran == []
    {
      store, effects, ran := map[], [], [];
    }

    /** A call inside the transaction: a failure returns to the savepoint. */
    method Nested(body: seq<Op>) returns (ok: bool)
      modifies this`store, this`effects
      ensures ok == Run(body, old(store), old(effects)).ok
      ensures effects == Run(body, old(store), old(effects)).effects
      ensures store == if ok then Run(body, old(store), old(effects)).store else old(store)
      decreases body, 1
    {
      var savepoint := store;
      ok := Execute(body);
      if !ok {
        store := savepoint;
      }
    }

    method Execute(ops: seq<Op>) returns (ok: bool)
      modifies this`store, this`effects
      ensures ok == Run(ops, old(store), old(effects)).ok
      ensures effects == Run(ops, old(store), old(effects)).effects
      ensures ok ==> store == Run(ops, old(store), old(effects)).store
      decreases ops, 0
    {
      if ops == [] {
        return true;
      }
      match ops[0] {
        case Write(k, v) => store := store[k := v];
        case AfterCommit(e) => effects := effects + [e];
        case Fail => return false;
        case Call(body, caught) =>
          var done := Nested(body);
          if !done && !caught {
            return false;
          }
      }
      ok := Execute(ops[1..]);
    }

    /** The outermost call. `delivers` tells which effects succeed; the others are only logged. */
    method Transactional(body: seq<Op>, commits: bool, delivers: int -> bool) returns (ok: bool, failures: nat)
      modifies this
      ensures Result(ok, store, ran) == (var r := Perform(body, old(store), commits); r.(ran := old(ran) + r.ran))
      ensures failures <= |ran| - |old(ran)|
    {
      effects := [];
      failures := 0;
      var before := store;
      ok := Nested(body);
      if ok && !commits {
        store := before;
        ok := false;
      }
      ghost var started := ran;
      if ok {
        var i := 0;
        while i < |effects|
          invariant i <= |effects| && ran == started + effects[..i] && failures <= i
          invariant effects == Run(body, old(store), []).effects && store == Run(body, old(store), []).store
        {
          assert effects[..i + 1] == effects[..i] + [effects[i]];
          ran := ran + [effects[i]];
          if !delivers(effects[i]) {
            failures := failures + 1;
          }
          i := i + 1;
        }
        assert effects[..i] == effects;
      }
    }
  }
}
