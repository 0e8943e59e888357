/** The read side of vault-board-v1: what `prepare` tells the wallet about an outpoint. */
module BoardStatus {
  import opened Prelude
  import opened BoardTables
  import opened BoardInvariant

  /** The rows of the latest attempt. */
  datatype Snapshot = Snapshot(
    attempt: nat, register: Auth,
    registerDispatch: Option<Blob>, registerSub: Option<Submission>,
    deleteAuth: Option<Auth>, deleteDispatch: Option<Blob>, deleteSub: Option<Submission>,
    finalAuth: Option<Auth>, finalDispatch: Option<Blob>, finalSub: Option<Submission>)

  datatype Reading = Unreadable | Missing | Found(snapshot: Snapshot)

  function Get<V>(m: map<RowKey, V>, k: RowKey): Option<V> { if k in m then Some(m[k]) else None }

  function SnapshotOf(t: Tables, op: OpKey, a: nat): Snapshot
    requires Reg(op, a) in t.auths
  {
    Snapshot(a, t.auths[Reg(op, a)],
             Get(t.dispatches, Reg(op, a)), Get(t.subs, Reg(op, a)),
             Get(t.auths, Del(op, a)), Get(t.dispatches, Del(op, a)), Get(t.subs, Del(op, a)),
             Get(t.auths, Fin(op, a)), Get(t.dispatches, Fin(op, a)), Get(t.subs, Fin(op, a)))
  }

  predicate SubMatches(s: Option<Submission>, a: Option<Auth>) {
    s.Some? ==> a.Some? && s.value.digest == a.value.digest
  }

  predicate DispatchMatches(d: Option<Blob>, a: Option<Auth>) {
    d.Some? ==> a.Some? && d.value == a.value.digest
  }

  /** The cross-row digest checks made when the current attempt is loaded. */
  predicate Consistent(s: Snapshot) {
    && SubMatches(s.registerSub, Some(s.register)) && DispatchMatches(s.registerDispatch, Some(s.register))
    && SubMatches(s.deleteSub, s.deleteAuth) && DispatchMatches(s.deleteDispatch, s.deleteAuth)
    && SubMatches(s.finalSub, s.finalAuth) && DispatchMatches(s.finalDispatch, s.finalAuth)
  }

  function Current(t: Tables, op: OpKey): Reading {
    if op !in t.ops then Missing
    else
      match Latest(t, op)
      case None => Unreadable
      case Some(a) =>
        if Consistent(SnapshotOf(t, op, a)) then Found(SnapshotOf(t, op, a)) else Unreadable
  }

  datatype Preparation = ReadyFor(attempt: nat) | Blocked(at: nat)

  /** The next attempt number is a 32-bit increment. */
  function NextAttempt(a: nat): nat { (a + 1) % (MAX_UINT32 + 1) }

  function Classify(snapshot: Option<Snapshot>, now: int): Preparation {
    match snapshot
    case None => ReadyFor(0)
    case Some(s) =>
      if s.finalSub.Some? then Blocked(s.attempt)
      else if s.finalAuth.Some? || s.finalDispatch.Some? then Blocked(s.attempt)
      else if s.registerSub.Some? && s.registerSub.value.outcome == Rejected then ReadyFor(NextAttempt(s.attempt))
      else if s.deleteSub.Some? && s.deleteSub.value.outcome == Released then ReadyFor(NextAttempt(s.attempt))
      else if s.deleteDispatch.Some? then Blocked(s.attempt)
      else if s.registerDispatch.Some? && s.registerSub.None? then Blocked(s.attempt)
      else if s.registerSub.Some? || s.registerDispatch.Some? then
        if s.registerSub.Some? && s.registerSub.value.outcome == Submitted && CanSupersede(s.register.expireAt, now)
        then ReadyFor(NextAttempt(s.attempt)) else Blocked(s.attempt)
      else ReadyFor(NextAttempt(s.attempt))
  }

  /** On tables that satisfy the invariant the current attempt can always be loaded. */
  lemma CurrentReadable(t: Tables, op: OpKey, now: int)
    requires Inv(t, now)
    ensures !Current(t, op).Unreadable?
    ensures Current(t, op).Missing? <==> Latest(t, op).None?
    ensures Current(t, op).Found? ==> Latest(t, op) == Some(Current(t, op).snapshot.attempt)
  {
    LatestIs(t, op);
    if Latest(t, op).Some? { assert AttemptOk(t, op, Latest(t, op).value, now); }
  }

  /** The classifier answers "ready for the next attempt" exactly when the store would let
      the attempt rotate, on every table a run can reach. */
  lemma ReadyIffCanRotate(t: Tables, op: OpKey, now: int)
    requires Inv(t, now) && Current(t, op).Found?
    ensures var s := Current(t, op).snapshot;
            && Reg(op, s.attempt) in t.auths
            && (Classify(Some(s), now) == ReadyFor(NextAttempt(s.attempt)) <==> CanRotate(t, op, s.attempt, now))
            && (Classify(Some(s), now) == Blocked(s.attempt) <==> !CanRotate(t, op, s.attempt, now))
  {
    LatestIs(t, op);
    assert AttemptOk(t, op, Current(t, op).snapshot.attempt, now);
  }

  /** The same rows of one attempt in two tables. */
  ghost predicate SameAttempt(t: Tables, u: Tables, op: OpKey, a: nat) {
    SameRow(t, u, Reg(op, a)) && SameRow(t, u, Del(op, a)) && SameRow(t, u, Fin(op, a))
  }

  /** "Ready" stays true as time passes, until some row of the attempt changes. */
  lemma ReadyStays(t: Tables, u: Tables, op: OpKey, now: int, later: int)
    requires Inv(t, now) && Inv(u, later) && now <= later
    requires Current(t, op).Found? && Latest(u, op) == Latest(t, op)
    requires SameAttempt(t, u, op, Current(t, op).snapshot.attempt)
    requires Classify(Some(Current(t, op).snapshot), now).ReadyFor?
    ensures Current(u, op).Found?
    ensures Classify(Some(Current(u, op).snapshot), later) == Classify(Some(Current(t, op).snapshot), now)
  {
    CurrentReadable(t, op, now);
    CurrentReadable(u, op, later);
    LatestIs(t, op);
  }

  /** What prepare promises, the store honours, for every attempt but the last one that can be
      numbered: while no row of the attempt changes, a fresh valid register request opens
      exactly the attempt named by the classifier. At attempt 2^32 - 1 the classifier names
      attempt 0 and the store refuses. */
  lemma ReadyIsHonoured(t: Tables, o: Operation, r: RegisterRequest, tip: int, now: int, later: int, delay: int)
    requires Inv(t, now) && now <= later
    requires Classify(if Current(t, o.key).Found? then Some(Current(t, o.key).snapshot) else None, now).ReadyFor?
    requires CanBegin(t, o, r, tip, later, delay)
    requires forall a: nat :: Reg(o.key, a) in t.auths ==> !Clashes(t.auths[Reg(o.key, a)], r)
    ensures var prep := Classify(if Current(t, o.key).Found? then Some(Current(t, o.key).snapshot) else None, now);
            var res := BeginResult(t, o, r, tip, later, delay);
            && (res == Created(prep.attempt) <==> Latest(t, o.key).None? || Latest(t, o.key).value < MAX_UINT32)
            && (res == Failed <==> Latest(t, o.key).Some? && Latest(t, o.key).value >= MAX_UINT32)
  {
    CurrentReadable(t, o.key, now);
    LatestIs(t, o.key);
    if Current(t, o.key).Found? {
      var a := Current(t, o.key).snapshot.attempt;
      ReadyIffCanRotate(t, o.key, now);
    }
  }

  /** Off the reachable tables the two sides disagree: a released result without its dispatch
      row reads as ready but does not rotate. */
  lemma UnreachableDisagreement()
    ensures exists t: Tables, op: OpKey, now: int ::
              && Current(t, op).Found? && Reg(op, Current(t, op).snapshot.attempt) in t.auths
              && Classify(Some(Current(t, op).snapshot), now).ReadyFor?
              && !CanRotate(t, op, Current(t, op).snapshot.attempt, now)
  {
    var op := OpKey("v", [], 0);
    var reg, del := Reg(op, 0), Del(op, 0);
    var o := Operation(op, 1, [], [], 1);
    var a := Auth([], [], 1, 0, 100, "", "", 0);
    var t := Tables(map[op := o], map[reg := a, del := a], map[reg := []],
                    map[reg := Submission([], Submitted, "i", "", "", 0),
                      del := Submission([], Released, "", "", "", 0)]);
    assert Attempts(t, op) == {0} by {
      assert reg in t.auths && reg.attempt == 0;
      forall k | k in t.auths && k.op == op && k.phase == Register ensures k.attempt == 0 {
        assert k == reg || k == del;
      }
    }
    assert Latest(t, op) == Some(0);
    assert Current(t, op) == Found(SnapshotOf(t, op, 0));
    assert Classify(Some(Current(t, op).snapshot), 0) == ReadyFor(NextAttempt(0));
    assert !CanRotate(t, op, 0, 0);
  }
}
