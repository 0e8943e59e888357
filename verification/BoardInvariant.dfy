/** What every vault-board-v1 transaction keeps about the tables. */
module BoardInvariant {
  import opened Prelude
  import opened BoardTables

  /** The highest registered attempt is the one the queries return. */
  lemma LatestIs(t: Tables, op: OpKey)
    ensures Latest(t, op).None? ==> forall a: nat :: Reg(op, a) !in t.auths
    ensures Latest(t, op).Some? ==>
              && Reg(op, Latest(t, op).value) in t.auths
              && forall a: nat :: Reg(op, a) in t.auths ==> a <= Latest(t, op).value
  {
    forall a: nat | Reg(op, a) in t.auths ensures a in Attempts(t, op) {
      assert Reg(op, a).attempt == a;
    }
  }

  // ---------- table invariants ----------

  /** Operations are sealed under their own key and own a first attempt. */
  ghost predicate OpsSealed(t: Tables) {
    forall op :: op in t.ops ==> ValidOperation(t.ops[op]) && t.ops[op].key == op && Reg(op, 0) in t.auths
  }

  /** A submission follows a dispatch follows an authorization, all with one digest. */
  ghost predicate Chained(t: Tables, k: RowKey) {
    && (k in t.auths ==> k.op in t.ops && ValidAuth(k.phase, t.auths[k]))
    && (k in t.dispatches ==> k in t.auths && t.auths[k].digest == t.dispatches[k])
    && (k in t.subs ==> k in t.dispatches && t.dispatches[k] == t.subs[k].digest && ValidSubmission(k.phase, t.subs[k]))
  }

  /** A delete or finalize row follows an accepted register and is dispatched by the
      transaction that authorizes it. */
  ghost predicate Follows(t: Tables, k: RowKey) {
    k in t.auths ==>
      && k in t.dispatches
      && Reg(k.op, k.attempt) in t.subs && t.subs[Reg(k.op, k.attempt)].outcome == Submitted
  }

  /** Nothing of this attempt can be live at the Operator any more, and it was never finalized: it was never
      sent, was rejected or released, or expired at least 30 seconds ago. */
  ghost predicate Settled(t: Tables, op: OpKey, a: nat, now: int) {
    && Fin(op, a) !in t.auths
    && Reg(op, a) in t.auths
    && (Reg(op, a) in t.dispatches ==>
          && Reg(op, a) in t.subs
          && (|| t.subs[Reg(op, a)].outcome == Rejected
              || Del(op, a) in t.subs
              || (Del(op, a) !in t.auths && now >= t.auths[Reg(op, a)].expireAt + 30)))
  }

  /** The whole life of one attempt; a later attempt exists only over a settled one,
      so attempts are numbered without gaps. */
  ghost predicate AttemptOk(t: Tables, op: OpKey, a: nat, now: int) {
    && Chained(t, Reg(op, a)) && Chained(t, Del(op, a)) && Chained(t, Fin(op, a))
    && Follows(t, Del(op, a)) && Follows(t, Fin(op, a))
    && !(Del(op, a) in t.auths && Fin(op, a) in t.auths)
    && (Reg(op, a) in t.auths ==>
          t.auths[Reg(op, a)].receiverSats + t.auths[Reg(op, a)].feeSats == t.ops[op].valueSats)
    && (Reg(op, a + 1) in t.auths ==> Settled(t, op, a, now))
  }

  /** Two attempts differ in register digest and in tree-session key. */
  ghost predicate Differ(t: Tables, op: OpKey, a: nat, b: nat) {
    a != b && Reg(op, a) in t.auths && Reg(op, b) in t.auths ==>
      && t.auths[Reg(op, a)].digest != t.auths[Reg(op, b)].digest
      && t.auths[Reg(op, a)].treeSession != t.auths[Reg(op, b)].treeSession
  }

  ghost predicate Inv(t: Tables, now: int) {
    && OpsSealed(t)
    && (forall op, a: nat :: AttemptOk(t, op, a, now))
    && (forall op, a: nat, b: nat :: Differ(t, op, a, b))
  }

  /** The rows stored under this key are the same in both tables. */
  ghost predicate SameRow(t: Tables, u: Tables, k: RowKey) {
    && (k in t.auths <==> k in u.auths) && (k in t.auths ==> t.auths[k] == u.auths[k])
    && (k in t.dispatches <==> k in u.dispatches) && (k in t.dispatches ==> t.dispatches[k] == u.dispatches[k])
    && (k in t.subs <==> k in u.subs) && (k in t.subs ==> t.subs[k] == u.subs[k])
  }

  /** Rows are only ever added. */
  ghost predicate Extends(t: Tables, u: Tables) {
    && (forall op :: op in t.ops ==> op in u.ops && u.ops[op] == t.ops[op])
    && (forall k :: k in t.auths ==> k in u.auths && u.auths[k] == t.auths[k])
    && (forall k :: k in t.dispatches ==> k in u.dispatches && u.dispatches[k] == t.dispatches[k])
    && (forall k :: k in t.subs ==> k in u.subs && u.subs[k] == t.subs[k])
  }

  /** A transaction adds rows and leaves every superseded attempt alone. */
  ghost predicate Advances(t: Tables, u: Tables) {
    && Extends(t, u)
    && forall k: RowKey {:trigger SameRow(t, u, k)} :: Reg(k.op, k.attempt + 1) in t.auths ==> SameRow(t, u, k)
  }

  // ---------- preservation, one lemma per transaction ----------

  /** Attempts are numbered 0..n-1. */
  lemma NoGaps(t: Tables, op: OpKey, a: nat, b: nat, now: int)
    requires Inv(t, now) && Reg(op, b) in t.auths && a <= b
    ensures Reg(op, a) in t.auths
    decreases b - a
  {
    if a < b {
      NoGaps(t, op, a + 1, b, now);
      assert AttemptOk(t, op, a, now);
    }
  }

  lemma RotateSettles(t: Tables, op: OpKey, a: nat, now: int)
    requires Inv(t, now) && Reg(op, a) in t.auths && CanRotate(t, op, a, now)
    ensures Settled(t, op, a, now)
  {
    assert AttemptOk(t, op, a, now);
  }

  lemma TickKeeps(t: Tables, now: int, later: int)
    requires Inv(t, now) && now <= later
    ensures Inv(t, later)
  {
    forall op, a: nat ensures AttemptOk(t, op, a, later) {
      assert AttemptOk(t, op, a, now);
    }
  }

  /** The new attempt differs from every earlier one in digest and tree-session key. */
  lemma BeginFresh(t: Tables, o: Operation, r: RegisterRequest, tip: int, now: int, delay: int)
    requires BeginResult(t, o, r, tip, now, delay).Created?
    ensures forall a: nat :: Reg(o.key, a) in t.auths ==> !Clashes(t.auths[Reg(o.key, a)], r)
    ensures Reg(o.key, BeginResult(t, o, r, tip, now, delay).attempt) !in t.auths
  {
    LatestIs(t, o.key);
  }

  lemma BeginAttemptOk(t: Tables, o: Operation, r: RegisterRequest, tip: int, now: int, delay: int, op: OpKey, a: nat)
    requires Inv(t, now) && now >= 0 && BeginResult(t, o, r, tip, now, delay).Created?
    ensures AttemptOk(Begin(t, o, r, tip, now, delay), op, a, now)
  {
    var n := BeginResult(t, o, r, tip, now, delay).attempt;
    BeginFresh(t, o, r, tip, now, delay);
    LatestIs(t, o.key);
    assert AttemptOk(t, op, a, now);
    if op == o.key && a + 1 == n { RotateSettles(t, op, a, now); }
  }

  lemma BeginDiffers(t: Tables, o: Operation, r: RegisterRequest, tip: int, now: int, delay: int, op: OpKey, a: nat,
          b: nat)
    requires Inv(t, now) && BeginResult(t, o, r, tip, now, delay).Created?
    ensures Differ(Begin(t, o, r, tip, now, delay), op, a, b)
  {
    BeginFresh(t, o, r, tip, now, delay);
    assert Differ(t, op, a, b);
  }

  lemma BeginAdvances(t: Tables, o: Operation, r: RegisterRequest, tip: int, now: int, delay: int)
    requires OpsSealed(t) && BeginResult(t, o, r, tip, now, delay).Created?
    requires forall a: nat :: Reg(o.key, a) in t.auths ==> o.key in t.ops
    ensures var u := Begin(t, o, r, tip, now, delay); OpsSealed(u) && Advances(t, u)
  {
    LatestIs(t, o.key);
    var u := Begin(t, o, r, tip, now, delay);
    var n := Reg(o.key, BeginResult(t, o, r, tip, now, delay).attempt);
    BeginFresh(t, o, r, tip, now, delay);
    assert u.auths == t.auths[n := RegisterAuth(r)] && n !in t.auths;
    assert Extends(t, u);
    forall k: RowKey | Reg(k.op, k.attempt + 1) in t.auths ensures SameRow(t, u, k) {
    }
  }

  lemma BeginKeeps(t: Tables, o: Operation, r: RegisterRequest, tip: int, now: int, delay: int)
    requires Inv(t, now) && now >= 0
    ensures var u := Begin(t, o, r, tip, now, delay); Inv(u, now) && Advances(t, u)
  {
    var u := Begin(t, o, r, tip, now, delay);
    if BeginResult(t, o, r, tip, now, delay).Created? {
      forall a: nat | Reg(o.key, a) in t.auths ensures o.key in t.ops { assert AttemptOk(t, o.key, a, now); }
      BeginAdvances(t, o, r, tip, now, delay);
      forall op, a: nat ensures AttemptOk(u, op, a, now) { BeginAttemptOk(t, o, r, tip, now, delay, op, a); }
      forall op, a: nat, b: nat ensures Differ(u, op, a, b) { BeginDiffers(t, o, r, tip, now, delay, op, a, b); }
    }
  }

  /** Only rows of attempt `a` may differ, and its register authorization does not. */
  ghost predicate OnlyAttempt(t: Tables, u: Tables, op: OpKey, a: nat) {
    && t.ops == u.ops
    && (forall k: RowKey {:trigger SameRow(t, u, k)} :: k.op != op || k.attempt != a ==> SameRow(t, u, k))
    && (Reg(op, a) in t.auths <==> Reg(op, a) in u.auths)
    && (Reg(op, a) in t.auths ==> t.auths[Reg(op, a)] == u.auths[Reg(op, a)])
  }

  lemma OtherAttempts(t: Tables, u: Tables, op: OpKey, a: nat, now: int)
    requires Inv(t, now) && OnlyAttempt(t, u, op, a) && AttemptOk(u, op, a, now)
    requires Extends(t, u) && Reg(op, a + 1) !in t.auths
    ensures Inv(u, now) && Advances(t, u)
  {
    forall k: RowKey | Reg(k.op, k.attempt + 1) in t.auths ensures SameRow(t, u, k) {
      assert k.op != op || k.attempt != a;
    }
    forall p, n: nat ensures AttemptOk(u, p, n, now) {
      assert AttemptOk(t, p, n, now);
      if p != op || n != a { OtherAttemptOk(t, u, op, a, p, n, now); }
    }
    forall p, n: nat, m: nat ensures Differ(u, p, n, m) {
      assert Differ(t, p, n, m);
      assert SameRow(t, u, Reg(p, n)) || (p == op && n == a);
      assert SameRow(t, u, Reg(p, m)) || (p == op && m == a);
    }
  }

  lemma OtherAttemptOk(t: Tables, u: Tables, op: OpKey, a: nat, p: OpKey, n: nat, now: int)
    requires OnlyAttempt(t, u, op, a) && AttemptOk(t, p, n, now) && (p != op || n != a)
    ensures AttemptOk(u, p, n, now)
  {
    assert SameRow(t, u, Reg(p, n + 1)) || (p == op && n + 1 == a);
    assert SameRow(t, u, Reg(p, n)) && SameRow(t, u, Del(p, n)) && SameRow(t, u, Fin(p, n));
  }

  lemma DispatchKeeps(t: Tables, k: RowKey, digest: Blob, tip: int, delay: int, now: int)
    requires Inv(t, now)
    ensures var u := Dispatch(t, k, digest, tip, delay); Inv(u, now) && Advances(t, u)
  {
    var u := Dispatch(t, k, digest, tip, delay);
    if DispatchResult(t, k, digest, tip, delay).Created? {
      LatestIs(t, k.op);
      assert AttemptOk(t, k.op, k.attempt, now);
      OtherAttempts(t, u, k.op, k.attempt, now);
    }
  }

  lemma PhaseAttemptOk(t: Tables, k: RowKey, a: Auth, tip: int, delay: int, now: int)
    requires Inv(t, now) && PhaseResult(t, k, a, tip, delay).Created?
    ensures var u := AuthorizeAndDispatch(t, k, a, tip, delay);
            AttemptOk(u, k.op, k.attempt, now) && OnlyAttempt(t, u, k.op, k.attempt)
    ensures Reg(k.op, k.attempt + 1) !in t.auths
    ensures Extends(t, AuthorizeAndDispatch(t, k, a, tip, delay))
  {
    LatestIs(t, k.op);
    assert AttemptOk(t, k.op, k.attempt, now);
  }

  /** A repeated delete or finalize changes nothing. */
  lemma PhaseExisting(t: Tables, k: RowKey, a: Auth, tip: int, delay: int, now: int)
    requires Inv(t, now) && PhaseResult(t, k, a, tip, delay).Existing?
    ensures AuthorizeAndDispatch(t, k, a, tip, delay) == t
  {
    assert AttemptOk(t, k.op, k.attempt, now);
    PhaseCases(k);
    assert t.auths[k := a] == t.auths;
  }

  lemma PhaseKeeps(t: Tables, k: RowKey, a: Auth, tip: int, delay: int, now: int)
    requires Inv(t, now)
    ensures var u := AuthorizeAndDispatch(t, k, a, tip, delay); Inv(u, now) && Advances(t, u)
  {
    match PhaseResult(t, k, a, tip, delay)
    case Failed =>
    case Existing(_) => PhaseExisting(t, k, a, tip, delay, now);
    case Created(_) =>
      PhaseAttemptOk(t, k, a, tip, delay, now);
      OtherAttempts(t, AuthorizeAndDispatch(t, k, a, tip, delay), k.op, k.attempt, now);
  }

  lemma PhaseCases(k: RowKey)
    ensures k == Reg(k.op, k.attempt) || k == Del(k.op, k.attempt) || k == Fin(k.op, k.attempt)
  {
    match k.phase case Register => case Delete => case Finalize =>
  }

  /** A result can be recorded only for the latest attempt: a settled one has all its results. */
  lemma SubmitKeeps(t: Tables, k: RowKey, s: Submission, now: int)
    requires Inv(t, now)
    ensures var u := Submit(t, k, s); Inv(u, now) && Advances(t, u)
  {
    if SubmitResult(t, k, s).Created? {
      assert AttemptOk(t, k.op, k.attempt, now);
      PhaseCases(k);
      OtherAttempts(t, Submit(t, k, s), k.op, k.attempt, now);
    }
  }
}
