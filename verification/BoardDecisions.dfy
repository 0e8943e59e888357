/** Exactly when each vault-board-v1 transaction succeeds, in literal limits and times, and that every
    request it admits can be carried through to the Operator's answer. */
module BoardDecisions {
  import opened Prelude
  import opened BoardTables
  import opened BoardInvariant
  import opened BoardProtocol
  import opened BoardOutcomes

  // ---------- opening an attempt ----------

  /** The chain time is known and before the recovery leaf matures. */
  predicate BeforeMaturity(anchor: int, tip: int, delay: int) {
    anchor > 0 && 0 < tip < anchor + delay <= 0x7fff_ffff_ffff_ffff
  }

  /** A register request that pays the whole outpoint to the receiver and the fee and has not expired. */
  predicate Payable(o: Operation, r: RegisterRequest, now: int) {
    && |r.digest| == 32 && |r.treeSession| == 33 && r.expireAt > now
    && r.receiverSats > 0 && r.feeSats >= 0 && r.receiverSats + r.feeSats == o.valueSats
    && r.receiverSats + r.feeSats <= 0x7fff_ffff_ffff_ffff
  }

  /** A new outpoint is well formed; a known one has the facts it was first registered with. */
  predicate KnownOutpoint(t: Tables, o: Operation) {
    && o.key.vaultId != "" && |o.key.txid| == 32 && o.key.vout <= 0xffff_ffff
    && if o.key in t.ops then t.ops[o.key] == o
       else |o.boardingScript| == 34 && o.receiverScript != [] && 0 < o.anchorMtp <= 0x7fff_ffff_ffff_ffff
  }

  predicate Admissible(t: Tables, o: Operation, r: RegisterRequest, tip: int, now: int, delay: int) {
    KnownOutpoint(t, o) && Payable(o, r, now) && BeforeMaturity(o.anchorMtp, tip, delay)
  }

  /** No attempt of the outpoint used this digest or this tree key. */
  ghost predicate Unused(t: Tables, op: OpKey, r: RegisterRequest) {
    forall a: nat :: Reg(op, a) in t.auths ==>
      t.auths[Reg(op, a)].digest != r.digest && t.auths[Reg(op, a)].treeSession != r.treeSession
  }

  /** The attempt is over: never finalized, and never dispatched, rejected, released, or accepted, not being
      released and at least 30 seconds past its expiry. */
  predicate Over(t: Tables, op: OpKey, a: nat, now: int)
    requires Reg(op, a) in t.auths
  {
    && Fin(op, a) !in t.auths
    && (|| Reg(op, a) !in t.dispatches
        || (Reg(op, a) in t.subs && t.subs[Reg(op, a)].outcome == Rejected)
        || Del(op, a) in t.subs
        || (Reg(op, a) in t.subs && Del(op, a) !in t.auths && now >= t.auths[Reg(op, a)].expireAt + 30))
  }

  /** The number the next attempt gets, if there may be one. */
  ghost predicate MayOpen(t: Tables, op: OpKey, n: nat, now: int) {
    && n <= 0xffff_ffff
    && if n == 0 then forall a: nat :: Reg(op, a) !in t.auths
       else Reg(op, n - 1) in t.auths && Reg(op, n) !in t.auths && Over(t, op, n - 1, now)
  }

  /** The very request of the current attempt, which is neither rejected nor being released or finalized. */
  predicate Repeats(t: Tables, op: OpKey, n: nat, r: RegisterRequest)
    requires Reg(op, n) in t.auths
  {
    var a := t.auths[Reg(op, n)];
    && a.digest == r.digest && a.treeSession == r.treeSession && a.expireAt == r.expireAt
    && a.receiverSats == r.receiverSats && a.feeSats == r.feeSats
    && !(Reg(op, n) in t.subs && t.subs[Reg(op, n)].outcome == Rejected)
    && Del(op, n) !in t.auths && Fin(op, n) !in t.auths
  }

  lemma RotatesIffOver(t: Tables, op: OpKey, a: nat, now: int)
    requires Inv(t, now) && Reg(op, a) in t.auths
    ensures CanRotate(t, op, a, now) <==> Over(t, op, a, now)
  {
    assert AttemptOk(t, op, a, now);
  }

  lemma AdmitsIff(t: Tables, o: Operation, r: RegisterRequest, tip: int, now: int, delay: int)
    requires Inv(t, now)
    ensures CanBegin(t, o, r, tip, now, delay) <==> Admissible(t, o, r, tip, now, delay)
  {
    if o.key in t.ops { assert ValidOperation(t.ops[o.key]); }
  }

  lemma LatestIff(t: Tables, op: OpKey, n: nat, now: int)
    requires Inv(t, now)
    ensures Latest(t, op) == Some(n) <==> Reg(op, n) in t.auths && Reg(op, n + 1) !in t.auths
  {
    LatestIs(t, op);
    if Latest(t, op).Some? && n < Latest(t, op).value { NoGaps(t, op, n + 1, Latest(t, op).value, now); }
  }

  lemma UnusedIff(t: Tables, op: OpKey, r: RegisterRequest, n: nat)
    requires Latest(t, op) == Some(n)
    ensures Unused(t, op, r) <==> ClashFree(t, op, r, n) && !Clashes(t.auths[Reg(op, n)], r)
  {
    LatestIs(t, op);
  }

  lemma RepeatIff(t: Tables, op: OpKey, n: nat, r: RegisterRequest, now: int)
    requires Inv(t, now) && Latest(t, op) == Some(n)
    ensures Repeats(t, op, n, r) <==>
            && ClashFree(t, op, r, n) && Clashes(t.auths[Reg(op, n)], r)
            && SameRequest(t.auths[Reg(op, n)], r) && AttemptCurrent(t, op, n)
  {
    assert AttemptOk(t, op, n, now);
    if Repeats(t, op, n, r) {
      forall a: nat | a < n && Reg(op, a) in t.auths ensures !Clashes(t.auths[Reg(op, a)], r) {
        assert Differ(t, op, a, n);
      }
    }
  }

  /** Exactly when a register request opens attempt n, and when it is the replay of attempt n. */
  lemma BeginIff(t: Tables, o: Operation, r: RegisterRequest, tip: int, now: int, delay: int, n: nat)
    requires Inv(t, now)
    ensures var res := BeginResult(t, o, r, tip, now, delay);
            && (res == Created(n) <==>
                Admissible(t, o, r, tip, now, delay) && Unused(t, o.key, r) && MayOpen(t, o.key, n, now))
            && (res == Existing(n) <==>
                && Admissible(t, o, r, tip, now, delay) && Reg(o.key, n) in t.auths && Reg(o.key, n + 1) !in t.auths
                && Repeats(t, o.key, n, r))
  {
    AdmitsIff(t, o, r, tip, now, delay);
    LatestIs(t, o.key);
    LatestIff(t, o.key, n, now);
    if n > 0 { LatestIff(t, o.key, n - 1, now); }
    match Latest(t, o.key)
    case None =>
    case Some(a) =>
      RotatesIffOver(t, o.key, a, now);
      UnusedIff(t, o.key, r, a);
      RepeatIff(t, o.key, a, r, now);
  }

  /** Over every run: an attempt that was accepted, is not being released and was never finalized makes
      room for the next one if and only if it is at least 30 seconds past its expiry. */
  lemma AcceptedRotatesIff(delay: int, acts: seq<Action>, o: Operation, r: RegisterRequest, tip: int, a: nat)
    requires var w := Exec(Start(delay), acts);
             && Reg(o.key, a) in w.t.subs && w.t.subs[Reg(o.key, a)].outcome == Submitted
             && Del(o.key, a) !in w.t.auths && Fin(o.key, a) !in w.t.auths && Reg(o.key, a + 1) !in w.t.auths
             && Admissible(w.t, o, r, tip, w.now, delay) && Unused(w.t, o.key, r) && a < 0xffff_ffff
    ensures var w := Exec(Start(delay), acts);
            && Reg(o.key, a) in w.t.auths
            && (BeginResult(w.t, o, r, tip, w.now, delay) == Created(a + 1) <==>
                w.now >= w.t.auths[Reg(o.key, a)].expireAt + 30)
  {
    var w := Exec(Start(delay), acts);
    EveryRunSafe(delay, acts);
    assert AttemptOk(w.t, o.key, a, w.now);
    BeginIff(w.t, o, r, tip, w.now, delay, a + 1);
  }

  // ---------- dispatching and recording ----------

  predicate InTimeFor(t: Tables, op: OpKey, tip: int, delay: int) {
    op in t.ops && BeforeMaturity(t.ops[op].anchorMtp, tip, delay)
  }

  lemma RowChained(t: Tables, k: RowKey, now: int)
    requires Inv(t, now)
    ensures Chained(t, k) && (k.phase != Register ==> Follows(t, k))
    ensures k in t.auths ==> |t.auths[k].digest| == 32
  {
    assert AttemptOk(t, k.op, k.attempt, now);
    PhaseCases(k);
  }

  /** A register is dispatched exactly once, on the latest attempt, under its authorized digest, before
      maturity; a repeat with the same digest is recognised. */
  lemma DispatchIff(t: Tables, k: RowKey, digest: Blob, tip: int, delay: int, now: int)
    requires Inv(t, now)
    ensures var res := DispatchResult(t, k, digest, tip, delay);
            && (res == Created(k.attempt) <==>
                && InTimeFor(t, k.op, tip, delay) && k !in t.dispatches
                && Reg(k.op, k.attempt) in t.auths && Reg(k.op, k.attempt + 1) !in t.auths
                && k in t.auths && t.auths[k].digest == digest)
            && (res == Existing(k.attempt) <==>
                InTimeFor(t, k.op, tip, delay) && k in t.dispatches && t.dispatches[k] == digest)
  {
    LatestIff(t, k.op, k.attempt, now);
    RowChained(t, k, now);
    if k.op in t.ops { assert ValidOperation(t.ops[k.op]); }
  }

  /** What a delete or a finalize may authorize. */
  predicate Authorizable(phase: Phase, a: Auth) {
    && |a.digest| == 32 && a.treeSession == [] && a.receiverSats == 0 && a.feeSats == 0
    && if phase == Delete then a.expireAt > 0 && a.commitmentTxid == "" && a.receiverTxid == "" && a.receiverVout == 0
       else a.expireAt == 0 && IsTxid(a.commitmentTxid) && IsTxid(a.receiverTxid)
  }

  /** A delete and a finalize are each opened exactly once per attempt and exclude one another, on the
      latest attempt, after the Operator accepted its registration, before maturity. */
  lemma PhaseIff(t: Tables, k: RowKey, a: Auth, tip: int, delay: int, now: int)
    requires Inv(t, now)
    ensures var res := PhaseResult(t, k, a, tip, delay);
            var reg := Reg(k.op, k.attempt);
            && (res == Created(k.attempt) <==>
                && k.phase != Register && InTimeFor(t, k.op, tip, delay) && Authorizable(k.phase, a)
                && reg in t.subs && t.subs[reg].outcome == Submitted && Reg(k.op, k.attempt + 1) !in t.auths
                && Del(k.op, k.attempt) !in t.auths && Fin(k.op, k.attempt) !in t.auths)
            && (res == Existing(k.attempt) <==>
                && k.phase != Register && InTimeFor(t, k.op, tip, delay)
                && k in t.auths && t.auths[k] == a && Reg(k.op, k.attempt + 1) !in t.auths)
  {
    LatestIff(t, k.op, k.attempt, now);
    assert AttemptOk(t, k.op, k.attempt, now);
    PhaseCases(k);
    if k.op in t.ops { assert ValidOperation(t.ops[k.op]); }
  }

  /** What the Operator's answer may be stored as. */
  predicate Recordable(phase: Phase, s: Submission) {
    match phase
    case Register =>
      && s.commitmentTxid == "" && s.receiverTxid == "" && s.receiverVout == 0
      && (|| (s.outcome == Submitted && 1 <= |s.operatorRef| <= 256) || (s.outcome == Rejected && s.operatorRef == ""))
    case Delete =>
      && s.commitmentTxid == "" && s.receiverTxid == "" && s.receiverVout == 0
      && s.outcome == Released && s.operatorRef == ""
    case Finalize =>
      s.outcome == Submitted && s.operatorRef == "" && IsTxid(s.commitmentTxid) && IsTxid(s.receiverTxid)
  }

  /** A result is stored exactly once, for a dispatched row and its digest; a repeat is recognised. */
  lemma SubmitIff(t: Tables, k: RowKey, s: Submission, now: int)
    requires Inv(t, now)
    ensures var res := SubmitResult(t, k, s);
            && (res == Created(k.attempt) <==>
                k in t.dispatches && k !in t.subs && t.dispatches[k] == s.digest && Recordable(k.phase, s))
            && (res == Existing(k.attempt) <==> k in t.subs && t.subs[k] == s)
  {
    RowChained(t, k, now);
  }

  // ---------- every admitted request can be carried through ----------

  ghost predicate Leads(w: World, u: World) { exists acts :: Exec(w, acts) == u }

  lemma {:induction false} ExecAppend(w: World, a: seq<Action>, b: seq<Action>)
    ensures Exec(w, a + b) == Exec(Exec(w, a), b)
    decreases |a|
  {
    if a == [] {
      assert a + b == b;
    } else {
      assert (a + b)[1..] == a[1..] + b;
      ExecAppend(Next(w, a[0]), a[1..], b);
    }
  }

  lemma LeadsOn(w: World, v: World, act: Action)
    requires Leads(w, v)
    ensures Leads(w, Next(v, act))
  {
    var a :| Exec(w, a) == v;
    ExecAppend(w, a, [act]);
    assert [act][1..] == [];
  }

  /** From the dispatch boundary on: send, hear Ok, record. */
  lemma SendAndRecord(w: World, v: World, p: nat, k: RowKey, a: Auth, ref: string) returns (u: World)
    requires Leads(w, v) && p in v.procs && v.procs[p] == MaySend(k, a)
    requires k in v.t.dispatches && v.t.dispatches[k] == a.digest && k in v.t.auths && v.t.auths[k].digest == a.digest
    requires k !in v.t.subs && |a.digest| == 32 && 1 <= |ref| <= 256
    requires k.phase == Finalize ==> IsTxid(a.commitmentTxid) && IsTxid(a.receiverTxid)
    ensures Leads(w, u) && p in u.procs && u.procs[p] == Returned(k, Accepted)
    ensures k in u.sent && k in u.replies && u.replies[k] == Ok(ref)
    ensures k in u.t.subs && u.t.subs[k].outcome == (if k.phase == Delete then Released else Submitted)
    ensures u.t == v.t.(subs := v.t.subs[k := u.t.subs[k]]) && u.now == v.now && u.delay == v.delay
    ensures k.phase == Register ==> u.t.subs[k].operatorRef == ref
    ensures k.phase == Finalize ==> u.t.subs[k].commitmentTxid == a.commitmentTxid
  {
    var v1 := Next(v, Send(p));
    SendSends(v, p, k, a);
    LeadsOn(w, v, Send(p));
    var v2 := Next(v1, Answer(p, Ok(ref)));
    LeadsOn(w, v1, Answer(p, Ok(ref)));
    var s := v2.procs[p].s;
    assert v2.procs[p] == Answered(k, s) && v2.t == v.t && v2.sent == v1.sent;
    u := Next(v2, Record(p, Fine));
    LeadsOn(w, v2, Record(p, Fine));
    StoresResult(v2, p, k, s);
  }

  lemma StoresResult(v: World, p: nat, k: RowKey, s: Submission)
    requires p in v.procs && v.procs[p] == Answered(k, s) && SubmitResult(v.t, k, s).Created?
    ensures var u := Next(v, Record(p, Fine));
            && u.t == v.t.(subs := v.t.subs[k := s]) && u.sent == v.sent && u.replies == v.replies
            && u.procs == v.procs[p := Returned(k, if s.outcome == Rejected then NotSubmitted else Accepted)]
  {
  }

  lemma EnterOpens(w: World, p: nat, o: Operation, r: RegisterRequest, tip: int, n: nat)
    requires p !in w.procs && BeginResult(w.t, o, r, tip, w.now, w.delay) == Created(n)
    ensures var v := Next(w, Enter(p, o, r, n, tip, Fine));
            && v.t == Begin(w.t, o, r, tip, w.now, w.delay) && v.now == w.now && v.delay == w.delay
            && v.procs == w.procs[p := Begun(Reg(o.key, n), RegisterAuth(r))]
  {
  }

  lemma LookReady(v: World, p: nat, k: RowKey, a: Auth)
    requires p in v.procs && v.procs[p] == Begun(k, a) && Latest(v.t, k.op) == Some(k.attempt)
    requires k in v.t.auths && v.t.auths[k].digest == a.digest && k !in v.t.subs && k !in v.t.dispatches
    ensures Next(v, Look(p)) == v.(procs := v.procs[p := Ready(k, a)])
  {
  }

  lemma LookPhaseReady(v: World, p: nat, k: RowKey, a: Auth)
    requires p !in v.procs && k.phase != Register && Latest(v.t, k.op) == Some(k.attempt)
    requires Reg(k.op, k.attempt) in v.t.subs && v.t.subs[Reg(k.op, k.attempt)].outcome == Submitted
    requires k !in v.t.subs && k !in v.t.dispatches
    ensures Next(v, LookPhase(p, k, a)) == v.(procs := v.procs[p := Ready(k, a)])
  {
  }

  lemma CrossesOver(v: World, p: nat, k: RowKey, a: Auth, tip: int)
    requires p in v.procs && v.procs[p] == Ready(k, a) && CrossResult(v.t, k, a, tip, v.delay).Created?
    ensures var u := Next(v, Cross(p, tip, Fine));
            && u.t == CrossTables(v.t, k, a, tip, v.delay) && u.now == v.now && u.delay == v.delay
            && u.procs == v.procs[p := MaySend(k, a)]
  {
  }

  /** The tables after attempt n was opened. */
  lemma OpenedTables(t: Tables, o: Operation, r: RegisterRequest, tip: int, now: int, delay: int, n: nat)
    requires Inv(t, now) && now >= 0 && BeginResult(t, o, r, tip, now, delay) == Created(n)
    ensures var u, k := Begin(t, o, r, tip, now, delay), Reg(o.key, n);
            && Inv(u, now) && Latest(u, o.key) == Some(n) && Reg(o.key, n + 1) !in u.auths
            && k in u.auths && u.auths[k] == RegisterAuth(r) && k !in u.dispatches && k !in u.subs
            && o.key in u.ops && u.ops[o.key] == o
  {
    BeginKeeps(t, o, r, tip, now, delay);
    BeginFresh(t, o, r, tip, now, delay);
    RowChained(t, Reg(o.key, n), now);
    LatestIs(t, o.key);
    LatestIff(Begin(t, o, r, tip, now, delay), o.key, n, now);
  }

  /** Every admissible request with fresh keys, over an outpoint whose attempts are over, can be registered:
      some continuation sends it and ends with the Operator's reference stored and reported. */
  lemma CanRegister(w: World, p: nat, o: Operation, r: RegisterRequest, tip: int, n: nat, ref: string)
    returns (u: World)
    requires Safe(w) && p !in w.procs && Admissible(w.t, o, r, tip, w.now, w.delay)
    requires Unused(w.t, o.key, r) && MayOpen(w.t, o.key, n, w.now) && 1 <= |ref| <= 256
    ensures Leads(w, u) && p in u.procs && u.procs[p] == Returned(Reg(o.key, n), Accepted)
    ensures Reg(o.key, n) in u.sent && Reg(o.key, n) in u.t.subs && u.t.subs[Reg(o.key, n)].outcome == Submitted
    ensures u.t.subs[Reg(o.key, n)].operatorRef == ref
    ensures Reg(o.key, n + 1) !in u.t.auths && InTimeFor(u.t, o.key, tip, u.delay)
  {
    var k, a := Reg(o.key, n), RegisterAuth(r);
    BeginIff(w.t, o, r, tip, w.now, w.delay, n);
    OpenedTables(w.t, o, r, tip, w.now, w.delay, n);
    EnterOpens(w, p, o, r, tip, n);
    assert Exec(w, []) == w;
    LeadsOn(w, w, Enter(p, o, r, n, tip, Fine));
    var v1 := Next(w, Enter(p, o, r, n, tip, Fine));
    LookReady(v1, p, k, a);
    LeadsOn(w, v1, Look(p));
    var v2 := Next(v1, Look(p));
    DispatchIff(v2.t, k, a.digest, tip, v2.delay, v2.now);
    CrossesOver(v2, p, k, a, tip);
    LeadsOn(w, v2, Cross(p, tip, Fine));
    u := SendAndRecord(w, Next(v2, Cross(p, tip, Fine)), p, k, a, ref);
  }

  /** Every accepted registration can be finalized, and as well released, unless either was begun: some
      continuation sends the request and ends with the Operator's Ok stored and reported. */
  lemma CanConclude(w: World, p: nat, k: RowKey, a: Auth, tip: int) returns (u: World)
    requires Safe(w) && p !in w.procs && k.phase != Register && Authorizable(k.phase, a)
    requires InTimeFor(w.t, k.op, tip, w.delay) && Reg(k.op, k.attempt + 1) !in w.t.auths
    requires Reg(k.op, k.attempt) in w.t.subs && w.t.subs[Reg(k.op, k.attempt)].outcome == Submitted
    requires Del(k.op, k.attempt) !in w.t.auths && Fin(k.op, k.attempt) !in w.t.auths
    ensures Leads(w, u) && p in u.procs && u.procs[p] == Returned(k, Accepted)
    ensures k in u.sent && k in u.t.subs
    ensures k.phase == Delete ==> u.t.subs[k].outcome == Released
    ensures k.phase == Finalize ==> u.t.subs[k].commitmentTxid == a.commitmentTxid
  {
    RowChained(w.t, k, w.now);
    RowChained(w.t, Reg(k.op, k.attempt), w.now);
    PhaseCases(k);
    LatestIff(w.t, k.op, k.attempt, w.now);
    PhaseIff(w.t, k, a, tip, w.delay, w.now);
    LookPhaseReady(w, p, k, a);
    assert Exec(w, []) == w;
    LeadsOn(w, w, LookPhase(p, k, a));
    var v1 := Next(w, LookPhase(p, k, a));
    CrossesOver(v1, p, k, a, tip);
    LeadsOn(w, v1, Cross(p, tip, Fine));
    u := SendAndRecord(w, Next(v1, Cross(p, tip, Fine)), p, k, a, "i");
  }

  /** A retried register is answered from the tables: accepted, definitely not submitted, ambiguous while a
      dispatch has no result, and otherwise it goes on to sign. */
  lemma RetryAnswers(w: World, p: nat, k: RowKey, a: Auth)
    requires Safe(w) && p in w.procs && w.procs[p] == Begun(k, a) && k.phase == Register
    requires k in w.t.auths && w.t.auths[k].digest == a.digest && Reg(k.op, k.attempt + 1) !in w.t.auths
    ensures Next(w, Look(p)).procs[p] ==
            if k in w.t.subs && w.t.subs[k].outcome == Submitted then Returned(k, Accepted)
            else if k in w.t.subs && w.t.subs[k].outcome == Rejected then Returned(k, NotSubmitted)
            else if k in w.t.dispatches then Returned(k, Ambiguous)
            else Ready(k, a)
  {
    assert k == Reg(k.op, k.attempt);
    LatestIff(w.t, k.op, k.attempt, w.now);
    RowChained(w.t, k, w.now);
  }
}
