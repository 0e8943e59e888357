/** The durable tables of vault-board-v1 and the effect of each store transaction.

    One boarding outpoint owns a sequence of server-numbered register attempts.
    Every attempt has append-only authorization, dispatch and submission rows for
    the register, delete and finalize phases. Each store method runs under one
    mutex in one BEGIN IMMEDIATE transaction, so its effect is one function of the
    tables; a transaction that reports an error leaves the tables as they were.
 */
module BoardTables {
  import opened Prelude

  datatype Phase = Register | Delete | Finalize

  /** The operation id is a hash of exactly these three values. */
  datatype OpKey = OpKey(vaultId: string, txid: Blob, vout: nat)
  datatype RowKey = RowKey(op: OpKey, attempt: nat, phase: Phase)

  datatype Operation = Operation(
    key: OpKey, valueSats: int, boardingScript: Blob, receiverScript: Blob, anchorMtp: int)

  datatype Auth = Auth(
    digest: Blob, treeSession: Blob, receiverSats: int, feeSats: int, expireAt: int,
    commitmentTxid: string, receiverTxid: string, receiverVout: nat)

  datatype RegisterRequest = RegisterRequest(
    digest: Blob, treeSession: Blob, receiverSats: int, feeSats: int, expireAt: int)

  datatype Outcome = Submitted | Released | Rejected
  datatype Submission = Submission(
    digest: Blob, outcome: Outcome, operatorRef: string,
    commitmentTxid: string, receiverTxid: string, receiverVout: nat)

  /** A dispatch row holds only the digest of the request that leaves the process. */
  datatype Tables = Tables(
    ops: map<OpKey, Operation>,
    auths: map<RowKey, Auth>,
    dispatches: map<RowKey, Blob>,
    subs: map<RowKey, Submission>)

  const EMPTY := Tables(map[], map[], map[], map[])
  const DIGEST_BYTES := 32
  const TREE_SESSION_BYTES := 33
  const SCRIPT_BYTES := 34
  const QUARANTINE_SECONDS := 30

  /** What a transaction reports: an error, a row that already existed, or a new row. */
  datatype Result = Failed | Existing(attempt: nat) | Created(attempt: nat)

  function Reg(op: OpKey, a: nat): RowKey { RowKey(op, a, Register) }
  function Del(op: OpKey, a: nat): RowKey { RowKey(op, a, Delete) }
  function Fin(op: OpKey, a: nat): RowKey { RowKey(op, a, Finalize) }

  // ---------- record shapes that can be sealed ----------

  predicate ValidKey(key: OpKey) {
    key.vaultId != "" && |key.txid| == 32 && key.vout <= MAX_UINT32
  }

  predicate ValidOperation(o: Operation) {
    && ValidKey(o.key)
    && 0 < o.valueSats <= MAX_INT64
    && |o.boardingScript| == SCRIPT_BYTES
    && |o.receiverScript| > 0
    && 0 < o.anchorMtp <= MAX_INT64
  }

  predicate ValidAuth(phase: Phase, a: Auth) {
    && |a.digest| == DIGEST_BYTES
    && match phase
       case Register =>
         && a.expireAt > 0 && |a.treeSession| == TREE_SESSION_BYTES
         && a.receiverSats > 0 && a.feeSats >= 0 && a.receiverSats <= MAX_INT64 - a.feeSats
         && a.commitmentTxid == "" && a.receiverTxid == "" && a.receiverVout == 0
       case Delete =>
         && a.expireAt > 0 && a.treeSession == [] && a.receiverSats == 0 && a.feeSats == 0
         && a.commitmentTxid == "" && a.receiverTxid == "" && a.receiverVout == 0
       case Finalize =>
         && a.expireAt == 0 && a.treeSession == [] && a.receiverSats == 0 && a.feeSats == 0
         && IsTxid(a.commitmentTxid) && IsTxid(a.receiverTxid)
  }

  predicate ValidSubmission(phase: Phase, s: Submission) {
    && |s.digest| == DIGEST_BYTES && |s.operatorRef| <= MAX_OPERATOR_REF_BYTES
    && match phase
       case Register =>
         && ((s.outcome == Submitted && s.operatorRef != "") || (s.outcome == Rejected && s.operatorRef == ""))
         && s.commitmentTxid == "" && s.receiverTxid == "" && s.receiverVout == 0
       case Delete =>
         && s.outcome == Released && s.operatorRef == ""
         && s.commitmentTxid == "" && s.receiverTxid == "" && s.receiverVout == 0
       case Finalize =>
         && s.outcome == Submitted && s.operatorRef == ""
         && IsTxid(s.commitmentTxid) && IsTxid(s.receiverTxid)
  }

  /** The finite register request, checked against the operation value and the clock. */
  predicate ValidRequest(o: Operation, r: RegisterRequest, now: int) {
    && |r.digest| == DIGEST_BYTES && |r.treeSession| == TREE_SESSION_BYTES
    && r.receiverSats > 0 && r.feeSats >= 0 && r.receiverSats <= MAX_INT64 - r.feeSats
    && r.receiverSats + r.feeSats == o.valueSats
    && r.expireAt > now
  }

  function RegisterAuth(r: RegisterRequest): Auth {
    Auth(r.digest, r.treeSession, r.receiverSats, r.feeSats, r.expireAt, "", "", 0)
  }

  /** New cooperative signing stops when the recovery leaf matures. */
  predicate InWindow(o: Operation, tip: int, delay: int) {
    o.anchorMtp > 0 && tip > 0 && o.anchorMtp <= MAX_INT64 - delay && tip < o.anchorMtp + delay
  }

  predicate CanSupersede(expireAt: int, now: int) {
    expireAt > 0 && now >= QUARANTINE_SECONDS && expireAt <= now - QUARANTINE_SECONDS
  }

  // ---------- queries ----------

  /** The attempts of an operation that have a register authorization. */
  function Attempts(t: Tables, op: OpKey): set<nat> {
    set k | k in t.auths && k.op == op && k.phase == Register :: k.attempt
  }

  predicate IsMax(s: set<nat>, m: nat) { m in s && forall x :: x in s ==> x <= m }

  lemma MaxWith(s: set<nat>, e: nat, m: nat)
    requires e in s && (s == {e} || IsMax(s - {e}, m))
    ensures IsMax(s, if s == {e} || m < e then e else m)
  {
    forall x | x in s ensures x == e || x in s - {e} { }
  }

  lemma {:induction false} MaxExists(s: set<nat>)
    requires s != {}
    ensures exists m :: IsMax(s, m)
  {
    var e :| e in s;
    var rest := s - {e};
    if rest == {} {
      assert s == {e};
      MaxWith(s, e, e);
    } else {
      MaxExists(rest);
      var m :| IsMax(rest, m);
      MaxWith(s, e, m);
    }
  }

  function Max(s: set<nat>): (m: nat)
    requires s != {}
    ensures IsMax(s, m)
  {
    MaxExists(s);
    var m :| IsMax(s, m);
    m
  }

  /** The register row with the highest attempt. */
  function Latest(t: Tables, op: OpKey): (r: Option<nat>)
    ensures r.Some? ==> Reg(op, r.value) in t.auths
  {
    if Attempts(t, op) == {} then None
    else
      var a := Max(Attempts(t, op));
      assert exists k :: k in t.auths && k == Reg(op, a);
      Some(a)
  }

  predicate Clashes(a: Auth, r: RegisterRequest) {
    a.digest == r.digest || a.treeSession == r.treeSession
  }

  predicate SameRequest(a: Auth, r: RegisterRequest) {
    && a.digest == r.digest && a.treeSession == r.treeSession
    && a.receiverSats == r.receiverSats && a.feeSats == r.feeSats && a.expireAt == r.expireAt
  }

  /** The store's rotation rule for a registered attempt. */
  predicate CanRotate(t: Tables, op: OpKey, a: nat, now: int)
    requires Reg(op, a) in t.auths
  {
    && Fin(op, a) !in t.auths
    && (Reg(op, a) in t.dispatches ==>
          && Reg(op, a) in t.subs
          && (|| t.subs[Reg(op, a)].outcome == Rejected
              || if Del(op, a) in t.auths && Del(op, a) in t.dispatches then
                   && Del(op, a) in t.subs && t.subs[Del(op, a)].outcome == Released
                   && t.subs[Del(op, a)].digest == t.auths[Del(op, a)].digest
                 else
                   t.subs[Reg(op, a)].outcome == Submitted && CanSupersede(t.auths[Reg(op, a)].expireAt, now)))
  }

  predicate AttemptCurrent(t: Tables, op: OpKey, a: nat) {
    && (Reg(op, a) in t.subs ==> t.subs[Reg(op, a)].outcome != Rejected)
    && Fin(op, a) !in t.auths && Del(op, a) !in t.auths && Del(op, a) !in t.subs
  }

  // ---------- BeginVaultBoardAttempt ----------

  predicate CanBegin(t: Tables, o: Operation, r: RegisterRequest, tip: int, now: int, delay: int) {
    && ValidKey(o.key)
    && ValidRequest(o, r, now)
    && (if o.key in t.ops then t.ops[o.key] == o else ValidOperation(o))
    && InWindow(o, tip, delay)
  }

  predicate ClashFree(t: Tables, op: OpKey, r: RegisterRequest, below: nat) {
    forall a: nat :: a < below && Reg(op, a) in t.auths ==> !Clashes(t.auths[Reg(op, a)], r)
  }

  function BeginResult(t: Tables, o: Operation, r: RegisterRequest, tip: int, now: int, delay: int): Result {
    if !CanBegin(t, o, r, tip, now, delay) then Failed
    else
      match Latest(t, o.key)
      case None => Created(0)
      case Some(a) =>
        if !ClashFree(t, o.key, r, a) then Failed
        else if Clashes(t.auths[Reg(o.key, a)], r) then
          if SameRequest(t.auths[Reg(o.key, a)], r) && AttemptCurrent(t, o.key, a) then Existing(a) else Failed
        else if a < MAX_UINT32 && CanRotate(t, o.key, a, now) then Created(a + 1)
        else Failed
  }

  function Begin(t: Tables, o: Operation, r: RegisterRequest, tip: int, now: int, delay: int): Tables {
    match BeginResult(t, o, r, tip, now, delay)
    case Created(a) => t.(ops := t.ops[o.key := o], auths := t.auths[Reg(o.key, a) := RegisterAuth(r)])
    case _ => t
  }

  // ---------- AppendVaultBoardDispatch ----------

  function DispatchResult(t: Tables, k: RowKey, digest: Blob, tip: int, delay: int): Result {
    if k.op !in t.ops || !InWindow(t.ops[k.op], tip, delay) then Failed
    else if k in t.dispatches then
      if t.dispatches[k] == digest then Existing(k.attempt) else Failed
    else if && k in t.auths && t.auths[k].digest == digest && |digest| == DIGEST_BYTES
            && Latest(t, k.op) == Some(k.attempt) && k !in t.subs
    then Created(k.attempt)
    else Failed
  }

  function Dispatch(t: Tables, k: RowKey, digest: Blob, tip: int, delay: int): Tables {
    if DispatchResult(t, k, digest, tip, delay).Created? then t.(dispatches := t.dispatches[k := digest]) else t
  }

  // ---------- AppendVaultBoardAuthorizationAndDispatch ----------

  function Opposite(p: Phase): Phase { if p == Finalize then Delete else Finalize }

  /** Delete and finalize need an accepted register and exclude one another. */
  predicate PhaseOrder(t: Tables, k: RowKey) {
    && Latest(t, k.op) == Some(k.attempt)
    && Reg(k.op, k.attempt) in t.auths
    && Reg(k.op, k.attempt) in t.subs && t.subs[Reg(k.op, k.attempt)].outcome == Submitted
    && RowKey(k.op, k.attempt, Opposite(k.phase)) !in t.auths
  }

  function PhaseResult(t: Tables, k: RowKey, a: Auth, tip: int, delay: int): Result {
    if k.phase == Register || k.op !in t.ops || !InWindow(t.ops[k.op], tip, delay)
       || Latest(t, k.op) != Some(k.attempt) then Failed
    else if k in t.auths && t.auths[k] != a then Failed
    else if k !in t.auths && !(PhaseOrder(t, k) && ValidAuth(k.phase, a)) then Failed
    else if k in t.dispatches then
      if t.dispatches[k] == a.digest then Existing(k.attempt) else Failed
    else if k in t.subs then Failed
    else Created(k.attempt)
  }

  function AuthorizeAndDispatch(t: Tables, k: RowKey, a: Auth, tip: int, delay: int): Tables {
    match PhaseResult(t, k, a, tip, delay)
    case Failed => t
    case Existing(_) => t.(auths := t.auths[k := a])
    case Created(_) => t.(auths := t.auths[k := a], dispatches := t.dispatches[k := a.digest])
  }

  // ---------- AppendVaultBoardSubmission ----------

  function SubmitResult(t: Tables, k: RowKey, s: Submission): Result {
    if k in t.subs then
      if t.subs[k] == s then Existing(k.attempt) else Failed
    else if && k in t.auths && t.auths[k].digest == s.digest
            && k in t.dispatches && t.dispatches[k] == s.digest && ValidSubmission(k.phase, s)
    then Created(k.attempt)
    else Failed
  }

  function Submit(t: Tables, k: RowKey, s: Submission): Tables {
    if SubmitResult(t, k, s).Created? then t.(subs := t.subs[k := s]) else t
  }
}
