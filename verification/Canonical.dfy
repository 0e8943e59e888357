/** The payloads under the integrity MACs of the five board records and the two VTXO records. Text
    fields are their bytes. */
module Canonical {
  import opened Prelude
  import opened Encoding

  datatype Record =
    | Enrollment(vault: Blob, program: Blob, boardingPub: Blob, cosignerPub: Blob, operatorPub: Blob,
                 delayUnit: Blob, pkScript: Blob, address: Blob, exitDelay: u32)
    | BoardOperation(operation: Blob, vault: Blob, txid: Blob, boardingScript: Blob, receiverScript: Blob,
                     createdAt: Blob, vout: u32, valueSats: i64, anchor: i64)
    | Authorization(operation: Blob, phase: Blob, digest: Blob, session: Blob, commitment: Blob,
                    receiverTxid: Blob, createdAt: Blob, attempt: u32, receiverSats: i64, feeSats: i64,
                    expireAt: i64, receiverVout: u32)
    | Submission(operation: Blob, phase: Blob, digest: Blob, outcome: Blob, operatorRef: Blob,
                 commitment: Blob, receiverTxid: Blob, createdAt: Blob, attempt: u32, receiverVout: u32)
    | Dispatch(operation: Blob, phase: Blob, digest: Blob, createdAt: Blob, attempt: u32)
    | VtxoOperation(operation: Blob, vault: Blob, purpose: Blob, bundleDigest: Blob, state: Blob,
                    feePolicyDigest: Blob, destScript: Blob, changeScript: Blob, unsignedPsbt: Blob,
                    authorizedPsbt: Blob, proofDigest: Blob, authorizedProof: Blob, checkpoints: Blob,
                    checkpointRequests: Blob, checkpointTapscript: Blob, arkTxid: Blob, expiresAt: Blob,
                    createdAt: Blob, lastDestScript: Blob, amountSats: i64, feeSats: i64, changeSats: i64,
                    changeVout: Option<u32>)
    | VtxoInput(operation: Blob, txid: Blob, inputVout: int, valueSats: i64, script: Blob)

  // ---------- acceptance ----------

  predicate IsPhase(p: Blob) { p == Ascii("register") || p == Ascii("delete") || p == Ascii("finalize") }

  predicate IsState(s: Blob) {
    || s == Ascii("reserved") || s == Ascii("signed") || s == Ascii("submitted")
    || s == Ascii("finalized") || s == Ascii("aborted") || s == Ascii("unresolved")
  }

  predicate IsCanonicalTxid(t: Blob) { |t| == 64 && IsLowerHex(t) }

  predicate NoReceiver(commitment: Blob, txid: Blob, vout: u32) { commitment == [] && txid == [] && vout == 0 }

  predicate PhaseFields(r: Record)
    requires r.Authorization?
  {
    if r.phase == Ascii("register") then
      && r.expireAt > 0 && |r.session| == 33 && r.receiverSats > 0 && r.feeSats >= 0
      && r.receiverSats <= MAX_INT64 - r.feeSats && NoReceiver(r.commitment, r.receiverTxid, r.receiverVout)
    else if r.phase == Ascii("finalize") then
      && r.expireAt == 0 && r.session == [] && r.receiverSats == 0 && r.feeSats == 0
      && IsCanonicalTxid(r.commitment) && IsCanonicalTxid(r.receiverTxid)
    else
      && r.phase == Ascii("delete") && r.expireAt > 0 && r.session == [] && r.receiverSats == 0 && r.feeSats == 0
      && NoReceiver(r.commitment, r.receiverTxid, r.receiverVout)
  }

  predicate OutcomeFields(r: Record)
    requires r.Submission?
  {
    if r.phase == Ascii("register") then
      && ((r.outcome == Ascii("submitted") && r.operatorRef != []) ||
         (r.outcome == Ascii("rejected") && r.operatorRef == []))
      && NoReceiver(r.commitment, r.receiverTxid, r.receiverVout)
    else if r.phase == Ascii("finalize") then
      && r.outcome == Ascii("submitted") && r.operatorRef == []
      && IsCanonicalTxid(r.commitment) && IsCanonicalTxid(r.receiverTxid)
    else
      && r.phase == Ascii("delete") && r.outcome == Ascii("released") && r.operatorRef == []
      && NoReceiver(r.commitment, r.receiverTxid, r.receiverVout)
  }

  predicate ChangeShape(sats: int, vout: Option<u32>, script: Blob) {
    if sats == 0 then vout.None? && script == [] else sats >= DUST_SATS && vout == Some(1) && script != []
  }

  /** What the canonicalizers accept; that a board operation's id is the hash of its outpoint is not
      part of this model. */
  predicate Accepted(r: Record) {
    match r
    case Enrollment(_, _, _, _, _, _, _, _, _) =>
      && r.vault != [] && r.program == Ascii("vault-board-v1") && |r.boardingPub| == 33 && |r.cosignerPub| == 33
      && |r.operatorPub| == 33 && |r.pkScript| == 34 && r.address != [] && r.exitDelay != 0 && r.delayUnit != []
    case BoardOperation(_, _, _, _, _, _, _, _, _) =>
      && r.operation != [] && r.vault != [] && |r.txid| == 32 && r.valueSats > 0 && |r.boardingScript| == 34
      && r.receiverScript != [] && r.anchor > 0 && r.createdAt != []
    case Authorization(_, _, _, _, _, _, _, _, _, _, _, _) =>
      r.operation != [] && |r.digest| == 32 && r.createdAt != [] && PhaseFields(r)
    case Submission(_, _, _, _, _, _, _, _, _, _) =>
      && r.operation != [] && |r.digest| == 32 && r.createdAt != [] && |r.operatorRef| <= MAX_OPERATOR_REF_BYTES
      && OutcomeFields(r)
    case Dispatch(_, _, _, _, _) =>
      r.operation != [] && |r.digest| == 32 && r.createdAt != [] && IsPhase(r.phase)
    case VtxoOperation(_, _, _, _, _, _, _, _, _, _, _, _, _, _, _, _, _, _, _, _, _, _, _) =>
      && r.operation != [] && r.vault != [] && r.purpose == Ascii("spend") && IsState(r.state)
      && |r.bundleDigest| == 32 && r.amountSats >= 0 && r.feeSats >= 0 && r.changeSats >= 0
      && |r.feePolicyDigest| == 32 && (r.proofDigest == [] <==> r.authorizedProof == [])
      && (r.proofDigest == [] || |r.proofDigest| == 32) && ChangeShape(r.changeSats, r.changeVout, r.changeScript)
    case VtxoInput(_, _, _, _, _) =>
      r.operation != [] && |r.txid| == 32 && r.inputVout >= 0 && r.valueSats >= 0
  }

  // ---------- payloads ----------

  /** uint64 of an int64. */
  function Sats(n: i64): (a: Atom)
    ensures Fits(a)
  {
    Limits();
    Number(8, if n < 0 then n + 0x1_0000_0000_0000_0000 else n)
  }

  function Word(n: u32): (a: Atom)
    ensures Fits(a)
  {
    Limits();
    Number(4, n)
  }

  function Domain(r: Record): Blob {
    match r
    case Enrollment(_, _, _, _, _, _, _, _, _) => Ascii("arkade-vault/vault-board-v1-enrollment/v1")
    case BoardOperation(_, _, _, _, _, _, _, _, _) => Ascii("arkade-vault/vault-board-v1-operation/v1")
    case Authorization(_, _, _, _, _, _, _, _, _, _, _, _) => Ascii("arkade-vault/vault-board-v1-authorization/v1")
    case Submission(_, _, _, _, _, _, _, _, _, _) => Ascii("arkade-vault/vault-board-v1-submission/v1")
    case Dispatch(_, _, _, _, _) => Ascii("arkade-vault/vault-board-v1-dispatch/v1")
    case _ => Ascii("arkade-2fa-vault/vtxo-operation/v1")
  }

  function Head(r: Record): seq<Atom> { [Field(Domain(r)), Word(if r.VtxoOperation? || r.VtxoInput? then 2 else 1)] }

  function EnrollmentAtoms(r: Record): seq<Atom>
    requires r.Enrollment?
  {
    [Field(r.vault), Field(r.program), Field(r.boardingPub), Field(r.cosignerPub), Field(r.operatorPub),
     Field(r.delayUnit), Field(r.pkScript), Field(r.address), Word(r.exitDelay)]
  }

  function BoardOperationAtoms(r: Record): seq<Atom>
    requires r.BoardOperation?
  {
    [Field(r.operation), Field(r.vault), Field(r.txid), Field(r.boardingScript), Field(r.receiverScript),
     Field(r.createdAt), Word(r.vout), Sats(r.valueSats), Sats(r.anchor)]
  }

  function AuthorizationAtoms(r: Record): seq<Atom>
    requires r.Authorization?
  {
    [Field(r.operation), Field(r.phase), Field(r.digest), Field(r.session), Field(r.commitment), Field(r.receiverTxid),
     Field(r.createdAt), Word(r.attempt), Sats(r.receiverSats), Sats(r.feeSats), Sats(r.expireAt), Word(r.receiverVout)]
  }

  function SubmissionAtoms(r: Record): seq<Atom>
    requires r.Submission?
  {
    [Field(r.operation), Field(r.phase), Field(r.digest), Field(r.outcome), Field(r.operatorRef), Field(r.commitment),
     Field(r.receiverTxid), Field(r.createdAt), Word(r.attempt), Word(r.receiverVout)]
  }

  function DispatchAtoms(r: Record): seq<Atom>
    requires r.Dispatch?
  {
    [Field(r.operation), Field(r.phase), Field(r.digest), Field(r.createdAt), Word(r.attempt)]
  }

  function VtxoInputAtoms(r: Record): seq<Atom>
    requires r.VtxoInput?
  {
    [Field(Ascii("input")), Field(r.operation), Field(r.txid), Word(r.inputVout % 0x1_0000_0000), Sats(r.valueSats),
      Field(r.script)]
  }

  function VtxoTexts(r: Record): seq<Blob>
    requires r.VtxoOperation?
  {
    [r.operation, r.vault, r.purpose, r.bundleDigest, r.state, r.feePolicyDigest, r.destScript, r.changeScript,
     r.unsignedPsbt, r.authorizedPsbt, r.proofDigest, r.authorizedProof, r.checkpoints, r.checkpointRequests,
     r.checkpointTapscript, r.arkTxid, r.expiresAt, r.createdAt, r.lastDestScript]
  }

  function VtxoAmounts(r: Record): seq<Atom>
    requires r.VtxoOperation?
  {
    [Sats(r.amountSats), Sats(r.feeSats), Sats(r.changeSats)]
  }

  function VtxoTail(r: Record): seq<Atom>
    requires r.VtxoOperation?
  {
    if r.changeVout.None? then [Number(1, 0)] else [Number(1, 1), Word(r.changeVout.value)]
  }

  function VtxoOperationAtoms(r: Record): seq<Atom>
    requires r.VtxoOperation?
  {
    Fields(VtxoTexts(r)) + (VtxoAmounts(r) + VtxoTail(r))
  }

  function Body(r: Record): seq<Atom> {
    match r
    case Enrollment(_, _, _, _, _, _, _, _, _) => EnrollmentAtoms(r)
    case BoardOperation(_, _, _, _, _, _, _, _, _) => BoardOperationAtoms(r)
    case Authorization(_, _, _, _, _, _, _, _, _, _, _, _) => AuthorizationAtoms(r)
    case Submission(_, _, _, _, _, _, _, _, _, _) => SubmissionAtoms(r)
    case Dispatch(_, _, _, _, _) => DispatchAtoms(r)
    case VtxoInput(_, _, _, _, _) => VtxoInputAtoms(r)
    case _ => VtxoOperationAtoms(r)
  }

  function Payload(r: Record): Option<Blob> {
    if Accepted(r) && AllFit(Head(r) + Body(r)) then Some(Render(Head(r) + Body(r))) else None
  }

  // ---------- injectivity ----------

  /** Equal, except that a VTXO input's output index counts modulo 32 bits. */
  predicate Same(r: Record, s: Record) {
    if r.VtxoInput? && s.VtxoInput?
    then r.(inputVout := r.inputVout % 0x1_0000_0000) == s.(inputVout := s.inputVout % 0x1_0000_0000)
    else r == s
  }

  lemma Domains(r: Record, s: Record)
    requires Domain(r) == Domain(s)
    ensures || (r.Enrollment? && s.Enrollment?) || (r.BoardOperation? && s.BoardOperation?)
            || (r.Authorization? && s.Authorization?) || (r.Submission? && s.Submission?) ||
               (r.Dispatch? && s.Dispatch?)
            || ((r.VtxoOperation? || r.VtxoInput?) && (s.VtxoOperation? || s.VtxoInput?))
  {
    var enrollment := Ascii("arkade-vault/vault-board-v1-enrollment/v1");
    assert enrollment[28] != Ascii("arkade-vault/vault-board-v1-submission/v1")[28];
  }

  lemma SatsInjective(n: i64, m: i64)
    requires Sats(n) == Sats(m)
    ensures n == m
  {
  }

  lemma EnrollmentsEqual(r: Record, s: Record)
    requires r.Enrollment? && s.Enrollment? && AllFit(EnrollmentAtoms(r)) && AllFit(EnrollmentAtoms(s))
    requires Render(EnrollmentAtoms(r)) == Render(EnrollmentAtoms(s))
    ensures r == s
  {
    var a, b := EnrollmentAtoms(r), EnrollmentAtoms(s);
    RenderInjective(a, b);
    assert a[0] == b[0] && a[1] == b[1] && a[2] == b[2] && a[3] == b[3] && a[4] == b[4];
    assert a[5] == b[5] && a[6] == b[6] && a[7] == b[7] && a[8] == b[8];
  }

  lemma BoardOperationsEqual(r: Record, s: Record)
    requires r.BoardOperation? && s.BoardOperation? && AllFit(BoardOperationAtoms(r)) && AllFit(BoardOperationAtoms(s))
    requires Render(BoardOperationAtoms(r)) == Render(BoardOperationAtoms(s))
    ensures r == s
  {
    var a, b := BoardOperationAtoms(r), BoardOperationAtoms(s);
    RenderInjective(a, b);
    assert a[0] == b[0] && a[1] == b[1] && a[2] == b[2] && a[3] == b[3] && a[4] == b[4];
    assert a[5] == b[5] && a[6] == b[6] && a[7] == b[7] && a[8] == b[8];
    SatsInjective(r.valueSats, s.valueSats);
    SatsInjective(r.anchor, s.anchor);
  }

  lemma AuthorizationsEqual(r: Record, s: Record)
    requires r.Authorization? && s.Authorization? && AllFit(AuthorizationAtoms(r)) && AllFit(AuthorizationAtoms(s))
    requires Render(AuthorizationAtoms(r)) == Render(AuthorizationAtoms(s))
    ensures r == s
  {
    AuthorizationsAlike(r, s);
    RenderInjective(AuthorizationAtoms(r), AuthorizationAtoms(s));
    AuthorizationByAtoms(r, s);
  }

  lemma AuthorizationsAlike(r: Record, s: Record)
    requires r.Authorization? && s.Authorization?
    ensures SameShape(AuthorizationAtoms(r), AuthorizationAtoms(s))
  {
  }

  lemma AuthorizationByAtoms(r: Record, s: Record)
    requires r.Authorization? && s.Authorization? && AllFit(AuthorizationAtoms(r)) && AllFit(AuthorizationAtoms(s))
    requires AuthorizationAtoms(r) == AuthorizationAtoms(s)
    ensures r == s
  {
    var a, b := AuthorizationAtoms(r), AuthorizationAtoms(s);
    assert a[0] == b[0] && a[1] == b[1] && a[2] == b[2] && a[3] == b[3] && a[4] == b[4] && a[5] == b[5] && a[6] == b[6];
    assert a[7] == b[7] && a[8] == b[8] && a[9] == b[9] && a[10] == b[10] && a[11] == b[11];
    SatsInjective(r.receiverSats, s.receiverSats);
    SatsInjective(r.feeSats, s.feeSats);
    SatsInjective(r.expireAt, s.expireAt);
  }

  lemma SubmissionsEqual(r: Record, s: Record)
    requires r.Submission? && s.Submission? && AllFit(SubmissionAtoms(r)) && AllFit(SubmissionAtoms(s))
    requires Render(SubmissionAtoms(r)) == Render(SubmissionAtoms(s))
    ensures r == s
  {
    var a, b := SubmissionAtoms(r), SubmissionAtoms(s);
    RenderInjective(a, b);
    assert a[0] == b[0] && a[1] == b[1] && a[2] == b[2] && a[3] == b[3] && a[4] == b[4];
    assert a[5] == b[5] && a[6] == b[6] && a[7] == b[7] && a[8] == b[8] && a[9] == b[9];
  }

  lemma DispatchesEqual(r: Record, s: Record)
    requires r.Dispatch? && s.Dispatch? && AllFit(DispatchAtoms(r)) && AllFit(DispatchAtoms(s))
    requires Render(DispatchAtoms(r)) == Render(DispatchAtoms(s))
    ensures r == s
  {
    var a, b := DispatchAtoms(r), DispatchAtoms(s);
    RenderInjective(a, b);
    assert a[0] == b[0] && a[1] == b[1] && a[2] == b[2] && a[3] == b[3] && a[4] == b[4];
  }

  lemma VtxoInputsEqual(r: Record, s: Record)
    requires r.VtxoInput? && s.VtxoInput? && AllFit(VtxoInputAtoms(r)) && AllFit(VtxoInputAtoms(s))
    requires Render(VtxoInputAtoms(r)) == Render(VtxoInputAtoms(s))
    ensures Same(r, s)
  {
    var a, b := VtxoInputAtoms(r), VtxoInputAtoms(s);
    RenderInjective(a, b);
    assert a[1] == b[1] && a[2] == b[2] && a[3] == b[3] && a[4] == b[4] && a[5] == b[5];
    SatsInjective(r.valueSats, s.valueSats);
  }

  lemma VtxoTextsEqual(r: Record, s: Record)
    requires r.VtxoOperation? && s.VtxoOperation? && VtxoTexts(r) == VtxoTexts(s)
    ensures r == s.(amountSats := r.amountSats, feeSats := r.feeSats, changeSats := r.changeSats,
            changeVout := r.changeVout)
  {
    var a, b := VtxoTexts(r), VtxoTexts(s);
    assert a[0] == b[0] && a[1] == b[1] && a[2] == b[2] && a[3] == b[3] && a[4] == b[4] && a[5] == b[5] && a[6] == b[6];
    assert a[7] == b[7] && a[8] == b[8] && a[9] == b[9] && a[10] == b[10] && a[11] == b[11] && a[12] == b[12];
    assert a[13] == b[13] && a[14] == b[14] && a[15] == b[15] && a[16] == b[16] && a[17] == b[17] && a[18] == b[18];
  }

  lemma VtxoAmountsEqual(r: Record, s: Record)
    requires r.VtxoOperation? && s.VtxoOperation? && VtxoAmounts(r) == VtxoAmounts(s)
    ensures r.amountSats == s.amountSats && r.feeSats == s.feeSats && r.changeSats == s.changeSats
  {
    var a, b := VtxoAmounts(r), VtxoAmounts(s);
    assert a[0] == b[0] && a[1] == b[1] && a[2] == b[2];
    SatsInjective(r.amountSats, s.amountSats);
    SatsInjective(r.feeSats, s.feeSats);
    SatsInjective(r.changeSats, s.changeSats);
  }

  /** The part of acceptance that separates the VTXO payloads. */
  predicate Shaped(r: Record) {
    && (r.VtxoOperation? ==> |r.purpose| == 5 && ChangeShape(r.changeSats, r.changeVout, r.changeScript))
    && (r.VtxoInput? ==> |r.txid| == 32)
  }

  lemma AcceptedShaped(r: Record)
    requires Accepted(r)
    ensures Shaped(r)
  {
    assert |Ascii("spend")| == 5;
  }

  /** Two VTXO operations: the amounts fix the change amount, and with it the change index. */
  lemma VtxoOperationsEqual(r: Record, s: Record)
    requires r.VtxoOperation? && s.VtxoOperation? && Shaped(r) && Shaped(s)
    requires AllFit(VtxoOperationAtoms(r)) && AllFit(VtxoOperationAtoms(s))
    requires Render(VtxoOperationAtoms(r)) == Render(VtxoOperationAtoms(s))
    ensures r == s
  {
    CommonFields(VtxoTexts(r), VtxoTexts(s), VtxoAmounts(r) + VtxoTail(r), VtxoAmounts(s) + VtxoTail(s));
    CommonPart(VtxoAmounts(r), VtxoAmounts(s), VtxoTail(r), VtxoTail(s));
    VtxoTextsEqual(r, s);
    VtxoAmountsEqual(r, s);
  }

  lemma FirstFields(a: seq<Atom>, b: seq<Atom>)
    requires |a| >= 3 && |b| >= 3 && AllFit(a) && AllFit(b) && Render(a) == Render(b)
    requires a[0].Field? && a[1].Field? && a[2].Field? && b[0].Field? && b[1].Field? && b[2].Field?
    ensures a[2] == b[2]
  {
    var x, y, t, u := a[..3], b[..3], a[3..], b[3..];
    assert a == x + t && b == y + u;
    assert x == [a[0], a[1], a[2]] && y == [b[0], b[1], b[2]];
    CommonPart(x, y, t, u);
  }

  /** An operation's third field is "spend"; an input's is a 32-byte transaction id. */
  lemma VtxoKindsDiffer(r: Record, s: Record)
    requires r.VtxoOperation? && s.VtxoInput? && |r.purpose| != |s.txid|
    requires AllFit(VtxoOperationAtoms(r)) && AllFit(VtxoInputAtoms(s))
    ensures Render(VtxoOperationAtoms(r)) != Render(VtxoInputAtoms(s))
  {
    if Render(VtxoOperationAtoms(r)) == Render(VtxoInputAtoms(s)) {
      FirstFields(VtxoOperationAtoms(r), VtxoInputAtoms(s));
    }
  }

  predicate IsVtxo(r: Record) { r.VtxoOperation? || r.VtxoInput? }

  lemma VtxoBodiesEqual(r: Record, s: Record)
    requires IsVtxo(r) && IsVtxo(s) && Shaped(r) && Shaped(s) && AllFit(Body(r)) && AllFit(Body(s))
    requires Render(Body(r)) == Render(Body(s))
    ensures Same(r, s)
  {
    if r.VtxoOperation? && s.VtxoOperation? {
      VtxoOperationPair(r, s);
    } else if r.VtxoInput? && s.VtxoInput? {
      VtxoInputsEqual(r, s);
    } else {
      VtxoMixedPair(if r.VtxoOperation? then r else s, if r.VtxoOperation? then s else r);
    }
  }

  lemma VtxoOperationPair(r: Record, s: Record)
    requires r.VtxoOperation? && s.VtxoOperation? && Shaped(r) && Shaped(s) && AllFit(Body(r)) && AllFit(Body(s))
    requires Render(Body(r)) == Render(Body(s))
    ensures r == s
  {
    VtxoOperationsEqual(r, s);
  }

  lemma VtxoMixedPair(r: Record, s: Record)
    requires r.VtxoOperation? && s.VtxoInput? && Shaped(r) && Shaped(s) && AllFit(Body(r)) && AllFit(Body(s))
    ensures Render(Body(r)) != Render(Body(s))
  {
    VtxoKindsDiffer(r, s);
  }

  lemma BoardBodiesEqual(r: Record, s: Record)
    requires Domain(r) == Domain(s) && !IsVtxo(r) && AllFit(Body(r)) && AllFit(Body(s))
    requires Render(Body(r)) == Render(Body(s))
    ensures r == s
  {
    Domains(r, s);
    if r.Enrollment? {
      EnrollmentsEqual(r, s);
    } else if r.BoardOperation? {
      BoardOperationsEqual(r, s);
    } else if r.Authorization? {
      AuthorizationsEqual(r, s);
    } else if r.Submission? {
      SubmissionsEqual(r, s);
    } else {
      DispatchesEqual(r, s);
    }
  }

  lemma BodiesEqual(r: Record, s: Record)
    requires Domain(r) == Domain(s) && Shaped(r) && Shaped(s) && AllFit(Body(r)) && AllFit(Body(s))
    requires Render(Body(r)) == Render(Body(s))
    ensures Same(r, s)
  {
    if IsVtxo(r) {
      Domains(r, s);
      VtxoBodiesEqual(r, s);
    } else {
      BoardBodiesEqual(r, s);
    }
  }

  lemma HeadsEqual(r: Record, s: Record)
    requires AllFit(Head(r) + Body(r)) && AllFit(Head(s) + Body(s))
    requires Render(Head(r) + Body(r)) == Render(Head(s) + Body(s))
    ensures Domain(r) == Domain(s) && Render(Body(r)) == Render(Body(s)) && AllFit(Body(r)) && AllFit(Body(s))
  {
    CommonPart(Head(r), Head(s), Body(r), Body(s));
    assert Head(r)[0] == Head(s)[0];
  }

  lemma SamePayload(r: Record, s: Record)
    requires Same(r, s)
    ensures Head(r) == Head(s) && Body(r) == Body(s)
  {
    if r.VtxoInput? && s.VtxoInput? { assert VtxoInputAtoms(r) == VtxoInputAtoms(s); }
  }

  /** Across all seven record types, a payload determines its record. */
  lemma PayloadDeterminesRecord(r: Record, s: Record)
    requires Payload(r).Some? && Payload(s).Some?
    ensures Payload(r) == Payload(s) <==> Same(r, s)
  {
    if Payload(r) == Payload(s) {
      AcceptedShaped(r);
      AcceptedShaped(s);
      HeadsEqual(r, s);
      BodiesEqual(r, s);
    } else if Same(r, s) {
      SamePayload(r, s);
    }
  }

  /** The two output indices 0 and 2^32 share one input payload. */
  lemma InputIndexWraps()
    ensures exists r, s :: r != s && Payload(r).Some? && Payload(r) == Payload(s)
  {
    var t: Blob := [0, 0, 0, 0, 0, 0, 0, 0, 0, 0, 0, 0, 0, 0, 0, 0, 0, 0, 0, 0, 0, 0, 0, 0, 0, 0, 0, 0, 0, 0, 0, 0];
    var r := VtxoInput([1], t, 0, 0, []);
    var s := VtxoInput([1], t, 0x1_0000_0000, 0, []);
    assert Body(r) == Body(s);
    assert Payload(r).Some? && Payload(r) == Payload(s);
  }
}
