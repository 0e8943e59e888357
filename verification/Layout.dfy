/** The authenticated payloads byte by byte: which field stands where, and how numbers are spelled. */
module Layout {
  import opened Prelude
  import opened Ordering
  import opened Encoding
  import opened Canonical
  import B = Bundle

  // ---------- numbers and fields ----------

  /** The number that bytes spell, least significant first. */
  function Value(b: Blob): nat { if b == [] then 0 else b[0] as nat + 256 * Value(b[1..]) }

  /** A number that fits its width is spelled least significant byte first. */
  lemma {:induction false} SpellsItsValue(width: nat, n: nat)
    requires n < Limit(width)
    ensures |LittleEndian(width, n)| == width && Value(LittleEndian(width, n)) == n
  {
    if width > 0 {
      SpellsItsValue(width - 1, n / 256);
      assert LittleEndian(width, n)[1..] == LittleEndian(width - 1, n / 256);
    }
  }

  function U16(n: nat): Blob { LittleEndian(2, n) }
  function U32(n: nat): Blob { LittleEndian(4, n) }
  function U64(n: nat): Blob { LittleEndian(8, n) }

  /** A signed amount is written in two's complement. */
  function I64(n: i64): Blob { U64(if n < 0 then n + 0x1_0000_0000_0000_0000 else n) }

  /** A field is its length in four bytes and then its bytes. */
  function Text(b: Blob): Blob { U32(|b|) + b }

  // ---------- parts in a row ----------

  function Joined(parts: seq<Blob>): Blob { if parts == [] then [] else parts[0] + Joined(parts[1..]) }

  /** Atom by atom the parts. */
  ghost predicate Spelled(atoms: seq<Atom>, parts: seq<Blob>) {
    |atoms| == |parts| && forall i :: 0 <= i < |atoms| ==> Bytes(atoms[i]) == parts[i]
  }

  lemma {:induction false} RenderIsJoined(atoms: seq<Atom>, parts: seq<Blob>)
    requires Spelled(atoms, parts)
    ensures Render(atoms) == Joined(parts)
    decreases |atoms|
  {
    if atoms != [] {
      RenderIsJoined(atoms[1..], parts[1..]);
    }
  }

  // ---------- the integrity payloads ----------

  function BoardHead(domain: string): seq<Blob> { [Text(Ascii(domain)), U32(1)] }

  function VtxoHead(): seq<Blob> { [Text(Ascii("arkade-2fa-vault/vtxo-operation/v1")), U32(2)] }

  function Texts(bs: seq<Blob>): (r: seq<Blob>)
    ensures |r| == |bs| && forall i :: 0 <= i < |bs| ==> r[i] == Text(bs[i])
  {
    if bs == [] then [] else [Text(bs[0])] + Texts(bs[1..])
  }

  /** The fields of each record and then its numbers, in order; an input has its fields around them. */
  function BodyParts(r: Record): seq<Blob> {
    match r
    case Enrollment(vault, program, boarding, cosigner, operator, unit, script, address, delay) =>
      Texts([vault, program, boarding, cosigner, operator, unit, script, address]) + [U32(delay)]
    case BoardOperation(operation, vault, txid, script, receiver, created, vout, value, anchor) =>
      Texts([operation, vault, txid, script, receiver, created]) + [U32(vout), I64(value), I64(anchor)]
    case Authorization(operation, phase, digest, session, commitment, receiver, created, attempt, sats, fee, expire,
                       vout) =>
      Texts([operation, phase, digest, session, commitment, receiver, created]) +
        [U32(attempt), I64(sats), I64(fee), I64(expire), U32(vout)]
    case Submission(operation, phase, digest, outcome, ref, commitment, receiver, created, attempt, vout) =>
      Texts([operation, phase, digest, outcome, ref, commitment, receiver, created]) + [U32(attempt), U32(vout)]
    case Dispatch(operation, phase, digest, created, attempt) =>
      Texts([operation, phase, digest, created]) + [U32(attempt)]
    case VtxoInput(operation, txid, vout, value, script) =>
      Texts([Ascii("input"), operation, txid]) + [U32(vout % 0x1_0000_0000), I64(value), Text(script)]
    case VtxoOperation(operation, vault, purpose, bundle, state, policy, dest, change, unsigned, authorized, proof,
                       authorizedProof, checkpoints, requests, tapscript, ark, expires, created, last, amount, fee,
                       changeSats, changeVout) =>
      Texts([operation, vault, purpose, bundle, state, policy, dest, change, unsigned, authorized, proof,
             authorizedProof, checkpoints, requests, tapscript, ark, expires, created, last]) +
        ([I64(amount), I64(fee), I64(changeSats)] + if changeVout.None? then [[0]] else [[1], U32(changeVout.value)])
  }

  function HeadParts(r: Record): seq<Blob> {
    match r
    case Enrollment(_, _, _, _, _, _, _, _, _) => BoardHead("arkade-vault/vault-board-v1-enrollment/v1")
    case BoardOperation(_, _, _, _, _, _, _, _, _) => BoardHead("arkade-vault/vault-board-v1-operation/v1")
    case Authorization(_, _, _, _, _, _, _, _, _, _, _, _) => BoardHead("arkade-vault/vault-board-v1-authorization/v1")
    case Submission(_, _, _, _, _, _, _, _, _, _) => BoardHead("arkade-vault/vault-board-v1-submission/v1")
    case Dispatch(_, _, _, _, _) => BoardHead("arkade-vault/vault-board-v1-dispatch/v1")
    case _ => VtxoHead()
  }

  lemma SpelledAppend(a: seq<Atom>, b: seq<Atom>, x: seq<Blob>, y: seq<Blob>)
    requires Spelled(a, x) && Spelled(b, y)
    ensures Spelled(a + b, x + y)
  {
    forall i | 0 <= i < |a + b| ensures Bytes((a + b)[i]) == (x + y)[i] {
      if i >= |a| { assert (a + b)[i] == b[i - |a|]; }
    }
  }

  lemma SpelledTexts(bs: seq<Blob>)
    ensures Spelled(Fields(bs), Texts(bs))
  {
  }

  /** Fields first, then the rest. */
  lemma SpelledBody(texts: seq<Blob>, rest: seq<Atom>, numbers: seq<Blob>)
    requires Spelled(rest, numbers)
    ensures Spelled(Fields(texts) + rest, Texts(texts) + numbers)
  {
    SpelledTexts(texts);
    SpelledAppend(Fields(texts), rest, Texts(texts), numbers);
  }

  lemma SpelledWord(n: u32)
    ensures Spelled([Word(n)], [U32(n)])
  {
  }

  lemma SpelledSats(n: i64)
    ensures Spelled([Sats(n)], [I64(n)])
  {
  }

  lemma EnrollmentSpelled(r: Record)
    requires r.Enrollment?
    ensures Spelled(Body(r), BodyParts(r))
  {
    var texts := [r.vault, r.program, r.boardingPub, r.cosignerPub, r.operatorPub, r.delayUnit, r.pkScript, r.address];
    SpelledWord(r.exitDelay);
    SpelledBody(texts, [Word(r.exitDelay)], [U32(r.exitDelay)]);
    assert Body(r) == Fields(texts) + [Word(r.exitDelay)];
  }

  lemma DispatchSpelled(r: Record)
    requires r.Dispatch?
    ensures Spelled(Body(r), BodyParts(r))
  {
    var texts := [r.operation, r.phase, r.digest, r.createdAt];
    SpelledWord(r.attempt);
    SpelledBody(texts, [Word(r.attempt)], [U32(r.attempt)]);
    assert Body(r) == Fields(texts) + [Word(r.attempt)];
  }

  lemma BoardOperationSpelled(r: Record)
    requires r.BoardOperation?
    ensures Spelled(Body(r), BodyParts(r))
  {
    var texts := [r.operation, r.vault, r.txid, r.boardingScript, r.receiverScript, r.createdAt];
    var amounts, spelled := [Sats(r.valueSats)] + [Sats(r.anchor)], [I64(r.valueSats)] + [I64(r.anchor)];
    SpelledWord(r.vout);
    SpelledSats(r.valueSats);
    SpelledSats(r.anchor);
    SpelledAppend([Sats(r.valueSats)], [Sats(r.anchor)], [I64(r.valueSats)], [I64(r.anchor)]);
    SpelledAppend([Word(r.vout)], amounts, [U32(r.vout)], spelled);
    SpelledBody(texts, [Word(r.vout)] + amounts, [U32(r.vout)] + spelled);
    assert Body(r) == Fields(texts) + ([Word(r.vout)] + amounts);
  }

  lemma SubmissionSpelled(r: Record)
    requires r.Submission?
    ensures Spelled(Body(r), BodyParts(r))
  {
    var texts :=
      [r.operation, r.phase, r.digest, r.outcome, r.operatorRef, r.commitment, r.receiverTxid, r.createdAt];
    SpelledWord(r.attempt);
    SpelledWord(r.receiverVout);
    SpelledAppend([Word(r.attempt)], [Word(r.receiverVout)], [U32(r.attempt)], [U32(r.receiverVout)]);
    SpelledBody(texts, [Word(r.attempt)] + [Word(r.receiverVout)], [U32(r.attempt)] + [U32(r.receiverVout)]);
    assert Body(r) == Fields(texts) + ([Word(r.attempt)] + [Word(r.receiverVout)]);
  }

  lemma AuthorizationNumbers(r: Record)
    requires r.Authorization?
    ensures Spelled([Word(r.attempt), Sats(r.receiverSats), Sats(r.feeSats), Sats(r.expireAt), Word(r.receiverVout)],
                    [U32(r.attempt), I64(r.receiverSats), I64(r.feeSats), I64(r.expireAt), U32(r.receiverVout)])
  {
    SpelledWord(r.attempt);
    SpelledSats(r.receiverSats);
    SpelledSats(r.feeSats);
    SpelledSats(r.expireAt);
    SpelledWord(r.receiverVout);
    assert [Word(r.attempt)][0] == Word(r.attempt) && [Sats(r.receiverSats)][0] == Sats(r.receiverSats);
    assert [Sats(r.feeSats)][0] == Sats(r.feeSats) && [Sats(r.expireAt)][0] == Sats(r.expireAt);
    assert [Word(r.receiverVout)][0] == Word(r.receiverVout);
  }

  lemma AuthorizationSpelled(r: Record)
    requires r.Authorization?
    ensures Spelled(Body(r), BodyParts(r))
  {
    var texts := [r.operation, r.phase, r.digest, r.session, r.commitment, r.receiverTxid, r.createdAt];
    var rest := [Word(r.attempt), Sats(r.receiverSats), Sats(r.feeSats), Sats(r.expireAt), Word(r.receiverVout)];
    AuthorizationNumbers(r);
    SpelledBody(texts, rest,
                [U32(r.attempt), I64(r.receiverSats), I64(r.feeSats), I64(r.expireAt), U32(r.receiverVout)]);
    assert Body(r) == Fields(texts) + rest;
  }

  lemma VtxoInputSpelled(r: Record)
    requires r.VtxoInput?
    ensures Spelled(Body(r), BodyParts(r))
  {
    var texts := [Ascii("input"), r.operation, r.txid];
    var vout := r.inputVout % 0x1_0000_0000;
    var rest := [Word(vout), Sats(r.valueSats), Field(r.script)];
    SpelledBody(texts, rest, [U32(vout), I64(r.valueSats), Text(r.script)]);
    assert Body(r) == Fields(texts) + rest;
  }

  lemma VtxoOperationSpelled(r: Record)
    requires r.VtxoOperation?
    ensures Spelled(Body(r), BodyParts(r))
  {
    var change := if r.changeVout.None? then [[0]] else [[1], U32(r.changeVout.value)];
    assert LittleEndian(1, 0) == [0] && LittleEndian(1, 1) == [1];
    assert Spelled(VtxoTail(r), change);
    SpelledAppend(VtxoAmounts(r), VtxoTail(r), [I64(r.amountSats), I64(r.feeSats), I64(r.changeSats)], change);
    SpelledBody(VtxoTexts(r), VtxoAmounts(r) + VtxoTail(r),
                [I64(r.amountSats), I64(r.feeSats), I64(r.changeSats)] + change);
  }

  lemma HeadSpelled(r: Record)
    ensures Spelled(Head(r), HeadParts(r))
  {
  }

  lemma BodySpelled(r: Record)
    ensures Spelled(Body(r), BodyParts(r))
  {
    if r.Enrollment? { EnrollmentSpelled(r); }
    if r.BoardOperation? { BoardOperationSpelled(r); }
    if r.Authorization? { AuthorizationSpelled(r); }
    if r.Submission? { SubmissionSpelled(r); }
    if r.Dispatch? { DispatchSpelled(r); }
    if r.VtxoInput? { VtxoInputSpelled(r); }
    if r.VtxoOperation? { VtxoOperationSpelled(r); }
  }

  /** Every payload is its domain, its version, its fields and its numbers in this order. */
  lemma PayloadLayout(r: Record)
    requires Payload(r).Some?
    ensures Payload(r).value == Joined(HeadParts(r) + BodyParts(r))
  {
    HeadSpelled(r);
    BodySpelled(r);
    SpelledAppend(Head(r), Body(r), HeadParts(r), BodyParts(r));
    RenderIsJoined(Head(r) + Body(r), HeadParts(r) + BodyParts(r));
  }

  // ---------- the bundle ----------

  function InputBytes(inputs: seq<B.Input>): Blob {
    if inputs == [] then []
    else inputs[0].txid + U32(inputs[0].vout) + U64(inputs[0].valueSats) + InputBytes(inputs[1..])
  }

  lemma {:induction false} InputsSpelled(inputs: seq<B.Input>)
    ensures Render(B.InputAtoms(inputs)) == InputBytes(inputs)
  {
    if inputs != [] {
      var x := inputs[0];
      var one := [Raw(x.txid), Number(4, x.vout), Number(8, x.valueSats)];
      InputsSpelled(inputs[1..]);
      RenderAppend(one, B.InputAtoms(inputs[1..]));
      OneInput(x);
    }
  }

  lemma ThreeAtoms(a: Atom, b: Atom, c: Atom)
    ensures Render([a, b, c]) == Bytes(a) + Bytes(b) + Bytes(c)
  {
    assert [a, b, c][1..] == [b, c] && [b, c][1..] == [c] && [c][1..] == [];
    assert Render([c]) == Bytes(c) && Render([b, c]) == Bytes(b) + Bytes(c);
    Associate(Bytes(a), Bytes(b), Bytes(c));
  }

  lemma OneInput(x: B.Input)
    ensures Render([Raw(x.txid), Number(4, x.vout), Number(8, x.valueSats)]) == x.txid + U32(x.vout) + U64(x.valueSats)
  {
    ThreeAtoms(Raw(x.txid), Number(4, x.vout), Number(8, x.valueSats));
  }

  function FrontParts(t: B.Terms): seq<Blob> {
    [Text(t.purpose), Text(t.vault), Text(t.destScript), U64(t.amountSats), Text(t.changeScript),
     U64(t.feeSats), U64(t.changeSats)]
  }

  function MiddleParts(t: B.Terms, count: nat): seq<Blob> {
    (if t.changeVout.None? then [[0]] else [[1], U32(t.changeVout.value)]) + [Text(t.feePolicyDigest), U16(count)]
  }

  function TermParts(t: B.Terms, count: nat): seq<Blob> { FrontParts(t) + MiddleParts(t, count) }

  lemma TermsSpelled(t: B.Terms, count: nat)
    ensures Render(B.Front(t) + B.Middle(t, count)) == Joined(TermParts(t, count))
  {
    FrontSpelled(t);
    MiddleSpelled(t, count);
    SpelledAppend(B.Front(t), B.Middle(t, count), FrontParts(t), MiddleParts(t, count));
    RenderIsJoined(B.Front(t) + B.Middle(t, count), TermParts(t, count));
  }

  lemma FrontSpelled(t: B.Terms)
    ensures Spelled(B.Front(t), FrontParts(t))
  {
  }

  lemma MiddleSpelled(t: B.Terms, count: nat)
    ensures Spelled(B.Middle(t, count), MiddleParts(t, count))
  {
    assert LittleEndian(1, 0) == [0] && LittleEndian(1, 1) == [1];
  }

  /** The bundle payload is the terms, the number of inputs, the inputs in canonical order and the time. */
  lemma BundleLayout(t: B.Terms, inputs: seq<B.Input>)
    requires B.Payload(t, inputs).Some?
    ensures var ordered := B.Ordered(inputs).value;
            B.Payload(t, inputs).value ==
            Joined(TermParts(t, |ordered|)) + InputBytes(ordered) + Text(t.createdAt)
  {
    var ordered := B.Ordered(inputs).value;
    var front, middle, xs, last := B.Front(t), B.Middle(t, |ordered|), B.InputAtoms(ordered), [Field(t.createdAt)];
    assert B.Atoms(t, ordered) == (front + middle) + (xs + last);
    RenderAppend(front + middle, xs + last);
    RenderAppend(xs, last);
    TermsSpelled(t, |ordered|);
    InputsSpelled(ordered);
    RenderIsJoined(last, [Text(t.createdAt)]);
    assert Joined([Text(t.createdAt)]) == Text(t.createdAt);
    Associate(Joined(TermParts(t, |ordered|)), InputBytes(ordered), Text(t.createdAt));
  }

  // ---------- the canonical order ----------

  lemma HexDigitsRise(a: byte, b: byte)
    ensures a < b <==>
            || B.HexDigit(a as int / 16) < B.HexDigit(b as int / 16)
            || (a as int / 16 == b as int / 16 && B.HexDigit(a as int % 16) < B.HexDigit(b as int % 16))
    ensures a == b <==>
            && B.HexDigit(a as int / 16) == B.HexDigit(b as int / 16)
            && B.HexDigit(a as int % 16) == B.HexDigit(b as int % 16)
  {
  }

  lemma LessTwo(a: Blob, b: Blob)
    requires |a| >= 2 && |b| >= 2
    ensures BytesLess(a, b) <==>
            a[0] < b[0] || (a[0] == b[0] && (a[1] < b[1] || (a[1] == b[1] && BytesLess(a[2..], b[2..]))))
  {
    assert a[1..][1..] == a[2..] && b[1..][1..] == b[2..];
  }

  /** The hexadecimal spelling keeps the order of the bytes. */
  lemma {:induction false} HexKeepsOrder(a: Blob, b: Blob)
    ensures BytesLess(B.Hex(a), B.Hex(b)) <==> BytesLess(a, b)
    decreases |a|
  {
    if a != [] && b != [] {
      HexKeepsOrder(a[1..], b[1..]);
      HexDigitsRise(a[0], b[0]);
      assert B.Hex(a)[2..] == B.Hex(a[1..]) && B.Hex(b)[2..] == B.Hex(b[1..]);
      LessTwo(B.Hex(a), B.Hex(b));
    }
  }

  lemma BeforeMeans(a: B.Input, b: B.Input)
    requires B.Before(a, b)
    ensures ComesFirst(a.txid, b.txid) || (a.txid == b.txid && a.vout < b.vout)
  {
    HexKeepsOrder(a.txid, b.txid);
    BytesLessIff(a.txid, b.txid);
  }

  /** The canonical list is the given inputs in ascending order of the raw transaction id, then the index:
      the order in which the ledger stores and lists them. */
  lemma CanonicalOrder(inputs: seq<B.Input>)
    requires B.Ordered(inputs).Some?
    ensures var o := B.Ordered(inputs).value;
            && multiset(o) == multiset(B.Normalized(inputs).value)
            && forall i, j :: 0 <= i < j < |o| ==>
                 ComesFirst(o[i].txid, o[j].txid) || (o[i].txid == o[j].txid && o[i].vout < o[j].vout)
  {
    var n, o := B.Normalized(inputs).value, B.Ordered(inputs).value;
    SortPermutes(B.Before, n);
    KeysDistinctIff(B.Outpoint, n);
    B.BeforeOrders(multiset(n));
    SortSorts(B.Before, n, multiset(n));
    forall i, j | 0 <= i < j < |o|
      ensures ComesFirst(o[i].txid, o[j].txid) || (o[i].txid == o[j].txid && o[i].vout < o[j].vout)
    {
      BeforeMeans(o[i], o[j]);
    }
  }
}
