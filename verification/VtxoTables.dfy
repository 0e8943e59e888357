/** The spending tables and the effect of each ledger transaction on them.

    An operation goes reserved -> signed -> submitted -> finalized or unresolved, or
    reserved -> aborted. Time is in nanoseconds; stored stamps are whole seconds.
 */
module VtxoTables {
  import opened Prelude
  import opened Sums

  const SECOND := 1_000_000_000
  const ALLOWANCE_WINDOW := 86_400
  const RESERVE_TIMEOUT := 120

  datatype State = Reserved | Signed | Submitted | Finalized | Aborted | Unresolved

  datatype Outpoint = Outpoint(txid: Blob, vout: nat)
  datatype Input = Input(outpoint: Outpoint, valueSats: int, script: Blob)

  /** What a reservation fixes for good. */
  datatype Terms = Terms(
    vault: string, bundleDigest: Blob, amountSats: int, feeSats: int, feePolicyDigest: Blob,
    destScript: Blob, changeScript: Blob, changeSats: int, changeVout: Option<nat>,
    checkpointTapscript: Blob, expiresAt: Option<int>, lastDestScript: Blob)

  /** What signing adds. */
  datatype Release = Release(
    unsignedPsbt: string, authorizedPsbt: string, pendingDigest: Blob, authorizedProof: string, arkTxid: string)
  datatype Checkpoints = Checkpoints(psbts: string, request: string)

  const NO_RELEASE := Release("", "", [], "", "")
  const NO_CHECKPOINTS := Checkpoints("", "")

  datatype Row = Row(id: string, terms: Terms, state: State, createdAt: int, release: Release, checkpoints: Checkpoints)

  datatype Counter = Counter(vault: string, credential: Blob)

  datatype Db = Db(ops: map<string, Row>, inputs: map<string, set<Input>>, counts: map<Counter, nat>)

  function Stamp(now: int): int { now / SECOND }

  // ---------- classification of states ----------

  predicate Counts(s: State) { s != Aborted }
  predicate AwaitingSettlement(s: State) { s == Signed || s == Submitted }
  predicate Blocks(s: State) { s == Reserved || s == Signed || s == Submitted || s == Unresolved }
  predicate Locks(s: State) { s == Reserved || s == Signed || s == Submitted || s == Finalized }

  predicate ValidTransition(from: State, to: State) {
    match from
    case Reserved => to == Signed || to == Aborted
    case Signed => to == Submitted
    case Submitted => to == Finalized || to == Unresolved
    case _ => false
  }

  // ---------- rows that can be sealed ----------

  predicate ValidChange(t: Terms) {
    if t.changeSats == 0 then t.changeVout.None? && t.changeScript == []
    else t.changeSats >= DUST_SATS && t.changeVout == Some(1) && t.changeScript != []
  }

  predicate ValidRow(r: Row) {
    && r.id != "" && r.terms.vault != ""
    && |r.terms.bundleDigest| == 32 && |r.terms.feePolicyDigest| == 32
    && 0 <= r.terms.amountSats && 0 <= r.terms.feeSats
    && ValidChange(r.terms)
    && (r.release.pendingDigest == [] <==> r.release.authorizedProof == "")
    && (r.release.pendingDigest == [] || |r.release.pendingDigest| == 32)
  }

  predicate ValidInputs(ins: seq<Input>) {
    && (forall i :: 0 <= i < |ins| ==> |ins[i].outpoint.txid| == 32 && ins[i].valueSats >= 0)
    && (forall i, j :: 0 <= i < j < |ins| ==> ins[i].outpoint != ins[j].outpoint)
  }

  /** Amount plus fee. */
  function Need(t: Terms): nat {
    if t.amountSats < 0 || t.feeSats < 0 then 0 else t.amountSats + t.feeSats
  }

  // ---------- the rolling allowance ----------

  predicate InWindow(createdAt: int, now: int) { now <= (createdAt + ALLOWANCE_WINDOW) * SECOND }

  /** What one row weighs against the allowance: everything but an abort counts, and a row
      that awaits settlement counts however old it is. */
  function Charge(r: Row, vault: string, now: int): nat {
    if r.terms.vault == vault && Counts(r.state) && (AwaitingSettlement(r.state) || InWindow(r.createdAt, now))
    then Need(r.terms) else 0
  }

  function Charges(ops: map<string, Row>, vault: string, now: int): map<string, nat> {
    map id | id in ops :: Charge(ops[id], vault, now)
  }

  /** spentInWindow: none when the sum leaves the 64-bit range. */
  ghost function SpentInWindow(ops: map<string, Row>, vault: string, now: int): Option<nat> {
    var total := Total(Charges(ops, vault, now));
    if total <= MAX_INT64 then Some(total) else None
  }

  // ---------- ReserveVtxoOperation ----------

  predicate Expired(r: Row, vault: string, now: int) {
    r.terms.vault == vault && r.state == Reserved && r.terms.expiresAt.Some? && r.terms.expiresAt.value * SECOND <= now
  }

  function AbortExpired(ops: map<string, Row>, vault: string, now: int): map<string, Row> {
    map id | id in ops :: if Expired(ops[id], vault, now) then ops[id].(state := Aborted) else ops[id]
  }

  predicate SharesOutpoint(a: set<Input>, b: set<Input>) {
    exists i, j :: i in a && j in b && i.outpoint == j.outpoint
  }

  function InputSet(ins: seq<Input>): set<Input> { set i | i in ins }

  predicate Overlaps(ops: map<string, Row>, inputs: map<string, set<Input>>, id: string, ins: seq<Input>) {
    exists other :: other in ops && other != id && other in inputs && Locks(ops[other].state)
                    && SharesOutpoint(inputs[other], InputSet(ins))
  }

  predicate Fenced(ops: map<string, Row>, vault: string, id: string) {
    exists other :: other in ops && other != id && ops[other].terms.vault == vault && Blocks(ops[other].state)
  }

  datatype ReserveResult = Done | Refused | AllowanceExceeded | OperationActive

  ghost function ReserveOutcome(d: Db, rec: Row, ins: seq<Input>, cap: int, now: int): ReserveResult {
    if rec.id == "" || rec.terms.vault == "" || rec.state != Reserved || cap < 0 || !(1 <= |ins| <= MAX_INPUTS)
      then Refused
    else
      var ops := AbortExpired(d.ops, rec.terms.vault, now);
      var used := SpentInWindow(ops, rec.terms.vault, now);
      if Overlaps(ops, d.inputs, rec.id, ins) then Refused
      else if Fenced(ops, rec.terms.vault, rec.id) then OperationActive
      else if used.None? then Refused
      else if rec.terms.amountSats < 0 || rec.terms.feeSats < 0 ||
        rec.terms.amountSats + rec.terms.feeSats > MAX_INT64 then Refused
      else if used.value > cap || Need(rec.terms) > cap - used.value then AllowanceExceeded
      else if !ValidRow(rec) || rec.id in ops || !ValidInputs(ins) then Refused
      else Done
  }

  ghost function Reserve(d: Db, rec: Row, ins: seq<Input>, cap: int, now: int): Db {
    if ReserveOutcome(d, rec, ins, cap, now) != Done then d
    else d.(ops := AbortExpired(d.ops, rec.terms.vault, now)[rec.id := rec],
      inputs := d.inputs[rec.id := InputSet(ins)])
  }

  // ---------- compare-and-swap on the state column ----------

  /** Swapped with the row written, or the row that was found instead. */
  datatype SwapResult = SwapError | Swapped(row: Row) | Found(row: Row)

  predicate Matches(d: Db, expected: State, rec: Row) {
    rec.id in d.ops && d.ops[rec.id].terms.vault == rec.terms.vault && d.ops[rec.id].state == expected
  }

  function TransitionResult(d: Db, expected: State, rec: Row): SwapResult {
    if rec.id == "" || rec.terms.vault == "" || !ValidTransition(expected, rec.state) || !ValidRow(rec) then SwapError
    else if Matches(d, expected, rec) then Swapped(rec)
    else if rec.id in d.ops then Found(d.ops[rec.id])
    else SwapError
  }

  function Transition(d: Db, expected: State, rec: Row): Db {
    if TransitionResult(d, expected, rec).Swapped? then d.(ops := d.ops[rec.id := rec]) else d
  }

  /** A stored counter only moves up; zero is accepted again only over zero. */
  function Advance(counts: map<Counter, nat>, c: Counter, incoming: nat): Option<map<Counter, nat>> {
    if c !in counts then Some(counts[c := incoming])
    else if incoming == 0 && counts[c] == 0 then Some(counts)
    else if incoming <= counts[c] then None
    else Some(counts[c := incoming])
  }

  predicate CountReplays(counts: map<Counter, nat>, c: Counter, incoming: nat) {
    c in counts && counts[c] == incoming
  }

  /** CommitSignedVtxoOperation: the signed row and the counter in one transaction. */
  function CommitResult(d: Db, rec: Row, credential: Blob, count: nat): SwapResult {
    if rec.id == "" || rec.terms.vault == "" || credential == [] || rec.state != Signed || !ValidRow(rec) then SwapError
    else
      var c := Counter(rec.terms.vault, credential);
      if Matches(d, Reserved, rec) then
        if Advance(d.counts, c, count).Some? then Swapped(rec) else SwapError
      else if rec.id in d.ops && (d.ops[rec.id].state == Signed ==> CountReplays(d.counts, c, count))
        then Found(d.ops[rec.id])
      else SwapError
  }

  function CommitSigned(d: Db, rec: Row, credential: Blob, count: nat): Db {
    if CommitResult(d, rec, credential, count).Swapped?
    then d.(ops := d.ops[rec.id := rec], counts := Advance(d.counts, Counter(rec.terms.vault, credential), count).value)
    else d
  }

  /** VerifySignedVtxoReplay. */
  predicate SignedReplay(d: Db, id: string, vault: string, credential: Blob, count: nat) {
    && id != "" && vault != "" && credential != []
    && id in d.ops && d.ops[id].terms.vault == vault && d.ops[id].state == Signed
    && CountReplays(d.counts, Counter(vault, credential), count)
  }
}
