/** When a reservation is made, refused or replaced, and why a row of the ledger changes state, told in
    literal times and states of the rows before the transaction. */
module VtxoReserving {
  import opened Prelude
  import opened Sums
  import opened VtxoTables
  import opened VtxoInvariant
  import opened VtxoProtocol
  import opened VtxoTheorems
  import O = Ordering
  import VB = VtxoBoundary

  // ---------- the rows before the transaction ----------

  /** A reservation whose expiry has come; one without expiry never does. */
  predicate Lapsed(r: Row, now: int) {
    r.state == Reserved && r.terms.expiresAt.Some? && r.terms.expiresAt.value * 1_000_000_000 <= now
  }

  /** Some other operation of the vault is under way. */
  ghost predicate Busy(ops: map<string, Row>, vault: string, id: string, now: int) {
    exists k :: k in ops && k != id && ops[k].terms.vault == vault && UnderWay(ops[k], now)
  }

  predicate UnderWay(r: Row, now: int) {
    r.state in {Signed, Submitted, Unresolved} || (r.state == Reserved && !Lapsed(r, now))
  }

  /** Some other operation holds one of the outpoints: a spend, or a reservation that is not lapsed or
      belongs to another vault. */
  ghost predicate Held(d: Db, vault: string, id: string, ins: seq<Input>, now: int) {
    exists k :: k in d.ops && k != id && k in d.inputs && Holds(d.ops[k], vault, now) && Shares(d.inputs[k], ins)
  }

  predicate Holds(r: Row, vault: string, now: int) {
    || r.state in {Signed, Submitted, Finalized}
    || (r.state == Reserved && (r.terms.vault != vault || !Lapsed(r, now)))
  }

  ghost predicate Shares(a: set<Input>, ins: seq<Input>) {
    exists i, n :: i in a && 0 <= n < |ins| && i.outpoint == ins[n].outpoint
  }

  /** What the rows weigh once the lapsed reservations of the vault are gone. */
  function Remaining(r: Row, vault: string, now: int): nat {
    if Lapsed(r, now) then 0 else Weight(r, vault, now)
  }

  ghost function Spent(ops: map<string, Row>, vault: string, now: int): nat {
    Total(map id | id in ops :: Remaining(ops[id], vault, now))
  }

  predicate Asks(rec: Row, ins: seq<Input>, cap: int) {
    rec.id != "" && rec.terms.vault != "" && rec.state == Reserved && cap >= 0 && 1 <= |ins| <= 50
  }

  /** Both amounts are proper and so is their sum. */
  predicate ProperAmounts(t: Terms) {
    t.amountSats >= 0 && t.feeSats >= 0 && t.amountSats + t.feeSats <= 0x7fff_ffff_ffff_ffff
  }

  /** The row can be sealed: 32-byte digests, change of at least dust as output 1 or none, and a pending
      proof with both of its parts or neither. */
  predicate Sealable(rec: Row) {
    && |rec.terms.bundleDigest| == 32 && |rec.terms.feePolicyDigest| == 32
    && (|| (rec.terms.changeSats == 0 && rec.terms.changeVout == None && rec.terms.changeScript == [])
        || (rec.terms.changeSats >= 330 && rec.terms.changeVout == Some(1) && rec.terms.changeScript != []))
    && (|| (rec.release.pendingDigest == [] && rec.release.authorizedProof == "")
        || (|rec.release.pendingDigest| == 32 && rec.release.authorizedProof != ""))
  }

  /** Different outpoints with 32-byte transaction ids and proper values. */
  predicate Distinct(ins: seq<Input>) {
    && (forall n :: 0 <= n < |ins| ==> |ins[n].outpoint.txid| == 32 && ins[n].valueSats >= 0)
    && (forall m, n :: 0 <= m < |ins| && 0 <= n < |ins| && m != n ==> ins[m].outpoint != ins[n].outpoint)
  }

  // ---------- the transaction sees exactly these rows ----------

  lemma AbortedRow(ops: map<string, Row>, vault: string, now: int, k: string)
    requires k in ops
    ensures var e := AbortExpired(ops, vault, now);
            && k in e && e[k] == if ops[k].terms.vault == vault && Lapsed(ops[k], now)
                                 then ops[k].(state := Aborted) else ops[k]
  {
  }

  lemma FencedIffBusy(ops: map<string, Row>, vault: string, id: string, now: int)
    ensures Fenced(AbortExpired(ops, vault, now), vault, id) <==> Busy(ops, vault, id, now)
  {
    var e := AbortExpired(ops, vault, now);
    assert e.Keys == ops.Keys;
    forall k | k in ops
      ensures e[k].terms.vault == vault && Blocks(e[k].state) <==> ops[k].terms.vault == vault && UnderWay(ops[k], now)
    {
      AbortedRow(ops, vault, now, k);
    }
  }

  lemma SharesIff(a: set<Input>, ins: seq<Input>)
    ensures SharesOutpoint(a, InputSet(ins)) <==> Shares(a, ins)
  {
    if SharesOutpoint(a, InputSet(ins)) {
      var i, j :| i in a && j in InputSet(ins) && i.outpoint == j.outpoint;
      var n :| 0 <= n < |ins| && ins[n] == j;
    }
    if Shares(a, ins) {
      var i, n :| i in a && 0 <= n < |ins| && i.outpoint == ins[n].outpoint;
      assert ins[n] in InputSet(ins);
    }
  }

  lemma OverlapsIffHeld(d: Db, vault: string, id: string, ins: seq<Input>, now: int)
    ensures Overlaps(AbortExpired(d.ops, vault, now), d.inputs, id, ins) <==> Held(d, vault, id, ins, now)
  {
    var e := AbortExpired(d.ops, vault, now);
    assert e.Keys == d.ops.Keys;
    forall k | k in d.ops ensures Locks(e[k].state) <==> Holds(d.ops[k], vault, now) {
      AbortedRow(d.ops, vault, now, k);
    }
    forall k | k in d.inputs ensures SharesOutpoint(d.inputs[k], InputSet(ins)) <==> Shares(d.inputs[k], ins) {
      SharesIff(d.inputs[k], ins);
    }
  }

  lemma WindowIsSpent(ops: map<string, Row>, vault: string, now: int)
    ensures var e := AbortExpired(ops, vault, now);
            SpentInWindow(e, vault, now) ==
            if Spent(ops, vault, now) <= 0x7fff_ffff_ffff_ffff then Some(Spent(ops, vault, now)) else None
  {
    var e := AbortExpired(ops, vault, now);
    ChargesAreWeights(e, vault, now);
    forall id | id in ops ensures Weight(e[id], vault, now) == Remaining(ops[id], vault, now) {
      AbortedRow(ops, vault, now, id);
    }
    assert Weights(e, vault, now) == map id | id in ops :: Remaining(ops[id], vault, now);
  }

  // ---------- the four answers ----------

  /** A reservation is admitted past the fences: nobody holds its coins and the vault is idle. */
  ghost predicate Admitted(d: Db, rec: Row, ins: seq<Input>, cap: int, now: int) {
    Asks(rec, ins, cap) && !Held(d, rec.terms.vault, rec.id, ins, now) && !Busy(d.ops, rec.terms.vault, rec.id, now)
  }

  /** What the window holds is itself a proper amount, and so is what is asked. */
  ghost predicate Countable(d: Db, rec: Row, now: int) {
    Spent(d.ops, rec.terms.vault, now) <= 0x7fff_ffff_ffff_ffff && ProperAmounts(rec.terms)
  }

  /** Exactly when a reservation is made, refused as too much, and refused because the vault is busy; every
      other request is an error. */
  lemma ReserveIff(d: Db, rec: Row, ins: seq<Input>, cap: int, now: int)
    ensures var res := ReserveOutcome(d, rec, ins, cap, now);
            var total := Spent(d.ops, rec.terms.vault, now) + Outflow(rec.terms);
            && (res == OperationActive <==>
                && Asks(rec, ins, cap) && !Held(d, rec.terms.vault, rec.id, ins, now)
                && Busy(d.ops, rec.terms.vault, rec.id, now))
            && (res == AllowanceExceeded <==>
                Admitted(d, rec, ins, cap, now) && Countable(d, rec, now) && total > cap)
            && (res == Done <==>
                && Admitted(d, rec, ins, cap, now) && Countable(d, rec, now) && total <= cap
                && Sealable(rec) && rec.id !in d.ops && Distinct(ins))
  {
    FencedIffBusy(d.ops, rec.terms.vault, rec.id, now);
    OverlapsIffHeld(d, rec.terms.vault, rec.id, ins, now);
    WindowIsSpent(d.ops, rec.terms.vault, now);
    assert AbortExpired(d.ops, rec.terms.vault, now).Keys == d.ops.Keys;
  }

  /** A reservation that is made adds its row and inputs, aborts exactly the lapsed reservations of its
      vault and leaves every other row alone; one that is not made changes nothing. */
  lemma ReserveChanges(d: Db, rec: Row, ins: seq<Input>, cap: int, now: int, k: string)
    requires k in d.ops
    ensures var u := Reserve(d, rec, ins, cap, now);
            var done := ReserveOutcome(d, rec, ins, cap, now) == Done;
            && k in u.ops && u.counts == d.counts
            && u.ops[k] == (if done && d.ops[k].terms.vault == rec.terms.vault && Lapsed(d.ops[k], now)
                            then d.ops[k].(state := Aborted) else d.ops[k])
            && (done ==> rec.id !in d.ops && rec.id in u.ops && u.ops[rec.id] == rec)
            && (done ==> rec.id in u.inputs && forall i :: i in u.inputs[rec.id] <==> i in ins)
            && (!done ==> u == d)
  {
    AbortedRow(d.ops, rec.terms.vault, now, k);
  }

  // ---------- why a row changes state ----------

  /** Step i of the run is the process's plan to write over this row. */
  ghost predicate PlannedAt(w: World, acts: seq<Action>, i: nat, p: nat, base: Row, next: Row, writer: Writer) {
    && i < |acts| && acts[i] == Plan(p, writer)
    && var u := Exec(w, acts[..i]);
       && p in u.procs && u.procs[p] == Loaded(base) && Planned(base, writer, u.now) == Some(next)
  }

  lemma Extended(w: World, acts: seq<Action>, act: Action)
    ensures Exec(w, acts + [act]) == Next(Exec(w, acts), act)
  {
    VB.ExecAppend(w, acts, [act]);
    assert [act][1..] == [];
  }

  lemma PlannedStays(w: World, acts: seq<Action>, act: Action, i: nat, p: nat, base: Row, next: Row, writer: Writer)
    requires PlannedAt(w, acts, i, p, base, next, writer)
    ensures PlannedAt(w, acts + [act], i, p, base, next, writer)
  {
    assert (acts + [act])[..i] == acts[..i];
  }

  /** Whatever a process is about to write, it planned at some step of the run. */
  lemma {:induction false} WritingWasPlanned(w: World, acts: seq<Action>, p: nat) returns (i: nat)
    requires w.procs == map[]
    requires var u := Exec(w, acts); p in u.procs && u.procs[p].Writing?
    ensures var pc := Exec(w, acts).procs[p]; PlannedAt(w, acts, i, p, pc.base, pc.next, pc.writer)
    decreases |acts|
  {
    var front, act := acts[..|acts| - 1], acts[|acts| - 1];
    assert acts == front + [act];
    Extended(w, front, act);
    var u, pc := Exec(w, front), Exec(w, acts).procs[p];
    if p in u.procs && u.procs[p] == pc {
      i := WritingWasPlanned(w, front, p);
      PlannedStays(w, front, act, i, p, pc.base, pc.next, pc.writer);
    } else {
      i := |front|;
      assert acts[..i] == front;
      FreshPlan(u, act, p);
    }
  }

  lemma FreshPlan(u: World, act: Action, p: nat)
    requires var v := Next(u, act); p in v.procs && v.procs[p].Writing? && (p !in u.procs || u.procs[p] != v.procs[p])
    ensures var pc := Next(u, act).procs[p];
            && act == Plan(p, pc.writer) && p in u.procs && u.procs[p] == Loaded(pc.base)
            && Planned(pc.base, pc.writer, u.now) == Some(pc.next)
  {
  }

  /** What each writer may do, at the time it plans. */
  ghost predicate Justified(from: Row, to: Row, writer: Writer, at: int) {
    match (from.state, to.state)
    case (Reserved, Aborted) =>
      && to == from.(state := Aborted)
      && ((writer.Expire? && Lapsed(from, at)) || (writer.AbortByPhone? && from.release == NO_RELEASE))
    case (Reserved, Signed) =>
      && writer.Sign? && to.release == writer.release && to.checkpoints.psbts == writer.psbts
      && (from.terms.expiresAt.Some? ==> at < from.terms.expiresAt.value * 1_000_000_000)
      && to.createdAt == from.createdAt
    case (Signed, Submitted) =>
      && (|| writer.Promote?
          || (writer.Checkpoint? && to.checkpoints == writer.checkpoints && to.checkpoints.request != ""))
      && to.createdAt == from.createdAt
    case (Submitted, Finalized) => writer.Settle? && to.createdAt == at / 1_000_000_000
    case (Submitted, Unresolved) => writer.Conflict? && to.createdAt == at / 1_000_000_000
    case _ => false
  }

  lemma PlanJustified(row: Row, writer: Writer, at: int)
    requires Planned(row, writer, at).Some?
    ensures Justified(row, Planned(row, writer, at).value, writer, at)
  {
    match writer
    case Expire =>
    case AbortByPhone =>
    case Sign(_, _, _, _) =>
    case Checkpoint(_) =>
    case Promote =>
    case Settle =>
    case Conflict =>
  }

  /** Exactly when a handler that holds this row may plan to write. */
  lemma PlansIff(row: Row, writer: Writer, at: int)
    ensures Planned(row, writer, at).Some? <==>
            match writer
            case Expire => Lapsed(row, at)
            case AbortByPhone => row.state == Reserved && row.release == NO_RELEASE && row.checkpoints == NO_CHECKPOINTS
            case Sign(_, _, _, _) =>
              row.state == Reserved && (row.terms.expiresAt == None || at < row.terms.expiresAt.value * 1_000_000_000)
            case Checkpoint(checkpoints) => row.state == Signed && checkpoints.request != ""
            case Promote => row.state == Signed
            case Settle => row.state == Submitted
            case Conflict => row.state == Submitted
  {
  }

  /** A writer justified by the step at which its process planned. */
  ghost predicate WrittenFor(w: World, acts: seq<Action>, p: nat, from: Row, to: Row) {
    exists i: nat, writer: Writer ::
      PlannedAt(w, acts, i, p, from, to, writer) && Justified(from, to, writer, Exec(w, acts[..i]).now)
  }

  lemma WriteChanges(w: World, act: Action, id: string)
    requires Safe(w) && act.Write? && Enabled(w, act)
    requires id in w.db.ops && id in NextDb(w, act).ops && w.db.ops[id] != NextDb(w, act).ops[id]
    ensures w.procs[act.p].base == w.db.ops[id] && w.procs[act.p].next == NextDb(w, act).ops[id]
  {
    var pc := w.procs[act.p];
    assert PcOk(w.db, w.h, w.now, pc);
    SwapLater(w.db, w.h, w.now, pc.base, pc.next, pc.writer);
    SwapIsWholeRow(w.db, w.h, w.now, pc.base, pc.next, pc.writer);
  }

  /** Over every run a row changes in two ways only. It is a lapsed reservation that another reservation of
      its vault aborts; or a handler writes it that planned so at some earlier step: an expiry it saw
      lapsed then, a phone's abort of an unsigned reservation, a signature planned before the expiry, a
      submission, a settlement or a conflict stamped with that time. */
  lemma ChangesExplained(allow: map<string, nat>, acts: seq<Action>, act: Action, id: string)
    requires id in Exec(Start(allow), acts).db.ops
    ensures var w := Exec(Start(allow), acts);
            var u := Next(w, act);
            && id in u.db.ops
            && (w.db.ops[id] == u.db.ops[id]
                || (act.Insert? && Lapsed(w.db.ops[id], w.now) && u.db.ops[id] == w.db.ops[id].(state := Aborted))
                || (act.Write? && WrittenFor(Start(allow), acts, act.p, w.db.ops[id], u.db.ops[id])))
  {
    var w := Exec(Start(allow), acts);
    EveryRunSafe(allow, acts);
    StepSafe(w, act);
    assert IdLater(w.db, Next(w, act).db, id);
    if Enabled(w, act) && Next(w, act).db.ops[id] != w.db.ops[id] {
      if act.Insert? {
        var pc := w.procs[act.p];
        ReserveChanges(w.db, pc.rec, pc.ins, Allowance(w.allow, pc.rec.terms.vault), w.now, id);
      } else if act.Write? {
        WriteExplained(allow, acts, act, id);
      }
    }
  }

  lemma WriteExplained(allow: map<string, nat>, acts: seq<Action>, act: Action, id: string)
    requires var w := Exec(Start(allow), acts);
             && Safe(w) && act.Write? && Enabled(w, act) && id in w.db.ops
             && id in NextDb(w, act).ops && w.db.ops[id] != NextDb(w, act).ops[id]
    ensures var w := Exec(Start(allow), acts);
            WrittenFor(Start(allow), acts, act.p, w.db.ops[id], NextDb(w, act).ops[id])
  {
    var w := Exec(Start(allow), acts);
    WriteChanges(w, act, id);
    var pc := w.procs[act.p];
    var i := WritingWasPlanned(Start(allow), acts, act.p);
    PlanJustified(pc.base, pc.writer, Exec(Start(allow), acts[..i]).now);
  }

  lemma {:induction false} TimeRises(w: World, acts: seq<Action>, i: nat)
    requires i <= |acts|
    ensures Exec(w, acts[..i]).now <= Exec(w, acts).now
    decreases |acts| - i
  {
    if i < |acts| {
      Extended(w, acts[..i], acts[i]);
      assert acts[..i] + [acts[i]] == acts[..i + 1];
      TimeRises(w, acts, i + 1);
    } else {
      assert acts[..i] == acts;
    }
  }

  /** In every run a reservation is aborted only when it has lapsed or by its phone. */
  lemma AbortedOnlyWhenDue(allow: map<string, nat>, acts: seq<Action>, act: Action, id: string)
    requires var w := Exec(Start(allow), acts); id in w.db.ops && w.db.ops[id].state == Reserved
    requires var u := Next(Exec(Start(allow), acts), act).db; id in u.ops && u.ops[id].state == Aborted
    ensures var w := Exec(Start(allow), acts);
            || Lapsed(w.db.ops[id], w.now)
            || (act.Write? && act.p in w.procs && w.procs[act.p].Writing? && w.procs[act.p].writer == AbortByPhone)
  {
    var w := Exec(Start(allow), acts);
    ChangesExplained(allow, acts, act, id);
    if act.Write? {
      EveryRunSafe(allow, acts);
      WriteChanges(w, act, id);
      var i := WritingWasPlanned(Start(allow), acts, act.p);
      PlanJustified(w.procs[act.p].base, w.procs[act.p].writer, Exec(Start(allow), acts[..i]).now);
      TimeRises(Start(allow), acts, i);
    }
  }

  /** An unexpired reservation survives every reservation step of every run unchanged. */
  lemma UnexpiredSurvives(allow: map<string, nat>, acts: seq<Action>, act: Action, id: string)
    requires var w := Exec(Start(allow), acts); act.Insert? && id in w.db.ops && !Lapsed(w.db.ops[id], w.now)
    ensures var w := Exec(Start(allow), acts); id in Next(w, act).db.ops && Next(w, act).db.ops[id] == w.db.ops[id]
  {
    ChangesExplained(allow, acts, act, id);
  }

  // ---------- what the handlers answer ----------

  /** A retried reserve is answered from its row exactly while the row is neither aborted, unresolved nor
      lapsed. */
  lemma ReserveRetryIff(w: World, p: nat, listed: seq<Input>)
    requires Safe(w) && Enabled(w, ReplyReserve(p, listed))
    ensures var row := w.procs[p].row;
            Next(w, ReplyReserve(p, listed)).views == w.views +
              if row.state in {Signed, Submitted, Finalized} || (row.state == Reserved && !Lapsed(row, w.now))
              then {ReserveView(row.id, row.terms, listed)} else {}
  {
    assert PcOk(w.db, w.h, w.now, w.procs[p]);
    assert RowOk(w.db, w.h, w.now, w.procs[p].row.id);
  }

  /** A handler that signs releases its own signature when it wins, and otherwise at most the winner's, for
      the same unsigned transaction and pending proof. */
  lemma SigningAnswers(w: World, p: nat)
    requires Safe(w) && Enabled(w, Write(p, Fine)) && w.procs[p].writer.Sign?
    ensures var wanted := w.procs[p].next;
            var u := Next(w, Write(p, Fine));
            && (u.db != w.db ==> u.released == w.released + {Released(wanted.id, wanted.release)})
            && (u.db == w.db ==> forall r :: r in u.released && r !in w.released ==>
                  && r.id == wanted.id && r.release.unsignedPsbt == wanted.release.unsignedPsbt
                  && r.release.pendingDigest == wanted.release.pendingDigest)
  {
    var pc := w.procs[p];
    assert PcOk(w.db, w.h, w.now, pc) && RowOk(w.db, w.h, w.now, pc.next.id);
    SwapLater(w.db, w.h, w.now, pc.base, pc.next, pc.writer);
  }

  /** A handler that stores checkpoints hands out what the row then holds, for its own request only. */
  lemma CheckpointAnswers(w: World, p: nat)
    requires Safe(w) && Enabled(w, Write(p, Fine)) && w.procs[p].writer.Checkpoint?
    ensures var wanted := w.procs[p].next;
            var u := Next(w, Write(p, Fine));
            && (u.db != w.db && wanted.state == Submitted ==>
                  Handed(wanted.id, wanted.checkpoints.psbts, wanted.release.arkTxid) in u.handed)
            && (forall x :: x in u.handed && x !in w.handed ==>
                  && x.id == wanted.id && x.id in u.db.ops && u.db.ops[x.id].state == Submitted
                  && u.db.ops[x.id].checkpoints.request == wanted.checkpoints.request)
  {
    var pc := w.procs[p];
    assert PcOk(w.db, w.h, w.now, pc) && RowOk(w.db, w.h, w.now, pc.next.id);
    SwapLater(w.db, w.h, w.now, pc.base, pc.next, pc.writer);
  }

  // ---------- a reservation lasts two minutes ----------

  predicate TwoMinutes(r: Row) { r.terms.expiresAt == Some(r.createdAt + 120) }

  ghost predicate DraftsLast(w: World) {
    forall p :: p in w.procs && w.procs[p].Drafted? ==> TwoMinutes(w.procs[p].rec)
  }

  lemma StepDrafts(w: World, act: Action)
    requires DraftsLast(w)
    ensures DraftsLast(Next(w, act))
  {
  }

  /** In every run a reservation, signed or not, expires 120 seconds after its stamp, until it settles. */
  lemma {:induction false} ReservationsLast(allow: map<string, nat>, acts: seq<Action>, id: string)
    requires var ops := Exec(Start(allow), acts).db.ops;
             id in ops && ops[id].state in {Reserved, Signed, Submitted, Aborted}
    ensures TwoMinutes(Exec(Start(allow), acts).db.ops[id])
    decreases |acts|
  {
    var front, act := acts[..|acts| - 1], acts[|acts| - 1];
    assert acts == front + [act];
    Extended(Start(allow), front, act);
    var w := Exec(Start(allow), front);
    if id in w.db.ops {
      ChangesExplained(allow, front, act, id);
      ReservationsLast(allow, front, id);
    } else {
      RunDrafts(Start(allow), front);
      NewRow(w, act, id);
    }
  }

  lemma {:induction false} RunDrafts(w: World, acts: seq<Action>)
    requires DraftsLast(w)
    ensures DraftsLast(Exec(w, acts))
    decreases |acts|
  {
    if acts != [] {
      StepDrafts(w, acts[0]);
      RunDrafts(Next(w, acts[0]), acts[1..]);
    }
  }

  lemma NewRow(w: World, act: Action, id: string)
    requires id !in w.db.ops && id in Next(w, act).db.ops
    ensures act.Insert? && act.p in w.procs && w.procs[act.p].Drafted? && Next(w, act).db.ops[id] == w.procs[act.p].rec
  {
  }
}
