/** The spending handlers as crashable concurrent processes over the ledger.

    A handler loads a row outside the lock, works for an arbitrary time (signing, asking the
    indexer), and then writes back a whole row guarded only by the state it saw. Stamps are
    read from the clock before the transaction that stores them.
 */
module VtxoProtocol {
  import opened Prelude
  import opened Sums
  import opened VtxoTables
  import opened VtxoInvariant
  import O = Ordering

  /** The writers of a spending row. */
  datatype Writer =
    | Expire
    | AbortByPhone
    | Sign(release: Release, psbts: string, credential: Blob, count: nat)
    | Checkpoint(checkpoints: Checkpoints)
    | Promote
    | Settle
    | Conflict

  datatype Pc =
    | Drafted(rec: Row, ins: seq<Input>)         // a stamped reservation, not yet inserted
    | Loaded(row: Row)                            // a row read or written earlier
    | Writing(base: Row, next: Row, writer: Writer) // about to swap base for next
    | Returned

  datatype Fault = Fine | RolledBack | ReplyLost

  datatype Action =
    | Tick(to: int)
    | Draft(p: nat, rec: Row, ins: seq<Input>)
    | Insert(p: nat, fault: Fault)
    | Load(p: nat, id: string)
    | Plan(p: nat, writer: Writer)
    | Write(p: nat, fault: Fault)
    | ReplyReserve(p: nat, listed: seq<Input>)
    | ReplyAuthorize(p: nat, credential: Blob, count: nat)
    | ReplyCheckpoints(p: nat, request: string)
    | Authenticate(vault: string, credential: Blob, count: nat)
    | Crash(p: nat)

  /** What a reserve response tells the wallet, and what the two authorize responses hand out. */
  datatype ReserveView = ReserveView(id: string, terms: Terms, inputs: seq<Input>)
  datatype Released = Released(id: string, release: Release)
  datatype Handed = Handed(id: string, psbts: string, arkTxid: string)

  datatype World = World(
    db: Db, h: History, now: int, allow: map<string, nat>, procs: map<nat, Pc>,
    views: set<ReserveView>, released: set<Released>, handed: set<Handed>)

  function Start(allow: map<string, nat>): World {
    World(Db(map[], map[], map[]), History(map[], map[], 0), 0, allow, map[], {}, {}, {})
  }

  // ---------- what a writer computes from its snapshot ----------

  function Planned(row: Row, writer: Writer, now: int): Option<Row> {
    match writer
    case Expire =>
      if row.state == Reserved && row.terms.expiresAt.Some? && row.terms.expiresAt.value * SECOND <= now
      then Some(row.(state := Aborted)) else None
    case AbortByPhone =>
      if row.state == Reserved && row.release == NO_RELEASE && row.checkpoints == NO_CHECKPOINTS
      then Some(row.(state := Aborted)) else None
    case Sign(release, psbts, _, _) =>
      if row.state == Reserved && (row.terms.expiresAt.Some? ==> now < row.terms.expiresAt.value * SECOND)
      then Some(row.(state := Signed, release := release, checkpoints := row.checkpoints.(psbts := psbts))) else None
    case Checkpoint(checkpoints) =>
      if row.state == Signed && checkpoints.request != ""
      then Some(row.(state := Submitted, checkpoints := checkpoints)) else None
    case Promote => if row.state == Signed then Some(row.(state := Submitted)) else None
    case Settle => if row.state == Submitted then Some(row.(state := Finalized, createdAt := Stamp(now))) else None
    case Conflict => if row.state == Submitted then Some(row.(state := Unresolved, createdAt := Stamp(now))) else None
  }

  /** A reservation as ReserveVtxo builds it: fresh stamps and no signing material. */
  predicate FreshDraft(rec: Row, now: int) {
    && rec.state == Reserved && rec.release == NO_RELEASE && rec.checkpoints == NO_CHECKPOINTS
    && rec.createdAt == Stamp(now) && rec.terms.expiresAt == Some(Stamp(now + RESERVE_TIMEOUT * SECOND))
  }

  /** Inputs are stored and listed by transaction id, then index. */
  predicate Before(a: Input, b: Input) {
    || O.BytesLess(a.outpoint.txid, b.outpoint.txid)
    || (a.outpoint.txid == b.outpoint.txid && a.outpoint.vout < b.outpoint.vout)
  }

  /** The ordered query over an operation's stored inputs. */
  predicate Lists(d: Db, id: string, listed: seq<Input>) {
    id in d.inputs ==> O.Sorted(Before, listed) && InputSet(listed) == d.inputs[id]
  }

  // ---------- one step ----------

  predicate Enabled(w: World, act: Action) {
    match act
    case Tick(to) => w.now <= to
    case Draft(p, rec, ins) => p !in w.procs && FreshDraft(rec, w.now) && O.Sorted(Before, ins)
    case Insert(p, _) => p in w.procs && w.procs[p].Drafted?
    case Load(p, id) => p !in w.procs && id in w.db.ops
    case Plan(p, writer) => p in w.procs && w.procs[p].Loaded? && Planned(w.procs[p].row, writer, w.now).Some?
    case Write(p, _) => p in w.procs && w.procs[p].Writing?
    case ReplyReserve(p, listed) => p in w.procs && w.procs[p].Loaded? && Lists(w.db, w.procs[p].row.id, listed)
    case ReplyAuthorize(p, _, _) => p in w.procs && w.procs[p].Loaded?
    case ReplyCheckpoints(p, _) => p in w.procs && w.procs[p].Loaded?
    case Authenticate(_, _, _) => true
    case Crash(_) => true
  }

  ghost function Outcome(w: World, p: nat): ReserveResult
    requires p in w.procs && w.procs[p].Drafted?
  {
    var pc := w.procs[p];
    ReserveOutcome(w.db, pc.rec, pc.ins, Allowance(w.allow, pc.rec.terms.vault), w.now)
  }

  function Swap(d: Db, base: Row, next: Row, writer: Writer): SwapResult {
    if writer.Sign? then CommitResult(d, next, writer.credential, writer.count)
      else TransitionResult(d, base.state, next)
  }

  function SwapDb(d: Db, base: Row, next: Row, writer: Writer): Db {
    if writer.Sign? then CommitSigned(d, next, writer.credential, writer.count) else Transition(d, base.state, next)
  }

  ghost function NextDb(w: World, act: Action): Db
    requires Enabled(w, act)
  {
    match act
    case Insert(p, fault) =>
      var pc := w.procs[p];
      if fault == RolledBack then w.db else Reserve(w.db, pc.rec, pc.ins, Allowance(w.allow, pc.rec.terms.vault), w.now)
    case Write(p, fault) =>
      var pc := w.procs[p];
      if fault == RolledBack then w.db else SwapDb(w.db, pc.base, pc.next, pc.writer)
    case Authenticate(vault, credential, count) =>
      var advanced := Advance(w.db.counts, Counter(vault, credential), count);
      if advanced.Some? then w.db.(counts := advanced.value) else w.db
    case _ => w.db
  }

  ghost function NextHistory(w: World, act: Action): History
    requires Enabled(w, act)
  {
    match act
    case Insert(p, fault) =>
      if fault != RolledBack && Outcome(w, p) == Done then Record(w.h, w.procs[p].rec.id, w.now) else w.h
    case _ => w.h
  }

  ghost function NextPc(w: World, act: Action): Pc
    requires Enabled(w, act) && !act.Tick? && !act.Crash? && !act.Authenticate?
  {
    match act
    case Draft(_, rec, ins) => Drafted(rec, ins)
    case Insert(p, fault) => if fault == Fine && Outcome(w, p) == Done then Loaded(w.procs[p].rec) else Returned
    case Load(_, id) => Loaded(w.db.ops[id])
    case Plan(p, writer) => Writing(w.procs[p].row, Planned(w.procs[p].row, writer, w.now).value, writer)
    case Write(p, fault) =>
      var swap := Swap(w.db, w.procs[p].base, w.procs[p].next, w.procs[p].writer);
      if fault != Fine || swap.SwapError? then Returned else Loaded(swap.row)
    case ReplyReserve(_, _) => Returned
    case ReplyAuthorize(_, _, _) => Returned
    case ReplyCheckpoints(_, _) => Returned
  }

  /** A fresh reservation answers at once; a retry answers from the stored row unless it is
      aborted, unresolved or expired. */
  ghost function NextViews(w: World, act: Action): set<ReserveView>
    requires Enabled(w, act)
  {
    match act
    case Insert(p, fault) =>
      var pc := w.procs[p];
      if fault == Fine && Outcome(w, p) == Done
      then w.views + {ReserveView(pc.rec.id, pc.rec.terms, pc.ins)} else w.views
    case ReplyReserve(p, listed) =>
      var row := w.procs[p].row;
      if row.state != Aborted && row.state != Unresolved && Planned(row, Expire, w.now).None? && row.id in w.db.inputs
      then w.views + {ReserveView(row.id, row.terms, listed)} else w.views
    case _ => w.views
  }

  /** A retry that lost the race answers with the winner's row, if it signed the same stage. */
  predicate SameStage(found: Row, wanted: Row) {
    && found.state == Signed && found.release.unsignedPsbt == wanted.release.unsignedPsbt
    && found.checkpoints.psbts == wanted.checkpoints.psbts
    && found.release.pendingDigest == wanted.release.pendingDigest && found.release.authorizedProof != ""
  }

  ghost function NextReleased(w: World, act: Action): set<Released>
    requires Enabled(w, act)
  {
    match act
    case Write(p, fault) =>
      var pc := w.procs[p];
      var swap := Swap(w.db, pc.base, pc.next, pc.writer);
      if fault == Fine && pc.writer.Sign? && (swap.Swapped? || (swap.Found? && SameStage(swap.row, pc.next)))
      then w.released + {Released(swap.row.id, swap.row.release)} else w.released
    case ReplyAuthorize(p, credential, count) =>
      var row := w.procs[p].row;
      if row.state == Signed && SignedReplay(w.db, row.id, row.terms.vault, credential, count)
      then w.released + {Released(row.id, row.release)} else w.released
    case _ => w.released
  }

  /** Authorized checkpoints are handed out when they are stored, and again for the same request. */
  ghost function NextHanded(w: World, act: Action): set<Handed>
    requires Enabled(w, act)
  {
    match act
    case Write(p, fault) =>
      var pc := w.procs[p];
      var swap := Swap(w.db, pc.base, pc.next, pc.writer);
      if fault == Fine && pc.writer.Checkpoint? && !swap.SwapError?
         && swap.row.state == Submitted && swap.row.checkpoints.request == pc.next.checkpoints.request
      then w.handed + {Handed(swap.row.id, swap.row.checkpoints.psbts, swap.row.release.arkTxid)} else w.handed
    case ReplyCheckpoints(p, request) =>
      var row := w.procs[p].row;
      if row.state == Submitted && request != "" && row.checkpoints.request == request
      then w.handed + {Handed(row.id, row.checkpoints.psbts, row.release.arkTxid)} else w.handed
    case _ => w.handed
  }

  ghost function Next(w: World, act: Action): World {
    if !Enabled(w, act) then w
    else
      match act
      case Tick(to) => w.(now := to)
      case Crash(p) => w.(procs := w.procs - {p})
      case Authenticate(_, _, _) => w.(db := NextDb(w, act))
      case _ =>
        World(NextDb(w, act), NextHistory(w, act), w.now, w.allow, w.procs[act.p := NextPc(w, act)],
              NextViews(w, act), NextReleased(w, act), NextHanded(w, act))
  }

  ghost function Exec(w: World, acts: seq<Action>): World
    decreases |acts|
  {
    if acts == [] then w else Exec(Next(w, acts[0]), acts[1..])
  }

  // ---------- how a row moves through a run ----------

  predicate Authorized(s: State) { s == Signed || s == Submitted || s == Finalized || s == Unresolved }

  predicate Dispatched(s: State) { s == Submitted || s == Finalized || s == Unresolved }

  predicate Reaches(s: State, t: State) {
    || s == t
    || s == Reserved
    || (s == Signed && (t == Submitted || t == Finalized || t == Unresolved))
    || (s == Submitted && (t == Finalized || t == Unresolved))
  }

  /** b is the same operation at the same or a later point of its life. */
  predicate Later(a: Row, b: Row) {
    && a.id == b.id && a.terms == b.terms && Reaches(a.state, b.state)
    && (a.state == b.state ==> a == b)
    && (Authorized(a.state) ==> a.release == b.release)
    && (Dispatched(a.state) ==> a.checkpoints == b.checkpoints)
  }

  ghost predicate IdLater(d: Db, u: Db, id: string) {
    id in d.ops ==>
      && id in u.ops && Later(d.ops[id], u.ops[id])
      && (id in d.inputs ==> id in u.inputs && u.inputs[id] == d.inputs[id])
  }

  /** Operations are never forgotten, and each moves only forward. */
  ghost predicate DbLater(d: Db, u: Db) {
    && (forall id :: IdLater(d, u, id))
    && (forall c :: c in d.counts ==> c in u.counts && d.counts[c] <= u.counts[c])
  }

  lemma LaterTransitive(d: Db, e: Db, u: Db)
    requires DbLater(d, e) && DbLater(e, u)
    ensures DbLater(d, u)
  {
    forall id ensures IdLater(d, u, id) { assert IdLater(d, e, id) && IdLater(e, u, id); }
  }

  // ---------- the protocol invariant ----------

  ghost predicate SnapshotOk(d: Db, row: Row) {
    row.id in d.ops && Later(row, d.ops[row.id])
  }

  /** What a planned write may change about its snapshot. */
  ghost predicate PlanOk(base: Row, next: Row, writer: Writer, h: History, now: int) {
    && next.id == base.id && next.terms == base.terms && ValidTransition(base.state, next.state)
    && (next.createdAt == base.createdAt ||
       (base.id in h.born && Stamp(h.born[base.id]) <= next.createdAt <= Stamp(now)))
    && (next.state == Finalized ==> base.id in h.born && Stamp(h.born[base.id]) <= next.createdAt <= Stamp(now))
    && (Authorized(base.state) ==> next.release == base.release)
    && (Dispatched(base.state) ==> next.checkpoints == base.checkpoints)
    && (writer.Sign? <==> next.state == Signed) && (writer.Sign? ==> base.state == Reserved)
  }

  ghost predicate PcOk(d: Db, h: History, now: int, pc: Pc) {
    match pc
    case Drafted(rec, ins) => rec.createdAt <= Stamp(now) && rec.state == Reserved && O.Sorted(Before, ins)
    case Loaded(row) => SnapshotOk(d, row)
    case Writing(base, next, writer) => SnapshotOk(d, base) && PlanOk(base, next, writer, h, now)
    case Returned => true
  }

  ghost predicate ViewOk(d: Db, v: ReserveView) {
    && v.id in d.ops && v.terms == d.ops[v.id].terms
    && v.id in d.inputs && O.Sorted(Before, v.inputs) && InputSet(v.inputs) == d.inputs[v.id]
  }

  ghost predicate ReleaseOk(d: Db, r: Released) {
    r.id in d.ops && Authorized(d.ops[r.id].state) && r.release == d.ops[r.id].release
  }

  ghost predicate HandedOk(d: Db, x: Handed) {
    && x.id in d.ops && Dispatched(d.ops[x.id].state)
    && x.psbts == d.ops[x.id].checkpoints.psbts && x.arkTxid == d.ops[x.id].release.arkTxid
  }

  ghost predicate Protocol(w: World) {
    && (forall p :: p in w.procs ==> PcOk(w.db, w.h, w.now, w.procs[p]))
    && (forall v :: v in w.views ==> ViewOk(w.db, v))
    && (forall r :: r in w.released ==> ReleaseOk(w.db, r))
    && (forall x :: x in w.handed ==> HandedOk(w.db, x))
  }

  ghost predicate Safe(w: World) {
    DbInv(w.db, w.h, w.allow, w.now) && Protocol(w)
  }

  // ---------- compare-and-swap on the state alone is whole-row compare-and-swap ----------

  /** When a swap succeeds, the live row is exactly the snapshot the writer started from. */
  lemma SwapIsWholeRow(d: Db, h: History, now: int, base: Row, next: Row, writer: Writer)
    requires SnapshotOk(d, base) && PlanOk(base, next, writer, h, now) && Swap(d, base, next, writer).Swapped?
    ensures d.ops[base.id] == base
    ensures SwapDb(d, base, next, writer).ops == d.ops[base.id := next]
    ensures SwapDb(d, base, next, writer).inputs == d.inputs
    ensures Rewrites(base, next, h, now) && Later(base, next)
  {
  }

  lemma AdvanceGrows(counts: map<Counter, nat>, c: Counter, incoming: nat)
    requires Advance(counts, c, incoming).Some?
    ensures forall k :: k in counts ==>
            k in Advance(counts, c, incoming).value && counts[k] <= Advance(counts, c, incoming).value[k]
  {
  }

  lemma SwapLater(d: Db, h: History, now: int, base: Row, next: Row, writer: Writer)
    requires SnapshotOk(d, base) && PlanOk(base, next, writer, h, now)
    ensures DbLater(d, SwapDb(d, base, next, writer))
    ensures Swap(d, base, next, writer).Swapped? || SwapDb(d, base, next, writer) == d
  {
    var u := SwapDb(d, base, next, writer);
    if Swap(d, base, next, writer).Swapped? {
      SwapIsWholeRow(d, h, now, base, next, writer);
      if writer.Sign? { AdvanceGrows(d.counts, Counter(next.terms.vault, writer.credential), writer.count); }
      forall id ensures IdLater(d, u, id) { }
    }
  }

  lemma ReserveLater(d: Db, rec: Row, ins: seq<Input>, cap: int, now: int)
    ensures DbLater(d, Reserve(d, rec, ins, cap, now))
  {
    var u := Reserve(d, rec, ins, cap, now);
    forall id ensures IdLater(d, u, id) { }
  }

  // ---------- every step is safe ----------

  lemma StepLater(w: World, act: Action)
    requires Safe(w) && Enabled(w, act)
    ensures DbLater(w.db, NextDb(w, act))
  {
    match act
    case Insert(p, fault) =>
      ReserveLater(w.db, w.procs[p].rec, w.procs[p].ins, Allowance(w.allow, w.procs[p].rec.terms.vault), w.now);
    case Write(p, fault) =>
      assert PcOk(w.db, w.h, w.now, w.procs[p]);
      SwapLater(w.db, w.h, w.now, w.procs[p].base, w.procs[p].next, w.procs[p].writer);
    case Authenticate(vault, credential, count) =>
      if Advance(w.db.counts, Counter(vault, credential), count).Some? {
        AdvanceGrows(w.db.counts, Counter(vault, credential), count);
      }
    case _ =>
  }

  lemma StepDbInv(w: World, act: Action)
    requires Safe(w) && Enabled(w, act) && !act.Tick?
    ensures DbInv(NextDb(w, act), NextHistory(w, act), w.allow, w.now)
  {
    match act
    case Insert(p, fault) =>
      assert PcOk(w.db, w.h, w.now, w.procs[p]);
      if fault != RolledBack && Outcome(w, p) == Done {
        ReserveKeeps(w.db, w.h, w.allow, w.now, w.procs[p].rec, w.procs[p].ins);
      }
    case Write(p, fault) =>
      var pc := w.procs[p];
      assert PcOk(w.db, w.h, w.now, pc);
      if fault != RolledBack && Swap(w.db, pc.base, pc.next, pc.writer).Swapped? {
        SwapIsWholeRow(w.db, w.h, w.now, pc.base, pc.next, pc.writer);
        RewriteKeeps(w.db, NextDb(w, act), w.h, w.allow, w.now, pc.base.id, pc.next);
      }
    case Authenticate(_, _, _) => SameOps(w.db, NextDb(w, act), w.h, w.allow, w.now);
    case _ =>
  }

  lemma SameOps(d: Db, u: Db, h: History, allow: map<string, nat>, now: int)
    requires DbInv(d, h, allow, now) && u.ops == d.ops && u.inputs == d.inputs
    ensures DbInv(u, h, allow, now)
  {
    forall id ensures RowOk(u, h, now, id) { assert RowOk(d, h, now, id); }
    forall j, k ensures Ordered(u, h, j, k) { assert Ordered(d, h, j, k); }
    forall j, k ensures Apart(u, j, k) { assert Apart(d, j, k); }
    forall v ensures WithinBudget(u, allow, v, now) { assert WithinBudget(d, allow, v, now); }
    forall k ensures PriorWithinBudget(u, h, allow, k) { assert PriorWithinBudget(d, h, allow, k); }
  }

  /** Reservation times are recorded once. */
  ghost predicate SameBirths(h: History, g: History, ops: map<string, Row>) {
    forall id :: id in ops && id in h.born ==> id in g.born && g.born[id] == h.born[id]
  }

  lemma OldPcKept(d: Db, u: Db, h: History, g: History, now: int, later: int, pc: Pc)
    requires PcOk(d, h, now, pc) && DbLater(d, u) && SameBirths(h, g, d.ops) && now <= later
    ensures PcOk(u, g, later, pc)
  {
    match pc
    case Loaded(row) => assert IdLater(d, u, row.id);
    case Writing(base, _, _) => assert IdLater(d, u, base.id);
    case _ =>
  }

  lemma OldLogsKept(w: World, u: Db)
    requires Protocol(w) && DbLater(w.db, u)
    ensures forall v :: v in w.views ==> ViewOk(u, v)
    ensures forall r :: r in w.released ==> ReleaseOk(u, r)
    ensures forall x :: x in w.handed ==> HandedOk(u, x)
  {
    forall v | v in w.views ensures ViewOk(u, v) { assert ViewOk(w.db, v) && IdLater(w.db, u, v.id); }
    forall r | r in w.released ensures ReleaseOk(u, r) { assert ReleaseOk(w.db, r) && IdLater(w.db, u, r.id); }
    forall x | x in w.handed ensures HandedOk(u, x) { assert HandedOk(w.db, x) && IdLater(w.db, u, x.id); }
  }

  lemma PlannedOk(d: Db, h: History, now: int, row: Row, writer: Writer)
    requires SnapshotOk(d, row) && RowOk(d, h, now, row.id) && Planned(row, writer, now).Some?
    ensures PlanOk(row, Planned(row, writer, now).value, writer, h, now)
  {
    match writer
    case Expire =>
    case AbortByPhone =>
    case Sign(_, _, _, _) =>
    case Checkpoint(_) =>
    case Promote =>
    case Settle =>
    case Conflict =>
  }

  lemma SwapRowOk(d: Db, h: History, now: int, base: Row, next: Row, writer: Writer)
    requires SnapshotOk(d, base) && PlanOk(base, next, writer, h, now) && RowOk(d, h, now, next.id)
    requires !Swap(d, base, next, writer).SwapError?
    ensures SnapshotOk(SwapDb(d, base, next, writer), Swap(d, base, next, writer).row)
  {
    if Swap(d, base, next, writer).Swapped? { SwapIsWholeRow(d, h, now, base, next, writer); }
  }

  /** The acting process is left with a fresh snapshot, a plan over one, or nothing. */
  lemma NewPcOk(w: World, act: Action)
    requires Safe(w) && Enabled(w, act) && !act.Tick? && !act.Crash? && !act.Authenticate?
    ensures PcOk(NextDb(w, act), NextHistory(w, act), w.now, NextPc(w, act))
  {
    match act
    case Plan(p, writer) =>
      assert PcOk(w.db, w.h, w.now, w.procs[p]);
      assert RowOk(w.db, w.h, w.now, w.procs[p].row.id);
      PlannedOk(w.db, w.h, w.now, w.procs[p].row, writer);
    case Write(p, fault) =>
      var pc := w.procs[p];
      assert PcOk(w.db, w.h, w.now, pc);
      assert RowOk(w.db, w.h, w.now, pc.next.id);
      if fault == Fine && !Swap(w.db, pc.base, pc.next, pc.writer).SwapError? {
        SwapRowOk(w.db, w.h, w.now, pc.base, pc.next, pc.writer);
      }
    case Load(_, id) => assert RowOk(w.db, w.h, w.now, id);
    case _ =>
  }

  lemma NewViewsOk(w: World, act: Action)
    requires Safe(w) && Enabled(w, act) && !act.Tick? && !act.Crash? && !act.Authenticate?
    ensures forall v :: v in NextViews(w, act) ==> ViewOk(NextDb(w, act), v)
  {
    StepLater(w, act);
    OldLogsKept(w, NextDb(w, act));
    if act.ReplyReserve? || act.Insert? { assert PcOk(w.db, w.h, w.now, w.procs[act.p]); }
  }

  lemma NewReleasedOk(w: World, act: Action)
    requires Safe(w) && Enabled(w, act) && !act.Tick? && !act.Crash? && !act.Authenticate?
    ensures forall r :: r in NextReleased(w, act) ==> ReleaseOk(NextDb(w, act), r)
  {
    StepLater(w, act);
    OldLogsKept(w, NextDb(w, act));
    if act.ReplyAuthorize? { assert PcOk(w.db, w.h, w.now, w.procs[act.p]); }
    if act.Write? {
      var pc := w.procs[act.p];
      assert PcOk(w.db, w.h, w.now, pc);
      assert RowOk(w.db, w.h, w.now, pc.next.id);
    }
  }

  lemma NewHandedOk(w: World, act: Action)
    requires Safe(w) && Enabled(w, act) && !act.Tick? && !act.Crash? && !act.Authenticate?
    ensures forall x :: x in NextHanded(w, act) ==> HandedOk(NextDb(w, act), x)
  {
    StepLater(w, act);
    OldLogsKept(w, NextDb(w, act));
    if act.ReplyCheckpoints? { assert PcOk(w.db, w.h, w.now, w.procs[act.p]); }
    if act.Write? {
      var pc := w.procs[act.p];
      assert PcOk(w.db, w.h, w.now, pc);
      assert RowOk(w.db, w.h, w.now, pc.next.id);
    }
  }

  lemma BirthsKept(w: World, act: Action)
    requires Safe(w) && Enabled(w, act)
    ensures SameBirths(w.h, NextHistory(w, act), w.db.ops)
  {
  }

  lemma OldPcsKept(w: World, act: Action)
    requires Safe(w) && Enabled(w, act)
    ensures var w' := Next(w, act); forall p :: p in w.procs ==> PcOk(w'.db, w'.h, w'.now, w.procs[p])
  {
    var w' := Next(w, act);
    StepLater(w, act);
    BirthsKept(w, act);
    forall p | p in w.procs ensures PcOk(w'.db, w'.h, w'.now, w.procs[p]) {
      OldPcKept(w.db, w'.db, w.h, w'.h, w.now, w'.now, w.procs[p]);
    }
  }

  lemma StepProtocol(w: World, act: Action)
    requires Safe(w) && Enabled(w, act)
    ensures Protocol(Next(w, act))
  {
    OldPcsKept(w, act);
    if act.Tick? || act.Crash? || act.Authenticate? {
      StepLater(w, act);
      OldLogsKept(w, NextDb(w, act));
    } else {
      NewPcOk(w, act);
      NewViewsOk(w, act);
      NewReleasedOk(w, act);
      NewHandedOk(w, act);
    }
  }

  lemma StepSafe(w: World, act: Action)
    requires Safe(w)
    ensures Safe(Next(w, act)) && DbLater(w.db, Next(w, act).db) && Next(w, act).allow == w.allow
  {
    if Enabled(w, act) {
      StepLater(w, act);
      StepProtocol(w, act);
      match act
      case Tick(to) => TickKeeps(w.db, w.h, w.allow, w.now, to);
      case Crash(_) =>
      case _ => StepDbInv(w, act);
    }
  }
}
