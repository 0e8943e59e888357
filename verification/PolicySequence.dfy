/** The external policy sequence: a counter file that is advanced before COMMIT and refuses a
    database with fewer counted rows than it has seen. */
module PolicySequence {
  import opened Prelude
  import V = VtxoTables
  import B = BoardTables
  import BI = BoardInvariant
  import VB = VtxoBoundary
  import opened SequenceFile

  // ---------- what is counted ----------

  datatype Ledgers = Ledgers(vtxo: V.Db, board: B.Tables)

  const EMPTY := Ledgers(V.Db(map[], map[], map[]), B.EMPTY)

  /** Inserted rows: spending operations and board authorizations, dispatches and submissions. */
  function Count(l: Ledgers): nat {
    |l.vtxo.ops| + |l.board.auths| + |l.board.dispatches| + |l.board.subs|
  }

  datatype Tx =
    | Reserve(rec: V.Row, ins: seq<V.Input>, cap: int, now: int)
    | Begin(o: B.Operation, r: B.RegisterRequest, tip: int, at: int, delay: int)
    | Dispatch(k: B.RowKey, digest: Blob, tip: int, delay: int)
    | Authorize(k: B.RowKey, a: B.Auth, tip: int, delay: int)
    | Submit(k: B.RowKey, s: B.Submission)
    | Transition(expected: V.State, row: V.Row)
    | CommitSigned(row: V.Row, credential: Blob, count: nat)

  ghost function Apply(l: Ledgers, tx: Tx): Ledgers {
    match tx
    case Reserve(rec, ins, cap, now) => l.(vtxo := V.Reserve(l.vtxo, rec, ins, cap, now))
    case Begin(o, r, tip, at, delay) => l.(board := B.Begin(l.board, o, r, tip, at, delay))
    case Dispatch(k, digest, tip, delay) => l.(board := B.Dispatch(l.board, k, digest, tip, delay))
    case Authorize(k, a, tip, delay) => l.(board := B.AuthorizeAndDispatch(l.board, k, a, tip, delay))
    case Submit(k, s) => l.(board := B.Submit(l.board, k, s))
    case Transition(expected, row) => l.(vtxo := V.Transition(l.vtxo, expected, row))
    case CommitSigned(row, credential, count) => l.(vtxo := V.CommitSigned(l.vtxo, row, credential, count))
  }

  /** The transactions that insert counted rows observe the sequence before they commit. */
  predicate Observes(tx: Tx) { !tx.Transition? && !tx.CommitSigned? }

  lemma SizeGrows<K, W>(m: map<K, W>, k: K, v: W)
    ensures |m[k := v]| == if k in m then |m| else |m| + 1
  {
    if k in m {
      assert m[k := v].Keys == m.Keys;
      assert |m[k := v].Keys| == |m.Keys|;
    } else {
      assert m[k := v].Keys == m.Keys + {k};
      assert |m.Keys + {k}| == |m.Keys| + 1;
    }
  }

  /** State changes insert nothing. */
  lemma SilentKeepsCount(l: Ledgers, tx: Tx)
    requires !Observes(tx)
    ensures Count(Apply(l, tx)) == Count(l)
  {
    SizeGrows(l.vtxo.ops, tx.row.id, tx.row);
  }

  lemma AbortKeepsSize(ops: map<string, V.Row>, vault: string, now: int)
    ensures |V.AbortExpired(ops, vault, now)| == |ops|
  {
    assert V.AbortExpired(ops, vault, now).Keys == ops.Keys;
    assert |V.AbortExpired(ops, vault, now).Keys| == |ops.Keys|;
  }

  /** Every transaction that changes the tables through an outflow raises the count, so no
      reservation, attempt, dispatch or result can be made twice from one file value. */
  lemma NewRowsCount(l: Ledgers, tx: Tx, now: int)
    requires Observes(tx) && BI.Inv(l.board, now)
    ensures Apply(l, tx) == l || Count(Apply(l, tx)) > Count(l)
  {
    match tx
    case Reserve(rec, _, _, at) =>
      AbortKeepsSize(l.vtxo.ops, rec.terms.vault, at);
      SizeGrows(V.AbortExpired(l.vtxo.ops, rec.terms.vault, at), rec.id, rec);
    case Begin(o, r, tip, at, delay) =>
      var res := B.BeginResult(l.board, o, r, tip, at, delay);
      if res.Created? {
        BI.BeginFresh(l.board, o, r, tip, at, delay);
        SizeGrows(l.board.auths, B.Reg(o.key, res.attempt), B.RegisterAuth(r));
      }
    case Dispatch(k, digest, _, _) => SizeGrows(l.board.dispatches, k, digest);
    case Authorize(k, a, tip, delay) =>
      if B.PhaseResult(l.board, k, a, tip, delay).Existing? { BI.PhaseExisting(l.board, k, a, tip, delay, now); }
      SizeGrows(l.board.auths, k, a);
      SizeGrows(l.board.dispatches, k, a.digest);
    case Submit(k, s) => SizeGrows(l.board.subs, k, s);
  }

  // ---------- runs with crashes, power loss, rollbacks and restores ----------

  /** `db` is the committed database, `past` every database ever committed, `tx` an open
      transaction whose sequence check has succeeded. */
  datatype World = World(db: Ledgers, past: set<Ledgers>, disk: Disk, up: bool, tx: Option<Ledgers>)

  const FRESH := World(EMPTY, {EMPTY}, NEW_DISK, false, None)

  datatype Action =
    | StartUp(done: nat)                    // attach the sequence to the database
    | Open(tx: Tx, done: nat)               // run a transaction up to its sequence check
    | Commit
    | Rollback
    | Crash
    | WriteBack                             // the system syncs the directory on its own
    | LosePower
    | Restore(snapshot: Ledgers)            // put back an older committed database

  /** A transaction whose effect is `next`, up to and including its sequence check. */
  function Opened(w: World, next: Ledgers, observes: bool, done: nat): World {
    if !observes then w.(tx := Some(next))
    else
      w.(disk := Observed(w.disk, Count(next), done),
         tx := if ObserveOk(w.disk, Count(next), done) then Some(next) else None)
  }

  ghost function Next(w: World, act: Action): World {
    match act
    case StartUp(done) =>
      if w.up then w
      else w.(disk := Observed(w.disk, Count(w.db), done), up := ObserveOk(w.disk, Count(w.db), done))
    case Open(tx, done) =>
      if !w.up || w.tx.Some? then w else Opened(w, Apply(w.db, tx), Observes(tx), done)
    case Commit => if w.tx.Some? then w.(db := w.tx.value, past := w.past + {w.tx.value}, tx := None) else w
    case Rollback => w.(tx := None)
    case Crash => w.(up := false, tx := None)
    case WriteBack => w.(disk := Settled(w.disk))
    case LosePower => w.(disk := PowerLoss(w.disk), up := false, tx := None)
    case Restore(snapshot) => if !w.up && snapshot in w.past then w.(db := snapshot) else w
  }

  ghost function Exec(w: World, acts: seq<Action>): World
    decreases |acts|
  {
    if acts == [] then w else Exec(Next(w, acts[0]), acts[1..])
  }

  /** The file is whole, and while the service is up it is not behind the database. */
  ghost predicate Inv(w: World) {
    && w.db in w.past && Sound(w.disk)
    && (w.up ==> w.disk.path.Some? && Count(w.db) <= Level(w.disk.path))
    && (w.tx.Some? ==> w.up && Count(w.tx.value) <= Level(w.disk.path))
  }

  lemma OpenedKeeps(w: World, next: Ledgers, observes: bool, done: nat)
    requires Inv(w) && w.up && w.tx.None? && (!observes ==> Count(next) == Count(w.db))
    ensures Inv(Opened(w, next, observes, done)) && Opened(w, next, observes, done).past == w.past
    ensures Level(w.disk.path) <= Level(Opened(w, next, observes, done).disk.path)
  {
    WrittenIs(w.disk, Count(next), done);
  }

  lemma StepKeeps(w: World, act: Action)
    requires Inv(w)
    ensures Inv(Next(w, act)) && w.past <= Next(w, act).past
  {
    match act
    case StartUp(done) => WrittenIs(w.disk, Count(w.db), done);
    case Open(tx, done) =>
      if w.up && w.tx.None? {
        if !Observes(tx) { SilentKeepsCount(w.db, tx); }
        OpenedKeeps(w, Apply(w.db, tx), Observes(tx), done);
      }
    case _ =>
  }

  lemma {:induction false} ExecKeeps(w: World, acts: seq<Action>)
    requires Inv(w)
    ensures Inv(Exec(w, acts)) && w.past <= Exec(w, acts).past
    decreases |acts|
  {
    if acts != [] {
      StepKeeps(w, acts[0]);
      ExecKeeps(Next(w, acts[0]), acts[1..]);
    }
  }

  // ---------- the file covers what was committed ----------

  /** The visible value goes down in one way only: power is lost while the directory entry of the renamed
      file is not on stable storage. */
  lemma FileFallsIff(w: World, act: Action)
    requires Inv(w)
    ensures Level(Next(w, act).disk.path) < Level(w.disk.path) <==> act.LosePower? && Behind(w.disk)
  {
    match act
    case StartUp(done) => WrittenIs(w.disk, Count(w.db), done);
    case Open(tx, done) =>
      if w.up && w.tx.None? {
        if !Observes(tx) { SilentKeepsCount(w.db, tx); }
        OpenedKeeps(w, Apply(w.db, tx), Observes(tx), done);
      }
    case _ =>
  }

  /** Every database that was ever committed is within the level. */
  ghost predicate Covers(level: nat, past: set<Ledgers>) { forall l :: l in past ==> Count(l) <= level }

  ghost predicate DurableCovers(w: World) { Covers(Level(w.disk.durable), w.past) }
  ghost predicate VisibleCovers(w: World) { Covers(Level(w.disk.path), w.past) }

  /** A commit that relies on a file which power loss would take back: the sequence check found the
      transaction's count in the file, but the file's directory entry was never synced. */
  predicate Risky(w: World, act: Action) {
    act.Commit? && w.tx.Some? && Behind(w.disk) && Read(w.disk) == Value(Count(w.tx.value))
  }

  /** A committed count is either in the file exactly or not above what stable storage holds. */
  ghost predicate TxOk(w: World) {
    w.tx.Some? ==> Read(w.disk) == Value(Count(w.tx.value)) || Count(w.tx.value) <= Level(w.disk.durable)
  }

  lemma OpenedDurable(w: World, next: Ledgers, observes: bool, done: nat)
    requires Inv(w) && DurableCovers(w) && w.up && w.tx.None? && (!observes ==> Count(next) == Count(w.db))
    ensures TxOk(Opened(w, next, observes, done)) && DurableCovers(Opened(w, next, observes, done))
  {
    WrittenIs(w.disk, Count(next), done);
  }

  lemma StepDurable(w: World, act: Action)
    requires Inv(w) && DurableCovers(w) && TxOk(w)
    ensures TxOk(Next(w, act))
    ensures DurableCovers(Next(w, act)) <==> !Risky(w, act)
  {
    match act
    case StartUp(done) => WrittenIs(w.disk, Count(w.db), done);
    case Open(tx, done) =>
      if w.up && w.tx.None? {
        if !Observes(tx) { SilentKeepsCount(w.db, tx); }
        OpenedDurable(w, Apply(w.db, tx), Observes(tx), done);
      }
    case Commit =>
      if w.tx.Some? { assert w.tx.value in Next(w, act).past; }
    case _ =>
  }

  ghost predicate NoRiskyCommit(w: World, acts: seq<Action>)
    decreases |acts|
  {
    acts != [] ==> !Risky(w, acts[0]) && NoRiskyCommit(Next(w, acts[0]), acts[1..])
  }

  ghost predicate AlwaysCovered(w: World, acts: seq<Action>)
    decreases |acts|
  {
    DurableCovers(w) && (acts != [] ==> AlwaysCovered(Next(w, acts[0]), acts[1..]))
  }

  /** Stable storage covers every committed database at every moment of a run, with crashes and power loss
      anywhere, exactly when the run has no risky commit. */
  lemma {:induction false} DurableCoversIff(w: World, acts: seq<Action>)
    requires Inv(w) && DurableCovers(w) && TxOk(w)
    ensures AlwaysCovered(w, acts) <==> NoRiskyCommit(w, acts)
    ensures NoRiskyCommit(w, acts) ==> DurableCovers(Exec(w, acts)) && Inv(Exec(w, acts))
    decreases |acts|
  {
    if acts != [] {
      StepKeeps(w, acts[0]);
      StepDurable(w, acts[0]);
      if !Risky(w, acts[0]) { DurableCoversIff(Next(w, acts[0]), acts[1..]); }
    }
  }

  /** The visible file stops covering the past in one way only: power is lost while stable storage does
      not cover it. */
  lemma VisibleCoversIff(w: World, act: Action)
    requires Inv(w) && VisibleCovers(w)
    ensures VisibleCovers(Next(w, act)) <==> !(act.LosePower? && !DurableCovers(w))
  {
    FileFallsIff(w, act);
  }

  ghost predicate NoPowerLoss(acts: seq<Action>) { forall i :: 0 <= i < |acts| ==> !acts[i].LosePower? }

  lemma {:induction false} PoweredRun(w: World, acts: seq<Action>)
    requires Inv(w) && VisibleCovers(w) && NoPowerLoss(acts)
    ensures VisibleCovers(Exec(w, acts))
    decreases |acts|
  {
    if acts != [] {
      StepKeeps(w, acts[0]);
      VisibleCoversIff(w, acts[0]);
      PoweredRun(Next(w, acts[0]), acts[1..]);
    }
  }

  /** Over every run with crashes and restores the file covers every database ever committed, if power was
      never lost or no commit was risky. */
  lemma FileCoversEveryCommit(acts: seq<Action>, l: Ledgers)
    requires l in Exec(FRESH, acts).past && (NoPowerLoss(acts) || NoRiskyCommit(FRESH, acts))
    ensures Count(l) <= Level(Exec(FRESH, acts).disk.path)
  {
    if NoPowerLoss(acts) { PoweredRun(FRESH, acts); } else { DurableCoversIff(FRESH, acts); }
  }

  /** A start succeeds only on a database with at least as many counted rows as any that was
      ever committed, if power was never lost or no commit was risky. */
  lemma StartNeverRollsBack(acts: seq<Action>, done: nat, l: Ledgers)
    requires !Exec(FRESH, acts).up && Next(Exec(FRESH, acts), StartUp(done)).up
    requires l in Exec(FRESH, acts).past && (NoPowerLoss(acts) || NoRiskyCommit(FRESH, acts))
    ensures Count(l) <= Count(Exec(FRESH, acts).db)
  {
    ExecKeeps(FRESH, acts);
    FileCoversEveryCommit(acts, l);
  }

  /** When writes succeed, the start is refused exactly when the file is ahead of the database, or gone
      for a database that is not empty; a torn file never occurs. */
  lemma StartRefusedIff(acts: seq<Action>)
    requires !Exec(FRESH, acts).up
    ensures var w := Exec(FRESH, acts);
            && !Read(w.disk).Corrupt?
            && (Next(w, StartUp(STEPS)).up <==>
                if Read(w.disk).Missing? then Count(w.db) == 0 else Level(w.disk.path) <= Count(w.db))
  {
    ExecKeeps(FRESH, acts);
  }

  /** A transaction that crashed after its file write leaves a database the next start refuses. */
  lemma CrashBeforeCommitFailsClosed(acts: seq<Action>, tx: Tx)
    requires var w := Exec(FRESH, acts);
             w.up && w.tx.None? && Count(Apply(w.db, tx)) > Count(w.db)
    requires Observes(tx)
    ensures var w := Exec(FRESH, acts);
            var crashed := Next(Next(w, Open(tx, STEPS)), Crash);
            crashed.db == w.db && !Next(crashed, StartUp(STEPS)).up
  {
    ExecKeeps(FRESH, acts);
    CrashedRefused(Exec(FRESH, acts), tx);
  }

  lemma CrashedRefused(w: World, tx: Tx)
    requires Inv(w) && w.up && w.tx.None? && Count(Apply(w.db, tx)) > Count(w.db) && Observes(tx)
    ensures var crashed := Next(Next(w, Open(tx, STEPS)), Crash);
            crashed.db == w.db && !Next(crashed, StartUp(STEPS)).up
  {
    var next := Apply(w.db, tx);
    assert Next(w, Open(tx, STEPS)) == Opened(w, next, true, STEPS);
    FileAhead(w, next);
  }

  lemma FileAhead(w: World, next: Ledgers)
    requires Inv(w) && w.up && Count(next) > Count(w.db)
    ensures !ObserveOk(Opened(w, next, true, STEPS).disk, Count(w.db), STEPS)
  {
    WrittenIs(w.disk, Count(next), STEPS);
  }

  // ---------- which restores a start accepts ----------

  /** The file is not ahead of the database, and is missing only for an empty one. */
  predicate Acceptable(disk: Disk, l: Ledgers) {
    if Read(disk).Missing? then Count(l) == 0 else Level(disk.path) <= Count(l)
  }

  /** A committed database is put back while the service is down, and the service is started. */
  ghost predicate AcceptsRestore(w: World, snapshot: Ledgers) {
    snapshot in w.past && Next(Next(w, Restore(snapshot)), StartUp(STEPS)).up
  }

  /** After every run a restored snapshot is accepted exactly when the file is not ahead of it. In a run
      that the file covers, that leaves only snapshots with the very count in the file. */
  lemma RestoreAcceptedIff(acts: seq<Action>, snapshot: Ledgers)
    requires !Exec(FRESH, acts).up && snapshot in Exec(FRESH, acts).past
    ensures var w := Exec(FRESH, acts); AcceptsRestore(w, snapshot) <==> Acceptable(w.disk, snapshot)
    ensures var w := Exec(FRESH, acts);
            (NoPowerLoss(acts) || NoRiskyCommit(FRESH, acts)) && Acceptable(w.disk, snapshot) ==>
              Count(snapshot) == Level(w.disk.path)
  {
    ExecKeeps(FRESH, acts);
    if NoPowerLoss(acts) || NoRiskyCommit(FRESH, acts) { FileCoversEveryCommit(acts, snapshot); }
  }

  /** A restore and a start can drop counted rows. */
  ghost predicate CanRollBack(w: World) {
    exists s, l :: s in w.past && l in w.past && Count(s) < Count(l) && AcceptsRestore(w, s)
  }

  /** After every run, counted rows can be dropped exactly when the file is not ahead of some committed
      database that is smaller than another one; never when the file covers every commit. */
  lemma RollBackIff(acts: seq<Action>)
    requires !Exec(FRESH, acts).up
    ensures var w := Exec(FRESH, acts);
            CanRollBack(w) <==>
            exists s, l :: s in w.past && l in w.past && Count(s) < Count(l) && Acceptable(w.disk, s)
    ensures NoPowerLoss(acts) || NoRiskyCommit(FRESH, acts) ==> !CanRollBack(Exec(FRESH, acts))
  {
    var w := Exec(FRESH, acts);
    forall s | s in w.past ensures AcceptsRestore(w, s) <==> Acceptable(w.disk, s) { RestoreAcceptedIff(acts, s); }
    if (NoPowerLoss(acts) || NoRiskyCommit(FRESH, acts)) && CanRollBack(w) {
      var s, l :| s in w.past && l in w.past && Count(s) < Count(l) && AcceptsRestore(w, s);
      RestoreAcceptedIff(acts, s);
      FileCoversEveryCommit(acts, l);
      assert false;
    }
  }

  ghost predicate Leads(w: World, u: World) { exists acts :: Exec(w, acts) == u }

  lemma {:induction false} ExecAppend(w: World, a: seq<Action>, b: seq<Action>)
    ensures Exec(w, a + b) == Exec(Exec(w, a), b)
    decreases |a|
  {
    if a == [] {
      assert a + b == b;
    } else {
      assert (a + b)[1..] == a[1..] + b;
      ExecAppend(Next(w, a[0]), a[1..], b);
    }
  }

  lemma LeadsStep(w: World, u: World, act: Action)
    requires Leads(w, u)
    ensures Leads(w, Next(u, act))
  {
    var a :| Exec(w, a) == u;
    ExecAppend(w, a, [act]);
    assert [act][1..] == [];
  }

  lemma LeadsNowhere(w: World)
    ensures Leads(w, w)
  {
    assert Exec(w, []) == w;
  }

  /** One sample reservation. */
  function SampleTx(): Tx { Reserve(VB.SampleRow("a", 0), [VB.SampleInput(0)], VB.CAP, 0) }

  lemma SampleApplied()
    ensures var l := Apply(EMPTY, SampleTx());
            && Count(EMPTY) == 0 && Count(l) == 1 && l.board == B.EMPTY
            && l.vtxo.ops == map["a" := VB.SampleRow("a", 0)] && l.vtxo.counts == map[]
  {
    VB.SampleAccepted(EMPTY.vtxo, "a", 0, 0);
  }

  lemma Started() returns (w: World)
    ensures Leads(FRESH, w) && w == World(EMPTY, {EMPTY}, w.disk, true, None)
    ensures w.disk == Disk(Some(Node(Number(0), true)), None, Some(Node(Number(0), true)))
  {
    w := Next(FRESH, StartUp(STEPS));
    PartlyIs(NEW_DISK, 0, STEPS);
    assert Count(EMPTY) == 0;
    LeadsNowhere(FRESH);
    LeadsStep(FRESH, FRESH, StartUp(STEPS));
  }

  /** One transaction run and committed. */
  lemma Commits(w: World, tx: Tx, done: nat) returns (u: World)
    requires Leads(FRESH, w) && w.up && w.tx.None?
    requires !Observes(tx) || ObserveOk(w.disk, Count(Apply(w.db, tx)), done)
    ensures Leads(FRESH, u) && u.up && u.tx.None? && u.db == Apply(w.db, tx) && u.past == w.past + {u.db}
    ensures u.disk == if Observes(tx) then Observed(w.disk, Count(Apply(w.db, tx)), done) else w.disk
  {
    var v := Next(w, Open(tx, done));
    u := Next(v, Commit);
    LeadsStep(FRESH, w, Open(tx, done));
    LeadsStep(FRESH, v, Commit);
  }

  /** The service goes down, an older database is put back, and the service starts again. */
  lemma RestoredStart(w: World, down: Action, snapshot: Ledgers) returns (u: World)
    requires Leads(FRESH, w) && snapshot in w.past && (down.Crash? || down.LosePower?)
    requires var disk := if down.Crash? then w.disk else PowerLoss(w.disk); Read(disk) == Value(Count(snapshot))
    ensures Leads(FRESH, u) && u.up && u.db == snapshot && u.past == w.past
  {
    var v1 := Next(w, down);
    var v2 := Next(v1, Restore(snapshot));
    u := Next(v2, StartUp(0));
    LeadsStep(FRESH, w, down);
    LeadsStep(FRESH, v1, Restore(snapshot));
    LeadsStep(FRESH, v2, StartUp(0));
  }

  lemma SampleSigned(l: Ledgers)
    requires l == Apply(EMPTY, SampleTx())
    ensures var tx := CommitSigned(VB.SampleRow("a", 0).(state := V.Signed), [0], 1);
            Apply(l, tx).vtxo.ops == map["a" := VB.SampleRow("a", 0).(state := V.Signed)]
  {
    SampleApplied();
  }

  /** The sequence counts rows, not states: a run exists in which a restored database is accepted and
      turns a signed operation back into a reserved one. */
  lemma RestoreUndoesSigning()
    ensures exists acts, l :: var w := Exec(FRESH, acts);
              && w.up && l in w.past && "a" in l.vtxo.ops && l.vtxo.ops["a"].state == V.Signed
              && "a" in w.db.vtxo.ops && w.db.vtxo.ops["a"].state == V.Reserved && Count(l) == Count(w.db)
  {
    SampleApplied();
    var s := Started();
    PartlyIs(s.disk, 1, STEPS);
    var w := Commits(s, SampleTx(), STEPS);
    var tx := CommitSigned(VB.SampleRow("a", 0).(state := V.Signed), [0], 1);
    SampleSigned(w.db);
    SilentKeepsCount(w.db, tx);
    var v := Commits(w, tx, 0);
    var u := RestoredStart(v, Crash, w.db);
    var acts :| Exec(FRESH, acts) == u;
    assert v.db in Exec(FRESH, acts).past;
  }

  /** The risk is real: after a rename whose directory sync failed, a retry is committed on the strength of
      the unsynced file; power loss then takes the file back, and a start accepts a database from before
      the commit. */
  lemma RiskyCommitRollsBack()
    ensures exists acts, l :: var w := Exec(FRESH, acts); w.up && l in w.past && Count(l) > Count(w.db)
  {
    SampleApplied();
    var s := Started();
    PartlyIs(s.disk, 1, RENAMED);
    var failed := Next(s, Open(SampleTx(), RENAMED));
    LeadsStep(FRESH, s, Open(SampleTx(), RENAMED));
    assert failed.disk == Disk(Some(Node(Number(1), true)), None, s.disk.durable) && failed.tx.None?;
    var w := Commits(failed, SampleTx(), 0);
    var u := RestoredStart(w, LosePower, EMPTY);
    var acts :| Exec(FRESH, acts) == u;
    assert w.db in Exec(FRESH, acts).past;
  }
}
