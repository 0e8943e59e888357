/** Where the settlement bound stops: the window compares a nanosecond clock with whole-second
    stamps, so a closed interval of 24 hours can hold two full allowances. */
module VtxoBoundary {
  import opened Prelude
  import opened Sums
  import opened VtxoTables
  import opened VtxoInvariant
  import opened VtxoProtocol
  import opened VtxoTheorems
  import O = Ordering

  /** Some run leads from w to u. */
  ghost predicate Leads(w: World, u: World) { exists acts :: Exec(w, acts) == u }

  lemma {:induction false} ExecAppend(w: World, a: seq<Action>, b: seq<Action>)
    ensures Exec(w, a + b) == Exec(Exec(w, a), b)
    decreases |a|
  {
    if a == [] {
      assert a + b == b;
    } else {
      assert (a + b)[1..] == a[1..] + b;
      ExecAppend(Next(w, a[0]), a[1..], b);
    }
  }

  lemma LeadsOn(w: World, v: World, u: World)
    requires Leads(w, v) && Leads(v, u)
    ensures Leads(w, u)
  {
    var a :| Exec(w, a) == v;
    var b :| Exec(v, b) == u;
    ExecAppend(w, a, b);
  }

  lemma LeadsTwo(w: World, a: Action, b: Action)
    ensures Leads(w, Next(Next(w, a), b))
  {
    assert [a, b][1..] == [b] && [b][1..] == [];
    assert Exec(Next(w, a), [b]) == Next(Next(w, a), b);
    assert Exec(w, [a, b]) == Next(Next(w, a), b);
  }

  /** A process that holds the live row moves it by planning and writing. */
  lemma Moves(w: World, p: nat, row: Row, writer: Writer, next: Row) returns (u: World)
    requires p in w.procs && w.procs[p] == Loaded(row) && row.id in w.db.ops && w.db.ops[row.id] == row
    requires Planned(row, writer, w.now) == Some(next) && ValidRow(next)
    requires writer.Sign? ==>
               && writer.credential != []
               && Advance(w.db.counts, Counter(row.terms.vault, writer.credential), writer.count).Some?
    ensures Leads(w, u)
    ensures u.db.ops == w.db.ops[row.id := next] && u.db.inputs == w.db.inputs
    ensures !writer.Sign? ==> u.db.counts == w.db.counts
    ensures writer.Sign? ==>
              u.db.counts == Advance(w.db.counts, Counter(row.terms.vault, writer.credential), writer.count).value
    ensures u.now == w.now && u.allow == w.allow && u.procs == w.procs[p := Loaded(next)]
  {
    var v := Next(w, Plan(p, writer));
    u := Next(v, Write(p, Fine));
    LeadsTwo(w, Plan(p, writer), Write(p, Fine));
    assert v.procs[p] == Writing(row, next, writer) && v.db == w.db;
    assert Swap(v.db, row, next, writer) == Swapped(next);
  }

  lemma Inserts(w: World, p: nat, rec: Row, ins: seq<Input>) returns (u: World)
    requires p !in w.procs && FreshDraft(rec, w.now) && O.Sorted(Before, ins)
    requires ReserveOutcome(w.db, rec, ins, Allowance(w.allow, rec.terms.vault), w.now) == Done
    ensures Leads(w, u)
    ensures u.db == Reserve(w.db, rec, ins, Allowance(w.allow, rec.terms.vault), w.now)
    ensures u.now == w.now && u.allow == w.allow && u.procs == w.procs[p := Loaded(rec)]
  {
    var v := Next(w, Draft(p, rec, ins));
    u := Next(v, Insert(p, Fine));
    LeadsTwo(w, Draft(p, rec, ins), Insert(p, Fine));
    assert v.procs[p] == Drafted(rec, ins) && v.db == w.db && v.allow == w.allow && v.now == w.now;
    assert Outcome(v, p) == Done;
  }

  predicate ValidRelease(r: Release) {
    (r.pendingDigest == [] <==> r.authorizedProof == "") && (r.pendingDigest == [] || |r.pendingDigest| == 32)
  }

  function FinalRow(rec: Row, sign: Writer, now: int): Row
    requires sign.Sign?
  {
    Row(rec.id, rec.terms, Finalized, Stamp(now), sign.release, rec.checkpoints.(psbts := sign.psbts))
  }

  /** A live reservation can be signed, submitted and settled at once. */
  lemma LiveCanSettle(w: World, p: nat, rec: Row, sign: Writer) returns (u: World)
    requires p in w.procs && w.procs[p] == Loaded(rec) && rec.id in w.db.ops && w.db.ops[rec.id] == rec
    requires FreshDraft(rec, w.now) && ValidRow(rec)
    requires sign.Sign? && ValidRelease(sign.release) && sign.credential != []
    requires Advance(w.db.counts, Counter(rec.terms.vault, sign.credential), sign.count).Some?
    ensures Leads(w, u)
    ensures u.db.ops == w.db.ops[rec.id := FinalRow(rec, sign, w.now)] && u.db.inputs == w.db.inputs
    ensures u.db.counts == Advance(w.db.counts, Counter(rec.terms.vault, sign.credential), sign.count).value
    ensures u.now == w.now && u.allow == w.allow && u.procs.Keys == w.procs.Keys
  {
    var signed := rec.(state := Signed, release := sign.release, checkpoints := rec.checkpoints.(psbts := sign.psbts));
    var w1 := Moves(w, p, rec, sign, signed);
    var submitted := signed.(state := Submitted);
    var w2 := Moves(w1, p, signed, Promote, submitted);
    u := Moves(w2, p, submitted, Settle, FinalRow(rec, sign, w.now));
    LeadsOn(w, w1, w2);
    LeadsOn(w, w2, u);
  }

  /** What an accepted reservation leaves in the tables. */
  lemma InsertedLive(d: Db, rec: Row, ins: seq<Input>, cap: int, now: int)
    requires ReserveOutcome(d, rec, ins, cap, now) == Done
    ensures var e := Reserve(d, rec, ins, cap, now);
            && ValidRow(rec) && e.ops == AbortExpired(d.ops, rec.terms.vault, now)[rec.id := rec]
            && e.inputs == d.inputs[rec.id := InputSet(ins)] && e.counts == d.counts
  {
  }

  lemma PutTwice<K, T>(m: map<K, T>, k: K, v: T, next: T)
    ensures m[k := v][k := next] == m[k := next]
  {
  }

  /** Every reservation the store accepts can be driven to settlement. */
  lemma AcceptedCanSettle(w: World, p: nat, rec: Row, ins: seq<Input>, sign: Writer) returns (u: World)
    requires p !in w.procs && FreshDraft(rec, w.now) && O.Sorted(Before, ins)
    requires ReserveOutcome(w.db, rec, ins, Allowance(w.allow, rec.terms.vault), w.now) == Done
    requires sign.Sign? && ValidRelease(sign.release) && sign.credential != []
    requires Advance(w.db.counts, Counter(rec.terms.vault, sign.credential), sign.count).Some?
    ensures Leads(w, u)
    ensures u.db.ops == AbortExpired(w.db.ops, rec.terms.vault, w.now)[rec.id := FinalRow(rec, sign, w.now)]
    ensures u.db.inputs == w.db.inputs[rec.id := InputSet(ins)]
    ensures u.db.counts == Advance(w.db.counts, Counter(rec.terms.vault, sign.credential), sign.count).value
    ensures u.now == w.now && u.allow == w.allow && u.procs.Keys == w.procs.Keys + {p}
  {
    InsertedLive(w.db, rec, ins, Allowance(w.allow, rec.terms.vault), w.now);
    var v := Inserts(w, p, rec, ins);
    u := LiveCanSettle(v, p, rec, sign);
    LeadsOn(w, v, u);
    PutTwice(AbortExpired(w.db.ops, rec.terms.vault, w.now), rec.id, rec, FinalRow(rec, sign, w.now));
  }

  // ---------- the counterexample ----------

  const V := "v"
  const CAP: nat := 1000
  const ZEROS: Blob := [0, 0, 0, 0, 0, 0, 0, 0, 0, 0, 0, 0, 0, 0, 0, 0, 0, 0, 0, 0, 0, 0, 0, 0, 0, 0, 0, 0, 0, 0, 0, 0]

  function SampleRow(id: string, now: int): Row {
    Row(id, Terms(V, ZEROS, CAP, 0, ZEROS, [0], [], 0, None, [0], Some(Stamp(now + RESERVE_TIMEOUT * SECOND)), [0]),
        Reserved, Stamp(now), NO_RELEASE, NO_CHECKPOINTS)
  }

  function SampleInput(vout: nat): Input { Input(Outpoint(ZEROS, vout), CAP, [0]) }

  function SampleSign(count: nat): Writer { Sign(Release("u", "a", ZEROS, "p", "t"), "c", [0], count) }

  /** A whole allowance is accepted when nothing of the vault blocks, overlaps or still counts. */
  lemma SampleAccepted(d: Db, id: string, now: int, vout: nat)
    requires id != "" && id !in d.ops
    requires forall k :: k in d.ops ==>
               && d.ops[k].state == Finalized && !InWindow(d.ops[k].createdAt, now)
               && k in d.inputs && forall i :: i in d.inputs[k] ==> i.outpoint != Outpoint(ZEROS, vout)
    ensures ReserveOutcome(d, SampleRow(id, now), [SampleInput(vout)], CAP, now) == Done
    ensures AbortExpired(d.ops, V, now) == d.ops
  {
    assert AbortExpired(d.ops, V, now) == d.ops;
    Monotone(Charges(d.ops, V, now), map[]);
    assert Total(map[]) == 0;
  }

  /** One whole allowance, reserved and settled at the present moment. */
  lemma SampleSpend(w: World, p: nat, id: string, vout: nat, count: nat) returns (u: World)
    requires w.allow == map[V := CAP] && p !in w.procs && id != "" && id !in w.db.ops
    requires Counter(V, [0]) in w.db.counts ==> w.db.counts[Counter(V, [0])] < count
    requires forall k :: k in w.db.ops ==>
               && w.db.ops[k].state == Finalized && !InWindow(w.db.ops[k].createdAt, w.now)
               && k in w.db.inputs && forall i :: i in w.db.inputs[k] ==> i.outpoint != Outpoint(ZEROS, vout)
    ensures Leads(w, u) && u.now == w.now && u.allow == w.allow && u.procs.Keys == w.procs.Keys + {p}
    ensures u.db.ops == w.db.ops[id := FinalRow(SampleRow(id, w.now), SampleSign(count), w.now)]
    ensures u.db.inputs == w.db.inputs[id := {SampleInput(vout)}]
    ensures u.db.counts == w.db.counts[Counter(V, [0]) := count]
  {
    SampleAccepted(w.db, id, w.now, vout);
    u := AcceptedCanSettle(w, p, SampleRow(id, w.now), [SampleInput(vout)], SampleSign(count));
    assert InputSet([SampleInput(vout)]) == {SampleInput(vout)};
  }

  lemma TwoCaps(ops: map<string, Row>)
    requires ops.Keys == {"a", "b"}
    requires forall k :: k in ops ==> SettledIn(ops[k], V, 0, 86_401) == CAP
    ensures Total(SettledBetween(ops, V, 0, 86_401)) == 2 * CAP
  {
    var settled := SettledBetween(ops, V, 0, 86_401);
    Sums.Insert(map[], "a", CAP);
    Sums.Insert(map[]["a" := CAP], "b", CAP);
    assert settled == map[]["a" := CAP]["b" := CAP];
  }

  const LATER := 86_400 * SECOND + SECOND / 2

  /** One allowance settled at time zero, and then a day and half a second pass. */
  lemma FirstDay() returns (u: World)
    ensures Leads(Start(map[V := CAP]), u) && u.now == LATER && u.allow == map[V := CAP] && u.procs.Keys == {0}
    ensures u.db.ops == map["a" := FinalRow(SampleRow("a", 0), SampleSign(1), 0)]
    ensures u.db.inputs == map["a" := {SampleInput(0)}] && u.db.counts == map[Counter(V, [0]) := 1]
  {
    var w := Start(map[V := CAP]);
    var v := SampleSpend(w, 0, "a", 0, 1);
    u := Next(v, Tick(LATER));
    assert Leads(v, u) by { assert [Tick(LATER)][1..] == []; assert Exec(v, [Tick(LATER)]) == u; }
    LeadsOn(w, v, u);
  }

  /** Two full allowances can settle with stamps exactly 24 hours apart: the bound of
      SettledWithinAllowance does not extend to the closed interval. */
  lemma ClosedDayHoldsTwoAllowances()
    ensures exists acts ::
              Total(SettledBetween(Exec(Start(map[V := CAP]), acts).db.ops, V, 0, 86_401)) == 2 * CAP
  {
    var w := Start(map[V := CAP]);
    var w2 := FirstDay();
    var w3 := SampleSpend(w2, 1, "b", 1, 2);
    LeadsOn(w, w2, w3);
    TwoCaps(w3.db.ops);
    var acts :| Exec(w, acts) == w3;
  }

  ghost predicate BoundHolds(allow: map<string, nat>, acts: seq<Action>, vault: string, from: int, length: nat) {
    Total(SettledBetween(Exec(Start(allow), acts).db.ops, vault, from, from + length)) <= Allowance(allow, vault)
  }

  lemma ShorterBound(ops: map<string, Row>, vault: string, from: int, length: nat, more: nat)
    requires length <= more
    ensures Total(SettledBetween(ops, vault, from, from + length)) <=
            Total(SettledBetween(ops, vault, from, from + more))
  {
    Monotone(SettledBetween(ops, vault, from, from + length), SettledBetween(ops, vault, from, from + more));
  }

  lemma LongerBroken(allow: map<string, nat>, acts: seq<Action>, vault: string, from: int, length: nat, more: nat)
    requires length <= more && !BoundHolds(allow, acts, vault, from, length)
    ensures !BoundHolds(allow, acts, vault, from, more)
  {
    ShorterBound(Exec(Start(allow), acts).db.ops, vault, from, length, more);
  }

  lemma BoundKept(allow: map<string, nat>, acts: seq<Action>, vault: string, from: int, length: nat)
    requires length <= 86_400
    ensures BoundHolds(allow, acts, vault, from, length)
  {
    SettledWithinAllowance(allow, acts, vault, from);
    ShorterBound(Exec(Start(allow), acts).db.ops, vault, from, length, 86_400);
  }

  lemma BoundBroken(length: nat) returns (acts: seq<Action>)
    requires length > 86_400
    ensures !BoundHolds(map[V := CAP], acts, V, 0, length)
  {
    ClosedDayHoldsTwoAllowances();
    acts :| Total(SettledBetween(Exec(Start(map[V := CAP]), acts).db.ops, V, 0, 86_401)) == 2 * CAP;
    assert Allowance(map[V := CAP], V) == CAP;
    LongerBroken(map[V := CAP], acts, V, 0, 86_401, length);
  }

  /** Exactly how long an interval of settlement stamps may be for the allowance to bound it in
      every run: 24 hours, counted half-open in whole seconds, and not a second more. */
  lemma SettlementBoundIsExact(length: nat)
    ensures (forall allow, acts, vault, from :: BoundHolds(allow, acts, vault, from, length)) <==>
            length <= 86_400
  {
    if length <= 86_400 {
      forall allow, acts, vault, from ensures BoundHolds(allow, acts, vault, from, length) {
        BoundKept(allow, acts, vault, from, length);
      }
    } else {
      var acts := BoundBroken(length);
    }
  }
}
