/** Authenticator counters over whole runs: every accepted assertion, by a signing or by a login, is
    logged, and what the ledger stores and recognises is compared with that log. */
module VtxoCounters {
  import opened Prelude
  import opened VtxoTables
  import opened VtxoInvariant
  import opened VtxoProtocol
  import opened VtxoTheorems
  import VB = VtxoBoundary

  /** One accepted assertion; `op` is the operation it signed, if it signed one. */
  datatype Use = Use(counter: Counter, count: nat, op: Option<string>)

  ghost function UseOf(w: World, act: Action): seq<Use> {
    if !Enabled(w, act) then []
    else
      match act
      case Write(p, fault) =>
        var pc := w.procs[p];
        if fault != RolledBack && pc.writer.Sign? && Swap(w.db, pc.base, pc.next, pc.writer).Swapped?
        then [Use(Counter(pc.next.terms.vault, pc.writer.credential), pc.writer.count, Some(pc.next.id))] else []
      case Authenticate(vault, credential, count) =>
        var c := Counter(vault, credential);
        if Advance(w.db.counts, c, count).Some? then [Use(c, count, None)] else []
      case _ => []
  }

  /** The accepted assertions of a run, in order. */
  ghost function UseLog(w: World, acts: seq<Action>): seq<Use>
    decreases |acts|
  {
    if acts == [] then [] else UseOf(w, acts[0]) + UseLog(Next(w, acts[0]), acts[1..])
  }

  // ---------- the stored counters are the log ----------

  function Replayed(counts: map<Counter, nat>, log: seq<Use>): map<Counter, nat>
    decreases |log|
  {
    if log == [] then counts else Replayed(counts[log[0].counter := log[0].count], log[1..])
  }

  lemma {:induction false} ReplayedAppend(counts: map<Counter, nat>, a: seq<Use>, b: seq<Use>)
    ensures Replayed(counts, a + b) == Replayed(Replayed(counts, a), b)
    decreases |a|
  {
    if a == [] {
      assert a + b == b;
    } else {
      assert (a + b)[1..] == a[1..] + b;
      ReplayedAppend(counts[a[0].counter := a[0].count], a[1..], b);
    }
  }

  /** An accepted assertion moves the counter up, or repeats zero. */
  predicate Rises(counts: map<Counter, nat>, u: Use) {
    u.counter in counts ==> counts[u.counter] < u.count || (counts[u.counter] == 0 && u.count == 0)
  }

  lemma StepCounts(w: World, act: Action)
    ensures |UseOf(w, act)| <= 1
    ensures UseOf(w, act) == [] ==> Next(w, act).db.counts == w.db.counts
    ensures |UseOf(w, act)| == 1 ==>
              var u := UseOf(w, act)[0];
              Rises(w.db.counts, u) && Next(w, act).db.counts == w.db.counts[u.counter := u.count]
  {
  }

  /** In every run the stored counters are exactly what the accepted assertions left: each one is stored
      with what it authorized, and nothing else moves a counter. */
  lemma {:induction false} CountersAreTheLog(w: World, acts: seq<Action>)
    ensures Exec(w, acts).db.counts == Replayed(w.db.counts, UseLog(w, acts))
    decreases |acts|
  {
    if acts != [] {
      var u := UseOf(w, acts[0]);
      StepCounts(w, acts[0]);
      CountersAreTheLog(Next(w, acts[0]), acts[1..]);
      ReplayedAppend(w.db.counts, u, UseLog(Next(w, acts[0]), acts[1..]));
      if |u| == 1 { assert u[1..] == []; }
    }
  }

  // ---------- no assertion is accepted twice ----------

  ghost predicate AllRise(counts: map<Counter, nat>, log: seq<Use>) {
    forall i :: 0 <= i < |log| ==> Rises(counts, log[i])
  }

  /** Two uses of one counter are strictly increasing, or both zero. */
  predicate Ascends(a: Use, b: Use) { a.counter == b.counter ==> a.count < b.count || (a.count == 0 && b.count == 0) }

  ghost predicate Ascending(log: seq<Use>) { forall i, j :: 0 <= i < j < |log| ==> Ascends(log[i], log[j]) }

  lemma RiseBefore(counts: map<Counter, nat>, u: Use, log: seq<Use>)
    requires Rises(counts, u) && AllRise(counts[u.counter := u.count], log)
    ensures AllRise(counts, [u] + log)
  {
    var all := [u] + log;
    forall i | 0 <= i < |all| ensures Rises(counts, all[i]) {
      if i > 0 { assert all[i] == log[i - 1] && Rises(counts[u.counter := u.count], log[i - 1]); }
    }
  }

  lemma AscendBefore(counts: map<Counter, nat>, u: Use, log: seq<Use>)
    requires AllRise(counts[u.counter := u.count], log) && Ascending(log)
    ensures Ascending([u] + log)
  {
    var all := [u] + log;
    forall i, j | 0 <= i < j < |all| ensures Ascends(all[i], all[j]) {
      assert all[j] == log[j - 1] && Rises(counts[u.counter := u.count], log[j - 1]);
      if i > 0 { assert all[i] == log[i - 1]; }
    }
  }

  lemma {:induction false} UsesRise(w: World, acts: seq<Action>)
    ensures AllRise(w.db.counts, UseLog(w, acts)) && Ascending(UseLog(w, acts))
    decreases |acts|
  {
    if acts != [] {
      var first, log := UseOf(w, acts[0]), UseLog(Next(w, acts[0]), acts[1..]);
      StepCounts(w, acts[0]);
      UsesRise(Next(w, acts[0]), acts[1..]);
      if first == [] {
        assert first + log == log;
      } else {
        assert first == [first[0]];
        RiseBefore(w.db.counts, first[0], log);
        AscendBefore(w.db.counts, first[0], log);
      }
    }
  }

  /** Two accepted assertions of one counter are strictly increasing, or both zero: a non-zero assertion
      counter authorizes at most one operation or login in a whole run. */
  lemma CounterNeverReused(w: World, acts: seq<Action>, i: nat, j: nat)
    requires i < j < |UseLog(w, acts)| && UseLog(w, acts)[i].counter == UseLog(w, acts)[j].counter
    ensures var a, b := UseLog(w, acts)[i].count, UseLog(w, acts)[j].count; a < b || (a == 0 && b == 0)
  {
    UsesRise(w, acts);
    assert Ascends(UseLog(w, acts)[i], UseLog(w, acts)[j]);
  }

  // ---------- signed rows are the signings of the log ----------

  ghost predicate Logged(log: seq<Use>, id: string) { exists i :: 0 <= i < |log| && log[i].op == Some(id) }

  ghost predicate IsAuthorized(d: Db, id: string) { id in d.ops && Authorized(d.ops[id].state) }

  lemma StepAuthorized(w: World, act: Action, id: string)
    requires Safe(w)
    ensures IsAuthorized(Next(w, act).db, id) <==> IsAuthorized(w.db, id) || Logged(UseOf(w, act), id)
    ensures Logged(UseOf(w, act), id) ==> id in w.db.ops && w.db.ops[id].state == Reserved
  {
    if Enabled(w, act) {
      if act.Write? {
        WriteAuthorized(w, act, id);
      } else {
        StepLater(w, act);
        assert IdLater(w.db, NextDb(w, act), id);
      }
    }
  }

  lemma WriteAuthorized(w: World, act: Action, id: string)
    requires Safe(w) && act.Write? && Enabled(w, act)
    ensures IsAuthorized(NextDb(w, act), id) <==> IsAuthorized(w.db, id) || Logged(UseOf(w, act), id)
    ensures Logged(UseOf(w, act), id) ==> id in w.db.ops && w.db.ops[id].state == Reserved
  {
    var pc := w.procs[act.p];
    assert PcOk(w.db, w.h, w.now, pc);
    SwapLater(w.db, w.h, w.now, pc.base, pc.next, pc.writer);
    if act.fault != RolledBack && Swap(w.db, pc.base, pc.next, pc.writer).Swapped? {
      SwapIsWholeRow(w.db, w.h, w.now, pc.base, pc.next, pc.writer);
      if pc.writer.Sign? { assert UseOf(w, act)[0].op == Some(pc.next.id); }
    }
  }

  lemma LoggedAppend(a: seq<Use>, b: seq<Use>, id: string)
    ensures Logged(a + b, id) <==> Logged(a, id) || Logged(b, id)
  {
    if Logged(a, id) {
      var i :| 0 <= i < |a| && a[i].op == Some(id);
      assert (a + b)[i] == a[i];
    }
    if Logged(b, id) {
      var i :| 0 <= i < |b| && b[i].op == Some(id);
      assert (a + b)[|a| + i] == b[i];
    }
  }

  /** The row and the counter commit together over every run: an operation is signed, submitted,
      finalized or unresolved exactly when an assertion for it was accepted. */
  lemma {:induction false} AuthorizedIffLogged(w: World, acts: seq<Action>, id: string)
    requires Safe(w)
    ensures IsAuthorized(Exec(w, acts).db, id) <==> IsAuthorized(w.db, id) || Logged(UseLog(w, acts), id)
    decreases |acts|
  {
    if acts != [] {
      StepSafe(w, acts[0]);
      StepAuthorized(w, acts[0], id);
      AuthorizedIffLogged(Next(w, acts[0]), acts[1..], id);
      LoggedAppend(UseOf(w, acts[0]), UseLog(Next(w, acts[0]), acts[1..]), id);
    }
  }

  lemma {:induction false} LoggedWasReserved(w: World, acts: seq<Action>, id: string)
    requires Safe(w) && Logged(UseLog(w, acts), id)
    ensures !IsAuthorized(w.db, id)
    decreases |acts|
  {
    StepSafe(w, acts[0]);
    StepAuthorized(w, acts[0], id);
    LoggedAppend(UseOf(w, acts[0]), UseLog(Next(w, acts[0]), acts[1..]), id);
    if !Logged(UseOf(w, acts[0]), id) { LoggedWasReserved(Next(w, acts[0]), acts[1..], id); }
  }

  lemma NeverSignedAgain(w: World, act: Action, acts: seq<Action>, id: string)
    requires Safe(w) && Logged(UseOf(w, act), id)
    ensures !Logged(UseLog(Next(w, act), acts), id)
  {
    StepSafe(w, act);
    StepAuthorized(w, act, id);
    if Logged(UseLog(Next(w, act), acts), id) { LoggedWasReserved(Next(w, act), acts, id); }
  }

  /** The first signing of a log is not repeated in the rest. */
  lemma FirstNotRepeated(w: World, act: Action, acts: seq<Action>, i: nat, k: nat)
    requires Safe(w) && i < |UseOf(w, act)| && UseOf(w, act)[i].op.Some? && k < |UseLog(Next(w, act), acts)|
    ensures UseOf(w, act)[i].op != UseLog(Next(w, act), acts)[k].op
  {
    var id := UseOf(w, act)[i].op.value;
    assert UseOf(w, act)[i].op == Some(id);
    NeverSignedAgain(w, act, acts, id);
  }

  /** No two entries are signings of one operation. */
  ghost predicate NoRepeat(log: seq<Use>) {
    forall i, j :: 0 <= i < j < |log| && log[i].op.Some? ==> log[i].op != log[j].op
  }

  lemma NoRepeatBefore(first: seq<Use>, log: seq<Use>)
    requires |first| <= 1 && NoRepeat(log)
    requires forall k :: first != [] && first[0].op.Some? && 0 <= k < |log| ==> log[k].op != first[0].op
    ensures NoRepeat(first + log)
  {
    var all := first + log;
    forall i, j | 0 <= i < j < |all| && all[i].op.Some? ensures all[i].op != all[j].op {
      assert all[j] == log[j - |first|];
      if i >= |first| { assert all[i] == log[i - |first|]; }
    }
  }

  lemma {:induction false} LogNoRepeat(w: World, acts: seq<Action>)
    requires Safe(w)
    ensures NoRepeat(UseLog(w, acts))
    decreases |acts|
  {
    if acts != [] {
      var first, log := UseOf(w, acts[0]), UseLog(Next(w, acts[0]), acts[1..]);
      AtMostOneUse(w, acts[0]);
      StepSafe(w, acts[0]);
      LogNoRepeat(Next(w, acts[0]), acts[1..]);
      forall k | first != [] && first[0].op.Some? && 0 <= k < |log| ensures log[k].op != first[0].op {
        FirstNotRepeated(w, acts[0], acts[1..], 0, k);
      }
      NoRepeatBefore(first, log);
    }
  }

  /** No operation is signed twice. */
  lemma SignedOnce(w: World, acts: seq<Action>, i: nat, j: nat)
    requires Safe(w) && i < j < |UseLog(w, acts)| && UseLog(w, acts)[i].op.Some?
    ensures UseLog(w, acts)[i].op != UseLog(w, acts)[j].op
  {
    LogNoRepeat(w, acts);
  }

  lemma AtMostOneUse(w: World, act: Action)
    ensures |UseOf(w, act)| <= 1
  {
  }

  lemma SplitLog(a: seq<Use>, b: seq<Use>, i: nat)
    requires i < |a + b|
    ensures (a + b)[i] == if i < |a| then a[i] else b[i - |a|]
  {
  }

  // ---------- when a retry is recognised ----------

  /** No assertion of the counter with another count was accepted. */
  ghost predicate Unmoved(log: seq<Use>, c: Counter, n: nat) {
    forall i :: 0 <= i < |log| && log[i].counter == c ==> log[i].count == n
  }

  lemma UnmovedAppend(a: seq<Use>, b: seq<Use>, c: Counter, n: nat)
    ensures Unmoved(a + b, c, n) <==> Unmoved(a, c, n) && Unmoved(b, c, n)
  {
    if Unmoved(a + b, c, n) {
      forall i | 0 <= i < |a| && a[i].counter == c ensures a[i].count == n { assert (a + b)[i] == a[i]; }
      forall i | 0 <= i < |b| && b[i].counter == c ensures b[i].count == n { assert (a + b)[|a| + i] == b[i]; }
    }
  }

  lemma {:induction false} CountKeptIff(w: World, acts: seq<Action>, c: Counter)
    requires c in w.db.counts
    ensures c in Exec(w, acts).db.counts && w.db.counts[c] <= Exec(w, acts).db.counts[c]
    ensures Exec(w, acts).db.counts[c] == w.db.counts[c] <==> Unmoved(UseLog(w, acts), c, w.db.counts[c])
    decreases |acts|
  {
    if acts != [] {
      var first, w' := UseOf(w, acts[0]), Next(w, acts[0]);
      StepCounts(w, acts[0]);
      CountKeptIff(w', acts[1..], c);
      UnmovedAppend(first, UseLog(w', acts[1..]), c, w.db.counts[c]);
      if |first| == 1 && first[0].counter == c { assert Rises(w.db.counts, first[0]); }
    }
  }

  lemma SigningStored(w: World, act: Action)
    requires Safe(w) && |UseOf(w, act)| == 1 && UseOf(w, act)[0].op.Some?
    ensures var u, d := UseOf(w, act)[0], Next(w, act).db;
            && SignedReplay(d, u.op.value, u.counter.vault, u.counter.credential, u.count)
            && u.counter in d.counts && d.counts[u.counter] == u.count
  {
    StepCounts(w, act);
    var pc := w.procs[act.p];
    assert PcOk(w.db, w.h, w.now, pc);
    SwapIsWholeRow(w.db, w.h, w.now, pc.base, pc.next, pc.writer);
  }

  /** The count of the last accepted assertion of a counter, if the log has one. */
  function LastUse(log: seq<Use>, c: Counter): Option<nat>
    decreases |log|
  {
    if log == [] then None
    else if log[|log| - 1].counter == c then Some(log[|log| - 1].count)
    else LastUse(log[..|log| - 1], c)
  }

  lemma {:induction false} ReplayedIsLastUse(counts: map<Counter, nat>, log: seq<Use>, c: Counter)
    ensures var last := LastUse(log, c);
            var d := Replayed(counts, log);
            if last.Some? then c in d && d[c] == last.value
            else (c in d <==> c in counts) && (c in d ==> d[c] == counts[c])
    decreases |log|
  {
    if log != [] {
      var front, last := log[..|log| - 1], log[|log| - 1];
      assert front + [last] == log && [last][1..] == [];
      ReplayedAppend(counts, front, [last]);
      ReplayedIsLastUse(counts, front, c);
    }
  }

  /** Over every run, for every operation, every credential and every count: a retry is recognised exactly
      when the operation is signed and the last accepted assertion of that credential, whatever it was
      for, had this count. */
  lemma RecognisedIffLastUse(caps: map<string, nat>, acts: seq<Action>, id: string, vault: string,
                             credential: Blob, n: nat)
    ensures var d, log := Exec(Start(caps), acts).db, UseLog(Start(caps), acts);
            SignedReplay(d, id, vault, credential, n) <==>
            && id != "" && vault != "" && credential != []
            && id in d.ops && d.ops[id].terms.vault == vault && d.ops[id].state == Signed
            && LastUse(log, Counter(vault, credential)) == Some(n)
  {
    var log := UseLog(Start(caps), acts);
    CountersAreTheLog(Start(caps), acts);
    ReplayedIsLastUse(map[], log, Counter(vault, credential));
  }

  /** Over every run a login is accepted exactly when its credential was never accepted before, or last with
      a lower count, or both counts are zero. */
  lemma LoginAcceptedIff(caps: map<string, nat>, acts: seq<Action>, vault: string, credential: Blob, n: nat)
    ensures var c := Counter(vault, credential);
            UseOf(Exec(Start(caps), acts), Authenticate(vault, credential, n)) ==
            match LastUse(UseLog(Start(caps), acts), c)
            case None => [Use(c, n, None)]
            case Some(last) => if last < n || (last == 0 && n == 0) then [Use(c, n, None)] else []
  {
    CountersAreTheLog(Start(caps), acts);
    ReplayedIsLastUse(map[], UseLog(Start(caps), acts), Counter(vault, credential));
    LoginUse(Exec(Start(caps), acts), vault, credential, n);
  }

  lemma LoginUse(w: World, vault: string, credential: Blob, n: nat)
    ensures var c, counts := Counter(vault, credential), w.db.counts;
            UseOf(w, Authenticate(vault, credential, n)) ==
            if c !in counts || counts[c] < n || (counts[c] == 0 && n == 0) then [Use(c, n, None)] else []
  {
  }

  /** A retry with any credential and count, after an operation was signed and any run, is recognised
      exactly when the operation is still signed and the credential's counter, carried through the
      run's accepted assertions, stands at that count. With the assertion that signed it, that is
      while no other count of its counter was accepted since; and a count that is recognised under its
      credential is the operation's own exactly in that case. */
  lemma ReplayRecognisedIff(w: World, act: Action, acts: seq<Action>, credential: Blob, n: nat)
    requires Safe(w) && |UseOf(w, act)| == 1 && UseOf(w, act)[0].op.Some?
    ensures var u, d, log := UseOf(w, act)[0], Exec(Next(w, act), acts).db, UseLog(Next(w, act), acts);
            var c, counts := Counter(u.counter.vault, credential), Replayed(Next(w, act).db.counts, log);
            && u.op.value in d.ops
            && (SignedReplay(d, u.op.value, u.counter.vault, credential, n)
                <==> d.ops[u.op.value].state == Signed && credential != [] && c in counts && counts[c] == n)
    ensures var u, d, log := UseOf(w, act)[0], Exec(Next(w, act), acts).db, UseLog(Next(w, act), acts);
            && u.op.value in d.ops
            && (SignedReplay(d, u.op.value, u.counter.vault, u.counter.credential, u.count)
                <==> d.ops[u.op.value].state == Signed && Unmoved(log, u.counter, u.count))
            && (SignedReplay(d, u.op.value, u.counter.vault, u.counter.credential, n)
                ==> (n == u.count <==> Unmoved(log, u.counter, u.count)))
  {
    var u, w' := UseOf(w, act)[0], Next(w, act);
    SigningStored(w, act);
    CountersAreTheLog(w', acts);
    StepSafe(w, act);
    ExecSafe(w', acts);
    assert IdLater(w'.db, Exec(w', acts).db, u.op.value);
    CountKeptIff(w', acts, u.counter);
  }

  lemma SampleSigned() returns (w: World)
    ensures VB.Leads(Start(map[VB.V := VB.CAP]), w) && SignedReplay(w.db, "a", VB.V, [0], 1)
    ensures w.db.counts == map[Counter(VB.V, [0]) := 1]
  {
    var s := Start(map[VB.V := VB.CAP]);
    var rec := VB.SampleRow("a", 0);
    VB.SampleAccepted(s.db, "a", 0, 0);
    var v := VB.Inserts(s, 0, rec, [VB.SampleInput(0)]);
    var sign := VB.SampleSign(1);
    w := VB.Moves(v, 0, rec, sign, Planned(rec, sign, 0).value);
    VB.LeadsOn(s, v, w);
  }

  /** A login can take over the replay: in some run an operation signed under count 1 is, after a login
      with count 2, no longer recognised under 1 but recognised under the login's 2. */
  lemma LoginTakesOverReplay()
    ensures exists acts :: var w := Exec(Start(map[VB.V := VB.CAP]), acts);
              var u := Next(w, Authenticate(VB.V, [0], 2));
              && SignedReplay(w.db, "a", VB.V, [0], 1) && !SignedReplay(w.db, "a", VB.V, [0], 2)
              && SignedReplay(u.db, "a", VB.V, [0], 2) && !SignedReplay(u.db, "a", VB.V, [0], 1)
  {
    var w := SampleSigned();
    var acts :| Exec(Start(map[VB.V := VB.CAP]), acts) == w;
  }
}
