/** Recovery transitions: the sign-once session store and the handlers that use it in two phases. */
module Recovery {
  import opened Prelude

  datatype Purpose = Initiate | Clawback
  datatype Key = Key(vault: string, txid: string, vout: nat, purpose: Purpose)

  /** A submitted transition: its destination script, signature hash and transaction hash. */
  datatype Packet = Packet(dest: string, sighash: string, txHash: string)
  /** What the two signers return: the submitted packet with their signatures on it. */
  datatype SignedPsbt = SignedPsbt(of: Packet, signatures: string)

  datatype Session = Session(dest: string, lastSighash: string, signature: Option<SignedPsbt>)
  datatype Request = Request(dest: string, sighash: string, signature: Option<SignedPsbt>)

  datatype Replay = Sign | Repeat | Resign

  /** DecideReplay: one destination per outpoint; the same destination may be re-signed once a
      signature is stored, and before that only for the very same signature hash. */
  function Decide(existing: Option<Session>, key: Key, next: Request): Option<Replay> {
    if key.vault == "" || key.txid == "" || next.dest == "" then None
    else if existing.None? then Some(Sign)
    else
      var e := existing.value;
      if e.dest != next.dest then None
      else if e.signature.None? then
        if e.lastSighash == "" || next.sighash == "" || e.lastSighash != next.sighash then None else Some(Resign)
      else if next.sighash != "" && e.lastSighash == next.sighash then Some(Repeat)
      else Some(Resign)
  }

  function Find(sessions: map<Key, Session>, key: Key): Option<Session> {
    if key in sessions then Some(sessions[key]) else None
  }

  /** The row that is written: a missing signature or hash keeps the stored one. */
  function Merged(existing: Option<Session>, next: Request): Session {
    Session(next.dest,
            if existing.Some? && next.sighash == "" then existing.value.lastSighash else next.sighash,
            if existing.Some? && next.signature.None? then existing.value.signature else next.signature)
  }

  function Apply(sessions: map<Key, Session>, key: Key, next: Request): map<Key, Session> {
    var existing := Find(sessions, key);
    match Decide(existing, key, next)
    case None => sessions
    case Some(Repeat) => sessions
    case Some(_) => sessions[key := Merged(existing, next)]
  }

  class Ledger {
    var sessions: map<Key, Session>

    constructor ()
      ensures sessions == map[]
    {
      sessions := map[];
    }

    /** ApplyRecoveryReplay, under the ledger mutex. */
    method ApplyRecoveryReplay(key: Key, next: Request) returns (action: Option<Replay>, stored: Option<Session>)
      modifies this
      ensures action == Decide(old(Find(sessions, key)), key, next)
      ensures sessions == Apply(old(sessions), key, next)
      ensures stored == if action.None? then None else Find(sessions, key)
    {
      var existing := Find(sessions, key);
      action := Decide(existing, key, next);
      if action.None? { return None, None; }
      if action == Some(Repeat) { return action, existing; }
      var row := Session(next.dest, next.sighash, next.signature);
      if existing.Some? {
        if row.signature.None? { row := row.(signature := existing.value.signature); }
        if row.lastSighash == "" { row := row.(lastSighash := existing.value.lastSighash); }
      }
      sessions := sessions[key := row];
      return action, Some(row);
    }
  }

  // ---------- handlers ----------

  datatype Pc =
    | Cosigning(key: Key, packet: Packet)                     // write-ahead row stored
    | Signed(key: Key, packet: Packet, signed: SignedPsbt)    // both signers answered
    | Returned

  datatype Response = Response(key: Key, asked: Packet, signed: SignedPsbt)

  datatype World = World(
    sessions: map<Key, Session>, procs: map<nat, Pc>,
    handed: map<Key, set<string>>, returned: set<Response>)

  const EMPTY := World(map[], map[], map[], {})

  datatype Action =
    | Ask(p: nat, key: Key, packet: Packet)
    | Hand(p: nat, answer: Option<string>)   // call the signers; they may fail
    | Store(p: nat, commits: bool)
    | Crash(p: nat)

  function Handed(w: World, key: Key): set<string> { if key in w.handed then w.handed[key] else {} }

  function FirstPhase(packet: Packet): Request { Request(packet.dest, packet.sighash, None) }

  function StoreRequest(packet: Packet, signed: SignedPsbt): Request {
    Request(packet.dest, packet.sighash, Some(signed))
  }

  /** An exact repeat returns the stored packet, but only if it has the submitted transaction. */
  function Repeated(sessions: map<Key, Session>, key: Key, packet: Packet): Option<SignedPsbt> {
    if && key in sessions && sessions[key].signature.Some?
       && Decide(Find(sessions, key), key, FirstPhase(packet)) == Some(Repeat)
       && sessions[key].signature.value.of.txHash == packet.txHash
    then sessions[key].signature else None
  }

  /** The first phase writes the row ahead of any signature. */
  function DoAsk(w: World, p: nat, key: Key, packet: Packet): World {
    var action := Decide(Find(w.sessions, key), key, FirstPhase(packet));
    if action == Some(Sign) || action == Some(Resign) then
      w.(sessions := Apply(w.sessions, key, FirstPhase(packet)), procs := w.procs[p := Cosigning(key, packet)])
    else
      var again := Repeated(w.sessions, key, packet);
      w.(procs := w.procs[p := Returned],
         returned := if again.Some? then w.returned + {Response(key, packet, again.value)} else w.returned)
  }

  function DoHand(w: World, p: nat, answer: Option<string>): World
    requires p in w.procs && w.procs[p].Cosigning?
  {
    var key, packet := w.procs[p].key, w.procs[p].packet;
    w.(handed := w.handed[key := Handed(w, key) + {packet.sighash}],
       procs := w.procs[p := if answer.Some? then Signed(key, packet, SignedPsbt(packet, answer.value)) else Returned])
  }

  /** The second phase stores the signature and then returns it. */
  function DoStore(w: World, p: nat, commits: bool): World
    requires p in w.procs && w.procs[p].Signed?
  {
    var key, packet, signed := w.procs[p].key, w.procs[p].packet, w.procs[p].signed;
    var req := StoreRequest(packet, signed);
    var w' := w.(procs := w.procs[p := Returned]);
    if !commits || Decide(Find(w.sessions, key), key, req).None? then w'
    else w'.(sessions := Apply(w.sessions, key, req), returned := w.returned + {Response(key, packet, signed)})
  }

  function Next(w: World, act: Action): World {
    match act
    case Ask(p, key, packet) => if p in w.procs then w else DoAsk(w, p, key, packet)
    case Hand(p, answer) => if p in w.procs && w.procs[p].Cosigning? then DoHand(w, p, answer) else w
    case Store(p, commits) => if p in w.procs && w.procs[p].Signed? then DoStore(w, p, commits) else w
    case Crash(p) => w.(procs := w.procs - {p})
  }

  function Exec(w: World, acts: seq<Action>): World
    decreases |acts|
  {
    if acts == [] then w else Exec(Next(w, acts[0]), acts[1..])
  }

  // ---------- invariant ----------

  /** A handler works for the destination of the row, and, while no signature is stored, for the
      row's signature hash. */
  ghost predicate Bound(sessions: map<Key, Session>, key: Key, packet: Packet) {
    && key in sessions && sessions[key].dest == packet.dest
    && (sessions[key].signature.None? ==> sessions[key].lastSighash == packet.sighash)
  }

  ghost predicate PcOk(sessions: map<Key, Session>, pc: Pc) {
    match pc
    case Cosigning(key, packet) => Bound(sessions, key, packet)
    case Signed(key, packet, signed) => Bound(sessions, key, packet) && signed.of == packet
    case Returned => true
  }

  ghost predicate HandedOk(w: World, key: Key) {
    Handed(w, key) != {} ==>
      key in w.sessions && (w.sessions[key].signature.None? ==> Handed(w, key) == {w.sessions[key].lastSighash})
  }

  ghost predicate ResponseOk(sessions: map<Key, Session>, r: Response) {
    && r.key in sessions && sessions[r.key].dest == r.signed.of.dest && sessions[r.key].signature.Some?
    && r.asked.dest == r.signed.of.dest && r.asked.txHash == r.signed.of.txHash
  }

  ghost predicate Inv(w: World) {
    && (forall key :: key in w.sessions && w.sessions[key].signature.Some? ==>
          w.sessions[key].signature.value.of.dest == w.sessions[key].dest)
    && (forall p :: p in w.procs ==> PcOk(w.sessions, w.procs[p]))
    && (forall key :: HandedOk(w, key))
    && (forall r :: r in w.returned ==> ResponseOk(w.sessions, r))
  }

  /** A row keeps its destination, never loses a signature, and while unsigned keeps its hash. */
  ghost predicate Grows(s: map<Key, Session>, t: map<Key, Session>) {
    forall key :: key in s ==>
      && key in t && t[key].dest == s[key].dest
      && (s[key].signature.Some? ==> t[key].signature.Some?)
      && (t[key].signature.None? ==> t[key].lastSighash == s[key].lastSighash)
  }

  lemma ApplyGrows(sessions: map<Key, Session>, key: Key, next: Request)
    ensures Grows(sessions, Apply(sessions, key, next))
  {
  }

  lemma OthersKept(w: World, t: map<Key, Session>)
    requires Inv(w) && Grows(w.sessions, t)
    ensures forall p :: p in w.procs ==> PcOk(t, w.procs[p])
    ensures forall r :: r in w.returned ==> ResponseOk(t, r)
    ensures forall key :: HandedOk(w.(sessions := t), key)
  {
    forall p | p in w.procs ensures PcOk(t, w.procs[p]) { assert PcOk(w.sessions, w.procs[p]); }
    forall r | r in w.returned ensures ResponseOk(t, r) { assert ResponseOk(w.sessions, r); }
    forall key ensures HandedOk(w.(sessions := t), key) { assert HandedOk(w, key); }
  }

  lemma AskWriteKeeps(w: World, p: nat, key: Key, packet: Packet)
    requires Inv(w) && p !in w.procs
    requires Decide(Find(w.sessions, key), key, FirstPhase(packet)) in {Some(Sign), Some(Resign)}
    ensures Inv(DoAsk(w, p, key, packet)) && Grows(w.sessions, DoAsk(w, p, key, packet).sessions)
  {
    var w' := DoAsk(w, p, key, packet);
    ApplyGrows(w.sessions, key, FirstPhase(packet));
    OthersKept(w, w'.sessions);
    assert PcOk(w'.sessions, Cosigning(key, packet));
    forall k ensures HandedOk(w', k) { assert HandedOk(w.(sessions := w'.sessions), k); }
  }

  lemma AskKeeps(w: World, p: nat, key: Key, packet: Packet)
    requires Inv(w) && p !in w.procs
    ensures Inv(DoAsk(w, p, key, packet)) && Grows(w.sessions, DoAsk(w, p, key, packet).sessions)
  {
    if Decide(Find(w.sessions, key), key, FirstPhase(packet)) in {Some(Sign), Some(Resign)} {
      AskWriteKeeps(w, p, key, packet);
    } else {
      forall k ensures HandedOk(DoAsk(w, p, key, packet), k) { assert HandedOk(w, k); }
    }
  }

  lemma HandKeeps(w: World, p: nat, answer: Option<string>)
    requires Inv(w) && p in w.procs && w.procs[p].Cosigning?
    ensures Inv(DoHand(w, p, answer)) && DoHand(w, p, answer).sessions == w.sessions
  {
    var w' := DoHand(w, p, answer);
    assert PcOk(w.sessions, w.procs[p]);
    forall q | q in w'.procs ensures PcOk(w'.sessions, w'.procs[q]) { assert PcOk(w.sessions, w.procs[q]); }
    forall k ensures HandedOk(w', k) { assert HandedOk(w, k); }
  }

  lemma StoreKeeps(w: World, p: nat, commits: bool)
    requires Inv(w) && p in w.procs && w.procs[p].Signed?
    ensures Inv(DoStore(w, p, commits)) && Grows(w.sessions, DoStore(w, p, commits).sessions)
  {
    var w' := DoStore(w, p, commits);
    var pc := w.procs[p];
    assert PcOk(w.sessions, pc);
    ApplyGrows(w.sessions, pc.key, StoreRequest(pc.packet, pc.signed));
    OthersKept(w, w'.sessions);
    forall k ensures HandedOk(w', k) { assert HandedOk(w.(sessions := w'.sessions), k); }
  }

  lemma StepKeeps(w: World, act: Action)
    requires Inv(w)
    ensures Inv(Next(w, act)) && Grows(w.sessions, Next(w, act).sessions)
  {
    match act
    case Ask(p, key, packet) => if p !in w.procs { AskKeeps(w, p, key, packet); }
    case Hand(p, answer) => if p in w.procs && w.procs[p].Cosigning? { HandKeeps(w, p, answer); }
    case Store(p, commits) => if p in w.procs && w.procs[p].Signed? { StoreKeeps(w, p, commits); }
    case Crash(p) =>
      forall k ensures HandedOk(Next(w, act), k) { assert HandedOk(w, k); }
  }

  lemma {:induction false} ExecKeeps(w: World, acts: seq<Action>)
    requires Inv(w)
    ensures Inv(Exec(w, acts)) && Grows(w.sessions, Exec(w, acts).sessions)
    decreases |acts|
  {
    if acts != [] {
      StepKeeps(w, acts[0]);
      ExecKeeps(Next(w, acts[0]), acts[1..]);
    }
  }

  // ---------- theorems over every run ----------

  /** All signed transitions ever returned for one outpoint and purpose pay one destination. */
  lemma OneDestination(acts: seq<Action>, a: Response, b: Response)
    requires a in Exec(EMPTY, acts).returned && b in Exec(EMPTY, acts).returned && a.key == b.key
    ensures a.signed.of.dest == b.signed.of.dest
  {
    ExecKeeps(EMPTY, acts);
    assert ResponseOk(Exec(EMPTY, acts).sessions, a) && ResponseOk(Exec(EMPTY, acts).sessions, b);
  }

  /** Until a signature is stored, at most one signature hash has been handed to the signers. */
  lemma OneSighashBeforeSignature(acts: seq<Action>, key: Key, a: string, b: string)
    requires var w := Exec(EMPTY, acts);
             && a in Handed(w, key) && b in Handed(w, key)
             && (key in w.sessions ==> w.sessions[key].signature.None?)
    ensures a == b
  {
    ExecKeeps(EMPTY, acts);
    assert HandedOk(Exec(EMPTY, acts), key);
  }

  /** A stored signature is never erased and a bound destination never changes. */
  lemma SignatureNeverErased(w: World, acts: seq<Action>, key: Key)
    requires Inv(w) && key in w.sessions
    ensures var t := Exec(w, acts).sessions;
            && key in t && t[key].dest == w.sessions[key].dest
            && (w.sessions[key].signature.Some? ==> t[key].signature.Some?)
  {
    ExecKeeps(w, acts);
  }

  /** Whatever is returned, fresh or replayed, has the submitted unsigned transaction. */
  lemma ReturnedMatchesAsked(acts: seq<Action>, r: Response)
    requires r in Exec(EMPTY, acts).returned
    ensures r.signed.of.txHash == r.asked.txHash && r.signed.of.dest == r.asked.dest
  {
    ExecKeeps(EMPTY, acts);
    assert ResponseOk(Exec(EMPTY, acts).sessions, r);
  }

  /** Running one request to the end without interference. */
  function Serve(w: World, p: nat, key: Key, packet: Packet, answer: string): World {
    Exec(w, [Ask(p, key, packet), Hand(p, Some(answer)), Store(p, true)])
  }

  /** A fee bump is signed and returned, but the row keeps the old packet under the new hash: the
      second phase finds an exact repeat and stores nothing. An exact retry of the bump is
      therefore answered if and only if the old packet has the bump's transaction. */
  lemma FeeBumpKeepsOldSignature(w: World, p: nat, key: Key, bump: Packet, answer: string)
    requires key in w.sessions && w.sessions[key].signature.Some? && key.vault != "" && key.txid != ""
    requires bump.dest == w.sessions[key].dest && bump.dest != "" && bump.sighash != ""
    requires bump.sighash != w.sessions[key].lastSighash && p !in w.procs
    ensures var u := Serve(w, p, key, bump, answer);
            && Response(key, bump, SignedPsbt(bump, answer)) in u.returned
            && Find(u.sessions, key) == Some(Session(bump.dest, bump.sighash, w.sessions[key].signature))
            && Decide(Find(u.sessions, key), key, FirstPhase(bump)) == Some(Repeat)
            && (Repeated(u.sessions, key, bump).Some? <==> w.sessions[key].signature.value.of.txHash == bump.txHash)
  {
    var acts := [Ask(p, key, bump), Hand(p, Some(answer)), Store(p, true)];
    var w1 := Next(w, acts[0]);
    assert w1.procs[p] == Cosigning(key, bump);
    var w2 := Next(w1, acts[1]);
    assert w2.procs[p] == Signed(key, bump, SignedPsbt(bump, answer));
    var w3 := Next(w2, acts[2]);
    assert acts[1..][1..] == acts[2..] && acts[2..][1..] == [];
    assert Exec(w2, acts[2..]) == w3;
    assert Exec(w1, acts[1..]) == w3;
  }

  // ---------- the stored row is what the requests of a run wrote ----------

  predicate Writes(existing: Option<Session>, key: Key, next: Request) {
    Decide(existing, key, next) in {Some(Sign), Some(Resign)}
  }

  /** The request that a step writes to the row, if it writes one. */
  function WriteOf(w: World, act: Action, key: Key): seq<Request> {
    match act
    case Ask(p, k, packet) =>
      if p !in w.procs && k == key && Writes(Find(w.sessions, key), key, FirstPhase(packet))
      then [FirstPhase(packet)] else []
    case Store(p, commits) =>
      if p in w.procs && w.procs[p].Signed? && w.procs[p].key == key && commits then
        var req := StoreRequest(w.procs[p].packet, w.procs[p].signed);
        if Writes(Find(w.sessions, key), key, req) then [req] else []
      else []
    case _ => []
  }

  /** The requests a run wrote to the row, in order. */
  function WriteLog(w: World, acts: seq<Action>, key: Key): seq<Request>
    decreases |acts|
  {
    if acts == [] then [] else WriteOf(w, acts[0], key) + WriteLog(Next(w, acts[0]), acts[1..], key)
  }

  /** The last signature hash written, from `hash` on. */
  function HashAfter(hash: string, log: seq<Request>): string
    decreases |log|
  {
    if log == [] then hash else HashAfter(if log[0].sighash == "" then hash else log[0].sighash, log[1..])
  }

  /** The last signed packet written, from `signed` on. */
  function SignedAfter(signed: Option<SignedPsbt>, log: seq<Request>): Option<SignedPsbt>
    decreases |log|
  {
    if log == [] then signed
    else SignedAfter(if log[0].signature.None? then signed else log[0].signature, log[1..])
  }

  function RowAfter(existing: Option<Session>, log: seq<Request>): Option<Session> {
    match existing
    case Some(e) => Some(Session(e.dest, HashAfter(e.lastSighash, log), SignedAfter(e.signature, log)))
    case None =>
      if log == [] then None else Some(Session(log[0].dest, HashAfter("", log), SignedAfter(None, log)))
  }

  /** One write merges the request into the row. */
  lemma OneWrite(existing: Option<Session>, req: Request)
    requires existing.Some? ==> existing.value.dest == req.dest
    ensures RowAfter(existing, [req]) == Some(Merged(existing, req))
  {
    assert [req][1..] == [];
    var e := if existing.Some? then existing.value else Session("", "", None);
    assert HashAfter(e.lastSighash, [req]) == if req.sighash == "" then e.lastSighash else req.sighash;
    assert SignedAfter(e.signature, [req]) == if req.signature.None? then e.signature else req.signature;
  }

  lemma StepWrites(w: World, act: Action, key: Key)
    ensures |WriteOf(w, act, key)| <= 1
    ensures Find(Next(w, act).sessions, key) == RowAfter(Find(w.sessions, key), WriteOf(w, act, key))
  {
    var log := WriteOf(w, act, key);
    if log != [] { OneWrite(Find(w.sessions, key), log[0]); }
  }

  lemma WriteFirst(hash: string, signed: Option<SignedPsbt>, first: Request, rest: seq<Request>)
    ensures HashAfter(hash, [first] + rest) == HashAfter(HashAfter(hash, [first]), rest)
    ensures SignedAfter(signed, [first] + rest) == SignedAfter(SignedAfter(signed, [first]), rest)
  {
    assert ([first] + rest)[1..] == rest && [first][1..] == [];
  }

  lemma RowAfterStep(existing: Option<Session>, first: seq<Request>, rest: seq<Request>)
    requires |first| <= 1
    ensures RowAfter(RowAfter(existing, first), rest) == RowAfter(existing, first + rest)
  {
    if first == [] {
      assert first + rest == rest;
    } else {
      var e := if existing.Some? then existing.value else Session("", "", None);
      assert first == [first[0]];
      WriteFirst(e.lastSighash, e.signature, first[0], rest);
    }
  }

  /** Over every run, with any interleaving and crashes, the row holds the last hash that was written and,
      independently of it, the last signed packet that was written. */
  lemma {:induction false} RowIsItsWrites(w: World, acts: seq<Action>, key: Key)
    ensures Find(Exec(w, acts).sessions, key) == RowAfter(Find(w.sessions, key), WriteLog(w, acts, key))
    decreases |acts|
  {
    if acts != [] {
      StepWrites(w, acts[0], key);
      RowIsItsWrites(Next(w, acts[0]), acts[1..], key);
      RowAfterStep(Find(w.sessions, key), WriteOf(w, acts[0], key), WriteLog(Next(w, acts[0]), acts[1..], key));
    }
  }

  /** After every run, the stored packet has the row's hash exactly when the last signed packet written
      has the last hash written. */
  lemma StoredPacketHasRowHashIff(acts: seq<Action>, key: Key)
    requires var t := Exec(EMPTY, acts).sessions; key in t && t[key].signature.Some?
    ensures var row, log := Exec(EMPTY, acts).sessions[key], WriteLog(EMPTY, acts, key);
            && SignedAfter(None, log).Some?
            && (row.signature.value.of.sighash == row.lastSighash <==>
                SignedAfter(None, log).value.of.sighash == HashAfter("", log))
  {
    RowIsItsWrites(EMPTY, acts, key);
  }

  /** The second phase over a row that already has a signature. */
  lemma StoreOverSignature(u: World, p: nat, key: Key, bump: Packet, signed: SignedPsbt)
    requires p in u.procs && u.procs[p] == Signed(key, bump, signed) && key.vault != "" && key.txid != ""
    requires key in u.sessions && u.sessions[key].signature.Some? && u.sessions[key].dest == bump.dest
    requires bump.dest != "" && bump.sighash != ""
    ensures Find(Next(u, Store(p, true)).sessions, key) ==
            if u.sessions[key].lastSighash == bump.sighash then Some(u.sessions[key])
            else Some(Session(bump.dest, bump.sighash, Some(signed)))
  {
  }

  lemma BumpAsked(w: World, p: nat, key: Key, bump: Packet)
    requires key in w.sessions && w.sessions[key].signature.Some? && key.vault != "" && key.txid != ""
    requires p !in w.procs && bump.dest == w.sessions[key].dest && bump.dest != ""
    requires bump.sighash != "" && bump.sighash != w.sessions[key].lastSighash
    ensures Next(w, Ask(p, key, bump)) ==
            w.(sessions := w.sessions[key := Session(bump.dest, bump.sighash, w.sessions[key].signature)],
               procs := w.procs[p := Cosigning(key, bump)])
  {
  }

  lemma {:induction false} SignedStays(signed: SignedPsbt, log: seq<Request>)
    ensures SignedAfter(Some(signed), log).Some?
    decreases |log|
  {
    if log != [] {
      SignedStays(if log[0].signature.None? then signed else log[0].signature.value, log[1..]);
    }
  }

  /** Whatever runs, a signed row keeps its destination and a signature, and has the last hash written. */
  lemma SignedRowAfter(v: World, mid: seq<Action>, key: Key, row: Session)
    requires Find(v.sessions, key) == Some(row) && row.signature.Some?
    ensures var u := Exec(v, mid).sessions;
            && key in u && u[key].dest == row.dest && u[key].signature.Some?
            && u[key].lastSighash == HashAfter(row.lastSighash, WriteLog(v, mid, key))
  {
    RowIsItsWrites(v, mid, key);
    SignedStays(row.signature.value, WriteLog(v, mid, key));
  }

  /** A signed fee bump, whatever ran between its two phases, replaces the stored packet exactly when the
      requests written in between left another hash in the row; otherwise the row stays as it is. */
  lemma BumpStoredIff(w: World, p: nat, key: Key, bump: Packet, mid: seq<Action>, signed: SignedPsbt)
    requires key in w.sessions && w.sessions[key].signature.Some? && key.vault != "" && key.txid != ""
    requires p !in w.procs && bump.dest == w.sessions[key].dest && bump.dest != ""
    requires bump.sighash != "" && bump.sighash != w.sessions[key].lastSighash
    requires var u := Exec(Next(w, Ask(p, key, bump)), mid); p in u.procs && u.procs[p] == Signed(key, bump, signed)
    ensures var v := Next(w, Ask(p, key, bump));
            var u := Exec(v, mid);
            && key in u.sessions
            && Find(Next(u, Store(p, true)).sessions, key) ==
               if HashAfter(bump.sighash, WriteLog(v, mid, key)) == bump.sighash then Some(u.sessions[key])
               else Some(Session(bump.dest, bump.sighash, Some(signed)))
  {
    var v := Next(w, Ask(p, key, bump));
    BumpAsked(w, p, key, bump);
    SignedRowAfter(v, mid, key, Session(bump.dest, bump.sighash, w.sessions[key].signature));
    StoreOverSignature(Exec(v, mid), p, key, bump, signed);
  }

  /** Two bumps whose first phases overlap: the first to finish replaces the stored packet. */
  lemma OverlappingBumpReplaces(w: World, p: nat, q: nat, key: Key, a: Packet, b: Packet, answer: string)
    requires key in w.sessions && w.sessions[key].signature.Some? && key.vault != "" && key.txid != ""
    requires p !in w.procs && q !in w.procs && p != q
    requires a.dest == b.dest == w.sessions[key].dest != "" && a.sighash != "" && b.sighash != ""
    requires w.sessions[key].lastSighash != a.sighash && a.sighash != b.sighash
    ensures var u := Exec(w, [Ask(p, key, a), Ask(q, key, b), Hand(p, Some(answer)), Store(p, true)]);
            Find(u.sessions, key) == Some(Session(a.dest, a.sighash, Some(SignedPsbt(a, answer))))
  {
    var v := Next(w, Ask(p, key, a));
    var v1 := Next(v, Ask(q, key, b));
    var v2 := Next(v1, Hand(p, Some(answer)));
    BumpAsked(w, p, key, a);
    BumpAsked(v, q, key, b);
    assert v2.procs[p] == Signed(key, a, SignedPsbt(a, answer)) && v2.sessions == v1.sessions;
    FourSteps(w, Ask(p, key, a), Ask(q, key, b), Hand(p, Some(answer)), Store(p, true));
  }

  lemma FourSteps(w: World, a: Action, b: Action, c: Action, d: Action)
    ensures Exec(w, [a, b, c, d]) == Next(Next(Next(Next(w, a), b), c), d)
  {
    assert [a, b, c, d][1..] == [b, c, d] && [b, c, d][1..] == [c, d] && [c, d][1..] == [d] && [d][1..] == [];
    var u := Next(Next(Next(w, a), b), c);
    assert Exec(u, [d]) == Next(u, d);
    assert Exec(Next(Next(w, a), b), [c, d]) == Exec(u, [d]);
    assert Exec(Next(w, a), [b, c, d]) == Exec(Next(Next(w, a), b), [c, d]);
  }

  // ---------- which requests are served ----------

  /** A row that still waits for its signature serves only the request it was written for. */
  predicate Serves(row: Option<Session>, packet: Packet) {
    match row
    case None => true
    case Some(e) =>
      && e.dest == packet.dest
      && if e.signature.None? then packet.sighash != "" && packet.sighash == e.lastSighash
         else packet.sighash == "" || packet.sighash != e.lastSighash
  }

  /** A signed row answers an exact retry with the packet it holds, if that is the submitted transaction. */
  predicate AnswersStored(row: Option<Session>, packet: Packet) {
    && row.Some? && row.value.signature.Some? && row.value.dest == packet.dest
    && packet.sighash != "" && packet.sighash == row.value.lastSighash
    && row.value.signature.value.of.txHash == packet.txHash
  }

  /** Exactly when a request goes on to the signers, when it is answered from the row, and that it is
      otherwise refused without a trace. */
  lemma AskIff(w: World, p: nat, key: Key, packet: Packet)
    requires p !in w.procs
    ensures var u := Next(w, Ask(p, key, packet));
            var named := key.vault != "" && key.txid != "" && packet.dest != "";
            var row := Find(w.sessions, key);
            && p in u.procs
            && (u.procs[p] == Cosigning(key, packet) <==> named && Serves(row, packet))
            && (u.procs[p] != Cosigning(key, packet) ==> u.procs[p] == Returned && u.sessions == w.sessions)
            && u.returned == w.returned +
                 if named && AnswersStored(row, packet)
                 then {Response(key, packet, row.value.signature.value)} else {}
  {
  }

  /** A request whose process died before its signature was stored is served when it is asked again: the
      signature is stored and returned. */
  lemma LostRequestResumes(w: World, p: nat, key: Key, packet: Packet, answer: string)
    requires key in w.sessions && w.sessions[key].signature.None? && p !in w.procs
    requires key.vault != "" && key.txid != "" && packet.dest != "" && packet.sighash != ""
    requires w.sessions[key].dest == packet.dest && w.sessions[key].lastSighash == packet.sighash
    ensures var u := Serve(w, p, key, packet, answer);
            && Response(key, packet, SignedPsbt(packet, answer)) in u.returned
            && Find(u.sessions, key) == Some(Session(packet.dest, packet.sighash, Some(SignedPsbt(packet, answer))))
  {
    var acts := [Ask(p, key, packet), Hand(p, Some(answer)), Store(p, true)];
    var w1 := Next(w, acts[0]);
    assert w1.procs[p] == Cosigning(key, packet);
    assert w1.sessions[key] == Session(packet.dest, packet.sighash, None);
    var w2 := Next(w1, acts[1]);
    assert w2.procs[p] == Signed(key, packet, SignedPsbt(packet, answer)) && w2.sessions == w1.sessions;
    var w3 := Next(w2, acts[2]);
    assert acts[1..][1..] == acts[2..] && acts[2..][1..] == [];
    assert Exec(w2, acts[2..]) == w3;
    assert Exec(w1, acts[1..]) == w3;
  }
}
