/** The vault-board-v1 handlers as crashable concurrent processes over the durable tables.

    A process is one register, delete or finalize request. Between its store
    transactions and its Operator call it may be overtaken by any other process, and
    it may crash at any point. Every check that can only make a handler stop early
    (signing, chain revalidation, Operator dial, proof expiry margin) is the choice `GiveUp`,
    which reports an error or, for the checks made after signing, the answer of an unsent row.
 */
module BoardProtocol {
  import opened Prelude
  import opened BoardTables
  import opened BoardInvariant

  datatype Status = Accepted | NotSubmitted | Ambiguous | Error

  /** Where a handler stands. */
  datatype Pc =
    | Begun(k: RowKey, a: Auth)      // register attempt allocated, replay read not yet done
    | Ready(k: RowKey, a: Auth)      // signed; about to cross the durable dispatch boundary
    | MaySend(k: RowKey, a: Auth)    // this process created the dispatch row
    | Awaiting(k: RowKey, a: Auth)   // the artifact has left the process
    | Answered(k: RowKey, s: Submission) // a definite Operator answer is to be recorded
    | Returned(k: RowKey, status: Status) // the answer given about a row
    | Crashed

  /** What storage does to one transaction: it commits, it rolls back, or it commits and
      the handler only sees an error. */
  datatype Fault = Fine | RolledBack | ReplyLost

  datatype Reply = Ok(ref: string) | DefinitelyRejected | Unknown

  datatype Action =
    | Tick(to: int)
    | Enter(p: nat, o: Operation, r: RegisterRequest, claimed: nat, tip: int, fault: Fault)
    | Look(p: nat)
    | LookPhase(p: nat, k: RowKey, a: Auth)
    | GiveUp(p: nat, failed: bool)
    | Cross(p: nat, tip: int, fault: Fault)
    | Send(p: nat)
    | Answer(p: nat, reply: Reply)
    | Record(p: nat, fault: Fault)
    | Crash(p: nat)

  /** `sent` lists, per row, the digests that left the process, in order; `senders` says which
      process sent a row last; `replies` is what the Operator answered to a row; `tips` is the
      chain time each dispatch row was written under. All four are history. A crashed process
      keeps its number, so numbers are not reused. */
  datatype World = World(
    t: Tables, now: int, delay: int, procs: map<nat, Pc>,
    sent: map<RowKey, seq<Blob>>, senders: map<RowKey, nat>, replies: map<RowKey, Reply>, tips: map<RowKey, int>)

  function Start(delay: int): World { World(EMPTY, 0, delay, map[], map[], map[], map[], map[]) }

  // ---------- one step ----------

  /** After BeginVaultBoardAttempt: the prepared attempt must still be the one allocated. */
  function EnterPc(res: Result, o: Operation, r: RegisterRequest, claimed: nat, fault: Fault): Pc {
    if fault != Fine || res.Failed? || res.attempt != claimed then Returned(Reg(o.key, claimed), Error)
    else Begun(Reg(o.key, res.attempt), RegisterAuth(r))
  }

  /** The register handler re-reads the current attempt before it signs. */
  function LookPc(t: Tables, k: RowKey, a: Auth): Pc {
    if Latest(t, k.op) != Some(k.attempt) || k !in t.auths || t.auths[k].digest != a.digest then Returned(k, Error)
    else if k in t.subs then Returned(k, if t.subs[k].outcome == Submitted then Accepted else NotSubmitted)
    else if k in t.dispatches then Returned(k, Ambiguous)
    else Ready(k, a)
  }

  /** The delete and finalize handlers start from a snapshot of the current attempt. */
  function LookPhasePc(t: Tables, k: RowKey, a: Auth): Pc {
    if k.phase == Register || Latest(t, k.op) != Some(k.attempt) then Returned(k, Error)
    else if k.phase == Finalize
         && !(Reg(k.op, k.attempt) in t.subs && t.subs[Reg(k.op, k.attempt)].outcome == Submitted)
    then Returned(k, Error)
    else if k in t.subs then Returned(k, Accepted)
    else if k in t.dispatches then Returned(k, Ambiguous)
    else Ready(k, a)
  }

  /** What a handler that sent nothing may say. */
  function Unsent(k: RowKey): Status { if k.phase == Register then NotSubmitted else Ambiguous }

  function CrossResult(t: Tables, k: RowKey, a: Auth, tip: int, delay: int): Result {
    if k.phase == Register then DispatchResult(t, k, a.digest, tip, delay) else PhaseResult(t, k, a, tip, delay)
  }

  function CrossTables(t: Tables, k: RowKey, a: Auth, tip: int, delay: int): Tables {
    if k.phase == Register then Dispatch(t, k, a.digest, tip, delay) else AuthorizeAndDispatch(t, k, a, tip, delay)
  }

  /** Only the process that created the dispatch row goes on to send. */
  function CrossPc(res: Result, k: RowKey, a: Auth, fault: Fault): Pc {
    if fault != Fine || res.Failed? then Returned(k, Unsent(k))
    else if res.Existing? then Returned(k, Ambiguous)
    else MaySend(k, a)
  }

  function AnswerPc(k: RowKey, a: Auth, reply: Reply): Pc {
    match (k.phase, reply)
    case (Register, Ok(ref)) => Answered(k, Submission(a.digest, Submitted, ref, "", "", 0))
    case (Register, DefinitelyRejected) => Answered(k, Submission(a.digest, Rejected, "", "", "", 0))
    case (Delete, Ok(_)) => Answered(k, Submission(a.digest, Released, "", "", "", 0))
    case (Finalize, Ok(_)) =>
      Answered(k, Submission(a.digest, Submitted, "", a.commitmentTxid, a.receiverTxid, a.receiverVout))
    case _ => Returned(k, Ambiguous)
  }

  function RecordPc(res: Result, k: RowKey, s: Submission, fault: Fault): Pc {
    if fault != Fine || res.Failed? then Returned(k, Ambiguous)
    else Returned(k, if s.outcome == Rejected then NotSubmitted else Accepted)
  }

  /** An action is enabled when its process stands where the action starts. */
  predicate Enabled(w: World, act: Action) {
    match act
    case Tick(to) => w.now <= to
    case Enter(p, _, _, _, _, _) => p !in w.procs
    case Look(p) => p in w.procs && w.procs[p].Begun?
    case LookPhase(p, _, _) => p !in w.procs
    case GiveUp(p, _) => p in w.procs && (w.procs[p].Begun? || w.procs[p].Ready?)
    case Cross(p, _, _) => p in w.procs && w.procs[p].Ready?
    case Send(p) => p in w.procs && w.procs[p].MaySend?
    case Answer(p, _) => p in w.procs && w.procs[p].Awaiting?
    case Record(p, _) => p in w.procs && w.procs[p].Answered?
    case Crash(p) => p in w.procs
  }

  /** The tables one step leaves behind. */
  function NextTables(w: World, act: Action): Tables
    requires Enabled(w, act)
  {
    match act
    case Enter(_, o, r, _, tip, fault) =>
      if fault == RolledBack then w.t else Begin(w.t, o, r, tip, w.now, w.delay)
    case Cross(p, tip, fault) =>
      if fault == RolledBack then w.t else CrossTables(w.t, w.procs[p].k, w.procs[p].a, tip, w.delay)
    case Record(p, fault) =>
      if fault == RolledBack then w.t else Submit(w.t, w.procs[p].k, w.procs[p].s)
    case _ => w.t
  }

  /** Where the acting process stands after the step. */
  function NextPc(w: World, act: Action): Pc
    requires Enabled(w, act) && !act.Tick? && !act.Crash?
  {
    match act
    case Enter(_, o, r, claimed, tip, fault) =>
      EnterPc(BeginResult(w.t, o, r, tip, w.now, w.delay), o, r, claimed, fault)
    case Look(p) => LookPc(w.t, w.procs[p].k, w.procs[p].a)
    case LookPhase(_, k, a) => LookPhasePc(w.t, k, a)
    case GiveUp(p, failed) =>
      var k := w.procs[p].k;
      Returned(k, if failed || w.procs[p].Begun? then Error else Unsent(k))
    case Cross(p, tip, fault) =>
      var k, a := w.procs[p].k, w.procs[p].a;
      CrossPc(CrossResult(w.t, k, a, tip, w.delay), k, a, fault)
    case Send(p) => Awaiting(w.procs[p].k, w.procs[p].a)
    case Answer(p, reply) => AnswerPc(w.procs[p].k, w.procs[p].a, reply)
    case Record(p, fault) =>
      var k, s := w.procs[p].k, w.procs[p].s;
      RecordPc(SubmitResult(w.t, k, s), k, s, fault)
  }

  function NextSent(w: World, act: Action): map<RowKey, seq<Blob>>
    requires Enabled(w, act)
  {
    match act
    case Send(p) =>
      var k := w.procs[p].k;
      w.sent[k := (if k in w.sent then w.sent[k] else []) + [w.procs[p].a.digest]]
    case _ => w.sent
  }

  function NextSenders(w: World, act: Action): map<RowKey, nat>
    requires Enabled(w, act)
  {
    match act
    case Send(p) => w.senders[w.procs[p].k := p]
    case _ => w.senders
  }

  function NextReplies(w: World, act: Action): map<RowKey, Reply>
    requires Enabled(w, act)
  {
    match act
    case Answer(p, reply) => w.replies[w.procs[p].k := reply]
    case _ => w.replies
  }

  function NextTips(w: World, act: Action): map<RowKey, int>
    requires Enabled(w, act)
  {
    match act
    case Cross(p, tip, fault) =>
      var k := w.procs[p].k;
      var res := CrossResult(w.t, k, w.procs[p].a, tip, w.delay);
      if fault != RolledBack && res.Created? then w.tips[k := tip] else w.tips
    case _ => w.tips
  }

  function Next(w: World, act: Action): World {
    if !Enabled(w, act) then w
    else
      match act
      case Tick(to) => w.(now := to)
      case Crash(p) => w.(procs := w.procs[p := Crashed])
      case _ =>
        World(NextTables(w, act), w.now, w.delay, w.procs[act.p := NextPc(w, act)],
              NextSent(w, act), NextSenders(w, act), NextReplies(w, act), NextTips(w, act))
  }

  /** The world after a finite run. */
  function Exec(w: World, acts: seq<Action>): World
    decreases |acts|
  {
    if acts == [] then w else Exec(Next(w, acts[0]), acts[1..])
  }

  // ---------- the protocol invariant ----------

  /** A process may send only under a dispatch row it created, and only once. */
  ghost predicate PcOk(w: World, pc: Pc) {
    match pc
    case MaySend(k, a) => k in w.t.dispatches && w.t.dispatches[k] == a.digest && k !in w.sent
    case Awaiting(k, a) => k in w.sent && k in w.t.dispatches && w.t.dispatches[k] == a.digest
    case Answered(k, s) => k in w.sent && k in w.t.dispatches && w.t.dispatches[k] == s.digest
    case _ => true
  }

  /** At most one process holds the right to send a given row. */
  ghost predicate OneSender(w: World) {
    forall p, q | p in w.procs && q in w.procs && w.procs[p].MaySend? && w.procs[q].MaySend? ::
      w.procs[p].k == w.procs[q].k ==> p == q
  }

  /** What left the process for a row is exactly the one digest of its dispatch row, and a
      result is recorded only for a row that was sent. */
  ghost predicate SentOk(w: World) {
    && (forall k :: k in w.sent ==> k in w.t.dispatches && w.sent[k] == [w.t.dispatches[k]])
    && (forall k :: k in w.t.subs ==> k in w.sent)
  }

  /** Every dispatch row was written before the recovery leaf matured. */
  ghost predicate InTime(w: World) {
    forall k :: k in w.t.dispatches ==>
      k.op in w.t.ops && k in w.tips && w.tips[k] < w.t.ops[k.op].anchorMtp + w.delay
  }

  ghost predicate Protocol(w: World) {
    && (forall p :: p in w.procs ==> PcOk(w, w.procs[p]))
    && OneSender(w) && SentOk(w) && InTime(w)
  }

  ghost predicate Safe(w: World) {
    Inv(w.t, w.now) && w.now >= 0 && Protocol(w)
  }

  // ---------- the protocol facts are kept, whatever the table invariant says ----------

  /** Operations keep their facts. */
  ghost predicate SameOps(t: Tables, u: Tables) {
    forall op :: op in t.ops ==> op in u.ops && u.ops[op] == t.ops[op]
  }

  /** A step of one process that dispatches and sends nothing. */
  lemma QuietProtocol(w: World, u: Tables, p: nat, pc: Pc)
    requires Protocol(w) && SameOps(w.t, u) && u.dispatches == w.t.dispatches
    requires forall k :: k in u.subs ==> k in w.sent
    requires !pc.MaySend? && PcOk(w, pc)
    ensures Protocol(w.(t := u, procs := w.procs[p := pc]))
  {
    var w' := w.(t := u, procs := w.procs[p := pc]);
    forall q | q in w'.procs ensures PcOk(w', w'.procs[q]) {
      if q != p { assert PcOk(w, w.procs[q]); }
    }
  }

  lemma EnterProtocol(w: World, act: Action)
    requires Protocol(w) && act.Enter? && Enabled(w, act)
    ensures Protocol(Next(w, act))
  {
    var u := NextTables(w, act);
    assert u.dispatches == w.t.dispatches && u.subs == w.t.subs && SameOps(w.t, u);
    QuietProtocol(w, u, act.p, NextPc(w, act));
  }

  /** Crossing the boundary creates at most the one dispatch row, in time. */
  lemma CrossRow(t: Tables, k: RowKey, a: Auth, tip: int, delay: int)
    ensures var u := CrossTables(t, k, a, tip, delay); u.subs == t.subs && u.ops == t.ops
    ensures var u := CrossTables(t, k, a, tip, delay);
            if CrossResult(t, k, a, tip, delay).Created?
            then k !in t.dispatches && u.dispatches == t.dispatches[k := a.digest]
                 && k.op in t.ops && tip < t.ops[k.op].anchorMtp + delay
            else u.dispatches == t.dispatches
  {
  }

  /** The creator of a dispatch row becomes its only sender. */
  lemma SenderProtocol(w: World, u: Tables, p: nat, k: RowKey, a: Auth, pc: Pc, tip: int)
    requires Protocol(w) && u.ops == w.t.ops && u.subs == w.t.subs
    requires k !in w.t.dispatches && u.dispatches == w.t.dispatches[k := a.digest]
    requires k.op in w.t.ops && tip < w.t.ops[k.op].anchorMtp + w.delay
    requires pc == MaySend(k, a) || pc.Returned?
    ensures Protocol(w.(t := u, procs := w.procs[p := pc], tips := w.tips[k := tip]))
  {
    var w' := w.(t := u, procs := w.procs[p := pc], tips := w.tips[k := tip]);
    forall q | q in w'.procs ensures PcOk(w', w'.procs[q]) {
      if q != p { assert PcOk(w, w.procs[q]); }
    }
    NoSenderYet(w, k);
  }

  lemma NoSenderYet(w: World, k: RowKey)
    requires Protocol(w) && k !in w.t.dispatches
    ensures forall q :: q in w.procs && w.procs[q].MaySend? ==> w.procs[q].k != k
  {
    forall q | q in w.procs && w.procs[q].MaySend? ensures w.procs[q].k != k {
      assert PcOk(w, w.procs[q]);
    }
  }

  lemma CrossProtocol(w: World, act: Action)
    requires Protocol(w) && act.Cross? && Enabled(w, act)
    ensures Protocol(Next(w, act))
  {
    var p, tip := act.p, act.tip;
    var k, a := w.procs[p].k, w.procs[p].a;
    CrossRow(w.t, k, a, tip, w.delay);
    if act.fault != RolledBack && CrossResult(w.t, k, a, tip, w.delay).Created? {
      SenderProtocol(w, NextTables(w, act), p, k, a, NextPc(w, act), tip);
    } else {
      QuietProtocol(w, NextTables(w, act), p, NextPc(w, act));
    }
  }

  lemma SendProtocol(w: World, act: Action)
    requires Protocol(w) && act.Send? && Enabled(w, act)
    ensures Protocol(Next(w, act))
  {
    var p, w' := act.p, Next(w, act);
    assert PcOk(w, w.procs[p]);
    forall q | q in w'.procs ensures PcOk(w', w'.procs[q]) {
      if q != p { assert PcOk(w, w.procs[q]); }
    }
  }

  lemma RecordProtocol(w: World, act: Action)
    requires Protocol(w) && act.Record? && Enabled(w, act)
    ensures Protocol(Next(w, act))
  {
    assert PcOk(w, w.procs[act.p]);
    QuietProtocol(w, NextTables(w, act), act.p, NextPc(w, act));
  }

  /** The steps that leave the tables alone. */
  lemma LocalProtocol(w: World, act: Action)
    requires Protocol(w) && Enabled(w, act)
    requires act.Look? || act.LookPhase? || act.GiveUp? || act.Crash?
    ensures Protocol(Next(w, act))
  {
    QuietProtocol(w, w.t, act.p, if act.Crash? then Crashed else NextPc(w, act));
  }

  lemma AnswerProtocol(w: World, act: Action)
    requires Protocol(w) && Enabled(w, act) && act.Answer?
    ensures Protocol(Next(w, act))
  {
    assert PcOk(w, w.procs[act.p]);
    QuietProtocol(w, w.t, act.p, NextPc(w, act));
    RepliesAside(w.(procs := w.procs[act.p := NextPc(w, act)]), NextReplies(w, act));
  }

  /** What the Operator answered is no part of the protocol facts. */
  lemma RepliesAside(w: World, replies: map<RowKey, Reply>)
    requires Protocol(w)
    ensures Protocol(w.(replies := replies))
  {
    var v := w.(replies := replies);
    forall p | p in v.procs ensures PcOk(v, v.procs[p]) { assert PcOk(w, w.procs[p]); }
  }

  lemma TickProtocol(w: World, to: int)
    requires Protocol(w)
    ensures Protocol(w.(now := to))
  {
    var w' := w.(now := to);
    forall p | p in w'.procs ensures PcOk(w', w'.procs[p]) { assert PcOk(w, w.procs[p]); }
  }

  lemma StepProtocol(w: World, act: Action)
    requires Protocol(w)
    ensures Protocol(Next(w, act))
  {
    if Enabled(w, act) {
      match act
      case Tick(to) => TickProtocol(w, to);
      case Enter(_, _, _, _, _, _) => EnterProtocol(w, act);
      case Cross(_, _, _) => CrossProtocol(w, act);
      case Send(_) => SendProtocol(w, act);
      case Answer(_, _) => AnswerProtocol(w, act);
      case Record(_, _) => RecordProtocol(w, act);
      case _ => LocalProtocol(w, act);
    }
  }

  // ---------- the table invariant is kept ----------

  lemma TablesKeep(w: World, act: Action)
    requires Inv(w.t, w.now) && w.now >= 0 && Enabled(w, act)
    ensures Inv(NextTables(w, act), w.now) && Advances(w.t, NextTables(w, act))
  {
    match act
    case Enter(p, o, r, _, tip, fault) => BeginKeeps(w.t, o, r, tip, w.now, w.delay);
    case Cross(p, tip, fault) =>
      var k, a := w.procs[p].k, w.procs[p].a;
      if k.phase == Register { DispatchKeeps(w.t, k, a.digest, tip, w.delay, w.now); }
      else { PhaseKeeps(w.t, k, a, tip, w.delay, w.now); }
    case Record(p, fault) => SubmitKeeps(w.t, w.procs[p].k, w.procs[p].s, w.now);
    case _ =>
  }

  lemma StepSafe(w: World, act: Action)
    requires Safe(w)
    ensures Safe(Next(w, act)) && Advances(w.t, Next(w, act).t)
  {
    StepProtocol(w, act);
    if Enabled(w, act) {
      TablesKeep(w, act);
      TickKeeps(NextTables(w, act), w.now, Next(w, act).now);
    }
  }

  lemma {:induction false} ExecSafe(w: World, acts: seq<Action>)
    requires Safe(w)
    ensures Safe(Exec(w, acts))
    decreases |acts|
  {
    if acts != [] {
      StepSafe(w, acts[0]);
      ExecSafe(Next(w, acts[0]), acts[1..]);
    }
  }

  lemma StartSafe(delay: int)
    ensures Safe(Start(delay))
  {
    var t := EMPTY;
    forall op, a: nat ensures AttemptOk(t, op, a, 0) { }
    forall op, a: nat, b: nat ensures Differ(t, op, a, b) { }
  }

  // ---------- theorems over every run ----------

  /** Every run from the empty ledger, however requests interleave, fail and crash, is safe. */
  lemma EveryRunSafe(delay: int, acts: seq<Action>)
    ensures Safe(Exec(Start(delay), acts))
  {
    StartSafe(delay);
    ExecSafe(Start(delay), acts);
  }

  lemma AdvanceFreezes(t: Tables, u: Tables, a: nat, k: RowKey, now: int)
    requires Inv(t, now) && Advances(t, u) && Reg(k.op, a + 1) in t.auths && k.attempt <= a
    ensures SameRow(t, u, k) && Reg(k.op, a + 1) in u.auths
  {
    NoGaps(t, k.op, k.attempt + 1, a + 1, now);
  }

  /** Once attempt a+1 exists, no later step of any run adds or changes a row of attempts up to a. */
  lemma {:induction false} SupersededRowsFrozen(w: World, acts: seq<Action>, a: nat, k: RowKey)
    requires Safe(w) && Reg(k.op, a + 1) in w.t.auths && k.attempt <= a
    ensures SameRow(w.t, Exec(w, acts).t, k)
    decreases |acts|
  {
    if acts != [] {
      StepSafe(w, acts[0]);
      AdvanceFreezes(w.t, Next(w, acts[0]).t, a, k, w.now);
      SupersededRowsFrozen(Next(w, acts[0]), acts[1..], a, k);
    }
  }

  /** A registration the Operator may still act on: dispatched, not rejected, not released, and not yet 30
      seconds past its expiry. */
  ghost predicate PossiblyLive(t: Tables, op: OpKey, a: nat, now: int) {
    && Reg(op, a) in t.dispatches
    && !(Reg(op, a) in t.subs && t.subs[Reg(op, a)].outcome == Rejected)
    && Del(op, a) !in t.subs
    && (Reg(op, a) in t.auths ==> now < t.auths[Reg(op, a)].expireAt + 30)
  }

  /** At every moment of every run at most one attempt of an outpoint is possibly live. */
  lemma OneLiveAttempt(delay: int, acts: seq<Action>, op: OpKey, a: nat, b: nat)
    requires var w := Exec(Start(delay), acts); PossiblyLive(w.t, op, a, w.now) && PossiblyLive(w.t, op, b, w.now)
    ensures a == b
  {
    var w := Exec(Start(delay), acts);
    EveryRunSafe(delay, acts);
    assert AttemptOk(w.t, op, a, w.now) && AttemptOk(w.t, op, b, w.now);
    if a < b { NoGaps(w.t, op, a + 1, b, w.now); }
    if b < a { NoGaps(w.t, op, b + 1, a, w.now); }
  }

  /** Each (operation, attempt, phase) leaves the process at most once over a whole run, and
      only under a durable authorization and dispatch row with the same digest, written
      before the recovery leaf matured. */
  lemma SentAtMostOnce(delay: int, acts: seq<Action>, k: RowKey)
    requires k in Exec(Start(delay), acts).sent
    ensures var w := Exec(Start(delay), acts);
            && k in w.t.dispatches && w.sent[k] == [w.t.dispatches[k]]
            && k in w.t.auths && w.t.auths[k].digest == w.t.dispatches[k]
            && k.op in w.t.ops && k in w.tips && w.tips[k] < w.t.ops[k.op].anchorMtp + delay
  {
    var w := Exec(Start(delay), acts);
    EveryRunSafe(delay, acts);
    DelayKept(Start(delay), acts);
    assert AttemptOk(w.t, k.op, k.attempt, w.now);
    PhaseCases(k);
  }

  lemma {:induction false} DelayKept(w: World, acts: seq<Action>)
    ensures Exec(w, acts).delay == w.delay
    decreases |acts|
  {
    if acts != [] { DelayKept(Next(w, acts[0]), acts[1..]); }
  }

  /** A finalized attempt is the last one of its operation, for good, and is never released. */
  lemma FinalIsLast(t: Tables, k: RowKey, b: nat, now: int)
    requires Inv(t, now) && k in t.auths && k.phase == Finalize
    ensures Reg(k.op, b) in t.auths ==> b <= k.attempt
    ensures Fin(k.op, b) in t.auths ==> b <= k.attempt
    ensures Del(k.op, k.attempt) !in t.auths
  {
    assert k == Fin(k.op, k.attempt);
    assert AttemptOk(t, k.op, k.attempt, now) && AttemptOk(t, k.op, b, now);
    if Reg(k.op, b) in t.auths && k.attempt < b { NoGaps(t, k.op, k.attempt + 1, b, now); }
  }

  /** At most one final commitment is ever sent for a boarding outpoint. */
  lemma OneCommitment(delay: int, acts: seq<Action>, k: RowKey, l: RowKey)
    requires var w := Exec(Start(delay), acts); k in w.sent && l in w.sent
    requires k.phase == Finalize && l.phase == Finalize && k.op == l.op
    ensures k == l && |Exec(Start(delay), acts).sent[k]| == 1
  {
    var w := Exec(Start(delay), acts);
    EveryRunSafe(delay, acts);
    SentAtMostOnce(delay, acts, k);
    SentAtMostOnce(delay, acts, l);
    assert k == Fin(k.op, k.attempt) && l == Fin(l.op, l.attempt);
    FinalIsLast(w.t, k, l.attempt, w.now);
    FinalIsLast(w.t, l, k.attempt, w.now);
  }
}
