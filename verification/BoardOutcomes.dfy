/** What a vault-board-v1 answer tells the wallet, and which attempts can never be resolved. */
module BoardOutcomes {
  import opened Prelude
  import opened BoardTables
  import opened BoardInvariant
  import opened BoardProtocol
  import opened BoardStatus

  // ---------- what an answer means ----------

  /** No artifact of any row left through this process. */
  ghost predicate SentNothing(w: World, p: nat) {
    forall k :: k in w.senders ==> w.senders[k] != p
  }

  ghost predicate RejectedRow(t: Tables, k: RowKey) { k in t.subs && t.subs[k].outcome == Rejected }

  ghost predicate AcceptedRow(t: Tables, k: RowKey) { k in t.subs && t.subs[k].outcome != Rejected }

  /** What stands behind the position of a process. */
  ghost predicate Honest(w: World, p: nat, pc: Pc) {
    match pc
    case Returned(k, Accepted) => AcceptedRow(w.t, k)
    case Returned(k, NotSubmitted) => RejectedRow(w.t, k) || SentNothing(w, p)
    case Returned(_, Error) => SentNothing(w, p)
    case Begun(k, _) => k.phase == Register && SentNothing(w, p)
    case Ready(_, _) => SentNothing(w, p)
    case MaySend(_, _) => SentNothing(w, p)
    case _ => true
  }

  ghost predicate AllHonest(w: World) {
    && w.senders.Keys == w.sent.Keys
    && (forall k :: k in w.senders ==> w.senders[k] in w.procs)
    && (forall p :: p in w.procs ==> Honest(w, p, w.procs[p]))
  }

  /** A step of one process cannot make what stands behind another one false. */
  lemma OthersHonest(w: World, w': World, p: nat)
    requires AllHonest(w) && Extends(w.t, w'.t)
    requires forall k :: k in w'.senders ==> (k in w.senders && w'.senders[k] == w.senders[k]) || w'.senders[k] == p
    requires w'.procs.Keys == w.procs.Keys + {p}
    requires forall q :: q in w.procs && q != p ==> w'.procs[q] == w.procs[q]
    requires Honest(w', p, w'.procs[p]) && w'.senders.Keys == w'.sent.Keys
    ensures AllHonest(w')
  {
    forall q | q in w'.procs ensures Honest(w', q, w'.procs[q]) {
      if q != p { assert Honest(w, q, w.procs[q]); }
    }
  }

  /** Register rows hold an acceptance or a rejection, the other phases only acceptances. */
  lemma OutcomeByPhase(t: Tables, k: RowKey, now: int)
    requires Inv(t, now) && k in t.subs
    ensures k.phase == Register ==> t.subs[k].outcome == Submitted || t.subs[k].outcome == Rejected
    ensures k.phase != Register ==> t.subs[k].outcome != Rejected
  {
    assert AttemptOk(t, k.op, k.attempt, now);
    PhaseCases(k);
  }

  /** A process that has not sent speaks from the tables or from having sent nothing. */
  lemma LookHonest(w: World, act: Action)
    requires Safe(w) && AllHonest(w) && Enabled(w, act) && (act.Look? || act.LookPhase?)
    ensures Honest(Next(w, act), act.p, NextPc(w, act))
  {
    var k := if act.Look? then w.procs[act.p].k else act.k;
    if k in w.t.subs { OutcomeByPhase(w.t, k, w.now); }
    if act.Look? { LookFromTables(w, act, k); } else { LookPhaseFromTables(w, act, k); }
  }

  ghost predicate OutcomeFits(t: Tables, k: RowKey) {
    k in t.subs ==>
      if k.phase == Register then t.subs[k].outcome in {Submitted, Rejected} else t.subs[k].outcome != Rejected
  }

  lemma LookFromTables(w: World, act: Action, k: RowKey)
    requires AllHonest(w) && act.Look? && Enabled(w, act) && w.procs[act.p].k == k && OutcomeFits(w.t, k)
    ensures Honest(Next(w, act), act.p, NextPc(w, act))
  {
    assert Honest(w, act.p, w.procs[act.p]);
  }

  lemma LookPhaseFromTables(w: World, act: Action, k: RowKey)
    requires AllHonest(w) && act.LookPhase? && Enabled(w, act) && act.k == k && OutcomeFits(w.t, k)
    ensures Honest(Next(w, act), act.p, NextPc(w, act))
  {
  }

  lemma RecordHonest(w: World, act: Action)
    requires Enabled(w, act) && act.Record?
    ensures Honest(Next(w, act), act.p, NextPc(w, act))
  {
  }

  /** The acting process is honest about its own step. */
  lemma ActorHonest(w: World, act: Action)
    requires AllHonest(w) && Enabled(w, act) && !act.Tick? && !act.Look? && !act.LookPhase?
    ensures Honest(Next(w, act), act.p, Next(w, act).procs[act.p])
  {
    match act
    case GiveUp(p, _) => assert Honest(w, p, w.procs[p]);
    case Cross(p, _, _) => assert Honest(w, p, w.procs[p]);
    case Record(_, _) => RecordHonest(w, act);
    case _ =>
  }

  /** A step changes the position of its own process only, and records it as the sender of
      what it sends. */
  lemma StepHistory(w: World, act: Action)
    requires Enabled(w, act) && !act.Tick?
    ensures var w' := Next(w, act);
            && (forall k :: k in w'.senders ==>
                  (k in w.senders && w'.senders[k] == w.senders[k]) || w'.senders[k] == act.p)
            && w'.procs.Keys == w.procs.Keys + {act.p}
            && (forall q :: q in w.procs && q != act.p ==> w'.procs[q] == w.procs[q])
            && (w.senders.Keys == w.sent.Keys ==> w'.senders.Keys == w'.sent.Keys)
  {
  }

  lemma TickHonest(w: World, to: int)
    requires AllHonest(w)
    ensures AllHonest(w.(now := to))
  {
    forall p | p in w.procs ensures Honest(w.(now := to), p, w.procs[p]) { assert Honest(w, p, w.procs[p]); }
  }

  lemma AdvancesExtends(t: Tables, u: Tables)
    requires Advances(t, u)
    ensures Extends(t, u)
  {
  }

  lemma StepHonest(w: World, act: Action)
    requires Safe(w) && AllHonest(w)
    ensures AllHonest(Next(w, act))
  {
    if !Enabled(w, act) {
    } else if act.Tick? {
      TickHonest(w, act.to);
    } else {
      StepSafe(w, act);
      AdvancesExtends(w.t, Next(w, act).t);
      StepHistory(w, act);
      if act.Look? || act.LookPhase? { LookHonest(w, act); } else { ActorHonest(w, act); }
      OthersHonest(w, Next(w, act), act.p);
    }
  }

  lemma {:induction false} ExecHonest(w: World, acts: seq<Action>)
    requires Safe(w) && AllHonest(w)
    ensures AllHonest(Exec(w, acts))
    decreases |acts|
  {
    if acts != [] {
      StepSafe(w, acts[0]);
      StepHonest(w, acts[0]);
      ExecHonest(Next(w, acts[0]), acts[1..]);
    }
  }

  /** Over every run: "accepted" stands on a stored result that is not a rejection; "definitely
      not submitted" stands on a stored rejection or on this process having sent nothing at
      all; an error comes only from a process that sent nothing. */
  lemma AnswersAreHonest(delay: int, acts: seq<Action>, p: nat, k: RowKey, status: Status)
    requires var w := Exec(Start(delay), acts); p in w.procs && w.procs[p] == Returned(k, status)
    ensures var w := Exec(Start(delay), acts);
            && (status == Accepted ==> AcceptedRow(w.t, k))
            && (status == NotSubmitted ==> RejectedRow(w.t, k) || SentNothing(w, p))
            && (status == Error ==> SentNothing(w, p))
  {
    StartSafe(delay);
    ExecHonest(Start(delay), acts);
    var w := Exec(Start(delay), acts);
    assert Honest(w, p, w.procs[p]);
  }

  /** "Definitely not submitted" speaks for one handler only: of two handlers of the same
      register request, one sends while the other gives up and says so. */
  lemma NotSubmittedIsPerHandler(w: World, p: nat, q: nat, k: RowKey, a: Auth, tip: int)
    requires p in w.procs && q in w.procs && p != q && k.phase == Register
    requires w.procs[p] == Ready(k, a) && w.procs[q] == Ready(k, a)
    requires CrossResult(w.t, k, a, tip, w.delay).Created?
    ensures var v := Exec(w, [Cross(p, tip, Fine), Send(p), GiveUp(q, false)]);
            && q in v.procs && v.procs[q] == Returned(k, NotSubmitted)
            && k in v.sent && k in v.senders && v.senders[k] == p
  {
    CrossCreates(w, p, k, a, tip);
    SendSends(Next(w, Cross(p, tip, Fine)), p, k, a);
    ThreeSteps(w, Cross(p, tip, Fine), Send(p), GiveUp(q, false));
  }

  lemma CrossCreates(w: World, p: nat, k: RowKey, a: Auth, tip: int)
    requires p in w.procs && w.procs[p] == Ready(k, a) && CrossResult(w.t, k, a, tip, w.delay).Created?
    ensures Next(w, Cross(p, tip, Fine)).procs == w.procs[p := MaySend(k, a)]
  {
  }

  lemma SendSends(w: World, p: nat, k: RowKey, a: Auth)
    requires p in w.procs && w.procs[p] == MaySend(k, a)
    ensures var v := Next(w, Send(p));
            v.procs == w.procs[p := Awaiting(k, a)] && k in v.sent && v.senders == w.senders[k := p]
  {
  }

  lemma ThreeSteps(w: World, x: Action, y: Action, z: Action)
    ensures Exec(w, [x, y, z]) == Next(Next(Next(w, x), y), z)
    ensures Exec(w, [x, y]) == Next(Next(w, x), y)
    ensures Exec(w, [x]) == Next(w, x)
  {
    assert [x, y, z][1..] == [y, z] && [y, z][1..] == [z] && [z][1..] == [];
    assert [x, y][1..] == [y] && [y][1..] == [] && [x][1..] == [];
    assert Exec(Next(Next(w, x), y), [z]) == Next(Next(Next(w, x), y), z);
    assert Exec(Next(w, x), [y, z]) == Exec(Next(Next(w, x), y), [z]);
    assert Exec(w, [x, y]) == Exec(Next(w, x), [y]);
  }

  // ---------- registrations that can never be resolved ----------

  /** This process can still bring a result for the row into the tables. */
  predicate CanRecord(pc: Pc, k: RowKey) {
    || ((pc.MaySend? || pc.Awaiting?) && pc.k == k)
    || (pc.Answered? && pc.k == k && ValidSubmission(k.phase, pc.s))
  }

  /** The latest attempt has a dispatched register without a result. */
  ghost predicate Pending(t: Tables, op: OpKey, a: nat) {
    Latest(t, op) == Some(a) && Reg(op, a) in t.dispatches && Reg(op, a) !in t.subs
  }

  /** A pending register that no process can record a result for. */
  ghost predicate Stuck(w: World, op: OpKey, a: nat) {
    && Pending(w.t, op, a)
    && forall p :: p in w.procs ==> !CanRecord(w.procs[p], Reg(op, a))
  }

  /** A dispatched register without a result is always the latest attempt. */
  lemma UnresolvedIsLatest(t: Tables, op: OpKey, a: nat, now: int)
    requires Inv(t, now) && Reg(op, a) in t.dispatches && Reg(op, a) !in t.subs
    ensures Pending(t, op, a)
  {
    LatestIs(t, op);
    assert AttemptOk(t, op, a, now);
    if a < Latest(t, op).value { NoGaps(t, op, a + 1, Latest(t, op).value, now); }
  }

  /** The latest attempt depends only on which register rows exist. */
  lemma LatestSame(t: Tables, u: Tables, op: OpKey)
    requires forall a: nat :: Reg(op, a) in t.auths <==> Reg(op, a) in u.auths
    ensures Latest(t, op) == Latest(u, op)
  {
    LatestIs(t, op);
    LatestIs(u, op);
  }

  /** A pending attempt neither rotates nor gets a second dispatch row. */
  lemma EnterKeepsPending(w: World, act: Action, op: OpKey, a: nat)
    requires Pending(w.t, op, a) && act.Enter? && Enabled(w, act)
    ensures Pending(Next(w, act).t, op, a)
  {
    LatestIs(w.t, op);
    var res := BeginResult(w.t, act.o, act.r, act.tip, w.now, w.delay);
    assert act.o.key == op ==> !res.Created?;
    LatestSame(w.t, Next(w, act).t, op);
  }

  lemma CrossKeepsStuck(w: World, act: Action, op: OpKey, a: nat)
    requires Pending(w.t, op, a) && act.Cross? && Enabled(w, act)
    ensures Pending(Next(w, act).t, op, a) && !CanRecord(NextPc(w, act), Reg(op, a))
  {
    var k, auth := w.procs[act.p].k, w.procs[act.p].a;
    CrossRow(w.t, k, auth, act.tip, w.delay);
    LatestSame(w.t, Next(w, act).t, op);
  }

  lemma RecordKeepsStuck(w: World, act: Action, op: OpKey, a: nat)
    requires Stuck(w, op, a) && act.Record? && Enabled(w, act)
    ensures Pending(Next(w, act).t, op, a)
  {
    assert !CanRecord(w.procs[act.p], Reg(op, a));
  }

  lemma StepStuck(w: World, act: Action, op: OpKey, a: nat)
    requires Stuck(w, op, a)
    ensures Stuck(Next(w, act), op, a)
  {
    if Enabled(w, act) && !act.Tick? {
      if act.Enter? { EnterKeepsPending(w, act, op, a); }
      if act.Cross? { CrossKeepsStuck(w, act, op, a); }
      if act.Record? { RecordKeepsStuck(w, act, op, a); }
      if act.p in w.procs { assert !CanRecord(w.procs[act.p], Reg(op, a)); }
    }
  }

  /** Once stuck, always stuck: no continuation records a result, opens another attempt or
      makes the classifier answer anything but "blocked". */
  lemma {:induction false} StuckForever(w: World, acts: seq<Action>, op: OpKey, a: nat)
    requires Safe(w) && Stuck(w, op, a)
    ensures var v := Exec(w, acts);
            && Stuck(v, op, a)
            && (forall b: nat :: Reg(op, b) in v.t.auths ==> b <= a)
            && Current(v.t, op).Found?
            && Classify(Some(Current(v.t, op).snapshot), v.now) == Blocked(a)
    decreases |acts|
  {
    if acts == [] {
      LatestIs(w.t, op);
      CurrentReadable(w.t, op, w.now);
      ReadyIffCanRotate(w.t, op, w.now);
    } else {
      StepSafe(w, acts[0]);
      StepStuck(w, acts[0], op, a);
      StuckForever(Next(w, acts[0]), acts[1..], op, a);
    }
  }

  /** The row is ready for a result with this digest. */
  ghost predicate Awaited(t: Tables, k: RowKey, digest: Blob) {
    && k.phase == Register && k in t.auths && k in t.dispatches && k !in t.subs
    && t.auths[k].digest == digest && t.dispatches[k] == digest && |digest| == DIGEST_BYTES
  }

  lemma RecordFinishes(w: World, p: nat, k: RowKey, s: Submission)
    requires p in w.procs && w.procs[p] == Answered(k, s)
    requires Awaited(w.t, k, s.digest) && ValidSubmission(Register, s)
    ensures k in Next(w, Record(p, Fine)).t.subs
  {
  }

  lemma AnswerFinishes(w: World, p: nat, k: RowKey, a: Auth)
    requires p in w.procs && w.procs[p] == Awaiting(k, a) && Awaited(w.t, k, a.digest)
    ensures k in Next(Next(w, Answer(p, Ok("i"))), Record(p, Fine)).t.subs
  {
    var s := Submission(a.digest, Submitted, "i", "", "", 0);
    var v := Next(w, Answer(p, Ok("i")));
    assert v.procs[p] == Answered(k, s) && v.t == w.t;
    RecordFinishes(v, p, k, s);
  }

  lemma SendFinishes(w: World, p: nat, k: RowKey, a: Auth)
    requires p in w.procs && w.procs[p] == MaySend(k, a) && Awaited(w.t, k, a.digest)
    ensures k in Next(Next(Next(w, Send(p)), Answer(p, Ok("i"))), Record(p, Fine)).t.subs
  {
    var v := Next(w, Send(p));
    assert v.procs[p] == Awaiting(k, a) && v.t == w.t;
    AnswerFinishes(v, p, k, a);
  }

  lemma RecorderAwaited(w: World, p: nat, op: OpKey, a: nat)
    requires Safe(w) && Pending(w.t, op, a) && p in w.procs && CanRecord(w.procs[p], Reg(op, a))
    ensures var pc := w.procs[p];
            Awaited(w.t, Reg(op, a), if pc.Answered? then pc.s.digest else pc.a.digest)
  {
    assert PcOk(w, w.procs[p]) && AttemptOk(w.t, op, a, w.now);
  }

  /** A recorder can finish: one, two or three more steps store a result. */
  lemma RecorderFinishes(w: World, p: nat, k: RowKey)
    requires p in w.procs && CanRecord(w.procs[p], k)
    requires var pc := w.procs[p]; Awaited(w.t, k, if pc.Answered? then pc.s.digest else pc.a.digest)
    ensures exists acts: seq<Action> :: k in Exec(w, acts).t.subs
  {
    var pc := w.procs[p];
    var send, answer, record := Send(p), Answer(p, Ok("i")), Record(p, Fine);
    if pc.MaySend? {
      SendFinishes(w, p, k, pc.a);
      ThreeSteps(w, send, answer, record);
      assert k in Exec(w, [send, answer, record]).t.subs;
    } else if pc.Awaiting? {
      AnswerFinishes(w, p, k, pc.a);
      ThreeSteps(w, answer, record, record);
      assert k in Exec(w, [answer, record]).t.subs;
    } else {
      RecordFinishes(w, p, k, pc.s);
      ThreeSteps(w, record, record, record);
      assert k in Exec(w, [record]).t.subs;
    }
  }

  /** A dispatched register without a result is stuck exactly when no continuation ever
      records one. */
  lemma StuckIff(w: World, op: OpKey, a: nat)
    requires Safe(w) && Reg(op, a) in w.t.dispatches && Reg(op, a) !in w.t.subs
    ensures Stuck(w, op, a) <==> forall acts: seq<Action> :: Reg(op, a) !in Exec(w, acts).t.subs
  {
    UnresolvedIsLatest(w.t, op, a, w.now);
    if Stuck(w, op, a) {
      forall acts: seq<Action> ensures Reg(op, a) !in Exec(w, acts).t.subs { StuckForever(w, acts, op, a); }
    } else {
      var p :| p in w.procs && CanRecord(w.procs[p], Reg(op, a));
      RecorderAwaited(w, p, op, a);
      RecorderFinishes(w, p, Reg(op, a));
    }
  }

  /** A register whose dispatch committed but whose reply was lost is answered "definitely not
      submitted", and its outpoint is blocked from then on although nothing was sent. */
  lemma LostDispatchSticks(w: World, p: nat, k: RowKey, a: Auth, tip: int)
    requires Safe(w) && p in w.procs && w.procs[p] == Ready(k, a) && k.phase == Register
    requires CrossResult(w.t, k, a, tip, w.delay).Created?
    ensures var v := Next(w, Cross(p, tip, ReplyLost));
            v.procs[p] == Returned(k, NotSubmitted) && k !in v.sent && Stuck(v, k.op, k.attempt)
  {
    var v := Next(w, Cross(p, tip, ReplyLost));
    assert k == Reg(k.op, k.attempt);
    LatestSame(w.t, v.t, k.op);
    forall q | q in v.procs ensures !CanRecord(v.procs[q], k) {
      if q != p { assert PcOk(w, w.procs[q]); }
    }
  }

  /** A crash between the dispatch row and the Operator call blocks the outpoint in the same way. */
  lemma CrashBeforeSendSticks(w: World, p: nat, k: RowKey)
    requires Safe(w) && p in w.procs && w.procs[p].MaySend? && w.procs[p].k == k && k.phase == Register
    ensures Stuck(Next(w, Crash(p)), k.op, k.attempt) && k !in Next(w, Crash(p)).sent
  {
    assert PcOk(w, w.procs[p]) && k == Reg(k.op, k.attempt);
    UnresolvedIsLatest(w.t, k.op, k.attempt, w.now);
    forall q | q in w.procs && q != p ensures !CanRecord(w.procs[q], k) {
      assert PcOk(w, w.procs[q]);
    }
  }
}
