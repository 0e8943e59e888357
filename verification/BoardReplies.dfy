/** What the Operator said, row by row, against what the tables record and the handlers answer. */
module BoardReplies {
  import opened Prelude
  import opened BoardTables
  import opened BoardInvariant
  import opened BoardProtocol
  import opened BoardOutcomes

  // ---------- a recorded result is the Operator's reply ----------

  /** The result says what the reply said: a registration is submitted under the reference of an Ok and
      rejected on a definite rejection; a release and a commitment need an Ok, and the commitment's
      transactions are the authorized ones. */
  ghost predicate Tells(t: Tables, k: RowKey, reply: Reply, s: Submission) {
    match k.phase
    case Register =>
      || (reply.Ok? && s.outcome == Submitted && s.operatorRef == reply.ref)
      || (reply.DefinitelyRejected? && s.outcome == Rejected)
    case Delete => reply.Ok? && s.outcome == Released
    case Finalize =>
      && reply.Ok? && s.outcome == Submitted && k in t.auths
      && s.commitmentTxid == t.auths[k].commitmentTxid
      && s.receiverTxid == t.auths[k].receiverTxid && s.receiverVout == t.auths[k].receiverVout
  }

  /** A sender works for its stored authorization, is the only one the row has, and hears one reply. */
  ghost predicate PcTied(w: World, p: nat, pc: Pc) {
    match pc
    case MaySend(k, a) => k.phase != Register ==> k in w.t.auths && w.t.auths[k] == a
    case Awaiting(k, a) =>
      && (k.phase != Register ==> k in w.t.auths && w.t.auths[k] == a)
      && k in w.senders && w.senders[k] == p && k !in w.replies
    case Answered(k, s) =>
      k in w.senders && w.senders[k] == p && k in w.replies && Tells(w.t, k, w.replies[k], s)
    case _ => true
  }

  ghost predicate SubTied(w: World, k: RowKey) {
    k in w.t.subs ==> k in w.replies && Tells(w.t, k, w.replies[k], w.t.subs[k])
  }

  ghost predicate Tied(w: World) {
    && w.senders.Keys == w.sent.Keys && w.replies.Keys <= w.sent.Keys
    && (forall k :: SubTied(w, k))
    && (forall p :: p in w.procs ==> PcTied(w, p, w.procs[p]))
  }

  /** A step that keeps every reply and, but for the rows of process p, every sender. */
  ghost predicate KeepsLogs(w: World, v: World, p: nat) {
    && (forall k :: k in w.senders && w.senders[k] != p ==>
          && k in v.senders && v.senders[k] == w.senders[k]
          && (k in w.replies <==> k in v.replies))
    && (forall k :: k in w.replies ==> k in v.replies && v.replies[k] == w.replies[k])
  }

  lemma TellsKept(t: Tables, u: Tables, k: RowKey, reply: Reply, s: Submission)
    requires Tells(t, k, reply, s) && Extends(t, u)
    ensures Tells(u, k, reply, s)
  {
  }

  lemma OtherTied(w: World, v: World, p: nat, q: nat)
    requires Extends(w.t, v.t) && KeepsLogs(w, v, p) && q != p && q in w.procs && PcTied(w, q, w.procs[q])
    ensures PcTied(v, q, w.procs[q])
  {
    var pc := w.procs[q];
    if pc.Answered? { TellsKept(w.t, v.t, pc.k, w.replies[pc.k], pc.s); }
  }

  /** A step of one process that records nothing. */
  lemma QuietTied(w: World, v: World, p: nat)
    requires Tied(w) && Extends(w.t, v.t) && v.t.subs == w.t.subs && KeepsLogs(w, v, p)
    requires v.senders.Keys == v.sent.Keys && v.replies.Keys <= v.sent.Keys
    requires v.procs.Keys == w.procs.Keys + {p} && PcTied(v, p, v.procs[p])
    requires forall q :: q in w.procs && q != p ==> v.procs[q] == w.procs[q]
    ensures Tied(v)
  {
    forall q | q in v.procs ensures PcTied(v, q, v.procs[q]) {
      if q != p { OtherTied(w, v, p, q); }
    }
    forall k ensures SubTied(v, k) {
      assert SubTied(w, k);
      if k in w.t.subs { TellsKept(w.t, v.t, k, w.replies[k], w.t.subs[k]); }
    }
  }

  /** The acting process of every step that records nothing is tied afterwards, and no other log moves. */
  ghost predicate StepsTied(w: World, v: World, p: nat) {
    && p in v.procs && PcTied(v, p, v.procs[p]) && KeepsLogs(w, v, p)
    && v.t.subs == w.t.subs && v.replies.Keys <= v.sent.Keys
  }

  /** Crossing the boundary for delete or finalize stores the authorization that is then sent. */
  lemma CrossStores(t: Tables, k: RowKey, a: Auth, tip: int, delay: int)
    requires k.phase != Register && CrossResult(t, k, a, tip, delay).Created?
    ensures var u := CrossTables(t, k, a, tip, delay); k in u.auths && u.auths[k] == a
  {
  }

  lemma CrossTied(w: World, act: Action)
    requires Safe(w) && Tied(w) && Enabled(w, act) && act.Cross?
    ensures StepsTied(w, Next(w, act), act.p)
  {
    var k, a := w.procs[act.p].k, w.procs[act.p].a;
    CrossRow(w.t, k, a, act.tip, w.delay);
    if k.phase != Register && CrossResult(w.t, k, a, act.tip, w.delay).Created? {
      CrossStores(w.t, k, a, act.tip, w.delay);
    }
  }

  lemma SendTied(w: World, act: Action)
    requires Safe(w) && Tied(w) && Enabled(w, act) && act.Send?
    ensures StepsTied(w, Next(w, act), act.p)
  {
    assert PcOk(w, w.procs[act.p]) && PcTied(w, act.p, w.procs[act.p]);
  }

  lemma AnswerTied(w: World, act: Action)
    requires Safe(w) && Tied(w) && Enabled(w, act) && act.Answer?
    ensures StepsTied(w, Next(w, act), act.p)
  {
    assert PcTied(w, act.p, w.procs[act.p]);
    AnswerLogs(w, act);
  }

  lemma AnswerLogs(w: World, act: Action)
    requires Enabled(w, act) && act.Answer? && PcTied(w, act.p, w.procs[act.p])
    ensures KeepsLogs(w, Next(w, act), act.p) && PcTied(Next(w, act), act.p, NextPc(w, act))
  {
  }

  lemma RecordTied(w: World, act: Action)
    requires Safe(w) && Tied(w) && Enabled(w, act) && act.Record?
    ensures Tied(Next(w, act))
  {
    var v, pc := Next(w, act), w.procs[act.p];
    assert PcTied(w, act.p, pc);
    StepSafe(w, act);
    AdvancesExtends(w.t, v.t);
    RecordPcs(w, act);
    forall k ensures SubTied(v, k) {
      assert SubTied(w, k);
      RecordedTells(w, act, k);
    }
  }

  lemma RecordPcs(w: World, act: Action)
    requires Tied(w) && Enabled(w, act) && act.Record? && Extends(w.t, Next(w, act).t)
    ensures var v := Next(w, act);
            && v.senders == w.senders && v.sent == w.sent && v.replies == w.replies
            && forall q :: q in v.procs ==> PcTied(v, q, v.procs[q])
  {
    var v := Next(w, act);
    forall q | q in v.procs ensures PcTied(v, q, v.procs[q]) {
      if q != act.p { OtherTied(w, v, act.p, q); }
    }
  }

  lemma RecordedTells(w: World, act: Action, k: RowKey)
    requires Enabled(w, act) && act.Record? && SubTied(w, k) && PcTied(w, act.p, w.procs[act.p])
    ensures SubTied(Next(w, act), k)
  {
  }

  lemma StepTied(w: World, act: Action)
    requires Safe(w) && Tied(w)
    ensures Tied(Next(w, act))
  {
    if !Enabled(w, act) {
    } else if act.Tick? {
      TickTied(w, act.to);
    } else if act.Record? {
      RecordTied(w, act);
    } else {
      StepSafe(w, act);
      AdvancesExtends(w.t, Next(w, act).t);
      StepHistory(w, act);
      ActorTied(w, act);
      QuietTied(w, Next(w, act), act.p);
    }
  }

  lemma SilentTied(w: World, act: Action)
    requires Tied(w) && Enabled(w, act) && (act.Look? || act.LookPhase? || act.GiveUp? || act.Crash?)
    ensures StepsTied(w, Next(w, act), act.p)
  {
  }

  lemma EnterTied(w: World, act: Action)
    requires Tied(w) && Enabled(w, act) && act.Enter?
    ensures StepsTied(w, Next(w, act), act.p)
  {
  }

  lemma ActorTied(w: World, act: Action)
    requires Safe(w) && Tied(w) && Enabled(w, act) && !act.Tick? && !act.Record?
    ensures StepsTied(w, Next(w, act), act.p)
  {
    match act
    case Enter(_, _, _, _, _, _) => EnterTied(w, act);
    case Cross(_, _, _) => CrossTied(w, act);
    case Send(_) => SendTied(w, act);
    case Answer(_, _) => AnswerTied(w, act);
    case _ => SilentTied(w, act);
  }

  lemma TickTied(w: World, to: int)
    requires Tied(w)
    ensures Tied(w.(now := to))
  {
    var v := w.(now := to);
    forall p | p in v.procs ensures PcTied(v, p, v.procs[p]) { assert PcTied(w, p, w.procs[p]); }
    forall k ensures SubTied(v, k) { assert SubTied(w, k); }
  }

  lemma {:induction false} ExecTied(w: World, acts: seq<Action>)
    requires Safe(w) && Tied(w)
    ensures Tied(Exec(w, acts))
    decreases |acts|
  {
    if acts != [] {
      StepSafe(w, acts[0]);
      StepTied(w, acts[0]);
      ExecTied(Next(w, acts[0]), acts[1..]);
    }
  }

  lemma EveryRunTied(delay: int, acts: seq<Action>)
    ensures Tied(Exec(Start(delay), acts)) && Safe(Exec(Start(delay), acts))
  {
    StartSafe(delay);
    ExecTied(Start(delay), acts);
    EveryRunSafe(delay, acts);
  }

  // ---------- theorems over every run ----------

  /** In every run a stored result is exactly the Operator's reply: a registration is submitted under
      reference r exactly when the Operator said Ok with r and rejected exactly when it definitely
      rejected; an attempt is released, and a commitment submitted under its authorized transactions,
      only when the Operator said Ok to that. */
  lemma ResultIsTheReply(delay: int, acts: seq<Action>, k: RowKey)
    requires k in Exec(Start(delay), acts).t.subs
    ensures var w := Exec(Start(delay), acts);
            var s := w.t.subs[k];
            && k in w.replies && k in w.t.auths && s.digest == w.t.auths[k].digest
            && (k.phase == Register ==>
                  && (forall r :: s.outcome == Submitted && s.operatorRef == r <==> w.replies[k] == Ok(r))
                  && (s.outcome == Rejected <==> w.replies[k] == DefinitelyRejected))
            && (k.phase == Delete ==> s.outcome == Released && w.replies[k].Ok?)
            && (k.phase == Finalize ==>
                  && s.outcome == Submitted && w.replies[k].Ok?
                  && s.commitmentTxid == w.t.auths[k].commitmentTxid
                  && s.receiverTxid == w.t.auths[k].receiverTxid && s.receiverVout == w.t.auths[k].receiverVout)
  {
    var w := Exec(Start(delay), acts);
    EveryRunTied(delay, acts);
    assert SubTied(w, k) && AttemptOk(w.t, k.op, k.attempt, w.now);
    PhaseCases(k);
  }

  /** In every run "accepted" means that the Operator said Ok to this row, and "definitely not submitted"
      that it definitely rejected the row or that this handler sent nothing. */
  lemma AnswersAreTheReply(delay: int, acts: seq<Action>, p: nat, k: RowKey, status: Status)
    requires var w := Exec(Start(delay), acts); p in w.procs && w.procs[p] == Returned(k, status)
    ensures var w := Exec(Start(delay), acts);
            && (status == Accepted ==> k in w.replies && w.replies[k].Ok?)
            && (status == NotSubmitted ==>
                  SentNothing(w, p) || (k.phase == Register && k in w.replies && w.replies[k] == DefinitelyRejected))
  {
    var w := Exec(Start(delay), acts);
    AnswersAreHonest(delay, acts, p, k, status);
    EveryRunTied(delay, acts);
    assert SubTied(w, k);
    if k in w.t.subs { OutcomeByPhase(w.t, k, w.now); }
  }

  /** The Operator may still act on the registration: it was sent and not definitely rejected, its release
      was not acknowledged, and it is not yet 30 seconds past its expiry. */
  ghost predicate LiveAtOperator(w: World, op: OpKey, a: nat) {
    && Reg(op, a) in w.sent && !(Reg(op, a) in w.replies && w.replies[Reg(op, a)] == DefinitelyRejected)
    && !(Del(op, a) in w.replies && w.replies[Del(op, a)].Ok?)
    && Reg(op, a) in w.t.auths && w.now < w.t.auths[Reg(op, a)].expireAt + 30
  }

  /** At every moment of every run the Operator can act on at most one registration of an outpoint. */
  lemma OneLiveAtOperator(delay: int, acts: seq<Action>, op: OpKey, a: nat, b: nat)
    requires var w := Exec(Start(delay), acts); LiveAtOperator(w, op, a) && LiveAtOperator(w, op, b)
    ensures a == b
  {
    var w := Exec(Start(delay), acts);
    EveryRunTied(delay, acts);
    StillLive(w, op, a);
    StillLive(w, op, b);
    OneLiveAttempt(delay, acts, op, a, b);
  }

  lemma StillLive(w: World, op: OpKey, a: nat)
    requires Safe(w) && Tied(w) && LiveAtOperator(w, op, a)
    ensures PossiblyLive(w.t, op, a, w.now)
  {
    assert SubTied(w, Reg(op, a)) && SubTied(w, Del(op, a));
  }

  /** Every row hears at most one reply, and only after it was sent. */
  lemma OneReply(w: World, act: Action, k: RowKey)
    requires Safe(w) && Tied(w) && k in w.replies
    ensures k in w.sent && k in Next(w, act).replies && Next(w, act).replies[k] == w.replies[k]
  {
    if Enabled(w, act) && act.Answer? { assert PcTied(w, act.p, w.procs[act.p]); }
  }
}
