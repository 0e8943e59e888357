/** Enrollment: invites, pending ceremonies and vault creation. Times are whole seconds. */
module Enrollment {
  import opened Prelude

  const PENDING_TTL := 300
  const SESSION_TTL := 600
  const CLEANUP_AGE := 86_400
  const MAX_RECENT := 30
  const MAX_ACTIVE := 1000

  datatype Tier = Standard | Advanced

  datatype Invite = Invite(expiresAt: int, consumed: Option<string>, createdAt: int)

  datatype Pending = Pending(
    handle: string, vaultId: string, token: Blob, challenge: Blob, tier: Tier, policyDigest: Blob,
    expiresAt: int, createdAt: int)

  datatype Vault = Vault(tier: Tier, recoveryKey: bool)

  /** Pending rows are unique in handle, vault id and token; they are held here by token. */
  datatype Db = Db(invites: map<Blob, Invite>, pendings: map<Blob, Pending>, vaults: map<string, Vault>)

  // ---------- IssueEnrollmentSession ----------

  predicate Stale(i: Invite, now: int) { i.consumed.None? && i.expiresAt < now - CLEANUP_AGE }

  function Cleaned(d: Db, now: int): Db {
    d.(pendings := map t | t in d.pendings && !(t in d.invites && Stale(d.invites[t], now)) :: d.pendings[t],
       invites := map t | t in d.invites && !Stale(d.invites[t], now) :: d.invites[t])
  }

  function Recent(d: Db, now: int): set<Blob> { set t | t in d.invites && d.invites[t].createdAt >= now - 60 }
  function Usable(d: Db, now: int): set<Blob> {
    set t | t in d.invites && d.invites[t].consumed.None? && d.invites[t].expiresAt >= now
  }

  predicate CanIssue(d: Db, token: Blob, now: int) {
    var c := Cleaned(d, now);
    |token| == 32 && |Recent(c, now)| < MAX_RECENT && |Usable(c, now)| < MAX_ACTIVE && token !in c.invites
  }

  function Issue(d: Db, token: Blob, now: int): Db {
    if !CanIssue(d, token, now) then d
    else
      var c := Cleaned(d, now);
      c.(invites := c.invites[token := Invite(now + SESSION_TTL, None, now)])
  }

  /** PutInvite: the operator's own invite, with a window it chooses. */
  function Put(d: Db, token: Blob, expiresAt: int, now: int): Db {
    if |token| != 32 || token in d.invites then d
    else d.(invites := d.invites[token := Invite(expiresAt, None, now)])
  }

  // ---------- ReservePendingEnrollment ----------

  predicate ValidPending(p: Pending) {
    p.handle != "" && p.vaultId != "" && |p.token| == 32 && p.challenge != [] && |p.policyDigest| == 32
  }

  /** The unique columns of the pending table. */
  predicate Unique(d: Db, p: Pending) {
    forall t :: t in d.pendings && t != p.token ==>
      d.pendings[t].handle != p.handle && d.pendings[t].vaultId != p.vaultId
  }

  predicate CanStart(d: Db, p: Pending) {
    ValidPending(p) && p.token in d.invites && d.invites[p.token].consumed.None? &&
      d.invites[p.token].expiresAt >= p.createdAt
  }

  predicate Unexpired(d: Db, p: Pending) {
    p.token in d.pendings && d.pendings[p.token].expiresAt >= p.createdAt
  }

  /** The pending row a start answers with: the unexpired one, or its own. */
  function StartResult(d: Db, p: Pending): Option<Pending> {
    if !CanStart(d, p) then None
    else if Unexpired(d, p) then
      var e := d.pendings[p.token];
      if e.tier == p.tier && e.policyDigest == p.policyDigest then Some(e) else None
    else if Unique(d, p) then Some(p)
    else None
  }

  function Start(d: Db, p: Pending): Db {
    if StartResult(d, p).Some? && !Unexpired(d, p) then d.(pendings := d.pendings[p.token := p]) else d
  }

  // ---------- CreateVault ----------

  /** The columns the consuming delete compares. */
  predicate SameCeremony(a: Pending, b: Pending) {
    && a.handle == b.handle && a.token == b.token && a.vaultId == b.vaultId && a.challenge == b.challenge
    && a.tier == b.tier && a.policyDigest == b.policyDigest && a.expiresAt == b.expiresAt
  }

  /** A vault is created from the pending row the finish handler loaded earlier. */
  predicate CanFinish(d: Db, vaultId: string, v: Vault, held: Pending, now: int) {
    && vaultId != "" && (v.tier == Advanced <==> v.recoveryKey)
    && held.handle != "" && held.vaultId == vaultId && held.challenge != [] && |held.token| == 32 &&
       |held.policyDigest| == 32
    && held.tier == v.tier
    && held.token in d.invites && d.invites[held.token].consumed.None? && d.invites[held.token].expiresAt >= now
    && held.expiresAt >= now
    && held.token in d.pendings && SameCeremony(d.pendings[held.token], held)
    && vaultId !in d.vaults
    && (forall t :: t in d.invites ==> d.invites[t].consumed != Some(vaultId))
  }

  function Finish(d: Db, vaultId: string, v: Vault, held: Pending, now: int): Db {
    if !CanFinish(d, vaultId, v, held, now) then d
    else
      Db(d.invites[held.token := d.invites[held.token].(consumed := Some(vaultId))],
         d.pendings - {held.token},
         d.vaults[vaultId := v])
  }

  class Ledger {
    var invites: map<Blob, Invite>
    var pendings: map<Blob, Pending>
    var vaults: map<string, Vault>

    constructor ()
      ensures Valid() && Contents() == Db(map[], map[], map[])
    {
      invites, pendings, vaults := map[], map[], map[];
    }

    function Contents(): Db
      reads this
    {
      Db(invites, pendings, vaults)
    }

    /** A pending row is held under its own token. */
    ghost predicate Valid()
      reads this
    {
      forall t :: t in pendings ==> pendings[t].token == t
    }

    /** Deletes expired unused invites with their ceremonies, applies the limits, inserts the new invite. */
    method IssueSession(token: Blob, now: int) returns (expires: Option<int>)
      requires Valid()
      modifies this
      ensures Valid()
      ensures Contents() == Issue(old(Contents()), token, now)
      ensures expires == if CanIssue(old(Contents()), token, now) then Some(now + SESSION_TTL) else None
    {
      if |token| != 32 { return None; }
      var kept := map t | t in pendings && !(t in invites && Stale(invites[t], now)) :: pendings[t];
      var left := map t | t in invites && !Stale(invites[t], now) :: invites[t];
      var recent := |set t | t in left && left[t].createdAt >= now - 60|;
      var active := |set t | t in left && left[t].consumed.None? && left[t].expiresAt >= now|;
      assert Recent(Cleaned(Contents(), now), now) == set t | t in left && left[t].createdAt >= now - 60;
      assert Usable(Cleaned(Contents(), now), now) == set t | t in left && left[t].consumed.None? &&
        left[t].expiresAt >= now;
      if recent >= MAX_RECENT || active >= MAX_ACTIVE || token in left { return None; }
      pendings := kept;
      invites := left[token := Invite(now + SESSION_TTL, None, now)];
      return Some(now + SESSION_TTL);
    }

    /** An unexpired start is replayed; an expired one is replaced by compare-and-swap. */
    method ReservePending(p: Pending) returns (row: Option<Pending>)
      requires Valid()
      modifies this`pendings
      ensures Valid()
      ensures row == StartResult(old(Contents()), p)
      ensures Contents() == Start(old(Contents()), p)
    {
      if !ValidPending(p) || p.token !in invites { return None; }
      var inv := invites[p.token];
      if inv.consumed.Some? || inv.expiresAt < p.createdAt { return None; }
      if p.token in pendings {
        var existing := pendings[p.token];
        if existing.expiresAt >= p.createdAt {
          if existing.tier != p.tier || existing.policyDigest != p.policyDigest { return None; }
          return Some(existing);
        }
      }
      if !Unique(Contents(), p) { return None; }
      pendings := pendings[p.token := p];
      return Some(p);
    }

    /** createVault: the transaction works on copies of the three tables, and every failure before the
        end leaves the tables as they were. */
    method CreateVault(vaultId: string, v: Vault, held: Pending, now: int) returns (ok: bool)
      requires Valid()
      modifies this
      ensures Valid()
      ensures ok == CanFinish(old(Contents()), vaultId, v, held, now)
      ensures Contents() == Finish(old(Contents()), vaultId, v, held, now)
    {
      if vaultId == "" || (v.tier == Advanced) != v.recoveryKey { return false; }
      if held.handle == "" || held.vaultId != vaultId { return false; }
      if held.challenge == [] || |held.token| != 32 || |held.policyDigest| != 32 || held.tier != v.tier {
        return false;
      }
      var txInvites, txPendings, txVaults := invites, pendings, vaults;
      if held.token !in txInvites { return false; }
      var invite := txInvites[held.token];
      if invite.consumed.Some? || invite.expiresAt < now { return false; }
      if held.expiresAt < now { return false; }
      var deleted := set t | t in txPendings && SameCeremony(txPendings[t], held);
      txPendings := txPendings - deleted;
      DeletesOne(held, deleted);
      if |deleted| != 1 { return false; }
      if vaultId in txVaults { return false; }
      txVaults := txVaults[vaultId := v];
      if txInvites[held.token].consumed.Some? { return false; }
      if exists t :: t in txInvites && txInvites[t].consumed == Some(vaultId) { return false; }
      txInvites := txInvites[held.token := invite.(consumed := Some(vaultId))];
      invites, pendings, vaults := txInvites, txPendings, txVaults;
      return true;
    }

    /** The delete by seven columns can only hit the row under the ceremony's own token. */
    lemma DeletesOne(held: Pending, deleted: set<Blob>)
      requires Valid() && deleted == set t | t in pendings && SameCeremony(pendings[t], held)
      ensures |deleted| == 1 <==> held.token in pendings && SameCeremony(pendings[held.token], held)
      ensures |deleted| == 1 ==> deleted == {held.token}
    {
      assert deleted <= {held.token};
      if held.token in deleted { assert deleted == {held.token}; } else { assert deleted == {}; }
    }
  }

  // ---------- runs ----------

  /** `origin` remembers the pending row each vault was created from. */
  datatype World = World(d: Db, now: int, origin: map<string, Pending>)

  const EMPTY := World(Db(map[], map[], map[]), 0, map[])

  /** A start is stamped before its transaction; a finish holds whatever pending row it loaded. */
  datatype Action =
    | Tick(to: int)
    | IssueSession(token: Blob)
    | PutInvite(token: Blob, expiresAt: int)
    | StartEnrollment(p: Pending)
    | FinishEnrollment(vaultId: string, v: Vault, held: Pending)

  function Next(w: World, act: Action): World {
    match act
    case Tick(to) => if w.now <= to then w.(now := to) else w
    case IssueSession(token) => w.(d := Issue(w.d, token, w.now))
    case PutInvite(token, expiresAt) => w.(d := Put(w.d, token, expiresAt, w.now))
    case StartEnrollment(p) =>
      if p.createdAt <= w.now && p.expiresAt == p.createdAt + PENDING_TTL then w.(d := Start(w.d, p)) else w
    case FinishEnrollment(vaultId, v, held) =>
      if CanFinish(w.d, vaultId, v, held, w.now)
      then w.(d := Finish(w.d, vaultId, v, held, w.now), origin := w.origin[vaultId := w.d.pendings[held.token]]) else w
  }

  function Exec(w: World, acts: seq<Action>): World
    decreases |acts|
  {
    if acts == [] then w else Exec(Next(w, acts[0]), acts[1..])
  }

  // ---------- invariant ----------

  ghost predicate InviteOk(w: World, t: Blob) {
    t in w.d.invites && w.d.invites[t].consumed.Some? ==>
      var v := w.d.invites[t].consumed.value;
      && v in w.d.vaults && v in w.origin
      && w.origin[v].token == t && w.origin[v].vaultId == v && w.origin[v].tier == w.d.vaults[v].tier
  }

  ghost predicate PendingOk(d: Db, t: Blob) {
    t in d.pendings ==>
      && d.pendings[t].token == t
      && t in d.invites && d.invites[t].consumed.None?
      && d.pendings[t].expiresAt <= d.invites[t].expiresAt + PENDING_TTL
  }

  ghost predicate Inv(w: World) {
    && (forall t :: InviteOk(w, t))
    && (forall t :: PendingOk(w.d, t))
    && w.d.vaults.Keys == w.origin.Keys
    && (forall v :: v in w.origin ==>
          && w.origin[v].tier == w.d.vaults[v].tier
          && w.origin[v].token in w.d.invites && w.d.invites[w.origin[v].token].consumed == Some(v))
  }

  /** Consumed invites and created vaults stay exactly as they are. */
  ghost predicate Keeps(w: World, w': World) {
    && (forall t :: t in w.d.invites && w.d.invites[t].consumed.Some? ==>
       t in w'.d.invites && w'.d.invites[t] == w.d.invites[t])
    && (forall v :: v in w.d.vaults ==> v in w'.d.vaults && w'.d.vaults[v] == w.d.vaults[v])
    && (forall v :: v in w.origin ==> v in w'.origin && w'.origin[v] == w.origin[v])
    && w.now <= w'.now
  }

  lemma FinishKeeps(w: World, act: Action)
    requires Inv(w) && act.FinishEnrollment? && CanFinish(w.d, act.vaultId, act.v, act.held, w.now)
    ensures Inv(Next(w, act)) && Keeps(w, Next(w, act))
  {
    var w' := Next(w, act);
    assert PendingOk(w.d, act.held.token);
    forall t ensures InviteOk(w', t) { assert InviteOk(w, t); }
    forall t ensures PendingOk(w'.d, t) { assert PendingOk(w.d, t); }
  }

  lemma IssueKeeps(w: World, token: Blob)
    requires Inv(w)
    ensures Inv(Next(w, IssueSession(token))) && Keeps(w, Next(w, IssueSession(token)))
  {
    var w' := Next(w, IssueSession(token));
    forall t ensures InviteOk(w', t) { assert InviteOk(w, t); }
    forall t ensures PendingOk(w'.d, t) { assert PendingOk(w.d, t); }
  }

  lemma StepKeeps(w: World, act: Action)
    requires Inv(w)
    ensures Inv(Next(w, act)) && Keeps(w, Next(w, act))
  {
    if act.IssueSession? {
      IssueKeeps(w, act.token);
    } else if act.FinishEnrollment? && CanFinish(w.d, act.vaultId, act.v, act.held, w.now) {
      FinishKeeps(w, act);
    } else {
      var w' := Next(w, act);
      forall t ensures InviteOk(w', t) { assert InviteOk(w, t); }
      forall t ensures PendingOk(w'.d, t) { assert PendingOk(w.d, t); }
    }
  }

  lemma {:induction false} ExecKeeps(w: World, acts: seq<Action>)
    requires Inv(w)
    ensures Inv(Exec(w, acts)) && Keeps(w, Exec(w, acts))
    decreases |acts|
  {
    if acts != [] {
      StepKeeps(w, acts[0]);
      ExecKeeps(Next(w, acts[0]), acts[1..]);
    }
  }

  // ---------- theorems over every run ----------

  /** A consumed invite is never deleted, never consumed again, and keeps its vault. */
  lemma ConsumedForever(w: World, acts: seq<Action>, t: Blob)
    requires Inv(w) && t in w.d.invites && w.d.invites[t].consumed.Some?
    ensures var u := Exec(w, acts).d;
            && t in u.invites && u.invites[t] == w.d.invites[t]
            && var v := w.d.invites[t].consumed.value;
               v in w.d.vaults && v in u.vaults && u.vaults[v] == w.d.vaults[v]
  {
    assert InviteOk(w, t);
    ExecKeeps(w, acts);
  }

  /** Distinct consumed invites name distinct vaults. */
  lemma ConsumedInvitesDiffer(acts: seq<Action>, t: Blob, u: Blob)
    requires var d := Exec(EMPTY, acts).d;
             t in d.invites && u in d.invites && d.invites[t].consumed.Some? &&
               d.invites[t].consumed == d.invites[u].consumed
    ensures t == u
  {
    ExecKeeps(EMPTY, acts);
    assert InviteOk(Exec(EMPTY, acts), t) && InviteOk(Exec(EMPTY, acts), u);
  }

  /** Every vault carries the tier and identity of the pending row it consumed, and that row's
      invite is the one spent on it. */
  lemma VaultCarriesItsCeremony(acts: seq<Action>, v: string)
    requires v in Exec(EMPTY, acts).d.vaults
    ensures var w := Exec(EMPTY, acts);
            && v in w.origin && w.origin[v].vaultId == v && w.origin[v].tier == w.d.vaults[v].tier
            && w.origin[v].token in w.d.invites && w.d.invites[w.origin[v].token].consumed == Some(v)
  {
    var w := Exec(EMPTY, acts);
    ExecKeeps(EMPTY, acts);
    assert InviteOk(w, w.origin[v].token);
  }

  lemma StepStillPending(w: World, act: Action, t: Blob)
    requires Inv(w) && t in w.d.pendings && Next(w, act).now <= w.d.pendings[t].expiresAt
    ensures var u := Next(w, act).d;
            t in u.invites && (u.invites[t].consumed.Some? || (t in u.pendings && u.pendings[t] == w.d.pendings[t]))
  {
    assert PendingOk(w.d, t);
  }

  lemma {:induction false} StillPending(w: World, acts: seq<Action>, t: Blob)
    requires Inv(w) && t in w.d.pendings && Exec(w, acts).now <= w.d.pendings[t].expiresAt
    ensures var u := Exec(w, acts).d;
            t in u.invites && (u.invites[t].consumed.Some? || (t in u.pendings && u.pendings[t] == w.d.pendings[t]))
    decreases |acts|
  {
    if acts == [] {
      assert PendingOk(w.d, t);
    } else {
      var w' := Next(w, acts[0]);
      StepKeeps(w, acts[0]);
      ExecKeeps(w', acts[1..]);
      StepStillPending(w, acts[0], t);
      if w'.d.invites[t].consumed.None? { StillPending(w', acts[1..], t); }
    }
  }

  /** As long as a ceremony has not expired, whatever else runs, a start for its invite is answered
      with the same handle, vault and challenge. */
  lemma StartIsReplayed(w: World, acts: seq<Action>, p: Pending)
    requires Inv(w) && p.token in w.d.pendings
    requires var u := Exec(w, acts); p.createdAt <= u.now <= w.d.pendings[p.token].expiresAt && CanStart(u.d, p)
    requires p.tier == w.d.pendings[p.token].tier && p.policyDigest == w.d.pendings[p.token].policyDigest
    ensures StartResult(Exec(w, acts).d, p) == Some(w.d.pendings[p.token]) &&
            Start(Exec(w, acts).d, p) == Exec(w, acts).d
  {
    StillPending(w, acts, p.token);
  }

  /** A finish consumes exactly the live row it holds; it fails when that row is gone or replaced,
      and once a ceremony is replaced, a finish that still holds it fails in every later state. */
  lemma ReplacedCeremonyNeverFinishes(w: World, p: Pending, acts: seq<Action>, vaultId: string, v: Vault)
    requires Inv(w) && p.token in w.d.pendings && Next(w, StartEnrollment(p)).d.pendings != w.d.pendings
    ensures var u := Exec(Next(w, StartEnrollment(p)), acts);
            !CanFinish(u.d, vaultId, v, w.d.pendings[p.token], u.now)
  {
    var w' := Next(w, StartEnrollment(p));
    StepKeeps(w, StartEnrollment(p));
    ExecKeeps(w', acts);
  }

  // ---------- exactly when each step succeeds ----------

  /** An unused invite that expired more than a day ago. */
  predicate Gone(i: Invite, now: int) { i.consumed == None && i.expiresAt < now - 86_400 }

  /** A session is issued exactly while fewer than 30 invites are younger than a minute and fewer than 1000
      are usable; unused invites a day past their expiry do not count. */
  lemma IssueIff(d: Db, token: Blob, now: int)
    ensures CanIssue(d, token, now) <==>
            && |token| == 32 && (token in d.invites ==> Gone(d.invites[token], now))
            && |set t | t in d.invites && !Gone(d.invites[t], now) && d.invites[t].createdAt >= now - 60| < 30
            && |set t | t in d.invites && d.invites[t].consumed == None && d.invites[t].expiresAt >= now| < 1000
    ensures CanIssue(d, token, now) ==>
              var u := Issue(d, token, now); token in u.invites && u.invites[token] == Invite(now + 600, None, now)
  {
    var c := Cleaned(d, now);
    assert Recent(c, now) == set t | t in d.invites && !Gone(d.invites[t], now) && d.invites[t].createdAt >= now - 60;
    assert Usable(c, now) == set t | t in d.invites && d.invites[t].consumed == None && d.invites[t].expiresAt >= now;
  }

  /** A start is answered exactly with an unused invite that has not expired: with the live ceremony if it
      has the same tier and policy, and otherwise, if none is live, with its own. */
  lemma StartIff(d: Db, p: Pending, row: Pending)
    ensures StartResult(d, p) == Some(row) <==>
            && p.handle != "" && p.vaultId != "" && |p.token| == 32 && p.challenge != [] && |p.policyDigest| == 32
            && p.token in d.invites && d.invites[p.token].consumed == None
            && p.createdAt <= d.invites[p.token].expiresAt
            && if p.token in d.pendings && p.createdAt <= d.pendings[p.token].expiresAt
               then row == d.pendings[p.token] && row.tier == p.tier && row.policyDigest == p.policyDigest
               else row == p && forall t :: t in d.pendings && t != p.token ==>
                      d.pendings[t].handle != p.handle && d.pendings[t].vaultId != p.vaultId
  {
  }

  /** The finish names its ceremony as it stands, with the tier and recovery key that belong together. */
  predicate Names(vaultId: string, v: Vault, held: Pending) {
    && vaultId != "" && held.vaultId == vaultId && held.tier == v.tier
    && v.recoveryKey == (v.tier == Advanced)
    && held.handle != "" && held.challenge != [] && |held.token| == 32 && |held.policyDigest| == 32
  }

  /** In every reachable state a finish creates its vault exactly when the ceremony it holds is still the
      stored one, neither the ceremony nor its invite has expired, and the vault is new. */
  lemma FinishIff(acts: seq<Action>, vaultId: string, v: Vault, held: Pending)
    ensures var w := Exec(EMPTY, acts);
            var u := Next(w, FinishEnrollment(vaultId, v, held));
            var created :=
              && Names(vaultId, v, held) && vaultId !in w.d.vaults && held.token in w.d.pendings
              && w.d.pendings[held.token] == held.(createdAt := w.d.pendings[held.token].createdAt)
              && w.now <= held.expiresAt && held.token in w.d.invites && w.now <= w.d.invites[held.token].expiresAt;
            && (vaultId in u.d.vaults && vaultId !in w.d.vaults <==> created)
            && (created ==> u.d.vaults == w.d.vaults[vaultId := v] && held.token !in u.d.pendings
                            && u.d.invites[held.token].consumed == Some(vaultId))
            && (!created ==> u == w)
  {
    var w := Exec(EMPTY, acts);
    ExecKeeps(EMPTY, acts);
    assert PendingOk(w.d, held.token);
    forall t | t in w.d.invites && vaultId !in w.d.vaults ensures w.d.invites[t].consumed != Some(vaultId) {
      assert InviteOk(w, t);
    }
  }

  /** An issued session can be enrolled within its ten minutes: the start is answered with the phone's own
      ceremony and its finish creates the vault. */
  lemma CanEnroll(w: World, token: Blob, p: Pending, v: Vault)
    requires Inv(w) && CanIssue(w.d, token, w.now) && p.token == token
    requires p.createdAt == w.now && p.expiresAt == w.now + 300 && Names(p.vaultId, v, p) && p.vaultId !in w.d.vaults
    requires forall t :: t in w.d.pendings ==>
               w.d.pendings[t].handle != p.handle && w.d.pendings[t].vaultId != p.vaultId
    ensures var u := Exec(w, [IssueSession(token), StartEnrollment(p), FinishEnrollment(p.vaultId, v, p)]);
            && p.vaultId in u.d.vaults && u.d.vaults[p.vaultId] == v
            && token in u.d.invites && u.d.invites[token].consumed == Some(p.vaultId)
  {
    var acts := [IssueSession(token), StartEnrollment(p), FinishEnrollment(p.vaultId, v, p)];
    var w1 := Next(w, acts[0]);
    var w2 := Next(w1, acts[1]);
    StepKeeps(w, acts[0]);
    StepKeeps(w1, acts[1]);
    IssuedIs(w, token);
    StartedIs(w1, p);
    FinishedIs(w2, p, v);
    ThreeSteps(w, acts[0], acts[1], acts[2]);
  }

  lemma IssuedIs(w: World, token: Blob)
    requires Inv(w) && CanIssue(w.d, token, w.now)
    ensures var u := Next(w, IssueSession(token));
            && token in u.d.invites && u.d.invites[token] == Invite(w.now + 600, None, w.now) && token !in u.d.pendings
            && u.d.vaults == w.d.vaults && u.now == w.now
            && forall t :: t in u.d.pendings ==> t in w.d.pendings && u.d.pendings[t] == w.d.pendings[t]
  {
    assert PendingOk(w.d, token);
  }

  lemma StartedIs(w: World, p: Pending)
    requires p.token in w.d.invites && w.d.invites[p.token] == Invite(w.now + 600, None, w.now)
    requires p.token !in w.d.pendings && ValidPending(p) && p.createdAt == w.now && p.expiresAt == w.now + 300
    requires forall t :: t in w.d.pendings ==>
               w.d.pendings[t].handle != p.handle && w.d.pendings[t].vaultId != p.vaultId
    ensures Next(w, StartEnrollment(p)) == w.(d := w.d.(pendings := w.d.pendings[p.token := p]))
  {
  }

  lemma FinishedIs(w: World, p: Pending, v: Vault)
    requires Inv(w) && Names(p.vaultId, v, p) && p.vaultId !in w.d.vaults
    requires p.token in w.d.pendings && w.d.pendings[p.token] == p && w.now <= p.expiresAt
    requires p.token in w.d.invites && w.d.invites[p.token].consumed == None && w.now <= w.d.invites[p.token].expiresAt
    ensures var u := Next(w, FinishEnrollment(p.vaultId, v, p));
            && p.vaultId in u.d.vaults && u.d.vaults[p.vaultId] == v
            && p.token in u.d.invites && u.d.invites[p.token].consumed == Some(p.vaultId)
  {
    forall t | t in w.d.invites ensures w.d.invites[t].consumed != Some(p.vaultId) { assert InviteOk(w, t); }
  }

  lemma ThreeSteps(w: World, a: Action, b: Action, c: Action)
    ensures Exec(w, [a, b, c]) == Next(Next(Next(w, a), b), c)
  {
    assert [a, b, c][1..] == [b, c] && [b, c][1..] == [c] && [c][1..] == [];
    var u := Next(Next(w, a), b);
    assert Exec(u, [c]) == Next(u, c);
    assert Exec(Next(w, a), [b, c]) == Exec(u, [c]);
  }
}
