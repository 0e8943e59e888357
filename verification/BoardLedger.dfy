/** The store object: the vault-board-v1 methods of the SQLite ledger, each one transaction.
    `commits` says whether the policy sequence and the COMMIT succeed; when they do not,
    the transaction rolls back and the method reports an error. */
module BoardLedger {
  import opened Prelude
  import opened BoardTables

  class Ledger {
    const boardExitDelay: int
    var ops: map<OpKey, Operation>
    var auths: map<RowKey, Auth>
    var dispatches: map<RowKey, Blob>
    var subs: map<RowKey, Submission>

    constructor (delay: int)
      ensures boardExitDelay == delay && Contents() == EMPTY
    {
      boardExitDelay := delay;
      ops, auths, dispatches, subs := map[], map[], map[], map[];
    }

    function Contents(): Tables
      reads this
    {
      Tables(ops, auths, dispatches, subs)
    }

    /** Scans the earlier registers in attempt order for the first one that shares the digest
        or the tree-session key. */
    method FirstClash(op: OpKey, last: nat, r: RegisterRequest) returns (clash: Option<nat>)
      ensures clash.None? ==> ClashFree(Contents(), op, r, last + 1)
      ensures clash.Some? ==>
                && clash.value <= last && ClashFree(Contents(), op, r, clash.value)
                && Reg(op, clash.value) in auths && Clashes(auths[Reg(op, clash.value)], r)
    {
      var a := 0;
      while a <= last
        invariant a <= last + 1 && ClashFree(Contents(), op, r, a)
      {
        if Reg(op, a) in auths && Clashes(auths[Reg(op, a)], r) { return Some(a); }
        a := a + 1;
      }
      return None;
    }

    /** BeginVaultBoardAttempt: an exact replay of the latest request, or a new attempt over a settled one. */
    method BeginAttempt(o: Operation, r: RegisterRequest, tip: int, now: int, commits: bool) returns (res: Result)
      modifies this`ops, this`auths
      ensures res == if commits then BeginResult(old(Contents()), o, r, tip, now, boardExitDelay) else Failed
      ensures Contents() == if commits then Begin(old(Contents()), o, r, tip, now, boardExitDelay) else old(Contents())
    {
      if !commits || !ValidKey(o.key) || !ValidRequest(o, r, now) { return Failed; }
      if o.key in ops {
        if ops[o.key] != o { return Failed; }
      } else if !ValidOperation(o) {
        return Failed;
      }
      if !InWindow(o, tip, boardExitDelay) { return Failed; }
      var attempt := 0;
      var latest := Latest(Contents(), o.key);
      if latest.Some? {
        var last := latest.value;
        var clash := FirstClash(o.key, last, r);
        if clash.Some? {
          if clash.value == last && SameRequest(auths[Reg(o.key, last)], r) && AttemptCurrent(Contents(), o.key, last) {
            return Existing(last);
          }
          return Failed;
        }
        if last >= MAX_UINT32 || !CanRotate(Contents(), o.key, last, now) { return Failed; }
        attempt := last + 1;
      }
      ops := ops[o.key := o];
      auths := auths[Reg(o.key, attempt) := RegisterAuth(r)];
      return Created(attempt);
    }

    /** AppendVaultBoardDispatch: records that an authorized request is about to leave. */
    method AppendDispatch(k: RowKey, digest: Blob, tip: int, commits: bool) returns (res: Result)
      modifies this`dispatches
      ensures res == if commits then DispatchResult(old(Contents()), k, digest, tip, boardExitDelay) else Failed
      ensures Contents() == if commits then Dispatch(old(Contents()), k, digest, tip, boardExitDelay)
              else old(Contents())
    {
      if !commits || k.op !in ops || !InWindow(ops[k.op], tip, boardExitDelay) { return Failed; }
      if k in dispatches {
        return if dispatches[k] == digest then Existing(k.attempt) else Failed;
      }
      if k !in auths || auths[k].digest != digest || |digest| != DIGEST_BYTES { return Failed; }
      if Latest(Contents(), k.op) != Some(k.attempt) || k in subs { return Failed; }
      dispatches := dispatches[k := digest];
      return Created(k.attempt);
    }

    /** AppendVaultBoardAuthorizationAndDispatch: delete and finalize cross in one transaction. */
    method AppendAuthorizationAndDispatch(k: RowKey, a: Auth, tip: int, commits: bool) returns (res: Result)
      modifies this`auths, this`dispatches
      ensures res == if commits then PhaseResult(old(Contents()), k, a, tip, boardExitDelay) else Failed
      ensures Contents() == if commits then AuthorizeAndDispatch(old(Contents()), k, a, tip, boardExitDelay)
              else old(Contents())
    {
      if !commits || k.phase == Register || k.op !in ops || !InWindow(ops[k.op], tip, boardExitDelay) { return Failed; }
      if Latest(Contents(), k.op) != Some(k.attempt) { return Failed; }
      if k in auths {
        if auths[k] != a { return Failed; }
      } else if !PhaseOrder(Contents(), k) || !ValidAuth(k.phase, a) {
        return Failed;
      }
      if k in dispatches {
        if dispatches[k] != a.digest { return Failed; }
        auths := auths[k := a];
        return Existing(k.attempt);
      }
      if k in subs { return Failed; }
      auths := auths[k := a];
      dispatches := dispatches[k := a.digest];
      return Created(k.attempt);
    }

    /** AppendVaultBoardSubmission: the append-only authoritative result. */
    method AppendSubmission(k: RowKey, s: Submission, commits: bool) returns (res: Result)
      modifies this`subs
      ensures res == if commits then SubmitResult(old(Contents()), k, s) else Failed
      ensures Contents() == if commits then Submit(old(Contents()), k, s) else old(Contents())
    {
      if !commits { return Failed; }
      if k in subs {
        return if subs[k] == s then Existing(k.attempt) else Failed;
      }
      if k !in auths || auths[k].digest != s.digest { return Failed; }
      if k !in dispatches || dispatches[k] != s.digest { return Failed; }
      if !ValidSubmission(k.phase, s) { return Failed; }
      subs := subs[k := s];
      return Created(k.attempt);
    }
  }
}
