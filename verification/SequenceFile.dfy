/** The counter file on disk: how it is replaced, and what a reader sees after any interruption. */
module SequenceFile {
  import opened Prelude

  /** File contents: a number, or whatever an interrupted write left. */
  datatype Data = Torn | Number(n: nat)

  /** A file and whether its contents are on stable storage. */
  datatype Node = Node(data: Data, synced: bool)

  /** The file the path shows, the temporary file, and the file the path shows on stable storage. */
  datatype Disk = Disk(path: Option<Node>, tmp: Option<Node>, durable: Option<Node>)

  const NEW_DISK := Disk(None, None, None)

  // ---------- replacing the file ----------

  datatype Step = Create | Fill(n: nat) | SyncFile | Close | Rename | OpenDir | SyncDir

  const RENAMED := 5
  const STEPS := 7

  /** The steps of Monotonic.write, in order. */
  function StepAt(n: nat, k: nat): Step {
    match k
    case 0 => Create
    case 1 => Fill(n)
    case 2 => SyncFile
    case 3 => Close
    case 4 => Rename
    case 5 => OpenDir
    case _ => SyncDir
  }

  function Do(d: Disk, step: Step): Disk {
    match step
    case Create => d.(tmp := Some(Node(Torn, false)))
    case Fill(n) => if d.tmp.Some? then d.(tmp := Some(Node(Number(n), false))) else d
    case SyncFile => if d.tmp.Some? then d.(tmp := Some(d.tmp.value.(synced := true))) else d
    case Close => d
    case Rename => if d.tmp.Some? then d.(path := d.tmp, tmp := None) else d
    case OpenDir => d
    case SyncDir => d.(durable := d.path)
  }

  /** The disk after the first k steps. */
  function Partly(d: Disk, n: nat, k: nat): Disk {
    if k == 0 then d else Do(Partly(d, n, k - 1), StepAt(n, k - 1))
  }

  /** The disk after a write that stops after `done` steps; a leftover temporary file is removed. */
  function Written(d: Disk, n: nat, done: nat): Disk {
    var e := Partly(d, n, if done < STEPS then done else STEPS);
    if 0 < done < RENAMED then e.(tmp := None) else e
  }

  /** Power fails: the path shows what is on stable storage, and contents that are not are lost. */
  function Survivor(node: Option<Node>): Option<Node> {
    if node.Some? && !node.value.synced then Some(Node(Torn, true)) else node
  }

  function PowerLoss(d: Disk): Disk { Disk(Survivor(d.durable), None, Survivor(d.durable)) }

  /** The system writes the directory back on its own. */
  function Settled(d: Disk): Disk { d.(durable := d.path) }

  datatype Reading = Missing | Corrupt | Value(n: nat)

  function Read(d: Disk): Reading {
    if d.path.None? then Missing else if d.path.value.data.Torn? then Corrupt else Value(d.path.value.data.n)
  }

  // ---------- what a reader can see ----------

  function Level(node: Option<Node>): nat { if node.Some? && node.value.data.Number? then node.value.data.n else 0 }

  predicate Intact(node: Option<Node>) { node.Some? ==> node.value.synced && node.value.data.Number? }

  /** Both files are whole, and stable storage is not ahead of the path. */
  predicate Sound(d: Disk) {
    Intact(d.path) && Intact(d.durable) && (d.durable.Some? ==> d.path.Some?) && Level(d.durable) <= Level(d.path)
  }

  /** The path shows more than stable storage holds: renamed, but the directory not yet synced. */
  predicate Behind(d: Disk) { Level(d.durable) < Level(d.path) }

  /** Where a write stands after k steps. */
  lemma {:induction false} PartlyIs(d: Disk, n: nat, k: nat)
    requires k <= STEPS
    ensures var e, whole := Partly(d, n, k), Some(Node(Number(n), true));
            && e.path == (if k < RENAMED then d.path else whole)
            && e.durable == (if k < STEPS then d.durable else whole)
            && (k == 1 ==> e.tmp.Some?) && (k == 2 ==> e.tmp == Some(Node(Number(n), false)))
            && (3 <= k < RENAMED ==> e.tmp == whole) && (RENAMED <= k ==> e.tmp.None?)
  {
    if k > 0 { PartlyIs(d, n, k - 1); }
  }

  /** Wherever a write stops, the path shows the old file or the new one, whole; it shows the new one
      exactly when the rename was reached, and stable storage holds it exactly when the write finished. */
  lemma WrittenIs(d: Disk, n: nat, done: nat)
    ensures var e, whole := Written(d, n, done), Some(Node(Number(n), true));
            && e.path == (if done < RENAMED then d.path else whole)
            && e.durable == (if done < STEPS then d.durable else whole)
  {
    PartlyIs(d, n, if done < STEPS then done else STEPS);
  }

  /** After power fails at any point of a write, the file is the old stable one or the new one, never
      torn: the new one exactly when the write finished. */
  lemma NeverTorn(d: Disk, n: nat, done: nat)
    requires Sound(d)
    ensures Read(Written(d, n, done)) == if done < RENAMED then Read(d) else Value(n)
    ensures Read(PowerLoss(Written(d, n, done))) == if done < STEPS then Read(PowerLoss(d)) else Value(n)
    ensures !Read(d).Corrupt? && !Read(PowerLoss(d)).Corrupt?
    ensures Level(d.path) <= n ==> Sound(Written(d, n, done))
  {
    WrittenIs(d, n, done);
  }

  // ---------- Monotonic ----------

  /** Monotonic.Observe: whether the caller may go on, and the disk afterwards; `done` is how many steps
      of a write succeed. */
  function ObserveOk(d: Disk, count: nat, done: nat): bool {
    match Read(d)
    case Missing => count == 0 && done >= STEPS
    case Corrupt => false
    case Value(n) => count == n || (count > n && done >= STEPS)
  }

  function Observed(d: Disk, count: nat, done: nat): Disk {
    match Read(d)
    case Missing => if count == 0 then Written(d, 0, done) else d
    case Corrupt => d
    case Value(n) => if count > n then Written(d, count, done) else d
  }

  class Monotonic {
    var path: Option<Node>
    var tmp: Option<Node>
    var durable: Option<Node>

    constructor ()
      ensures Contents() == NEW_DISK
    {
      path, tmp, durable := None, None, None;
    }

    function Contents(): Disk
      reads this
    {
      Disk(path, tmp, durable)
    }

    /** Monotonic.write: one file operation after the other, each of which may fail. */
    method Write(n: nat, done: nat) returns (ok: bool)
      modifies this
      ensures ok == (done >= STEPS)
      ensures Contents() == Written(old(Contents()), n, done)
    {
      PartlyIs(Contents(), n, if done < STEPS then done else STEPS);
      if done == 0 { return false; }
      tmp := Some(Node(Torn, false));
      if done == 1 { tmp := None; return false; }
      tmp := Some(Node(Number(n), false));
      if done == 2 { tmp := None; return false; }
      tmp := Some(tmp.value.(synced := true));
      if done == 3 { tmp := None; return false; }
      if done == 4 { tmp := None; return false; }
      path, tmp := tmp, None;
      if done <= 6 { return false; }
      durable := path;
      return true;
    }

    method Observe(count: nat, done: nat) returns (ok: bool)
      requires Sound(Contents())
      modifies this
      ensures ok == ObserveOk(old(Contents()), count, done)
      ensures Contents() == Observed(old(Contents()), count, done)
      ensures Sound(Contents())
    {
      WrittenIs(Contents(), count, done);
      if path.None? {
        if count != 0 { return false; }
        ok := Write(0, done);
        return ok;
      }
      if path.value.data.Torn? { return false; }
      var n := path.value.data.n;
      if count < n { return false; }
      if count == n { return true; }
      ok := Write(count, done);
    }
  }
}
