/** What a directory and its inodes can be once it settles - by an fsync of the
    root or by a power loss - in terms of what was possible before. */
module GenerationSettling {
  import opened GenerationDisk
  import opened Wrappers

  // ---- kinds of inode ----------------------------------------------------------

  type Inodes = map<nat, Inode>

  predicate TextAt(m: Inodes, i: nat, tool: Tool) {
    i in m && m[i] == Text(CurrentText(tool), true)
  }

  predicate OwnedBy(m: Inodes, i: nat, tool: Tool) {
    i in m && m[i].Generation? && m[i].tool == tool
  }

  predicate Marked(m: Inodes, i: nat) {
    i in m && m[i].Generation? && m[i].stamp != Unstamped
  }

  predicate Draft(m: Inodes, i: nat, tool: Tool) {
    OwnedBy(m, i, tool) && !Marked(m, i)
  }

  // ---- entries without doubt -----------------------------------------------------

  /** The entry is there for certain, and it is one inode for certain. */
  predicate Fixed(dir: Dir, n: Name) {
    Certain(dir, n) && n in Entries(dir) && Possible(dir, n) == {Entries(dir)[n]}
  }

  /** An operation that leaves a name alone leaves what is fixed about it alone. */
  lemma IssueFixed(dir: Dir, op: DirOp, n: Name)
    requires Fixed(dir, n) && SetBy(op, n) == {} && !Drops(op, n)
    ensures Fixed(Then(dir, op), n) && Entries(Then(dir, op))[n] == Entries(dir)[n]
  {
    hide Possible, Certain, ApplyOps;
    ThenIs(dir, op);
  }

  /** A settled directory leaves no doubt. */
  lemma SettledIs(dir: Dir)
    requires dir.pending == []
    ensures Entries(dir) == dir.durable
    ensures forall n :: Possible(dir, n) == if n in dir.durable then {dir.durable[n]} else {}
    ensures forall n :: Certain(dir, n) <==> n in dir.durable
  {
  }

  /** Names `a` and `b` never both exist, whatever a power loss keeps: `b` comes
      about only by renaming `a`, and `a` only while `b` is impossible. */
  predicate Exclusive(dir: Dir, a: Name, b: Name)
    decreases |dir.pending|
  {
    if dir.pending == [] then !(a in dir.durable && b in dir.durable)
    else
      && Exclusive(Front(dir), a, b)
      && (SetBy(Last(dir), b) != {} ==> Last(dir).Rename? && Last(dir).from == a)
      && (SetBy(Last(dir), a) != {} ==> Possible(Front(dir), b) == {})
  }

  lemma NotBothNow(e: map<Name, nat>, op: DirOp, a: Name, b: Name)
    requires a != b && !(a in e && b in e)
    requires (SetBy(op, b) != {} ==> op.Rename? && op.from == a) && (SetBy(op, a) != {} ==> b !in e)
    ensures !(a in ApplyOp(e, op) && b in ApplyOp(e, op))
  {
  }

  lemma {:induction false} NeverBoth(dir: Dir, mask: seq<bool>, a: Name, b: Name)
    requires Exclusive(dir, a, b) && |mask| == |dir.pending| && a != b
    ensures var e := ApplyOps(dir.durable, Kept(dir.pending, mask)); !(a in e && b in e)
    decreases |dir.pending|
  {
    if dir.pending == [] {
    } else {
      hide ApplyOps, ApplyOp, Kept, Possible, Certain;
      var e := ApplyOps(dir.durable, Kept(Front(dir).pending, mask[..|mask| - 1]));
      NeverBoth(Front(dir), mask[..|mask| - 1], a, b);
      KeptIsPossible(Front(dir), mask[..|mask| - 1], b);
      KeptLast(dir, mask);
      NotBothNow(e, Last(dir), a, b);
    }
  }

  lemma NeverBothCached(dir: Dir, a: Name, b: Name)
    requires Exclusive(dir, a, b) && a != b
    ensures !(a in Entries(dir) && b in Entries(dir))
  {
    var mask := seq(|dir.pending|, _ => true);
    AllKept(dir.pending, mask);
    NeverBoth(dir, mask, a, b);
  }

  // ---- settling --------------------------------------------------------------------

  /** How an inode may change when the root settles: bytes that were fsynced stay,
      and a VERSION rename that was not yet durable may or may not be there. */
  ghost predicate Keeps(was: Inode, now: Inode) {
    match was
    case Text(text, synced) => now.Text? && (synced ==> now == was)
    case Generation(tool, _, _, stamp, _) =>
      && now.Generation? && now.tool == tool
      && (Complete(was) ==> Complete(now))
      && (stamp.Unstamped? ==> now.stamp.Unstamped?)
      && (stamp.Durable? ==> now.stamp == stamp)
      && (stamp.Renamed? ==> now.stamp.Unstamped? || now.stamp.version == stamp.version)
  }

  lemma SurvivesKeeps(was: Inode, now: Inode)
    requires Survives(was, now)
    ensures Keeps(was, now)
  {
  }

  /** `now` is a settled disk whose entries are possible entries of `d`. */
  ghost predicate Settles(d: Disk, now: Disk) {
    && now.dir.pending == []
    && (forall n :: n in now.dir.durable ==> now.dir.durable[n] in Possible(d.dir, n))
    && (forall n :: Certain(d.dir, n) ==> n in now.dir.durable)
    && now.inodes.Keys == d.inodes.Keys
    && (forall i :: i in d.inodes ==> Keeps(d.inodes[i], now.inodes[i]))
  }

  lemma MaskSettles(d: Disk, now: Disk, mask: seq<bool>)
    requires |mask| == |d.dir.pending|
    requires now.dir == Dir(ApplyOps(d.dir.durable, Kept(d.dir.pending, mask)), [])
    requires now.inodes.Keys == d.inodes.Keys
    requires forall i :: i in d.inodes ==> Keeps(d.inodes[i], now.inodes[i])
    ensures Settles(d, now)
    ensures forall a, b :: a != b && Exclusive(d.dir, a, b) ==> Exclusive(now.dir, a, b)
  {
    forall n ensures n in now.dir.durable ==> now.dir.durable[n] in Possible(d.dir, n)
             ensures Certain(d.dir, n) ==> n in now.dir.durable
    {
      KeptIsPossible(d.dir, mask, n);
    }
    forall a, b | a != b && Exclusive(d.dir, a, b) ensures Exclusive(now.dir, a, b) {
      NeverBoth(d.dir, mask, a, b);
    }
  }

  lemma SyncSettles(d: Disk)
    ensures Settles(d, SyncRoot(d))
    ensures forall a, b :: a != b && Exclusive(d.dir, a, b) ==> Exclusive(SyncRoot(d).dir, a, b)
  {
    var mask := seq(|d.dir.pending|, _ => true);
    AllKept(d.dir.pending, mask);
    MaskSettles(d, SyncRoot(d), mask);
  }

  lemma LossSettles(d: Disk, now: Disk)
    requires PowerLoss(d, now)
    ensures Settles(d, now)
    ensures forall a, b :: a != b && Exclusive(d.dir, a, b) ==> Exclusive(now.dir, a, b)
  {
    var mask: seq<bool> :| |mask| == |d.dir.pending|
      && now.dir.durable == ApplyOps(d.dir.durable, Kept(d.dir.pending, mask));
    forall i | i in d.inodes ensures Keeps(d.inodes[i], now.inodes[i]) {
      SurvivesKeeps(d.inodes[i], now.inodes[i]);
    }
    MaskSettles(d, now, mask);
  }

  // ---- a power loss made to order -----------------------------------------------------

  function Fallen(inode: Inode, stamps: bool): Inode {
    match inode
    case Text(text, _) => Text(text, true)
    case Generation(tool, files, covered, stamp, epoch) =>
      var fallen := if !stamp.Renamed? then stamp else if stamps then Durable(stamp.version) else Unstamped;
      Generation(tool, map f | f in files && files[f].synced :: files[f], covered, fallen, epoch)
  }

  /** Keep the directory operations in `mask` and, if `stamps`, every VERSION rename;
      drop every file that was not fsynced. */
  function Fall(d: Disk, mask: seq<bool>, stamps: bool): Disk
    requires |mask| == |d.dir.pending|
  {
    var inodes := map i | i in d.inodes :: Fallen(d.inodes[i], stamps);
    Disk(inodes, Dir(ApplyOps(d.dir.durable, Kept(d.dir.pending, mask)), []))
  }

  lemma FallIsLoss(d: Disk, mask: seq<bool>, stamps: bool)
    requires |mask| == |d.dir.pending|
    ensures PowerLoss(d, Fall(d, mask, stamps))
  {
  }

  lemma {:induction false} NoneKept(ops: seq<DirOp>, mask: seq<bool>)
    requires |ops| == |mask| && forall k :: 0 <= k < |mask| ==> !mask[k]
    ensures Kept(ops, mask) == []
  {
    if ops == [] {
    } else {
      NoneKept(ops[..|ops| - 1], mask[..|mask| - 1]);
    }
  }

  /** The power can fail so that nothing pending reaches the disk ... */
  lemma KeepNone(d: Disk) returns (mask: seq<bool>)
    ensures |mask| == |d.dir.pending|
    ensures forall stamps :: Fall(d, mask, stamps).dir == Dir(d.dir.durable, [])
  {
    mask := seq(|d.dir.pending|, _ => false);
    NoneKept(d.dir.pending, mask);
  }

  /** ... or so that an entry is kept and another, not durable one, is lost. */
  lemma {:induction false} KeepOne(dir: Dir, n: Name, lost: Name) returns (mask: seq<bool>)
    requires Possible(dir, n) != {} && lost !in dir.durable && n != lost
    ensures |mask| == |dir.pending|
    ensures var e := ApplyOps(dir.durable, Kept(dir.pending, mask)); n in e && lost !in e
    decreases |dir.pending|
  {
    if dir.pending == [] {
      mask := [];
    } else {
      var front := Front(dir);
      if SetBy(Last(dir), n) != {} {
        var none := seq(|front.pending|, _ => false);
        NoneKept(front.pending, none);
        mask := none + [true];
        assert mask[..|mask| - 1] == none;
        assert Kept(dir.pending, mask) == [Last(dir)];
        OneApplied(dir.durable, Last(dir));
      } else {
        var rest := KeepOne(front, n, lost);
        mask := rest + [false];
        assert mask[..|mask| - 1] == rest;
      }
    }
  }

  lemma OneApplied(m: map<Name, nat>, op: DirOp)
    ensures ApplyOps(m, [op]) == ApplyOp(m, op)
  {
    assert [op][..0] == [];
    assert ApplyOps(m, [op]) == ApplyOp(ApplyOps(m, [op][..0]), op);
  }

  lemma DurableIsPossible(dir: Dir, n: Name)
    requires n in dir.durable
    ensures dir.durable[n] in Possible(dir, n)
  {
    var none := seq(|dir.pending|, _ => false);
    NoneKept(dir.pending, none);
    KeptIsPossible(dir, none, n);
  }
}
