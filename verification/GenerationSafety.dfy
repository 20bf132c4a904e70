/** What every state of the upgrade machine keeps about the disk, stated over all
    the entries a power loss could leave behind, and why fsyncs, power losses and
    a leg's acts preserve it. */
module GenerationSafety {
  import opened GenerationDisk
  import opened GenerationUpgrade
  import opened GenerationSettling

  const V9: Tool := M3Migration
  const V10: Tool := M4Migration

  /** A complete generation whose VERSION file is in place, durable or not. */
  ghost predicate Published(m: Inodes, i: nat, tool: Tool) {
    OwnedBy(m, i, tool) && Marked(m, i) && m[i].stamp.version == StampVersion(tool) && Complete(m[i])
  }

  ghost predicate Committed(m: Inodes, i: nat, tool: Tool) {
    Published(m, i, tool) && m[i].stamp.Durable?
  }

  // ---- the invariant -----------------------------------------------------------

  /** What an inode must be to stand under a name. */
  predicate Fits(m: Inodes, n: Name, i: nat) {
    match n
    case CurrentFile => TextAt(m, i, V9) || TextAt(m, i, V10)
    case CurrentTmp => i in m && m[i].Text?
    case Building(tool) => Draft(m, i, tool)
    case Final(tool) => OwnedBy(m, i, tool)
    case CleanupDir => OwnedBy(m, i, V9)
    case _ => true
  }

  ghost predicate Typed(d: Disk) {
    forall n, i :: i in Possible(d.dir, n) ==> Fits(d.inodes, n, i)
  }

  predicate NoneMarked(d: Disk, tool: Tool) {
    forall i :: i in Possible(d.dir, Final(tool)) ==> !Marked(d.inodes, i)
  }

  ghost predicate MarkedIsPublished(d: Disk, tool: Tool) {
    forall i :: i in Possible(d.dir, Final(tool)) && Marked(d.inodes, i) ==> Published(d.inodes, i, tool)
  }

  ghost predicate AllPublished(d: Disk, tool: Tool) {
    Fixed(d.dir, Final(tool)) && Published(d.inodes, Entries(d.dir)[Final(tool)], tool)
  }

  ghost predicate AllCommitted(d: Disk, tool: Tool) {
    Fixed(d.dir, Final(tool)) && Committed(d.inodes, Entries(d.dir)[Final(tool)], tool)
  }

  predicate NamesOnly(d: Disk, tool: Tool) {
    forall i :: i in Possible(d.dir, CurrentFile) ==> TextAt(d.inodes, i, tool)
  }

  /** gen-v9 and its cleanup name never both exist, whatever a power loss keeps. */
  predicate Apart(dir: Dir) {
    Exclusive(dir, Final(V9), CleanupDir)
  }

  ghost predicate Core(d: Disk) {
    && Typed(d) && Apart(d.dir)
    && MarkedIsPublished(d, V9)
    && (NoneMarked(d, V10) || (AllPublished(d, V10) && Certain(d.dir, CurrentFile) && NamesOnly(d, V10)))
    && (NoneMarked(d, V9) || (AllPublished(d, V9) && Certain(d.dir, CurrentFile)) || AllCommitted(d, V10))
    && (NamesOnly(d, V9) || (AllCommitted(d, V9) && Certain(d.dir, CurrentFile)) || AllCommitted(d, V10))
    && (Possible(d.dir, CleanupDir) == {} || AllCommitted(d, V10))
  }

  // ---- settling keeps the invariant ---------------------------------------------

  lemma SettleCommitted(d: Disk, now: Disk, tool: Tool)
    requires Settles(d, now) && AllCommitted(d, tool)
    ensures AllCommitted(now, tool)
  {
  }

  lemma SettlePublished(d: Disk, now: Disk, tool: Tool)
    requires Settles(d, now) && AllPublished(d, tool)
    ensures AllPublished(now, tool) || NoneMarked(now, tool)
  {
  }

  lemma SettleUnmarked(d: Disk, now: Disk, tool: Tool)
    requires Settles(d, now) && NoneMarked(d, tool)
    ensures NoneMarked(now, tool)
  {
  }

  lemma SettleTyped(d: Disk, now: Disk)
    requires Settles(d, now) && Typed(d)
    ensures Typed(now)
  {
    SettledIs(now.dir);
    forall n, i | i in Possible(now.dir, n) ensures Fits(now.inodes, n, i) {
      assert i in Possible(d.dir, n);
    }
  }

  lemma SettleMarked(d: Disk, now: Disk, tool: Tool)
    requires Settles(d, now) && Typed(d) && MarkedIsPublished(d, tool)
    ensures MarkedIsPublished(now, tool)
  {
  }

  lemma SettleNames(d: Disk, now: Disk, tool: Tool)
    requires Settles(d, now) && NamesOnly(d, tool)
    ensures NamesOnly(now, tool)
  {
  }

  lemma SettleCertain(d: Disk, now: Disk, n: Name)
    requires Settles(d, now)
    ensures Certain(d.dir, n) ==> Certain(now.dir, n)
    ensures Possible(d.dir, n) == {} ==> Possible(now.dir, n) == {}
  {
  }

  lemma SettleCore(d: Disk, now: Disk)
    requires Settles(d, now) && Core(d) && Apart(now.dir)
    ensures Core(now)
  {
    SettleTyped(d, now);
    SettleMarked(d, now, V9);
    SettleCertain(d, now, CurrentFile);
    SettleCertain(d, now, CleanupDir);
    if AllCommitted(d, V10) { SettleCommitted(d, now, V10); }
    if AllCommitted(d, V9) { SettleCommitted(d, now, V9); }
    if NoneMarked(d, V10) {
      SettleUnmarked(d, now, V10);
    } else {
      SettlePublished(d, now, V10);
      SettleNames(d, now, V10);
    }
    if NoneMarked(d, V9) { SettleUnmarked(d, now, V9); } else if AllPublished(d, V9) { SettlePublished(d, now, V9); }
    if NamesOnly(d, V9) { SettleNames(d, now, V9); }
  }

  // ---- what a leg keeps until its VERSION stamp ----------------------------------

  ghost predicate LegBase(d: Disk, tool: Tool) {
    && Typed(d) && Apart(d.dir)
    && Possible(d.dir, CleanupDir) == {}
    && NoneMarked(d, V10)
    && (tool == V9 || tool == V10)
    && (tool == V9 ==> NoneMarked(d, V9) && NamesOnly(d, V9))
    && (tool == V10 ==> AllCommitted(d, V9) && Certain(d.dir, CurrentFile))
  }

  lemma LegBaseIsCore(d: Disk, tool: Tool)
    requires LegBase(d, tool)
    ensures Core(d)
  {
  }

  lemma LegSettle(d: Disk, now: Disk, tool: Tool)
    requires Settles(d, now) && LegBase(d, tool) && Apart(now.dir)
    ensures LegBase(now, tool)
  {
    LegBaseIsCore(d, tool);
    SettleCore(d, now);
    SettleUnmarked(d, now, V10);
    SettleCertain(d, now, CurrentFile);
    SettleCertain(d, now, CleanupDir);
    if tool == V9 { SettleUnmarked(d, now, V9); SettleNames(d, now, V9); } else { SettleCommitted(d, now, V9); }
  }

  /** The operations a leg issues, on its own names and on CURRENT. */
  predicate LegOp(d: Disk, tool: Tool, op: DirOp) {
    match op
    case Link(n, i) =>
      || (n == Building(tool) && Draft(d.inodes, i, tool))
      || (n == CurrentTmp && i in d.inodes && d.inodes[i].Text?)
    case Unlink(n) => n == Building(tool) || n == Final(tool) || n == CurrentTmp
    case Rename(from, to, i) =>
      || (from == Building(tool) && to == Final(tool) && Draft(d.inodes, i, tool))
      || (from == CurrentTmp && to == CurrentFile && TextAt(d.inodes, i, tool))
  }

  lemma IssueTyped(d: Disk, tool: Tool, op: DirOp)
    requires Typed(d) && LegOp(d, tool, op) && (tool == V9 || tool == V10)
    ensures Typed(Issue(d, op))
  {
    ThenIs(d.dir, op);
    forall n, i | i in Possible(Then(d.dir, op), n) ensures Fits(d.inodes, n, i) {
      assert i in Possible(d.dir, n) || i in SetBy(op, n);
    }
  }

  lemma IssueUnmarked(d: Disk, tool: Tool, op: DirOp, t: Tool)
    requires NoneMarked(d, t) && LegOp(d, tool, op)
    ensures NoneMarked(Issue(d, op), t)
  {
  }

  lemma IssueNames(d: Disk, tool: Tool, op: DirOp)
    requires NamesOnly(d, tool) && LegOp(d, tool, op)
    ensures NamesOnly(Issue(d, op), tool)
  {
  }

  lemma IssueApart(d: Disk, tool: Tool, op: DirOp)
    requires Apart(d.dir) && Possible(d.dir, CleanupDir) == {} && LegOp(d, tool, op)
    ensures Apart(Then(d.dir, op)) && Possible(Then(d.dir, op), CleanupDir) == {}
  {
    ThenIs(d.dir, op);
    assert Front(Then(d.dir, op)) == d.dir;
  }

  lemma LegIssue(d: Disk, tool: Tool, op: DirOp)
    requires LegBase(d, tool) && LegOp(d, tool, op)
    ensures LegBase(Issue(d, op), tool)
  {
    IssueTyped(d, tool, op);
    IssueApart(d, tool, op);
    IssueUnmarked(d, tool, op, V10);
    if tool == V9 {
      IssueUnmarked(d, tool, op, V9);
      IssueNames(d, tool, op);
    } else {
      IssueFixed(d.dir, op, Final(V9));
      ThenIs(d.dir, op);
    }
  }

  /** A leg writes only fresh inodes, its own unstamped generation, or a
      temporary file that CURRENT cannot be. */
  predicate LegWrite(d: Disk, tool: Tool, j: nat, inode: Inode) {
    && (inode.Generation? ==> inode.tool == tool && inode.stamp == Unstamped)
    && (inode.Text? ==> j !in Possible(d.dir, CurrentFile))
    && (j in d.inodes ==> (inode.Generation? <==> d.inodes[j].Generation?))
    && (j in d.inodes && d.inodes[j].Generation? ==> d.inodes[j].tool == tool)
  }

  lemma WriteTyped(d: Disk, tool: Tool, j: nat, inode: Inode)
    requires Typed(d) && LegWrite(d, tool, j, inode)
    ensures Typed(SetInode(d, j, inode))
  {
    forall n, i | i in Possible(d.dir, n) ensures Fits(d.inodes[j := inode], n, i) {
      assert Fits(d.inodes, n, i);
    }
  }

  lemma WriteUnmarked(d: Disk, tool: Tool, j: nat, inode: Inode, t: Tool)
    requires NoneMarked(d, t) && LegWrite(d, tool, j, inode)
    ensures NoneMarked(SetInode(d, j, inode), t)
  {
  }

  lemma WriteNames(d: Disk, tool: Tool, j: nat, inode: Inode, t: Tool)
    requires NamesOnly(d, t) && LegWrite(d, tool, j, inode)
    ensures NamesOnly(SetInode(d, j, inode), t)
  {
  }

  lemma LegChange(d: Disk, tool: Tool, j: nat, inode: Inode)
    requires LegBase(d, tool) && LegWrite(d, tool, j, inode)
    ensures LegBase(SetInode(d, j, inode), tool)
  {
    WriteTyped(d, tool, j, inode);
    WriteUnmarked(d, tool, j, inode, V10);
    if tool == V9 { WriteUnmarked(d, tool, j, inode, V9); WriteNames(d, tool, j, inode, V9); }
  }
}
