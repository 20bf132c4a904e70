/** What a committed generation holds: exactly the tree its leg last wrote, byte for byte,
    at every point of every run and after every power loss. */
module GenerationContents {
  import opened GenerationDisk
  import opened GenerationUpgrade
  import opened GenerationSettling
  import opened GenerationSafety
  import opened GenerationRuns
  import opened GenerationTheorems

  type Tree = map<string, string>

  /** The files are those of the tree ... */
  predicate Wrote(inode: Inode, tree: Tree) {
    && inode.Generation? && inode.files.Keys == tree.Keys
    && forall f :: f in tree ==> inode.files[f].bytes == tree[f]
  }

  /** ... and all of them durable. */
  predicate Stored(inode: Inode, tree: Tree) {
    && inode.Generation? && inode.files.Keys == tree.Keys
    && forall f :: f in tree ==> inode.files[f] == FileState(tree[f], true)
  }

  // ---- one leg --------------------------------------------------------------------------

  /** How far the tree has got before this act of its leg. */
  ghost predicate Built(d: Disk, tool: Tool, at: LegStep, tree: Tree) {
    var r := Order(at);
    && (r == 9 ==> HasGeneration(d, Building(tool)) && Wrote(At(d, Building(tool)), tree))
    && (r == 10 ==> HasGeneration(d, Building(tool)) && Stored(At(d, Building(tool)), tree))
    && (11 <= r <= 19 ==> HasGeneration(d, Final(tool)) && Stored(At(d, Final(tool)), tree))
  }

  /** What the leg is building after this act. */
  function Target(at: LegStep, c: Choice, tree: Tree): Tree {
    if at.WriteTree? then c.tree else tree
  }

  lemma RewrittenWrote(inode: Inode, tree: Tree)
    requires inode.Generation?
    ensures Wrote(Rewritten(inode, tree), tree)
  {
  }

  lemma LedgerStores(inode: Inode, tree: Tree)
    requires Wrote(inode, tree)
    ensures Stored(Ledger(inode), tree)
  {
    var r := Ledger(inode);
    assert r.files.Keys == Bytes(r.files).Keys && inode.files.Keys == Bytes(inode.files).Keys;
    forall f | f in tree ensures r.files[f] == FileState(tree[f], true) {
      assert Bytes(r.files)[f] == r.files[f].bytes && Bytes(inode.files)[f] == inode.files[f].bytes;
    }
  }

  /** The acts that write, fsync and publish the tree. */
  lemma BuildAct(d: Disk, tool: Tool, at: LegStep, c: Choice, tree: Tree)
    requires Built(d, tool, at, tree) && Succeeds(d, tool, at) && 8 <= Order(at) <= 10
    ensures LegNext(d, tool, at, c).Leg?
    ensures Built(LegAct(d, tool, at, c), tool, LegNext(d, tool, at, c).at, Target(at, c, tree))
  {
    hide Possible, Certain, ApplyOps, CurrentText, Ledger, Wrote, Stored, Rewritten, Complete;
    if at.WriteTree? {
      RewrittenWrote(At(d, Building(tool)), c.tree);
    } else if at.FsyncTree? {
      LedgerStores(At(d, Building(tool)), tree);
    } else {
      ThenIs(d.dir, Rename(Building(tool), Final(tool), Entries(d.dir)[Building(tool)]));
    }
  }

  /** From then on the leg leaves the published files alone. */
  lemma PublishedAct(d: Disk, tool: Tool, at: LegStep, c: Choice)
    requires Succeeds(d, tool, at) && Order(at) >= 11 && HasGeneration(d, Final(tool)) && c.spare !in d.inodes
    requires at.WriteTmp? ==> Entries(d.dir)[CurrentTmp] != Entries(d.dir)[Final(tool)]
    ensures var d' := LegAct(d, tool, at, c);
      HasGeneration(d', Final(tool)) && At(d', Final(tool)).files == At(d, Final(tool)).files
  {
    hide Possible, Certain, ApplyOps, CurrentText, Complete, Stamped;
    if at.DropStaleTmp? {
      ThenIs(d.dir, Unlink(CurrentTmp));
    } else if at.CreateTmp? {
      ThenIs(d.dir, Link(CurrentTmp, c.spare));
    } else if at.SwapCurrent? {
      ThenIs(d.dir, Rename(CurrentTmp, CurrentFile, Entries(d.dir)[CurrentTmp]));
    } else if !at.WriteTmp? && !at.StampRename? && !at.StampSync? {
      SettledIs(SyncRoot(d).dir);
    }
  }

  lemma LegTyped(d: Disk, tool: Tool, at: LegStep)
    requires LegFacts(d, tool, at)
    ensures Typed(d) && (tool == V9 || tool == V10)
    ensures !at.StampSync? ==> NoneMarked(d, tool)
  {
  }

  lemma TmpApart(d: Disk, tool: Tool)
    requires LegFacts(d, tool, WriteTmp) && Has(d, CurrentTmp) && HasGeneration(d, Final(tool))
    ensures Entries(d.dir)[CurrentTmp] != Entries(d.dir)[Final(tool)]
  {
    CachedIsPossible(d.dir, CurrentTmp);
    assert Fits(d.inodes, CurrentTmp, Entries(d.dir)[CurrentTmp]);
  }

  /** One act of a leg, on what it builds. */
  lemma BuiltAct(d: Disk, tool: Tool, at: LegStep, c: Choice, tree: Tree)
    requires LegFacts(d, tool, at) && Built(d, tool, at, tree) && Succeeds(d, tool, at) && c.spare !in d.inodes
    ensures var d' := LegAct(d, tool, at, c);
      if at.StampSync? then HasGeneration(d', Final(tool)) && Stored(At(d', Final(tool)), tree)
      else Built(d', tool, LegNext(d, tool, at, c).at, Target(at, c, tree))
  {
    hide LegFacts, LegAct, Stored, Wrote, ApplyOps, Stamped;
    if 8 <= Order(at) <= 10 {
      BuildAct(d, tool, at, c, tree);
    } else if Order(at) >= 11 {
      if at.WriteTmp? { TmpApart(d, tool); }
      PublishedAct(d, tool, at, c);
      SameFiles(At(d, Final(tool)), At(LegAct(d, tool, at, c), Final(tool)), tree);
    }
  }

  lemma SameFiles(was: Inode, now: Inode, tree: Tree)
    requires was.Generation? && now.Generation? && was.files == now.files
    ensures Stored(was, tree) <==> Stored(now, tree)
  {
  }

  // ---- every run ----------------------------------------------------------------------------

  /** The trees the legs last wrote. */
  datatype Trees = Trees(v9: Tree, v10: Tree)

  function TreeOf(trees: Trees, tool: Tool): Tree { if tool == V9 then trees.v9 else trees.v10 }

  function TreesAfter(s: State, ev: Event, trees: Trees): Trees {
    if !(ev.Act? && s.phase.Leg? && s.phase.at.WriteTree?) then trees
    else if s.phase.tool == V9 then trees.(v9 := ev.choice.tree)
    else trees.(v10 := ev.choice.tree)
  }

  /** Whatever stamped generation a power loss could leave holds its leg's tree. */
  ghost predicate HoldsTrees(d: Disk, trees: Trees) {
    forall t, i ::
      (t == V9 || t == V10) && i in Possible(d.dir, Final(t)) && Marked(d.inodes, i) ==>
        Stored(d.inodes[i], TreeOf(trees, t))
  }

  ghost predicate Filled(s: State, trees: Trees) {
    && HoldsTrees(s.disk, trees)
    && (s.phase.Leg? ==> Built(s.disk, s.phase.tool, s.phase.at, TreeOf(trees, s.phase.tool)))
  }

  /** Every stamped generation of `now` was one of `d`, with the same files. */
  ghost predicate Traces(d: Disk, now: Disk) {
    forall t, i ::
      (t == V9 || t == V10) && i in Possible(now.dir, Final(t)) && Marked(now.inodes, i) ==>
        && i in Possible(d.dir, Final(t)) && Marked(d.inodes, i) && now.inodes[i].files == d.inodes[i].files
  }

  lemma TracesHold(d: Disk, now: Disk, trees: Trees)
    requires HoldsTrees(d, trees) && Traces(d, now)
    ensures HoldsTrees(now, trees)
  {
    hide Possible, Stored;
    forall t, i | (t == V9 || t == V10) && i in Possible(now.dir, Final(t)) && Marked(now.inodes, i)
      ensures Stored(now.inodes[i], TreeOf(trees, t))
    {
      assert i in Possible(d.dir, Final(t));
      SameFiles(d.inodes[i], now.inodes[i], TreeOf(trees, t));
    }
  }

  lemma SyncTraces(d: Disk)
    ensures Traces(d, SyncRoot(d))
  {
    SyncSettles(d);
    SettledIs(SyncRoot(d).dir);
  }

  /** Issuing an operation, unless it gives a stamped generation its name. */
  lemma IssueTraces(d: Disk, op: DirOp)
    requires forall t, i :: i in SetBy(op, Final(t)) ==> !Marked(d.inodes, i)
    ensures Traces(d, Issue(d, op))
  {
    hide Possible, Certain, ApplyOps;
    ThenIs(d.dir, op);
  }

  /** Writing an inode, unless it gets a stamp or a stamped one other files. */
  lemma WriteTraces(d: Disk, j: nat, inode: Inode)
    requires inode.Generation? && inode.stamp != Unstamped ==>
      Marked(d.inodes, j) && inode.files == d.inodes[j].files
    ensures Traces(d, SetInode(d, j, inode))
  {
    hide Possible;
  }

  lemma BuildingDraft(d: Disk, tool: Tool)
    requires Typed(d) && Has(d, Building(tool))
    ensures Draft(d.inodes, Entries(d.dir)[Building(tool)], tool)
  {
    CachedIsPossible(d.dir, Building(tool));
    assert Fits(d.inodes, Building(tool), Entries(d.dir)[Building(tool)]);
  }

  lemma FinalUnmarked(d: Disk, tool: Tool)
    requires NoneMarked(d, tool) && Has(d, Final(tool))
    ensures !Marked(d.inodes, Entries(d.dir)[Final(tool)])
  {
    CachedIsPossible(d.dir, Final(tool));
  }

  lemma LinkTraces(d: Disk, j: nat, inode: Inode, n: Name)
    requires j !in d.inodes && !(inode.Generation? && inode.stamp != Unstamped) && !n.Final?
    ensures Traces(d, Issue(SetInode(d, j, inode), Link(n, j)))
  {
    hide Possible, Certain, ApplyOps;
    ThenIs(d.dir, Link(n, j));
  }

  /** No act of a leg but the VERSION rename makes a generation stamped. */
  lemma ActTraces(d: Disk, tool: Tool, at: LegStep, c: Choice)
    requires LegFacts(d, tool, at) && Succeeds(d, tool, at) && c.spare !in d.inodes && !at.StampRename?
    ensures Traces(d, LegAct(d, tool, at, c))
  {
    hide Possible, Certain, ApplyOps, CurrentText, LegFacts, Traces, Typed, NoneMarked;
    LegTyped(d, tool, at);
    if Has(d, Building(tool)) { BuildingDraft(d, tool); }
    if Has(d, Final(tool)) && !at.StampSync? { FinalUnmarked(d, tool); }
    match at
    case SweepBuilding =>
      if Has(d, Building(tool)) {
        WriteTraces(d, Entries(d.dir)[Building(tool)], Scrubbed(At(d, Building(tool)), c.keep, c.keepStamp));
      } else {
        SameTraces(d);
      }
    case SweepFinal =>
      if Has(d, Final(tool)) {
        WriteTraces(d, Entries(d.dir)[Final(tool)], Scrubbed(At(d, Final(tool)), c.keep, c.keepStamp));
      } else {
        SameTraces(d);
      }
    case UnlinkBuilding => IssueTraces(d, Unlink(Building(tool)));
    case UnlinkFinal => IssueTraces(d, Unlink(Final(tool)));
    case CreateBuilding => LinkTraces(d, c.spare, NewGeneration(tool), Building(tool));
    case WriteTree => WriteTraces(d, Entries(d.dir)[Building(tool)], Rewritten(At(d, Building(tool)), c.tree));
    case FsyncTree => WriteTraces(d, Entries(d.dir)[Building(tool)], Ledger(At(d, Building(tool))));
    case PublishDir => IssueTraces(d, Rename(Building(tool), Final(tool), Entries(d.dir)[Building(tool)]));
    case DropStaleTmp => if Has(d, CurrentTmp) { IssueTraces(d, Unlink(CurrentTmp)); } else { SameTraces(d); }
    case CreateTmp => LinkTraces(d, c.spare, Text("", false), CurrentTmp);
    case WriteTmp => WriteTraces(d, Entries(d.dir)[CurrentTmp], Text(CurrentText(tool), true));
    case SwapCurrent => IssueTraces(d, Rename(CurrentTmp, CurrentFile, Entries(d.dir)[CurrentTmp]));
    case StampSync =>
      var was := At(d, Final(tool));
      WriteTraces(d, Entries(d.dir)[Final(tool)], WithStamp(was, Durable(was.stamp.version)));
    case _ => SyncTraces(d);
  }

  lemma SameTraces(d: Disk)
    ensures Traces(d, d)
  {
  }

  /** The VERSION rename stamps the generation that holds the leg's tree. */
  lemma StampHolds(d: Disk, tool: Tool, c: Choice, trees: Trees)
    requires LegFacts(d, tool, StampRename) && HoldsTrees(d, trees) && Built(d, tool, StampRename, TreeOf(trees, tool))
    requires Succeeds(d, tool, StampRename)
    ensures HoldsTrees(LegAct(d, tool, StampRename, c), trees)
  {
    hide Possible, Certain, ApplyOps, CurrentText, LegBase, Complete, Stored;
    LegTyped(d, tool, StampRename);
    var now := LegAct(d, tool, StampRename, c);
    var j := Entries(d.dir)[Final(tool)];
    forall t, i | (t == V9 || t == V10) && i in Possible(now.dir, Final(t)) && Marked(now.inodes, i)
      ensures Stored(now.inodes[i], TreeOf(trees, t))
    {
      assert i in Possible(d.dir, Final(t)) && Fits(d.inodes, Final(t), i);
      if i == j {
        CachedIsPossible(d.dir, Final(tool));
        assert Fits(d.inodes, Final(tool), j);
        SameFiles(d.inodes[j], now.inodes[j], TreeOf(trees, t));
      }
    }
  }

  lemma LegFills(s: State, c: Choice, trees: Trees)
    requires Inv(s) && s.phase.Leg? && Allowed(s, Act(c)) && Filled(s, trees)
    ensures Filled(After(s, Act(c)), TreesAfter(s, Act(c), trees))
  {
    hide Possible, Certain, ApplyOps, CurrentText, LegFacts, LegAct, Succeeds, Built, Core, HoldsTrees,
      CurrentGeneration;
    var d, tool, at := s.disk, s.phase.tool, s.phase.at;
    var trees' := TreesAfter(s, Act(c), trees);
    LegTyped(d, tool, at);
    BuiltAct(d, tool, at, c, TreeOf(trees, tool));
    if at.StampRename? {
      StampHolds(d, tool, c, trees);
    } else {
      ActTraces(d, tool, at, c);
      TracesHold(d, LegAct(d, tool, at, c), trees);
      if at.WriteTree? { NewTree(d, tool, at, c, trees, trees'); }
    }
  }

  /** A leg writes its tree while no stamped generation of its own is left. */
  lemma NewTree(d: Disk, tool: Tool, at: LegStep, c: Choice, trees: Trees, trees': Trees)
    requires LegFacts(d, tool, at) && at.WriteTree? && Succeeds(d, tool, at)
    requires HoldsTrees(LegAct(d, tool, at, c), trees)
    requires forall t :: t != tool && (t == V9 || t == V10) ==> TreeOf(trees', t) == TreeOf(trees, t)
    ensures HoldsTrees(LegAct(d, tool, at, c), trees')
  {
    hide Possible, Certain, ApplyOps, CurrentText, Stored;
    LegTyped(d, tool, at);
    BuildingDraft(d, tool);
  }

  lemma ReapFills(s: State, c: Choice, trees: Trees)
    requires Inv(s) && s.phase.Reap? && Allowed(s, Act(c)) && Filled(s, trees)
    ensures Filled(After(s, Act(c)), trees)
  {
    hide Possible, Certain, ApplyOps, CurrentText, Traces, HoldsTrees, CurrentGeneration;
    ReapTraces(s, c);
    TracesHold(s.disk, After(s, Act(c)).disk, trees);
  }

  lemma ReapTraces(s: State, c: Choice)
    requires Inv(s) && s.phase.Reap? && Allowed(s, Act(c))
    ensures Traces(s.disk, After(s, Act(c)).disk)
  {
    hide Possible, Certain, ApplyOps, CurrentText, Traces, CurrentGeneration;
    var d := s.disk;
    match s.phase.step
    case ProveSuccessor =>
      var was := At(d, Final(V10));
      WriteTraces(d, Entries(d.dir)[Final(V10)], WithStamp(was, Durable(was.stamp.version)));
    case Drain => SameTraces(d);
    case RetireDir => IssueTraces(d, Rename(Final(V9), CleanupDir, Entries(d.dir)[Final(V9)]));
    case SweepCleanup => SweepTraces(s, c);
    case UnlinkCleanup => IssueTraces(d, Unlink(CleanupDir));
    case _ => SyncTraces(d);
  }

  /** What is swept under the cleanup name is no generation any more. */
  lemma SweepTraces(s: State, c: Choice)
    requires Inv(s) && s.phase == Reap(SweepCleanup) && HasGeneration(s.disk, CleanupDir)
    ensures Traces(s.disk, Put(s.disk, CleanupDir, Scrubbed(At(s.disk, CleanupDir), c.keep, c.keepStamp)))
  {
    hide ApplyOps, CurrentText;
    var d := s.disk;
    CachedIsPossible(d.dir, CleanupDir);
    assert Fits(d.inodes, CleanupDir, Entries(d.dir)[CleanupDir]);
    NeverBothCached(d.dir, Final(V9), CleanupDir);
    SettledIs(d.dir);
    var now := Put(d, CleanupDir, Scrubbed(At(d, CleanupDir), c.keep, c.keepStamp));
    forall t, i | (t == V9 || t == V10) && i in Possible(now.dir, Final(t)) && Marked(now.inodes, i)
      ensures i in Possible(d.dir, Final(t)) && Marked(d.inodes, i) && now.inodes[i].files == d.inodes[i].files
    {
      assert Fits(d.inodes, Final(t), i);
    }
  }

  lemma LossFills(d: Disk, after: Disk, trees: Trees)
    requires PowerLoss(d, after) && HoldsTrees(d, trees)
    ensures HoldsTrees(after, trees)
  {
    LossSettles(d, after);
    SettledIs(after.dir);
    forall t, i | (t == V9 || t == V10) && i in Possible(after.dir, Final(t)) && Marked(after.inodes, i)
      ensures Stored(after.inodes[i], TreeOf(trees, t))
    {
      assert i in Possible(d.dir, Final(t)) && Marked(d.inodes, i);
      StoredSurvives(d.inodes[i], after.inodes[i], TreeOf(trees, t));
    }
  }

  lemma StoredSurvives(was: Inode, now: Inode, tree: Tree)
    requires Survives(was, now) && Stored(was, tree)
    ensures Stored(now, tree)
  {
  }

  lemma CheckpointFills(s: State, trees: Trees)
    requires Inv(s) && Allowed(s, Checkpoint) && Filled(s, trees)
    ensures Filled(After(s, Checkpoint), trees)
  {
    hide Possible, Certain, ApplyOps, CurrentText, Core, HoldsTrees, Traces;
    AlwaysResolves(s.disk);
    var n := Final(CurrentGeneration(s.disk).tool);
    WriteTraces(s.disk, Entries(s.disk.dir)[n], Checkpointed(At(s.disk, n)));
    TracesHold(s.disk, After(s, Checkpoint).disk, trees);
  }

  lemma StartFills(s: State, tool: Tool, trees: Trees)
    requires Inv(s) && Allowed(s, StartLeg(tool)) && Filled(s, trees)
    ensures Filled(After(s, StartLeg(tool)), trees)
  {
    hide Possible, Certain, ApplyOps, CurrentText, Core, HoldsTrees, Traces;
    if tool == V9 {
      SyncTraces(s.disk);
    } else {
      var n := Final(V9);
      WriteTraces(s.disk, Entries(s.disk.dir)[n], Checkpointed(At(s.disk, n)));
    }
    TracesHold(s.disk, After(s, StartLeg(tool)).disk, trees);
  }

  lemma EventFills(s: State, ev: Event, trees: Trees)
    requires Inv(s) && Allowed(s, ev) && Filled(s, trees)
    ensures Filled(After(s, ev), TreesAfter(s, ev, trees))
  {
    hide Inv, HoldsTrees, Built, CurrentGeneration, LegAct, Succeeds, ReapAct, ReapSucceeds;
    match ev
    case StartLeg(tool) => StartFills(s, tool, trees);
    case Act(c) => if s.phase.Leg? { LegFills(s, c, trees); } else { ReapFills(s, c, trees); }
    case Loss(after) => LossFills(s.disk, after, trees);
    case Checkpoint => CheckpointFills(s, trees);
    case _ =>
  }

  ghost function TreesOf(s: State, run: seq<Event>, trees: Trees): Trees
    requires Valid(s, run)
    decreases |run|
  {
    if run == [] then trees else TreesOf(After(s, run[0]), run[1..], TreesAfter(s, run[0], trees))
  }

  lemma {:induction false} RunFills(s: State, run: seq<Event>, trees: Trees)
    requires Inv(s) && Valid(s, run) && Filled(s, trees)
    ensures Inv(EndState(s, run)) && Filled(EndState(s, run), TreesOf(s, run, trees))
    decreases |run|
  {
    hide Inv, Allowed, After, Filled, TreesAfter;
    if run == [] {
    } else {
      EveryEvent(s, run[0]);
      EventFills(s, run[0], trees);
      RunFills(After(s, run[0]), run[1..], TreesAfter(s, run[0], trees));
    }
  }

  lemma EmptyFilled(trees: Trees)
    ensures Inv(Init()) && Filled(Init(), trees)
  {
    SettledIs(Init().disk.dir);
  }

  /** At the end of every run - kills, power losses, checkpoints and reaping included - the
      generation CURRENT resolves to holds exactly the files of the tree that the run last
      wrote for it, with the bytes it was given, all durable. */
  lemma ResolvedHoldsTree(run: seq<Event>, none: Trees)
    requires Valid(Init(), run)
    ensures var e, trees := EndState(Init(), run), TreesOf(Init(), run, none);
      CurrentGeneration(e.disk).Selected? ==>
        var tool := CurrentGeneration(e.disk).tool;
        && (tool == V9 || tool == V10) && HasGeneration(e.disk, Final(tool))
        && var files, tree := At(e.disk, Final(tool)).files, TreeOf(trees, tool);
           files.Keys == tree.Keys && forall f :: f in tree ==> files[f] == FileState(tree[f], true)
  {
    hide Possible, Certain, ApplyOps, CurrentText, Core, CurrentGeneration, Valid, EndState, TreesOf;
    EmptyFilled(none);
    RunFills(Init(), run, none);
    var e := EndState(Init(), run);
    AlwaysResolves(e.disk);
    if CurrentGeneration(e.disk).Selected? {
      var tool := CurrentGeneration(e.disk).tool;
      CachedIsPossible(e.disk.dir, Final(tool));
      assert Marked(e.disk.inodes, Entries(e.disk.dir)[Final(tool)]);
    }
  }
}
