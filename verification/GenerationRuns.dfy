/** Every run of the upgrade machine: the invariant is inductive over legs,
    reaping, checkpoints, kills and power losses, and the theorems a user of the
    data directory relies on follow from it. */
module GenerationRuns {
  import opened GenerationDisk
  import opened GenerationUpgrade
  import opened GenerationSettling
  import opened GenerationSafety

  function Order(at: LegStep): nat {
    match at
    case SweepBuilding => 0 case UnlinkBuilding => 1 case SyncBuildingGone => 2
    case SweepFinal => 3 case UnlinkFinal => 4 case SyncFinalGone => 5
    case CreateBuilding => 6 case SyncCreated => 7
    case WriteTree => 8 case FsyncTree => 9
    case PublishDir => 10 case SyncPublished => 11
    case DropStaleTmp => 12 case SyncDropped => 13
    case CreateTmp => 14 case WriteTmp => 15
    case SwapCurrent => 16 case SyncCurrent => 17
    case StampRename => 18 case StampSync => 19
  }

  /** Where the leg's own names stand at each act. */
  ghost predicate LegPlace(d: Disk, tool: Tool, at: LegStep) {
    var r := Order(at);
    && (2 <= r <= 6 ==> !Has(d, Building(tool)))
    && (5 <= r <= 10 ==> !Has(d, Final(tool)))
    && (7 <= r <= 10 ==> HasGeneration(d, Building(tool)))
    && (r == 10 ==> Complete(At(d, Building(tool))))
    && (11 <= r <= 17 ==> !Has(d, Building(tool)))
    && (11 <= r <= 17 ==> HasGeneration(d, Final(tool)) && Complete(At(d, Final(tool))))
    && (12 <= r <= 17 ==> Fixed(d.dir, Final(tool)))
    && (13 <= r <= 14 ==> !Has(d, CurrentTmp))
    && (15 <= r <= 16 ==> Has(d, CurrentTmp))
    && (r == 15 ==> Entries(d.dir)[CurrentTmp] !in Possible(d.dir, CurrentFile))
    && (r == 16 ==> TextAt(d.inodes, Entries(d.dir)[CurrentTmp], tool))
    && (r == 17 ==> Has(d, CurrentFile) && TextAt(d.inodes, Entries(d.dir)[CurrentFile], tool))
  }

  ghost predicate LegAt(d: Disk, tool: Tool, at: LegStep) {
    LegBase(d, tool) && LegPlace(d, tool, at)
  }

  /** The generation is in place and CURRENT names it, all durably; only its
      VERSION stamp is left. */
  ghost predicate ReadyToStamp(d: Disk, tool: Tool) {
    && LegBase(d, tool)
    && Fixed(d.dir, CurrentFile) && NamesOnly(d, tool)
    && Fixed(d.dir, Final(tool)) && Complete(d.inodes[Entries(d.dir)[Final(tool)]])
    && Possible(d.dir, Building(tool)) == {}
  }

  ghost predicate StampPending(d: Disk, tool: Tool) {
    && Core(d) && (tool == V9 || tool == V10)
    && AllPublished(d, tool) && Certain(d.dir, CurrentFile)
    && d.inodes[Entries(d.dir)[Final(tool)]].stamp.Renamed?
    && (tool == V9 ==> NoneMarked(d, V10))
    && (tool == V10 ==> AllCommitted(d, V9))
  }

  ghost predicate Successor(d: Disk) {
    Core(d) && AllCommitted(d, V10)
  }

  /** Settled: no directory operation is waiting, and gen-v10 has checkpointed
      beyond the migration's own checkpoint. */
  ghost predicate Handover(d: Disk) {
    Successor(d) && d.inodes[Entries(d.dir)[Final(V10)]].epoch > 1
  }

  ghost predicate ReapPlace(s: State, at: ReapStep) {
    var d := s.disk;
    match at
    case ProveSuccessor => AllPublished(d, V10)
    case ProveRoot => Successor(d)
    case Drain => Handover(d) && d.dir.pending == [] && Has(d, Final(V9)) && !Has(d, CleanupDir)
    case RetireDir =>
      && Handover(d) && d.dir.pending == [] && Has(d, Final(V9)) && !Has(d, CleanupDir)
      && s.retired && s.readers == 0
    case SyncRetired => Handover(d) && Has(d, CleanupDir)
    case SweepCleanup => Handover(d) && d.dir.pending == [] && Has(d, CleanupDir)
    case _ => Handover(d) && Possible(d.dir, Final(V9)) == {}
  }

  ghost predicate PhaseFacts(s: State) {
    match s.phase
    case Idle => true
    case Leg(tool, at) => LegFacts(s.disk, tool, at)
    case Reap(at) => ReapPlace(s, at)
  }

  /** A live reader of gen-v9 still has its stamped directory. */
  ghost predicate ReadersFed(s: State) {
    s.readers > 0 ==> !s.retired && Stamped(s.disk, Final(V9))
  }

  ghost predicate Inv(s: State) {
    Core(s.disk) && PhaseFacts(s) && ReadersFed(s)
  }

  // ---- reading CURRENT under the invariant ------------------------------------

  lemma ResolvesNamed(d: Disk, tool: Tool)
    requires CurrentFile in Entries(d.dir) && TextAt(d.inodes, Entries(d.dir)[CurrentFile], tool)
    ensures CurrentGeneration(d) ==
              if Stamped(d, Final(tool)) then Selected(tool)
              else if tool == V10 && Stamped(d, Final(V9)) then Selected(V9)
              else Legacy
  {
    CurrentTextNames(tool);
  }

  /** CURRENT always resolves, to the legacy root, gen-v9 or gen-v10. */
  lemma AlwaysResolves(d: Disk)
    requires Core(d)
    ensures CurrentGeneration(d) in {Legacy, Selected(V9), Selected(V10)}
    ensures CurrentGeneration(d).Selected? ==> Stamped(d, Final(CurrentGeneration(d).tool))
  {
    CachedIsPossible(d.dir, CurrentFile);
    if CurrentFile in Entries(d.dir) {
      assert Fits(d.inodes, CurrentFile, Entries(d.dir)[CurrentFile]);
      if TextAt(d.inodes, Entries(d.dir)[CurrentFile], V9) { ResolvesNamed(d, V9); } else { ResolvesNamed(d, V10); }
    }
  }

  lemma V10Resolves(d: Disk)
    requires Core(d) && !NoneMarked(d, V10)
    ensures CurrentGeneration(d) == Selected(V10) && AllPublished(d, V10)
  {
    CachedIsPossible(d.dir, CurrentFile);
    ResolvesNamed(d, V10);
  }

  lemma CommittedIsMarked(d: Disk, tool: Tool)
    requires AllPublished(d, tool)
    ensures !NoneMarked(d, tool) && Stamped(d, Final(tool))
  {
  }

  lemma V9Resolves(d: Disk)
    requires Core(d) && NoneMarked(d, V10) && AllPublished(d, V9) && Certain(d.dir, CurrentFile)
    ensures CurrentGeneration(d) == Selected(V9)
  {
    CommittedIsMarked(d, V9);
    CachedIsPossible(d.dir, CurrentFile);
    CachedIsPossible(d.dir, Final(V10));
    assert Fits(d.inodes, CurrentFile, Entries(d.dir)[CurrentFile]);
    if TextAt(d.inodes, Entries(d.dir)[CurrentFile], V9) { ResolvesNamed(d, V9); } else { ResolvesNamed(d, V10); }
  }

  lemma LegacyMeansUnmarked(d: Disk)
    requires Core(d) && CurrentGeneration(d) == Legacy
    ensures LegBase(d, V9)
  {
    if !NoneMarked(d, V10) { V10Resolves(d); }
    if AllPublished(d, V10) { CommittedIsMarked(d, V10); }
    if AllPublished(d, V9) && Certain(d.dir, CurrentFile) { V9Resolves(d); }
  }

  lemma V9MeansReady(d: Disk)
    requires Core(d) && CurrentGeneration(d) == Selected(V9)
    ensures NoneMarked(d, V10) && AllPublished(d, V9) && Certain(d.dir, CurrentFile)
    ensures Possible(d.dir, CleanupDir) == {}
  {
    if !NoneMarked(d, V10) { V10Resolves(d); }
    if AllPublished(d, V10) { CommittedIsMarked(d, V10); }
    AlwaysResolves(d);
    CachedIsPossible(d.dir, Final(V9));
    assert Marked(d.inodes, Entries(d.dir)[Final(V9)]);
  }

  lemma V10MeansPublished(d: Disk)
    requires Core(d) && CurrentGeneration(d) == Selected(V10)
    ensures AllPublished(d, V10)
  {
    AlwaysResolves(d);
    CachedIsPossible(d.dir, Final(V10));
    assert Marked(d.inodes, Entries(d.dir)[Final(V10)]);
  }

  // ---- the leg's acts -----------------------------------------------------------

  lemma LegSync(d: Disk, tool: Tool)
    requires LegBase(d, tool)
    ensures LegBase(SyncRoot(d), tool)
    ensures Entries(SyncRoot(d).dir) == Entries(d.dir)
    ensures forall n :: Has(d, n) ==> Fixed(SyncRoot(d).dir, n)
  {
    SyncSettles(d);
    LegSettle(d, SyncRoot(d), tool);
    SettledIs(SyncRoot(d).dir);
  }

  /** The steps that follow an fsync of the root, and what they start from. */
  lemma SyncActs(d: Disk, tool: Tool, at: LegStep, next: LegStep)
    requires LegAt(d, tool, at)
    requires (at, next) in {(SyncBuildingGone, SweepFinal), (SyncFinalGone, CreateBuilding), (SyncCreated, WriteTree),
                            (SyncPublished, DropStaleTmp), (SyncDropped, CreateTmp)}
    ensures LegAt(SyncRoot(d), tool, next)
  {
    hide Possible, Certain, ApplyOps, Typed, Exclusive, Apart, NoneMarked, NamesOnly, CurrentText, LegBase;
    LegSync(d, tool);
  }

  lemma LegSyncCurrent(d: Disk, tool: Tool, c: Choice)
    requires LegAt(d, tool, SyncCurrent)
    ensures Continues(d, tool, SyncCurrent, c)
  {
    hide Certain, ApplyOps, Typed, Exclusive, Apart, CurrentText, LegBase;
    LegSync(d, tool);
    SettledIs(SyncRoot(d).dir);
  }

  lemma UnlinkAct(d: Disk, tool: Tool, at: LegStep, n: Name, next: LegStep)
    requires LegAt(d, tool, at)
    requires (at, n, next) in {(UnlinkBuilding, Building(tool), SyncBuildingGone),
                               (UnlinkFinal, Final(tool), SyncFinalGone), (DropStaleTmp, CurrentTmp, SyncDropped)}
    ensures LegAt(Issue(d, Unlink(n)), tool, next)
  {
    hide Possible, Certain, ApplyOps, Typed, Exclusive, Apart, NoneMarked, NamesOnly, CurrentText;
    LegIssue(d, tool, Unlink(n));
    ThenIs(d.dir, Unlink(n));
  }

  lemma PublishStep(d: Disk, tool: Tool, c: Choice)
    requires LegAt(d, tool, PublishDir)
    ensures Continues(d, tool, PublishDir, c)
  {
    hide Possible, Certain, ApplyOps, Typed, Exclusive, Apart, NoneMarked, NamesOnly, CurrentText;
    OwnsName(d, tool, Building(tool));
    var op := Rename(Building(tool), Final(tool), Entries(d.dir)[Building(tool)]);
    LegIssue(d, tool, op);
    ThenIs(d.dir, op);
  }

  lemma SwapStep(d: Disk, tool: Tool, c: Choice)
    requires LegAt(d, tool, SwapCurrent)
    ensures Continues(d, tool, SwapCurrent, c)
  {
    hide Possible, Certain, ApplyOps, Typed, Exclusive, Apart, NoneMarked, NamesOnly, CurrentText;
    var op := Rename(CurrentTmp, CurrentFile, Entries(d.dir)[CurrentTmp]);
    LegIssue(d, tool, op);
    ThenIs(d.dir, op);
  }

  /** Rewriting the generation under a name the leg owns. */
  lemma WriteAct(d: Disk, tool: Tool, n: Name, inode: Inode)
    requires LegBase(d, tool) && Has(d, n) && n in {Building(tool), Final(tool)}
    requires inode.Generation? && inode.tool == tool && inode.stamp == Unstamped
    ensures LegBase(Put(d, n, inode), tool)
  {
    CachedIsPossible(d.dir, n);
    assert Fits(d.inodes, n, Entries(d.dir)[n]);
    LegChange(d, tool, Entries(d.dir)[n], inode);
  }

  lemma CreateAct(d: Disk, tool: Tool, n: Name, inode: Inode, spare: nat)
    requires LegBase(d, tool) && spare !in d.inodes
    requires (n, inode) in {(Building(tool), NewGeneration(tool)), (CurrentTmp, Text("", false))}
    ensures var e := SetInode(d, spare, inode); LegBase(Issue(e, Link(n, spare)), tool)
    ensures spare !in Possible(d.dir, CurrentFile)
  {
    var e := SetInode(d, spare, inode);
    assert spare in Possible(d.dir, CurrentFile) ==> Fits(d.inodes, CurrentFile, spare);
    LegChange(d, tool, spare, inode);
    LegIssue(e, tool, Link(n, spare));
  }

  lemma LegStamps(d: Disk, tool: Tool, c: Choice)
    requires ReadyToStamp(d, tool)
    ensures Continues(d, tool, StampRename, c)
  {
    hide Possible, Certain, ApplyOps, CurrentText;
    var j := Entries(d.dir)[Final(tool)];
    assert Fits(d.inodes, Final(tool), j);
    var d' := LegAct(d, tool, StampRename, c);
    assert d' == SetInode(d, j, d'.inodes[j]);
    assert Complete(d'.inodes[j]);
    assert Typed(d') by {
      forall n, i | i in Possible(d.dir, n) ensures Fits(d'.inodes, n, i) { assert Fits(d.inodes, n, i); }
    }
    assert NamesOnly(d', tool);
    assert AllPublished(d', tool);
    if tool == V9 { assert NoneMarked(d', V10); } else { assert AllCommitted(d', V9); }
  }

  /** Settling a published generation's VERSION rename, or checkpointing it,
      changes nothing else. */
  lemma Restamp(d: Disk, tool: Tool, inode: Inode)
    requires Core(d) && AllPublished(d, tool) && (tool == V9 || tool == V10)
    requires inode.Generation?
    requires var was := d.inodes[Entries(d.dir)[Final(tool)]];
      && inode.tool == was.tool && inode.files == was.files && inode.covered == was.covered
      && inode.stamp == Durable(was.stamp.version)
    ensures var d' := SetInode(d, Entries(d.dir)[Final(tool)], inode);
      && Core(d') && AllCommitted(d', tool)
      && (forall t :: AllCommitted(d, t) ==> AllCommitted(d', t))
      && (NoneMarked(d, V10) ==> NoneMarked(d', V10))
  {
    hide Possible, Certain, ApplyOps, CurrentText;
    var j := Entries(d.dir)[Final(tool)];
    var d' := SetInode(d, j, inode);
    assert Complete(inode);
    assert j in Possible(d.dir, Final(tool));
    assert Typed(d') by {
      forall n, i | i in Possible(d.dir, n) ensures Fits(d'.inodes, n, i) { assert Fits(d.inodes, n, i); }
    }
    assert forall t :: NamesOnly(d, t) ==> NamesOnly(d', t);
    assert forall t :: NoneMarked(d, t) ==> NoneMarked(d', t);
    assert forall t :: AllPublished(d, t) ==> AllPublished(d', t);
    assert MarkedIsPublished(d', V9);
  }

  // ---- each act keeps the leg's facts ------------------------------------------

  ghost predicate LegFacts(d: Disk, tool: Tool, at: LegStep) {
    if at.StampRename? then ReadyToStamp(d, tool)
    else if at.StampSync? then StampPending(d, tool)
    else LegAt(d, tool, at)
  }

  ghost predicate Continues(d: Disk, tool: Tool, at: LegStep, c: Choice) {
    && Succeeds(d, tool, at)
    && LegNext(d, tool, at, c).Leg? && LegNext(d, tool, at, c).tool == tool
    && LegFacts(LegAct(d, tool, at, c), tool, LegNext(d, tool, at, c).at)
  }

  /** Under an owned name stands a generation of the leg's tool. */
  lemma OwnsName(d: Disk, tool: Tool, n: Name)
    requires LegBase(d, tool) && (n == Building(tool) || n == Final(tool)) && Has(d, n)
    ensures HasGeneration(d, n) && At(d, n).tool == tool && At(d, n).stamp == Unstamped
  {
    CachedIsPossible(d.dir, n);
    assert Fits(d.inodes, n, Entries(d.dir)[n]);
  }

  lemma SweepSteps(d: Disk, tool: Tool, at: LegStep, c: Choice)
    requires LegAt(d, tool, at) && (at.SweepBuilding? || at.SweepFinal?)
    ensures Continues(d, tool, at, c)
  {
    hide Possible, Certain, ApplyOps, Typed, Exclusive, Apart, NoneMarked, NamesOnly, CurrentText;
    var n := if at.SweepBuilding? then Building(tool) else Final(tool);
    if Has(d, n) {
      OwnsName(d, tool, n);
      WriteAct(d, tool, n, Scrubbed(At(d, n), c.keep, c.keepStamp));
    }
  }

  lemma CreateBuildingStep(d: Disk, tool: Tool, c: Choice)
    requires LegAt(d, tool, CreateBuilding) && c.spare !in d.inodes
    ensures Continues(d, tool, CreateBuilding, c)
  {
    hide Possible, Certain, ApplyOps, Typed, Exclusive, Apart, NoneMarked, NamesOnly, CurrentText;
    CreateAct(d, tool, Building(tool), NewGeneration(tool), c.spare);
    ThenIs(d.dir, Link(Building(tool), c.spare));
  }

  lemma TreeSteps(d: Disk, tool: Tool, at: LegStep, c: Choice)
    requires LegAt(d, tool, at) && (at.WriteTree? || at.FsyncTree?)
    ensures Continues(d, tool, at, c)
  {
    hide Possible, Certain, ApplyOps, Typed, Exclusive, Apart, NoneMarked, NamesOnly, CurrentText;
    OwnsName(d, tool, Building(tool));
    var inode := At(d, Building(tool));
    WriteAct(d, tool, Building(tool), if at.WriteTree? then Rewritten(inode, c.tree) else Ledger(inode));
  }

  lemma CreateTmpStep(d: Disk, tool: Tool, c: Choice)
    requires LegAt(d, tool, CreateTmp) && c.spare !in d.inodes
    ensures Continues(d, tool, CreateTmp, c)
  {
    hide Possible, Certain, ApplyOps, Typed, Exclusive, Apart, NoneMarked, NamesOnly, CurrentText;
    CreateAct(d, tool, CurrentTmp, Text("", false), c.spare);
    ThenIs(d.dir, Link(CurrentTmp, c.spare));
  }

  lemma WriteTmpStep(d: Disk, tool: Tool, c: Choice)
    requires LegAt(d, tool, WriteTmp)
    ensures Continues(d, tool, WriteTmp, c)
  {
    hide Possible, Certain, ApplyOps, CurrentText;
    var j := Entries(d.dir)[CurrentTmp];
    CachedIsPossible(d.dir, CurrentTmp);
    assert Fits(d.inodes, CurrentTmp, j);
    LegChange(d, tool, j, Text(CurrentText(tool), true));
    assert Fits(d.inodes, Final(tool), Entries(d.dir)[Final(tool)]);
  }

  lemma SyncKeeps(d: Disk, tool: Tool, at: LegStep, c: Choice)
    requires LegAt(d, tool, at)
    requires at.SyncBuildingGone? || at.SyncFinalGone? || at.SyncCreated? || at.SyncPublished? || at.SyncDropped?
    ensures Continues(d, tool, at, c)
  {
    hide LegBase, LegPlace;
    match at
    case SyncBuildingGone => SyncActs(d, tool, at, SweepFinal);
    case SyncFinalGone => SyncActs(d, tool, at, CreateBuilding);
    case SyncCreated => SyncActs(d, tool, at, WriteTree);
    case SyncPublished => SyncActs(d, tool, at, DropStaleTmp);
    case SyncDropped => SyncActs(d, tool, at, CreateTmp);
  }

  lemma NoStaleTmp(d: Disk, tool: Tool)
    requires LegAt(d, tool, DropStaleTmp) && !Has(d, CurrentTmp)
    ensures LegAt(d, tool, CreateTmp)
  {
  }

  lemma UnlinkKeeps(d: Disk, tool: Tool, at: LegStep, c: Choice)
    requires LegAt(d, tool, at)
    requires at.UnlinkBuilding? || at.UnlinkFinal? || at.DropStaleTmp?
    ensures Continues(d, tool, at, c)
  {
    hide LegBase, LegPlace;
    match at
    case UnlinkBuilding => UnlinkAct(d, tool, at, Building(tool), SyncBuildingGone);
    case UnlinkFinal => UnlinkAct(d, tool, at, Final(tool), SyncFinalGone);
    case DropStaleTmp =>
      if Has(d, CurrentTmp) { UnlinkAct(d, tool, at, CurrentTmp, SyncDropped); } else { NoStaleTmp(d, tool); }
  }

  /** No act of a leg ever finds its way blocked, and each leads to the next
      act's starting facts. */
  lemma LegKeeps(d: Disk, tool: Tool, at: LegStep, c: Choice)
    requires LegFacts(d, tool, at) && c.spare !in d.inodes && at != StampSync
    ensures Continues(d, tool, at, c)
  {
    hide Continues, LegBase, LegPlace, ReadyToStamp, StampPending;
    if at.StampRename? {
      LegStamps(d, tool, c);
    } else if at.SyncCurrent? {
      LegSyncCurrent(d, tool, c);
    } else if at.PublishDir? {
      PublishStep(d, tool, c);
    } else if at.SwapCurrent? {
      SwapStep(d, tool, c);
    } else if at.CreateTmp? {
      CreateTmpStep(d, tool, c);
    } else if at.WriteTmp? {
      WriteTmpStep(d, tool, c);
    } else if at.UnlinkBuilding? || at.UnlinkFinal? || at.DropStaleTmp? {
      UnlinkKeeps(d, tool, at, c);
    } else if at.SyncBuildingGone? || at.SyncFinalGone? || at.SyncCreated? || at.SyncPublished? || at.SyncDropped? {
      SyncKeeps(d, tool, at, c);
    } else if at.CreateBuilding? {
      CreateBuildingStep(d, tool, c);
    } else if at.SweepBuilding? || at.SweepFinal? {
      SweepSteps(d, tool, at, c);
    } else {
      TreeSteps(d, tool, at, c);
    }
  }

  lemma LegEnds(d: Disk, tool: Tool, c: Choice)
    requires StampPending(d, tool)
    ensures Succeeds(d, tool, StampSync)
    ensures var d' := LegAct(d, tool, StampSync, c);
      Core(d') && AllCommitted(d', tool) && Certain(d'.dir, CurrentFile) && (tool == V10 ==> AllCommitted(d', V9))
  {
    var was := At(d, Final(tool));
    Restamp(d, tool, WithStamp(was, Durable(was.stamp.version)));
  }

  // ---- the reaper's acts ---------------------------------------------------------

  lemma ProveRootAct(d: Disk)
    requires Successor(d)
    ensures Successor(SyncRoot(d)) && SyncRoot(d).inodes == d.inodes
    ensures Entries(SyncRoot(d).dir) == Entries(d.dir)
    ensures Has(d, CleanupDir) ==> Possible(SyncRoot(d).dir, Final(V9)) == {}
  {
    SyncSettles(d);
    SettleCore(d, SyncRoot(d));
    SettleCommitted(d, SyncRoot(d), V10);
    SettledIs(SyncRoot(d).dir);
    NeverBothCached(d.dir, Final(V9), CleanupDir);
  }

  lemma RetireAct(d: Disk)
    requires Handover(d) && d.dir.pending == [] && Has(d, Final(V9)) && !Has(d, CleanupDir)
    ensures var d' := Issue(d, Rename(Final(V9), CleanupDir, Entries(d.dir)[Final(V9)]));
      Handover(d') && Has(d', CleanupDir)
  {
    var j := Entries(d.dir)[Final(V9)];
    var op := Rename(Final(V9), CleanupDir, j);
    var d' := Issue(d, op);
    SettledIs(d.dir);
    ThenIs(d.dir, op);
    assert Fits(d.inodes, Final(V9), j);
    assert Typed(d') by {
      forall n, i | i in Possible(d'.dir, n) ensures Fits(d'.inodes, n, i) {
        assert i in Possible(d.dir, n) || i in SetBy(op, n);
      }
    }
    assert Front(d'.dir) == d.dir;
    assert Apart(d'.dir);
    IssueFixed(d.dir, op, Final(V10));
    CommittedIsMarked(d, V10);
    assert NamesOnly(d', V10);
  }

  lemma SweepCleanupAct(d: Disk, c: Choice)
    requires Handover(d) && d.dir.pending == [] && Has(d, CleanupDir)
    ensures HasGeneration(d, CleanupDir)
    ensures var d' := ReapAct(d, SweepCleanup, c); Handover(d') && Possible(d'.dir, Final(V9)) == {}
  {
    SettledIs(d.dir);
    var j := Entries(d.dir)[CleanupDir];
    assert j in Possible(d.dir, CleanupDir);
    assert Fits(d.inodes, CleanupDir, j);
    CommittedIsMarked(d, V10);
    var d' := ReapAct(d, SweepCleanup, c);
    assert d' == SetInode(d, j, d'.inodes[j]);
    assert Typed(d') by {
      forall n, i | i in Possible(d'.dir, n) ensures Fits(d'.inodes, n, i) { assert Fits(d.inodes, n, i); }
    }
    assert NamesOnly(d', V10);
  }

  lemma UnlinkCleanupAct(d: Disk)
    requires Handover(d) && Possible(d.dir, Final(V9)) == {}
    ensures var d' := Issue(d, Unlink(CleanupDir)); Handover(d') && Possible(d'.dir, Final(V9)) == {}
  {
    var op := Unlink(CleanupDir);
    var d' := Issue(d, op);
    ThenIs(d.dir, op);
    assert Typed(d') by {
      forall n, i | i in Possible(d'.dir, n) ensures Fits(d'.inodes, n, i) { assert Fits(d.inodes, n, i); }
    }
    assert Front(d'.dir) == d.dir;
    IssueFixed(d.dir, op, Final(V10));
    CommittedIsMarked(d, V10);
    assert NamesOnly(d', V10);
  }
}
