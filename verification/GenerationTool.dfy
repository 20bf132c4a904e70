/** The offline upgrade tool as it runs: one leg in source order, on the disk it
    changes.  Beside it runs the state machine, so that every durable act of the code
    is an act of a machine run. */
module GenerationTool {
  import opened GenerationDisk
  import opened GenerationUpgrade
  import opened GenerationSettling
  import opened GenerationSafety
  import opened GenerationRuns
  import opened GenerationTheorems
  import opened GenerationContents

  method FreshInode(d: Disk) returns (spare: nat)
    ensures spare !in d.inodes
  {
    spare := 0;
    var left := d.inodes.Keys;
    while left != {}
      invariant left <= d.inodes.Keys && forall i :: i in d.inodes && i !in left ==> i < spare
      decreases |left|
    {
      var i :| i in left;
      left := left - {i};
      if i >= spare { spare := i + 1; }
    }
  }

  class MigrationTool {
    const tool: Tool
    var disk: Disk
    ghost var machine: State
    /** The tree last written. */
    ghost var tree: Tree

    /** The code stands before this act, with the tree as far as it got. */
    ghost predicate Before(at: LegStep)
      reads this
    {
      machine.disk == disk && Inv(machine) && machine.phase == Leg(tool, at) && Built(disk, tool, at, tree)
    }

    /** The generation holds exactly this tree, all of it durable. */
    ghost predicate HoldsTree(tree: Tree)
      reads this
    {
      && HasGeneration(disk, Final(tool)) && At(disk, Final(tool)).files.Keys == tree.Keys
      && forall f :: f in tree ==> At(disk, Final(tool)).files[f] == FileState(tree[f], true)
    }

    constructor (tool: Tool, ghost machine: State, disk: Disk)
      requires machine.disk == disk && Inv(machine) && machine.phase == Leg(tool, SweepBuilding)
      ensures this.tool == tool && this.machine == machine && this.disk == disk && Before(SweepBuilding)
    {
      this.tool, this.machine, this.disk, this.tree := tool, machine, disk, map[];
    }

    /** One durable act: it never finds its way blocked. */
    method Perform(at: LegStep, bytes: Tree)
      requires Before(at)
      modifies this
      ensures machine.disk == disk && Inv(machine)
      ensures exists c :: Allowed(old(machine), Act(c)) && machine == After(old(machine), Act(c)) && c.tree == bytes
      ensures tree == if at == WriteTree then bytes else old(tree)
      ensures at == StampSync ==>
        machine.phase == Idle && Floor(disk) == RankOf(tool) == Rank(CurrentGeneration(disk)) && HoldsTree(tree)
      ensures at != StampSync ==> Before(Following(old(disk), tool, at))
    {
      hide Possible, Certain, ApplyOps, CurrentText, Core, LegFacts, Floor, CurrentGeneration, Built;
      var spare := FreshInode(disk);
      var c := Choice(spare, bytes, false, {}, false);
      LegEvent(machine, c);
      BuiltAct(disk, tool, at, c, tree);
      tree := Target(at, c, tree);
      disk := LegAct(disk, tool, at, c);
      machine := After(machine, Act(c));
    }

    /** Remove a stale tree and make its absence durable; nothing to do if there is
        none. */
    method RemoveTreeIfExists(final: bool)
      requires Before(if final then SweepFinal else SweepBuilding)
      modifies this
      ensures Before(if final then CreateBuilding else SweepFinal)
    {
      hide Inv, Floor, Allowed, After, Possible, Certain, ApplyOps, CurrentGeneration;
      var stale := Has(disk, if final then Final(tool) else Building(tool));
      Perform(if final then SweepFinal else SweepBuilding, map[]);
      if stale {
        Perform(if final then UnlinkFinal else UnlinkBuilding, map[]);
        Perform(if final then SyncFinalGone else SyncBuildingGone, map[]);
      }
    }

    /** Write the new generation beside the old one and fsync all of it. */
    method BuildGeneration(bytes: Tree)
      requires Before(CreateBuilding)
      modifies this
      ensures Before(PublishDir) && tree == bytes
      ensures HasGeneration(disk, Building(tool)) && At(disk, Building(tool)).files.Keys == bytes.Keys
      ensures forall f :: f in bytes ==> At(disk, Building(tool)).files[f] == FileState(bytes[f], true)
    {
      hide Inv, Floor, Allowed, After, Possible, Certain, ApplyOps, CurrentGeneration;
      Perform(CreateBuilding, map[]);
      Perform(SyncCreated, map[]);
      Perform(WriteTree, bytes);
      Perform(FsyncTree, map[]);
    }

    /** Drop a stale temporary file, and make that durable. */
    method DropTmp()
      requires Before(DropStaleTmp)
      modifies this
      ensures Before(CreateTmp) && tree == old(tree)
    {
      hide Inv, Floor, Allowed, After, Possible, Certain, ApplyOps, CurrentGeneration, Built, Succeeds, LegAct;
      var stale := Has(disk, CurrentTmp);
      Perform(DropStaleTmp, map[]);
      if stale { Perform(SyncDropped, map[]); }
    }

    method WriteCurrentAtomic()
      requires Before(DropStaleTmp)
      modifies this
      ensures Before(StampRename) && tree == old(tree)
    {
      hide Inv, Floor, Allowed, After, Possible, Certain, ApplyOps, CurrentGeneration, Built, Succeeds, LegAct;
      DropTmp();
      Perform(CreateTmp, map[]);
      Perform(WriteTmp, map[]);
      Perform(SwapCurrent, map[]);
      Perform(SyncCurrent, map[]);
    }

    /** Publish the directory, switch CURRENT, and stamp VERSION last. */
    method Commit()
      requires Before(PublishDir)
      modifies this
      ensures machine.disk == disk && Inv(machine) && machine.phase == Idle
      ensures Floor(disk) == RankOf(tool) == Rank(CurrentGeneration(disk)) && HoldsTree(old(tree))
    {
      hide Inv, Floor, Allowed, After, Possible, Certain, ApplyOps, CurrentGeneration, Built, Succeeds, LegAct;
      Perform(PublishDir, map[]);
      Perform(SyncPublished, map[]);
      WriteCurrentAtomic();
      Perform(StampRename, map[]);
      Perform(StampSync, map[]);
    }

    /** The whole leg ends resolved to its generation, which holds exactly the tree it was
        told to build; no power loss changes either. */
    method UpgradeLeg(bytes: Tree)
      requires Before(SweepBuilding)
      modifies this
      ensures machine.disk == disk && Inv(machine) && machine.phase == Idle
      ensures CurrentGeneration(disk) == Selected(tool) && HoldsTree(bytes)
      ensures forall after :: PowerLoss(disk, after) ==>
        && Rank(CurrentGeneration(after)) >= RankOf(tool) && HasGeneration(after, Final(tool))
        && At(after, Final(tool)).files.Keys == bytes.Keys
        && forall f :: f in bytes ==> At(after, Final(tool)).files[f] == FileState(bytes[f], true)
    {
      hide Floor, CurrentGeneration, PowerLoss, Core, LegFacts, Built;
      ToolIs(machine);
      RemoveTreeIfExists(false);
      RemoveTreeIfExists(true);
      BuildGeneration(bytes);
      Commit();
      RankIs(CurrentGeneration(disk));
      forall after | PowerLoss(disk, after)
        ensures Rank(CurrentGeneration(after)) >= RankOf(tool)
        ensures HasGeneration(after, Final(tool)) && Stored(At(after, Final(tool)), bytes)
      {
        LossEvent(disk, after);
        CoreIsSound(after);
        CommittedLasts(disk, after, tool, bytes);
      }
    }
  }

  lemma ToolIs(s: State)
    requires Inv(s) && s.phase.Leg?
    ensures s.phase.tool == V9 || s.phase.tool == V10
  {
    LegFactsFloor(s.disk, s.phase.tool, s.phase.at);
  }

  lemma CommittedLasts(d: Disk, after: Disk, tool: Tool, tree: Tree)
    requires PowerLoss(d, after) && Floor(d) == RankOf(tool) && (tool == V9 || tool == V10)
    requires HasGeneration(d, Final(tool)) && Stored(At(d, Final(tool)), tree)
    ensures HasGeneration(after, Final(tool)) && Stored(At(after, Final(tool)), tree)
  {
    hide ApplyOps, Stored;
    LossSettles(d, after);
    SettledIs(after.dir);
    var i := after.dir.durable[Final(tool)];
    assert i in Possible(d.dir, Final(tool));
    StoredSurvives(d.inodes[i], after.inodes[i], tree);
  }

  /** The act that follows, when the build does not go on. */
  function Following(d: Disk, tool: Tool, at: LegStep): LegStep
    requires at != StampSync
  {
    LegNext(d, tool, at, Choice(0, map[], false, {}, false)).at
  }
}
