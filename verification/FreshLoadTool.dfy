/** The fresh-load tool as it runs: classify, lock, then build and commit or resume, on
    the disk it changes, with the state machine beside it. */
module FreshLoadTool {
  import opened GenerationDisk
  import opened GenerationSettling
  import opened GenerationUpgrade
  import opened FreshLoad
  import opened FreshLoadRuns
  import opened FreshLoadSafety
  import opened FreshLoadCompletion
  import opened FreshLoadContents
  import opened GenerationContents
  import GenerationTool

  datatype Outcome = Loaded | AlreadyThere | Failed

  class Loader {
    var disk: Disk
    ghost var machine: LoadState
    /** This run builds, and the tree it last wrote. */
    ghost var builds: bool
    ghost var tree: Tree

    ghost predicate Before(step: Step)
      reads this
    {
      machine.disk == disk && LInv(machine) && machine.phase == Loading(step) && (builds ==> LFilled(machine, tree))
    }

    /** The published generation holds exactly this tree, all of it durable. */
    ghost predicate HoldsTree(tree: Tree)
      reads this
    {
      && HasGeneration(disk, Final(L)) && At(disk, Final(L)).files.Keys == tree.Keys
      && forall f :: f in tree ==> At(disk, Final(L)).files[f] == FileState(tree[f], true)
    }

    constructor (disk: Disk, ghost machine: LoadState)
      requires machine.disk == disk && LInv(machine)
      ensures this.disk == disk && this.machine == machine
    {
      this.disk, this.machine, builds, tree := disk, machine, false, map[];
    }

    /** One durable act: it never finds its way blocked. */
    method Perform(step: Step, bytes: Tree, ghost was: Disk)
      requires Before(step) && Heads(was, machine) && Classify(was) != AlreadyLoaded
      modifies this
      ensures machine.disk == disk && LInv(machine) && Heads(was, machine)
      ensures exists c :: LoadAllowed(old(machine), LoadAct(c)) && machine == LoadAfter(old(machine), LoadAct(c))
      ensures machine.phase == Following(old(disk), step)
      ensures builds == old(builds) && tree == if step == Commit(WriteTree) then bytes else old(tree)
      ensures builds ==> LFilled(machine, tree)
    {
      hide LCore, CommitPlace, Heads, Classify, LFilled;
      var spare := GenerationTool.FreshInode(disk);
      var c := Choice(spare, bytes, false, {}, false);
      LStep(disk, step, c);
      HeadsAct(was, machine, c);
      if builds { StepFills(machine, c, tree); }
      tree := TreeAfter(machine, LoadAct(c), tree);
      disk := StepAct(disk, step, c);
      machine := LoadAfter(machine, LoadAct(c));
    }

    /** Reuse a stale building directory after wiping it, or make one. */
    method Prepare(ghost was: Disk)
      requires Before(WipeBuilding) || Before(Commit(CreateBuilding))
      requires Heads(was, machine) && Classify(was) != AlreadyLoaded
      modifies this
      ensures Before(Commit(WriteTree)) && Heads(was, machine) && builds == old(builds)
    {
      hide LInv, LoadAllowed, LoadAfter, ApplyOps, Heads, Classify, Succeeds, LegAct, StepAct, StepSucceeds, LFilled;
      WipeOrCreate(machine);
      if Has(disk, Building(L)) {
        Perform(WipeBuilding, map[], was);
      } else {
        Perform(Commit(CreateBuilding), map[], was);
        Perform(Commit(SyncCreated), map[], was);
      }
    }

    /** Write the building directory, fsync it and publish it. */
    method BuildAndPublish(bytes: Tree, ghost was: Disk)
      requires Before(WipeBuilding) || Before(Commit(CreateBuilding))
      requires Heads(was, machine) && Classify(was) != AlreadyLoaded
      modifies this
      ensures Before(Commit(DropStaleTmp)) && Heads(was, machine) && builds == old(builds) && tree == bytes
      ensures builds ==> HoldsTree(bytes)
    {
      hide LInv, LoadAllowed, LoadAfter, ApplyOps, Heads, Classify, Succeeds, LegAct, StepAct, StepSucceeds, LFilled;
      Prepare(was);
      Perform(Commit(WriteTree), bytes, was);
      Perform(Commit(FsyncTree), map[], was);
      Perform(Commit(PublishDir), map[], was);
      Perform(Commit(SyncPublished), map[], was);
      if builds { Published(machine, bytes); }
    }

    /** Drop a stale temporary file, and make that durable. */
    method DropTmp(ghost was: Disk)
      requires Before(Commit(DropStaleTmp)) && Heads(was, machine) && Classify(was) != AlreadyLoaded
      modifies this
      ensures Before(Commit(CreateTmp)) && Heads(was, machine) && builds == old(builds) && tree == old(tree)
    {
      hide LInv, LoadAllowed, LoadAfter, ApplyOps, Heads, Classify, Succeeds, LegAct, StepAct, StepSucceeds, LFilled;
      var stale := Has(disk, CurrentTmp);
      Perform(Commit(DropStaleTmp), map[], was);
      if stale { Perform(Commit(SyncDropped), map[], was); }
    }

    /** Switch CURRENT to the published generation. */
    method Select(ghost was: Disk)
      requires Before(Commit(DropStaleTmp)) && Heads(was, machine) && Classify(was) != AlreadyLoaded
      modifies this
      ensures Before(Commit(StampRename)) && Heads(was, machine) && builds == old(builds) && tree == old(tree)
    {
      hide LInv, LoadAllowed, LoadAfter, ApplyOps, Heads, Classify, Succeeds, LegAct, StepAct, StepSucceeds, LFilled;
      DropTmp(was);
      Perform(Commit(CreateTmp), map[], was);
      Perform(Commit(WriteTmp), map[], was);
      Perform(Commit(SwapCurrent), map[], was);
      Perform(Commit(SyncCurrent), map[], was);
    }

    /** The acts of a run that started on a directory of this kind. */
    method Finish(kind: DirState, bytes: Tree, ghost was: Disk)
      requires machine.disk == disk && LInv(machine) && machine.phase == FirstStep(was) && LCore(was)
      requires Heads(was, machine) && kind == Classify(was) && kind != AlreadyLoaded && kind != CorruptCommit
      requires (builds <==> kind == Virgin || kind == StaleBuilding) && (builds ==> LFilled(machine, tree))
      modifies this
      ensures machine.disk == disk && LInv(machine) && machine.phase == Quiet
      ensures Classify(disk) == AlreadyLoaded && (Lasting(disk) <==> EndsLasting(was))
      ensures builds == old(builds) && (builds ==> LFilled(machine, bytes))
    {
      hide LCore, StepFacts, Stuck, Classify, PowerLoss, Heads, Lasting, EndsLasting, ApplyOps, FirstStep,
        Succeeds, LegAct, StepAct, LoadAllowed, LoadAfter, LFilled;
      LDispatch(was);
      if kind == Virgin || kind == StaleBuilding { BuildAndPublish(bytes, was); }
      if kind != SelectedUnstamped { Select(was); }
      Perform(Commit(StampRename), map[], was);
      Perform(Commit(StampSync), map[], was);
      HeadsGoesOn(was, machine);
    }

    /** One run of the tool.  On a directory with anything foreign in it, whatever else it
        holds, it fails and changes nothing.  From any point earlier runs were cut at, it
        fails exactly on a CURRENT without its generation or a stamp without its CURRENT,
        and otherwise ends with the load committed - lastingly exactly if EndsLasting says
        so - and, where it built, with exactly the tree it was given, now and after every
        power loss. */
    method Load(bytes: Tree) returns (outcome: Outcome)
      requires machine.disk == disk && machine.phase == Quiet && (Classify(disk) != Populated ==> LInv(machine))
      modifies this
      ensures machine.disk == disk && machine.phase == Quiet
      ensures old(Classify(disk)) == Populated ==> outcome == Failed && disk == old(disk)
      ensures old(Classify(disk)) != Populated ==> LInv(machine) && (outcome == Failed <==> !Usable(old(disk)))
      ensures outcome == Failed ==> Stuck(old(disk))
      ensures outcome == Failed && old(Has(disk, CurrentFile) && !Has(disk, Final(M5Load))) ==> disk == old(disk)
      ensures
        outcome == Failed && old(Classify(disk) != Populated && (Has(disk, CurrentFile) ==> Has(disk, Final(L)))) ==>
          OnlyLocked(old(disk), disk)
      ensures outcome == AlreadyThere <==> old(Classify(disk)) == AlreadyLoaded
      ensures outcome != Failed ==> Classify(disk) == AlreadyLoaded && (Lasting(disk) <==> EndsLasting(old(disk)))
      ensures old(Classify(disk)) == Virgin || old(Classify(disk)) == StaleBuilding ==>
        outcome == Loaded && HoldsTree(bytes) && forall after :: PowerLoss(disk, after) ==> StillHolds(after, bytes)
    {
      hide LCore, StepFacts, Locked, Stuck, Classify, PowerLoss, Heads, Lasting, EndsLasting, ApplyOps,
        Succeeds, LegAct, StepAct, Usable, LFilled, OnlyLocked;
      var was := disk;
      var kind := Classify(was);
      var spare := GenerationTool.FreshInode(was);
      if kind == Populated {
        PopulatedIsRefused(was, spare);
        return Failed;
      }
      StuckIff(was);
      LDispatch(was);
      if Stuck(was) {
        LLock(was, spare);
        TurnedAwayIs(was, spare);
        disk := TurnedAway(was, spare);
        machine := LoadAfter(machine, FailLoad(spare));
        return Failed;
      }
      LStart(machine, spare);
      if kind == AlreadyLoaded { LoadedStays(machine, spare); } else { HeadsStart(machine, spare); }
      disk := Locked(was, spare);
      machine := LoadAfter(machine, StartLoad(spare));
      if kind == AlreadyLoaded { return AlreadyThere; }
      builds, tree := kind == Virgin || kind == StaleBuilding, bytes;
      if builds { FirstFilled(was, spare, machine, bytes); }
      Finish(kind, bytes, was);
      if builds {
        BuildsLast(was);
        LastingTree(machine, bytes);
      }
      return Loaded;
    }
  }

  /** The load is there with exactly this tree. */
  ghost predicate StillHolds(d: Disk, tree: Tree) {
    && Classify(d) == AlreadyLoaded && HasGeneration(d, Final(L)) && At(d, Final(L)).files.Keys == tree.Keys
    && forall f :: f in tree ==> At(d, Final(L)).files[f] == FileState(tree[f], true)
  }

  lemma Published(s: LoadState, tree: Tree)
    requires LInv(s) && LFilled(s, tree) && s.phase == Loading(Commit(DropStaleTmp))
    ensures HasGeneration(s.disk, Final(L)) && Stored(At(s.disk, Final(L)), tree)
  {
    hide LCore, ApplyOps, Stored;
    FinalStored(s, tree);
  }

  /** There is a lock file, and nothing else is new or different. */
  predicate OnlyLocked(d: Disk, after: Disk) {
    && Entries(after.dir).Keys == Entries(d.dir).Keys + {LockFile}
    && (forall n :: n in Entries(d.dir) ==> Entries(after.dir)[n] == Entries(d.dir)[n])
    && (forall i :: i in d.inodes ==> i in after.inodes && after.inodes[i] == d.inodes[i])
  }

  /** A run that fails before it has the lock changes nothing, and one that fails later
      leaves the lock file. */
  lemma TurnedAwayIs(d: Disk, spare: nat)
    requires spare !in d.inodes
    ensures Classify(d) == Populated || (Has(d, CurrentFile) && !Has(d, Final(M5Load))) ==> TurnedAway(d, spare) == d
    ensures Classify(d) != Populated && (Has(d, CurrentFile) ==> Has(d, Final(M5Load))) ==>
      OnlyLocked(d, TurnedAway(d, spare))
  {
    var op := Link(LockFile, spare);
    var dir := Then(d.dir, op);
    assert dir.pending[..|dir.pending| - 1] == d.dir.pending;
    assert Entries(dir) == Entries(d.dir)[LockFile := spare];
  }

  /** A run that builds starts with nothing published. */
  lemma FirstFilled(was: Disk, spare: nat, s: LoadState, tree: Tree)
    requires LCore(was) && spare !in was.inodes && s == LoadState(Locked(was, spare), FirstStep(was)) && LInv(s)
    requires Classify(was) == Virgin || Classify(was) == StaleBuilding
    ensures LFilled(s, tree)
  {
    hide LCore, Possible, Certain, ApplyOps, Locked, Classify, Stored, Wrote, CommitPlace;
    ClassifyIs(was);
    LLock(was, spare);
    UnpublishedFilled(s, tree);
  }

  lemma BuildsLast(was: Disk)
    requires Classify(was) == Virgin || Classify(was) == StaleBuilding
    ensures EndsLasting(was)
  {
  }

  lemma LastingTree(s: LoadState, tree: Tree)
    requires LInv(s) && LFilled(s, tree) && s.phase == Quiet && Classify(s.disk) == AlreadyLoaded && Lasting(s.disk)
    ensures HasGeneration(s.disk, Final(L)) && Stored(At(s.disk, Final(L)), tree)
    ensures forall after :: PowerLoss(s.disk, after) ==> StillHolds(after, tree)
  {
    hide LCore, Possible, Certain, ApplyOps, Classify, PowerLoss, LFilled, Stored;
    ClassifyIs(s.disk);
    FinalStored(s, tree);
    forall after | PowerLoss(s.disk, after) ensures StillHolds(after, tree) { LossKeepsTree(s.disk, after, tree); }
  }

  lemma LossKeepsTree(d: Disk, after: Disk, tree: Tree)
    requires LCore(d) && LFilled(LoadState(d, Quiet), tree) && PowerLoss(d, after) && Classify(after) == AlreadyLoaded
    ensures StillHolds(after, tree)
  {
    hide LCore, Possible, Certain, ApplyOps, Classify, PowerLoss, LFilled;
    LLoss(d, after);
    CutFills(d, after, tree);
    ClassifyIs(after);
    FinalStored(LoadState(after, Quiet), tree);
  }

  /** The phase that follows, when the build does not go on. */
  function Following(d: Disk, step: Step): LoadPhase {
    StepNext(d, step, Choice(0, map[], false, {}, false))
  }

  /** Where each class of directory starts; an own building directory never lies beside
      a published generation. */
  lemma LDispatch(d: Disk)
    requires LCore(d)
    ensures FirstStep(d) == match Classify(d)
      case Virgin => Loading(Commit(CreateBuilding))
      case StaleBuilding => Loading(WipeBuilding)
      case CommittedUnselected => Loading(Commit(DropStaleTmp))
      case SelectedUnstamped => Loading(Commit(StampRename))
      case _ => Quiet
    ensures Classify(d) != Populated
    ensures Classify(d) == CorruptCommit || Classify(d) == AlreadyLoaded ==> FirstStep(d) == Quiet
    ensures Classify(d) == CorruptCommit ==> Stuck(d)
    ensures Classify(d) == AlreadyLoaded || Classify(d) == Virgin || Classify(d) == StaleBuilding ==> !Stuck(d)
  {
    ClassifyIs(d);
    StuckIff(d);
    NeverBothCached(d.dir, Building(L), Final(L));
  }

  lemma WipeOrCreate(s: LoadState)
    requires LInv(s) && (s.phase == Loading(WipeBuilding) || s.phase == Loading(Commit(CreateBuilding)))
    ensures s.phase == Loading(WipeBuilding) <==> Has(s.disk, Building(L))
  {
  }
}
