/** The offline v4->v5 (gen-v9) and v5->v6 (gen-v10) upgrade legs, the reaper of
    the superseded generation, the server's checkpoints and its reader pins, as
    one state machine with one transition per durable act.  The tool can be
    killed between any two acts, and the power can be lost at any point. */
module GenerationUpgrade {
  import opened GenerationDisk
  import opened Wrappers

  /** The acts of one leg, in source order. */
  datatype LegStep =
    | SweepBuilding | UnlinkBuilding | SyncBuildingGone
    | SweepFinal | UnlinkFinal | SyncFinalGone
    | CreateBuilding | SyncCreated
    | WriteTree | FsyncTree
    | PublishDir | SyncPublished
    | DropStaleTmp | SyncDropped
    | CreateTmp | WriteTmp
    | SwapCurrent | SyncCurrent
    | StampRename | StampSync

  /** The acts of the old-generation reaper, in source order. */
  datatype ReapStep =
    | ProveSuccessor | ProveRoot | Drain
    | RetireDir | SyncRetired
    | SweepCleanup | UnlinkCleanup | SyncCleaned

  datatype Phase = Idle | Leg(tool: Tool, at: LegStep) | Reap(step: ReapStep)

  /** `readers` counts this process's live pins on gen-v9; `retired` is its
      process-local retirement claim. */
  datatype State = State(disk: Disk, phase: Phase, readers: nat, retired: bool)

  /** What the environment decides in one act: a fresh inode number, the bytes
      written so far, whether the build goes on, and how far a removal got. */
  datatype Choice = Choice(spare: nat, tree: map<string, string>, more: bool,
                           keep: set<string>, keepStamp: bool)

  datatype Event =
    | StartLeg(tool: Tool)
    | StartReap
    | Act(choice: Choice)
    | Kill
    | Loss(after: Disk)
    | Checkpoint
    | Pin
    | Unpin

  function Init(): State {
    State(Disk(map[], Dir(map[], [])), Idle, 0, false)
  }

  predicate Has(d: Disk, n: Name) {
    n in Entries(d.dir)
  }

  predicate HasGeneration(d: Disk, n: Name) {
    n in Entries(d.dir) && Entries(d.dir)[n] in d.inodes && d.inodes[Entries(d.dir)[n]].Generation?
  }

  function At(d: Disk, n: Name): (inode: Inode)
    requires HasGeneration(d, n)
    ensures inode.Generation?
  {
    d.inodes[Entries(d.dir)[n]]
  }

  function Put(d: Disk, n: Name, inode: Inode): Disk
    requires n in Entries(d.dir)
  {
    SetInode(d, Entries(d.dir)[n], inode)
  }

  /** A checkpoint of a generation: its sidecar rename is followed by an fsync of
      the generation directory, which also settles a pending VERSION rename. */
  function Checkpointed(inode: Inode): Inode
    requires inode.Generation?
  {
    inode.(epoch := inode.epoch + 1,
           stamp := if inode.stamp.Renamed? then Durable(inode.stamp.version) else inode.stamp)
  }

  function Unsynced(tree: map<string, string>): map<string, FileState> {
    map f | f in tree :: FileState(tree[f], false)
  }

  function Rewritten(inode: Inode, tree: map<string, string>): Inode
    requires inode.Generation?
  {
    inode.(files := Unsynced(tree), covered := None)
  }

  function WithStamp(inode: Inode, stamp: Stamp): Inode
    requires inode.Generation?
  {
    inode.(stamp := stamp)
  }

  function NewGeneration(tool: Tool): Inode {
    Generation(tool, map[], None, Unstamped, 1)
  }

  /** There is always a fresh inode number. */
  lemma {:induction false} SpareBound(used: set<nat>) returns (bound: nat)
    ensures forall n :: n in used ==> n < bound
    decreases |used|
  {
    if used == {} {
      bound := 0;
    } else {
      var n :| n in used;
      var rest := SpareBound(used - {n});
      assert forall m :: m in used ==> m == n || m in used - {n};
      bound := if n < rest then rest else n + 1;
    }
  }

  // ---- one act ----------------------------------------------------------------

  /** The environment can offer this choice. */
  predicate Offers(s: State, c: Choice) {
    c.spare !in s.disk.inodes
  }

  /** The act's system calls succeed: nothing it creates exists already and
      everything it touches is there. */
  predicate Succeeds(d: Disk, tool: Tool, at: LegStep) {
    match at
    case SweepBuilding => Has(d, Building(tool)) ==> HasGeneration(d, Building(tool))
    case SweepFinal => Has(d, Final(tool)) ==> HasGeneration(d, Final(tool))
    case CreateBuilding => !Has(d, Building(tool))
    case WriteTree => HasGeneration(d, Building(tool))
    case FsyncTree => HasGeneration(d, Building(tool))
    case PublishDir => Has(d, Building(tool)) && !Has(d, Final(tool))
    case CreateTmp => !Has(d, CurrentTmp)
    case WriteTmp => Has(d, CurrentTmp)
    case SwapCurrent => Has(d, CurrentTmp)
    case StampRename => HasGeneration(d, Final(tool))
    case StampSync => HasGeneration(d, Final(tool)) && At(d, Final(tool)).stamp.Renamed?
    case _ => true
  }

  function LegAct(d: Disk, tool: Tool, at: LegStep, c: Choice): Disk
    requires Succeeds(d, tool, at)
  {
    match at
    case SweepBuilding =>
      if Has(d, Building(tool)) then Put(d, Building(tool), Scrubbed(At(d, Building(tool)), c.keep, c.keepStamp)) else d
    case UnlinkBuilding => Issue(d, Unlink(Building(tool)))
    case SweepFinal =>
      if Has(d, Final(tool)) then Put(d, Final(tool), Scrubbed(At(d, Final(tool)), c.keep, c.keepStamp)) else d
    case UnlinkFinal => Issue(d, Unlink(Final(tool)))
    case CreateBuilding => Issue(SetInode(d, c.spare, NewGeneration(tool)), Link(Building(tool), c.spare))
    case WriteTree => Put(d, Building(tool), Rewritten(At(d, Building(tool)), c.tree))
    case FsyncTree => Put(d, Building(tool), Ledger(At(d, Building(tool))))
    case PublishDir => Issue(d, Rename(Building(tool), Final(tool), Entries(d.dir)[Building(tool)]))
    case DropStaleTmp => if Has(d, CurrentTmp) then Issue(d, Unlink(CurrentTmp)) else d
    case CreateTmp => Issue(SetInode(d, c.spare, Text("", false)), Link(CurrentTmp, c.spare))
    case WriteTmp => Put(d, CurrentTmp, Text(CurrentText(tool), true))
    case SwapCurrent => Issue(d, Rename(CurrentTmp, CurrentFile, Entries(d.dir)[CurrentTmp]))
    case StampRename => Put(d, Final(tool), WithStamp(At(d, Final(tool)), Renamed(StampVersion(tool))))
    case StampSync => Put(d, Final(tool), WithStamp(At(d, Final(tool)), Durable(At(d, Final(tool)).stamp.version)))
    case _ => SyncRoot(d)
  }

  function LegNext(d: Disk, tool: Tool, at: LegStep, c: Choice): Phase {
    match at
    case SweepBuilding => Leg(tool, if Has(d, Building(tool)) then UnlinkBuilding else SweepFinal)
    case UnlinkBuilding => Leg(tool, SyncBuildingGone)
    case SyncBuildingGone => Leg(tool, SweepFinal)
    case SweepFinal => Leg(tool, if Has(d, Final(tool)) then UnlinkFinal else CreateBuilding)
    case UnlinkFinal => Leg(tool, SyncFinalGone)
    case SyncFinalGone => Leg(tool, CreateBuilding)
    case CreateBuilding => Leg(tool, SyncCreated)
    case SyncCreated => Leg(tool, WriteTree)
    case WriteTree => Leg(tool, if c.more then WriteTree else FsyncTree)
    case FsyncTree => Leg(tool, PublishDir)
    case PublishDir => Leg(tool, SyncPublished)
    case SyncPublished => Leg(tool, DropStaleTmp)
    case DropStaleTmp => Leg(tool, if Has(d, CurrentTmp) then SyncDropped else CreateTmp)
    case SyncDropped => Leg(tool, CreateTmp)
    case CreateTmp => Leg(tool, WriteTmp)
    case WriteTmp => Leg(tool, SwapCurrent)
    case SwapCurrent => Leg(tool, SyncCurrent)
    case SyncCurrent => Leg(tool, StampRename)
    case StampRename => Leg(tool, StampSync)
    case StampSync => Idle
  }

  predicate ReapSucceeds(s: State, at: ReapStep) {
    var d := s.disk;
    match at
    case ProveSuccessor => HasGeneration(d, Final(M4Migration)) && At(d, Final(M4Migration)).stamp != Unstamped
    case ProveRoot => HasGeneration(d, Final(M4Migration))
    case Drain => s.readers == 0
    case RetireDir => Has(d, Final(M3Migration)) && !Has(d, CleanupDir)
    case SweepCleanup => HasGeneration(d, CleanupDir)
    case _ => true
  }

  function ReapAct(d: Disk, at: ReapStep, c: Choice): Disk
    requires at.ProveSuccessor? ==> HasGeneration(d, Final(M4Migration)) && At(d, Final(M4Migration)).stamp != Unstamped
    requires at.RetireDir? ==> Has(d, Final(M3Migration))
    requires at.SweepCleanup? ==> HasGeneration(d, CleanupDir)
  {
    match at
    case ProveSuccessor =>
      var inode := At(d, Final(M4Migration));
      Put(d, Final(M4Migration), WithStamp(inode, Durable(inode.stamp.version)))
    case Drain => d
    case RetireDir => Issue(d, Rename(Final(M3Migration), CleanupDir, Entries(d.dir)[Final(M3Migration)]))
    case SweepCleanup => Put(d, CleanupDir, Scrubbed(At(d, CleanupDir), c.keep, c.keepStamp))
    case UnlinkCleanup => Issue(d, Unlink(CleanupDir))
    case _ => SyncRoot(d)
  }

  /** Only a checkpoint later than the migration's own (metadata generation 1)
      lets the reaper go past its proof. */
  function ReapNext(d: Disk, at: ReapStep): Phase {
    match at
    case ProveSuccessor => Reap(ProveRoot)
    case ProveRoot =>
      if !HasGeneration(d, Final(M4Migration)) || At(d, Final(M4Migration)).epoch <= 1 then Idle
      else if Has(d, CleanupDir) then Reap(SweepCleanup)
      else if Has(d, Final(M3Migration)) then Reap(Drain)
      else Idle
    case Drain => Reap(RetireDir)
    case RetireDir => Reap(SyncRetired)
    case SyncRetired => Reap(SweepCleanup)
    case SweepCleanup => Reap(UnlinkCleanup)
    case UnlinkCleanup => Reap(SyncCleaned)
    case SyncCleaned => Idle
  }

  // ---- events ------------------------------------------------------------------

  ghost predicate Allowed(s: State, ev: Event) {
    match ev
    case StartLeg(tool) =>
      && s.phase == Idle
      && ((tool == M3Migration && CurrentGeneration(s.disk) == Legacy)
          || (tool == M4Migration && CurrentGeneration(s.disk) == Selected(M3Migration)))
    case StartReap =>
      && s.phase == Idle
      && CurrentGeneration(s.disk) == Selected(M4Migration)
      && (Has(s.disk, CleanupDir) || Has(s.disk, Final(M3Migration)))
    case Act(c) =>
      && Offers(s, c)
      && (match s.phase
          case Idle => false
          case Leg(tool, at) => Succeeds(s.disk, tool, at)
          case Reap(at) => ReapSucceeds(s, at))
    case Kill => true
    case Loss(after) => PowerLoss(s.disk, after)
    case Checkpoint => !s.phase.Leg? && CurrentGeneration(s.disk).Selected?  // a live server, reaping or not
    case Pin => !s.retired && Stamped(s.disk, Final(M3Migration))
    case Unpin => s.readers > 0
  }

  ghost function After(s: State, ev: Event): State
    requires Allowed(s, ev)
  {
    match ev
    case StartLeg(tool) =>
      // The quiescing checkpoint fsyncs the directory it is taken in: the root
      // for a legacy store, the generation directory for gen-v9.
      if tool == M3Migration then s.(disk := SyncRoot(s.disk), phase := Leg(tool, SweepBuilding))
      else s.(disk := Put(s.disk, Final(M3Migration), Checkpointed(At(s.disk, Final(M3Migration)))),
              phase := Leg(tool, SweepBuilding))
    case StartReap => s.(phase := Reap(ProveSuccessor))
    case Act(c) =>
      (match s.phase
       case Leg(tool, at) =>
         s.(disk := LegAct(s.disk, tool, at, c), phase := LegNext(s.disk, tool, at, c))
       case Reap(at) =>
         s.(disk := ReapAct(s.disk, at, c), phase := ReapNext(s.disk, at),
            retired := s.retired || at == Drain))
    case Kill => s.(phase := Idle, readers := 0, retired := false)
    case Loss(after) => State(after, Idle, 0, false)
    case Checkpoint =>
      var n := Final(CurrentGeneration(s.disk).tool);
      s.(disk := Put(s.disk, n, Checkpointed(At(s.disk, n))))
    case Pin => s.(readers := s.readers + 1)
    case Unpin => s.(readers := s.readers - 1)
  }

  ghost predicate Valid(s: State, run: seq<Event>)
    decreases |run|
  {
    run == [] || (Allowed(s, run[0]) && Valid(After(s, run[0]), run[1..]))
  }

  ghost function EndState(s: State, run: seq<Event>): State
    requires Valid(s, run)
    decreases |run|
  {
    if run == [] then s else EndState(After(s, run[0]), run[1..])
  }
}
