/** The fresh-load tool: classification of the data directory, the build, commit
    and resume paths, one transition per durable act, cut by kills and power
    losses at any point. */
module FreshLoad {
  import opened GenerationDisk
  import opened GenerationSettling
  import opened GenerationUpgrade

  const L: Tool := M5Load

  // ---- classification -----------------------------------------------------------

  datatype DirState =
    | Populated | CorruptCommit
    | Virgin | StaleBuilding | CommittedUnselected | SelectedUnstamped | AlreadyLoaded

  predicate NamesLoad(d: Disk) {
    && Has(d, CurrentFile) && Entries(d.dir)[CurrentFile] in d.inodes
    && d.inodes[Entries(d.dir)[CurrentFile]].Text?
    && TrimLineEnds(d.inodes[Entries(d.dir)[CurrentFile]].text) == FinalDirName(L)
  }

  /** Loader-owned or protocol-neutral; anything else is a refusal. */
  predicate Owned(d: Disk, n: Name) {
    n == LockFile || n == CurrentTmp || n == Building(L) || n == Final(L) || (n == CurrentFile && NamesLoad(d))
  }

  function Classify(d: Disk): DirState {
    if exists n :: n in Entries(d.dir) && !Owned(d, n) then Populated
    else if Has(d, CurrentFile) then
      if !Has(d, Final(L)) then CorruptCommit
      else if Stamped(d, Final(L)) then AlreadyLoaded
      else SelectedUnstamped
    else if Has(d, Final(L)) then CommittedUnselected
    else if Has(d, Building(L)) then StaleBuilding
    else Virgin
  }

  /** A rerun fails: it refuses the directory, finds the commit state corrupt, or
      finds a generation that does not validate (one that CURRENT does not select
      must also be unstamped). */
  predicate Stuck(d: Disk) {
    match Classify(d)
    case Populated => true
    case CorruptCommit => true
    case CommittedUnselected =>
      !HasGeneration(d, Final(L)) || !Complete(At(d, Final(L))) || At(d, Final(L)).stamp != Unstamped
    case SelectedUnstamped => !HasGeneration(d, Final(L)) || !Complete(At(d, Final(L)))
    case AlreadyLoaded =>
      !Complete(At(d, Final(L))) || At(d, Final(L)).stamp.version != StampVersion(L)
    case _ => false
  }

  // ---- the machine ------------------------------------------------------------------

  /** Commit acts are those of an upgrade leg, from creating the building
      directory to syncing the VERSION stamp.  The sweep of an own building directory
      beside a published generation is the source's; no run gets to it, because the two
      never lie side by side. */
  datatype Step = WipeBuilding | SweepOwn | UnlinkOwn | SyncOwnGone | Commit(at: LegStep)

  datatype LoadPhase = Quiet | Loading(step: Step)

  datatype LoadState = LoadState(disk: Disk, phase: LoadPhase)

  datatype LoadEvent =
    | StartLoad(spare: nat) | FailLoad(spare: nat) | LoadAct(choice: Choice) | Killed | PowerCut(after: Disk)

  function LoadInit(): LoadState {
    LoadState(Disk(map[], Dir(map[], [])), Quiet)
  }

  function FirstStep(d: Disk): LoadPhase {
    match Classify(d)
    case Virgin => Loading(Commit(CreateBuilding))
    case StaleBuilding => Loading(WipeBuilding)
    case CommittedUnselected => Loading(if Has(d, Building(L)) then SweepOwn else Commit(DropStaleTmp))
    case SelectedUnstamped => Loading(Commit(StampRename))
    case _ => Quiet
  }

  /** Taking the advisory lock creates its file the first time. */
  function Locked(d: Disk, spare: nat): Disk {
    if Has(d, LockFile) then d else Issue(SetInode(d, spare, Text("", true)), Link(LockFile, spare))
  }

  /** A rerun that fails: refused before the lock is taken, or by validation after. */
  function TurnedAway(d: Disk, spare: nat): Disk {
    if Classify(d) == Populated || Classify(d) == CorruptCommit then d else Locked(d, spare)
  }

  predicate StepSucceeds(d: Disk, step: Step) {
    match step
    case WipeBuilding => HasGeneration(d, Building(L))
    case SweepOwn => HasGeneration(d, Building(L))
    case Commit(at) => Succeeds(d, L, at)
    case _ => true
  }

  function StepAct(d: Disk, step: Step, c: Choice): Disk
    requires StepSucceeds(d, step)
  {
    match step
    case WipeBuilding => Put(d, Building(L), Scrubbed(At(d, Building(L)), c.keep, c.more && c.keepStamp))
    case SweepOwn => Put(d, Building(L), Scrubbed(At(d, Building(L)), c.keep, c.keepStamp))
    case UnlinkOwn => Issue(d, Unlink(Building(L)))
    case SyncOwnGone => SyncRoot(d)
    case Commit(at) => LegAct(d, L, at, c)
  }

  function StepNext(d: Disk, step: Step, c: Choice): LoadPhase {
    match step
    case WipeBuilding => Loading(if c.more then WipeBuilding else Commit(WriteTree))
    case SweepOwn => Loading(UnlinkOwn)
    case UnlinkOwn => Loading(SyncOwnGone)
    case SyncOwnGone => Loading(Commit(DropStaleTmp))
    case Commit(at) => var next := LegNext(d, L, at, c); if next.Leg? then Loading(Commit(next.at)) else Quiet
  }

  ghost predicate LoadAllowed(s: LoadState, ev: LoadEvent) {
    match ev
    case StartLoad(spare) => s.phase == Quiet && !Stuck(s.disk) && spare !in s.disk.inodes
    case FailLoad(spare) => s.phase == Quiet && Stuck(s.disk) && spare !in s.disk.inodes
    case LoadAct(c) => s.phase.Loading? && c.spare !in s.disk.inodes && StepSucceeds(s.disk, s.phase.step)
    case Killed => true
    case PowerCut(after) => PowerLoss(s.disk, after)
  }

  ghost function LoadAfter(s: LoadState, ev: LoadEvent): LoadState
    requires LoadAllowed(s, ev)
  {
    match ev
    case StartLoad(spare) => LoadState(Locked(s.disk, spare), FirstStep(s.disk))
    case FailLoad(spare) => s.(disk := TurnedAway(s.disk, spare))
    case LoadAct(c) => LoadState(StepAct(s.disk, s.phase.step, c), StepNext(s.disk, s.phase.step, c))
    case Killed => s.(phase := Quiet)
    case PowerCut(after) => LoadState(after, Quiet)
  }

  ghost predicate LoadRun(s: LoadState, run: seq<LoadEvent>)
    decreases |run|
  {
    run != [] ==> LoadAllowed(s, run[0]) && LoadRun(LoadAfter(s, run[0]), run[1..])
  }

  ghost function LoadEnd(s: LoadState, run: seq<LoadEvent>): LoadState
    requires LoadRun(s, run)
    decreases |run|
  {
    if run == [] then s else LoadEnd(LoadAfter(s, run[0]), run[1..])
  }

  /** What a rerun would build on has reached the disk, or will before it is needed: the
      published directory before CURRENT is written - a stale temporary file makes the
      tool sync the root first - and both before VERSION is.  An fsync of the root
      always gets there. */
  ghost predicate Rooted(d: Disk) {
    match Classify(d)
    case CommittedUnselected => Certain(d.dir, Final(L)) || Has(d, CurrentTmp)
    case SelectedUnstamped => Certain(d.dir, Final(L)) && Certain(d.dir, CurrentFile)
    case AlreadyLoaded => Certain(d.dir, Final(L)) && Certain(d.dir, CurrentFile)
    case _ => true
  }
}
