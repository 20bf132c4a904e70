/** What every run of the fresh-load tool keeps, however it is cut by kills and power
    losses, and when the directory it leaves is one that no rerun can use. */
module FreshLoadRuns {
  import opened GenerationDisk
  import opened GenerationSettling
  import opened GenerationUpgrade
  import opened FreshLoad

  // ---- the invariant ----------------------------------------------------------------

  ghost predicate LFits(m: Inodes, n: Name, i: nat) {
    match n
    case CurrentFile => TextAt(m, i, L)
    case CurrentTmp => i in m && m[i].Text?
    case Building(tool) => tool == L && OwnedBy(m, i, L)
    case Final(tool) =>
      tool == L && OwnedBy(m, i, L) && Complete(m[i]) && (Marked(m, i) ==> m[i].stamp.version == StampVersion(L))
    case LockFile => true
    case _ => false
  }

  ghost predicate LTyped(d: Disk) {
    forall n, i :: i in Possible(d.dir, n) ==> LFits(d.inodes, n, i)
  }

  /** The name is only ever given to one inode, and never taken away. */
  ghost predicate Once(dir: Dir, n: Name) {
    && Possible(dir, n) == (if n in Entries(dir) then {Entries(dir)[n]} else {})
    && (Certain(dir, n) <==> n in dir.durable)
  }

  ghost predicate LCore(d: Disk) {
    && LTyped(d) && Exclusive(d.dir, Building(L), Final(L))
    && Once(d.dir, Final(L)) && Once(d.dir, CurrentFile)
  }

  /** CURRENT names a generation that is there, and a stamped one is named. */
  ghost predicate Usable(d: Disk) {
    && (Has(d, CurrentFile) ==> Has(d, Final(L)))
    && (Stamped(d, Final(L)) ==> Has(d, CurrentFile))
  }

  function Rung(at: LegStep): nat {
    match at
    case CreateBuilding => 6 case SyncCreated => 7 case WriteTree => 8 case FsyncTree => 9
    case PublishDir => 10 case SyncPublished => 11
    case DropStaleTmp => 12 case SyncDropped => 13
    case CreateTmp => 14 case WriteTmp => 15
    case SwapCurrent => 16 case SyncCurrent => 17
    case StampRename => 18 case StampSync => 19
    case _ => 0
  }

  ghost predicate CommitPlace(d: Disk, at: LegStep) {
    var r := Rung(at);
    && r >= 6
    && (r == 6 ==> !Has(d, Building(L)))
    && (r <= 10 ==> !Has(d, Final(L)))
    && (7 <= r <= 10 ==> HasGeneration(d, Building(L)) && At(d, Building(L)).stamp == Unstamped)
    && (r == 10 ==> Complete(At(d, Building(L))))
    && (r >= 11 ==> Has(d, Final(L)))
    && (r == 11 ==> !Certain(d.dir, Final(L)))
    && (r <= 16 ==> !Has(d, CurrentFile))
    && (13 <= r <= 14 ==> !Has(d, CurrentTmp))
    && (15 <= r <= 16 ==> Has(d, CurrentTmp))
    && (r == 16 ==> TextAt(d.inodes, Entries(d.dir)[CurrentTmp], L))
    && (r >= 17 ==> Has(d, CurrentFile))
    && (r == 17 ==> !Certain(d.dir, CurrentFile))
    && (r <= 18 ==> !Stamped(d, Final(L)))
    && (r == 19 ==> HasGeneration(d, Final(L)) && At(d, Final(L)).stamp.Renamed?)
  }

  ghost predicate StepFacts(d: Disk, step: Step) {
    match step
    case WipeBuilding => HasGeneration(d, Building(L)) && !Has(d, Final(L)) && !Has(d, CurrentFile)
    case Commit(at) => CommitPlace(d, at)
    case _ => false
  }

  ghost predicate LInv(s: LoadState) {
    LCore(s.disk) && (s.phase.Loading? ==> StepFacts(s.disk, s.phase.step))
  }

  // ---- classification under the invariant ---------------------------------------------------

  lemma LoadTextNames(d: Disk)
    requires LTyped(d) && Has(d, CurrentFile)
    ensures NamesLoad(d)
  {
    CachedIsPossible(d.dir, CurrentFile);
    assert LFits(d.inodes, CurrentFile, Entries(d.dir)[CurrentFile]);
    CurrentTextNames(L);
  }

  lemma FinalFits(d: Disk)
    requires LTyped(d) && Has(d, Final(L))
    ensures HasGeneration(d, Final(L)) && Complete(At(d, Final(L))) && At(d, Final(L)).tool == L
    ensures At(d, Final(L)).stamp != Unstamped ==> At(d, Final(L)).stamp.version == StampVersion(L)
  {
    CachedIsPossible(d.dir, Final(L));
    assert LFits(d.inodes, Final(L), Entries(d.dir)[Final(L)]);
  }

  lemma BuildingFits(d: Disk)
    requires LTyped(d) && Has(d, Building(L))
    ensures HasGeneration(d, Building(L)) && At(d, Building(L)).tool == L
  {
    CachedIsPossible(d.dir, Building(L));
    assert LFits(d.inodes, Building(L), Entries(d.dir)[Building(L)]);
  }

  lemma ClassifyIs(d: Disk)
    requires LCore(d)
    ensures Classify(d) ==
      if Has(d, CurrentFile) && !Has(d, Final(L)) then CorruptCommit
      else if Has(d, CurrentFile) then (if Stamped(d, Final(L)) then AlreadyLoaded else SelectedUnstamped)
      else if Has(d, Final(L)) then CommittedUnselected
      else if Has(d, Building(L)) then StaleBuilding
      else Virgin
  {
    forall n | n in Entries(d.dir) ensures Owned(d, n) {
      CachedIsPossible(d.dir, n);
      assert LFits(d.inodes, n, Entries(d.dir)[n]);
      if n == CurrentFile { LoadTextNames(d); }
    }
    CachedIsPossible(d.dir, Final(L));
  }

  /** A rerun fails exactly on a CURRENT without its generation and on a stamped
      generation without a CURRENT; it never refuses or fails to validate anything else. */
  lemma StuckIff(d: Disk)
    requires LCore(d)
    ensures Stuck(d) <==> !Usable(d)
  {
    hide Possible, Certain, ApplyOps, Classify;
    ClassifyIs(d);
    if Has(d, Final(L)) { FinalFits(d); }
  }

  // ---- classification of any directory ------------------------------------------------

  /** Whatever is in the directory: it is populated exactly if some entry is none of the
      lock file, the temporary CURRENT, the loader's two directories and a CURRENT that
      names the load generation. */
  lemma PopulatedIff(d: Disk)
    ensures Classify(d) == Populated <==>
      exists n ::
        && n in Entries(d.dir)
        && n != LockFile && n != CurrentTmp && n != Building(M5Load) && n != Final(M5Load)
        && !(&& n == CurrentFile && Entries(d.dir)[n] in d.inodes && d.inodes[Entries(d.dir)[n]].Text?
             && Reads(d.inodes[Entries(d.dir)[n]].text, "gen-load-v6"))
  {
    hide ApplyOps, Reads, TrimLineEnds, Certain, Possible;
    if Has(d, CurrentFile) && Entries(d.dir)[CurrentFile] in d.inodes && d.inodes[Entries(d.dir)[CurrentFile]].Text? {
      TrimmedIff(d.inodes[Entries(d.dir)[CurrentFile]].text, "gen-load-v6");
    }
  }

  /** The tool does not start on a populated directory, and its run there changes nothing. */
  lemma PopulatedIsRefused(d: Disk, spare: nat)
    requires Classify(d) == Populated
    ensures Stuck(d) && !LoadAllowed(LoadState(d, Quiet), StartLoad(spare))
    ensures LoadAllowed(LoadState(d, Quiet), FailLoad(spare)) ==>
      LoadAfter(LoadState(d, Quiet), FailLoad(spare)) == LoadState(d, Quiet)
  {
  }

  /** Whatever is in the directory: where the tool resumes, the generation it resumes with
      is there with every byte that its durability ledger covered, stamped with version 6
      or not at all, and stamped only if CURRENT is there. */
  lemma ResumesOnWhole(d: Disk)
    requires !Stuck(d) && Has(d, Final(L))
    ensures HasGeneration(d, Final(L))
    ensures var g := At(d, Final(L));
      && g.covered.Some? && g.files.Keys == g.covered.value.Keys
      && (forall f :: f in g.files ==> g.files[f].bytes == g.covered.value[f] && g.files[f].synced)
      && (g.stamp == Unstamped || (g.stamp.version == 6 && Has(d, CurrentFile)))
  {
    hide ApplyOps;
  }

  // ---- settling -------------------------------------------------------------------------

  lemma LSettle(d: Disk, now: Disk)
    requires LCore(d) && Settles(d, now) && Exclusive(now.dir, Building(L), Final(L))
    ensures LCore(now)
    ensures Certain(d.dir, Final(L)) ==> Certain(now.dir, Final(L))
    ensures Certain(d.dir, CurrentFile) ==> Certain(now.dir, CurrentFile)
  {
    hide ApplyOps, TextAt;
    SettledIs(now.dir);
    LSettleTyped(d, now);
  }

  lemma LSettleTyped(d: Disk, now: Disk)
    requires LTyped(d) && Settles(d, now)
    ensures LTyped(now)
  {
    SettledIs(now.dir);
    forall n, i | i in Possible(now.dir, n) ensures LFits(now.inodes, n, i) {
      assert i in Possible(d.dir, n);
      assert LFits(d.inodes, n, i);
    }
  }

  lemma LSettleStamp(d: Disk, now: Disk)
    requires LTyped(d) && Settles(d, now) && Once(d.dir, Final(L)) && Stamped(now, Final(L))
    ensures Stamped(d, Final(L))
  {
    SettledIs(now.dir);
    var i := now.dir.durable[Final(L)];
    assert i in Possible(d.dir, Final(L));
    assert LFits(d.inodes, Final(L), i);
  }

  // ---- the operations the loader issues ---------------------------------------------------

  ghost predicate LOp(d: Disk, op: DirOp) {
    match op
    case Link(n, i) =>
      || n == LockFile
      || (n == Building(L) && Draft(d.inodes, i, L) && !Has(d, Final(L)))
      || (n == CurrentTmp && i in d.inodes && d.inodes[i].Text?)
    case Unlink(n) => n == CurrentTmp
    case Rename(from, to, i) =>
      || (&& from == Building(L) && to == Final(L) && !Has(d, Final(L))
          && Draft(d.inodes, i, L) && Complete(d.inodes[i]))
      || (from == CurrentTmp && to == CurrentFile && TextAt(d.inodes, i, L) && !Has(d, CurrentFile))
  }

  lemma LIssueTyped(d: Disk, op: DirOp)
    requires LTyped(d) && LOp(d, op)
    ensures LTyped(Issue(d, op))
  {
    hide Possible, Certain, ApplyOps;
    ThenIs(d.dir, op);
    forall n, i | i in Possible(Then(d.dir, op), n) ensures LFits(d.inodes, n, i) {
      assert i in Possible(d.dir, n) || i in SetBy(op, n);
    }
  }

  lemma LIssueOnce(d: Disk, op: DirOp, n: Name)
    requires Once(d.dir, n) && !Drops(op, n) && (SetBy(op, n) != {} ==> !Has(d, n))
    ensures Once(Then(d.dir, op), n)
  {
    ThenIs(d.dir, op);
  }

  lemma LIssueApart(d: Disk, op: DirOp)
    requires LCore(d) && LOp(d, op)
    ensures Exclusive(Then(d.dir, op), Building(L), Final(L))
  {
    ThenIs(d.dir, op);
    assert Front(Then(d.dir, op)) == d.dir;
  }

  lemma LIssue(d: Disk, op: DirOp)
    requires LCore(d) && LOp(d, op)
    ensures LCore(Issue(d, op))
  {
    hide Possible, Certain, ApplyOps, LTyped, Exclusive;
    LIssueTyped(d, op);
    LIssueApart(d, op);
    LIssueOnce(d, op, Final(L));
    LIssueOnce(d, op, CurrentFile);
    ThenIs(d.dir, op);
    CachedIsPossible(d.dir, Final(L));
  }

  /** The loader writes only fresh inodes, its building directory before it is
      published, and the temporary file before CURRENT exists. */
  ghost predicate LWrite(d: Disk, j: nat, inode: Inode) {
    && (inode.Generation? ==> inode.tool == L)
    && (j in d.inodes ==> (inode.Generation? <==> d.inodes[j].Generation?))
    && (j in d.inodes && inode.Generation? ==> !Has(d, Final(L)))
    && (j in d.inodes && inode.Text? ==> !Has(d, CurrentFile))
  }

  lemma LWriteTyped(d: Disk, j: nat, inode: Inode)
    requires LTyped(d) && Once(d.dir, Final(L)) && Once(d.dir, CurrentFile) && LWrite(d, j, inode)
    ensures LTyped(SetInode(d, j, inode))
  {
    hide Certain, ApplyOps;
    forall n, i | i in Possible(d.dir, n) ensures LFits(d.inodes[j := inode], n, i) {
      assert LFits(d.inodes, n, i);
    }
  }

  lemma LChange(d: Disk, j: nat, inode: Inode)
    requires LCore(d) && LWrite(d, j, inode)
    ensures LCore(SetInode(d, j, inode))
    ensures Stamped(SetInode(d, j, inode), Final(L)) ==> Stamped(d, Final(L))
  {
    hide Certain, ApplyOps, LTyped, Exclusive;
    LWriteTyped(d, j, inode);
    if Has(d, Final(L)) { LCoreFits(d); }
  }

  // ---- each act ------------------------------------------------------------------------------

  lemma LSync(d: Disk)
    requires LCore(d)
    ensures LCore(SyncRoot(d)) && Entries(SyncRoot(d).dir) == Entries(d.dir)
    ensures forall n :: Has(d, n) ==> Certain(SyncRoot(d).dir, n)
    ensures Stamped(SyncRoot(d), Final(L)) <==> Stamped(d, Final(L))
  {
    SyncSettles(d);
    LSettle(d, SyncRoot(d));
    SettledIs(SyncRoot(d).dir);
  }

  ghost predicate Onward(d: Disk, step: Step, c: Choice) {
    && StepSucceeds(d, step)
    && LInv(LoadState(StepAct(d, step, c), StepNext(d, step, c))) && Usable(StepAct(d, step, c))
  }

  lemma LSyncSteps(d: Disk, at: LegStep, c: Choice)
    requires LCore(d) && CommitPlace(d, at)
    requires at.SyncCreated? || at.SyncPublished? || at.SyncDropped? || at.SyncCurrent?
    ensures Onward(d, Commit(at), c)
  {
    hide Possible, Certain, ApplyOps, LCore;
    LSync(d);
  }

  lemma LPublishStep(d: Disk, c: Choice)
    requires LCore(d) && CommitPlace(d, PublishDir)
    ensures Onward(d, Commit(PublishDir), c)
  {
    hide Possible, Certain, ApplyOps, LTyped, Exclusive, Once, CurrentText;
    BuildingFits(d);
    CachedIsPossible(d.dir, Final(L));
    var op := Rename(Building(L), Final(L), Entries(d.dir)[Building(L)]);
    LIssue(d, op);
    ThenIs(d.dir, op);
  }

  lemma LDropStep(d: Disk, c: Choice)
    requires LCore(d) && CommitPlace(d, DropStaleTmp)
    ensures Onward(d, Commit(DropStaleTmp), c)
  {
    hide Possible, Certain, ApplyOps, LTyped, Exclusive, Once, CurrentText;
    if Has(d, CurrentTmp) {
      LIssue(d, Unlink(CurrentTmp));
      ThenIs(d.dir, Unlink(CurrentTmp));
    }
  }

  lemma LSwapStep(d: Disk, c: Choice)
    requires LCore(d) && CommitPlace(d, SwapCurrent)
    ensures Onward(d, Commit(SwapCurrent), c)
  {
    hide Possible, Certain, ApplyOps, LTyped, Exclusive, Once, CurrentText;
    CachedIsPossible(d.dir, CurrentFile);
    var op := Rename(CurrentTmp, CurrentFile, Entries(d.dir)[CurrentTmp]);
    LIssue(d, op);
    ThenIs(d.dir, op);
  }

  lemma LCreateStep(d: Disk, c: Choice)
    requires LCore(d) && CommitPlace(d, CreateBuilding) && c.spare !in d.inodes
    ensures Onward(d, Commit(CreateBuilding), c)
  {
    hide Possible, Certain, ApplyOps, LTyped, Exclusive, Once, CurrentText;
    LChange(d, c.spare, NewGeneration(L));
    LIssue(SetInode(d, c.spare, NewGeneration(L)), Link(Building(L), c.spare));
    ThenIs(d.dir, Link(Building(L), c.spare));
  }

  lemma LCreateTmpStep(d: Disk, c: Choice)
    requires LCore(d) && CommitPlace(d, CreateTmp) && c.spare !in d.inodes
    ensures Onward(d, Commit(CreateTmp), c)
  {
    hide Possible, Certain, ApplyOps, LTyped, Exclusive, Once, CurrentText;
    LChange(d, c.spare, Text("", false));
    LIssue(SetInode(d, c.spare, Text("", false)), Link(CurrentTmp, c.spare));
    ThenIs(d.dir, Link(CurrentTmp, c.spare));
  }

  lemma LBuildSteps(d: Disk, step: Step, c: Choice)
    requires LCore(d) && StepFacts(d, step)
    requires step == WipeBuilding || step == Commit(WriteTree) || step == Commit(FsyncTree)
    ensures Onward(d, step, c)
  {
    hide Possible, Certain, ApplyOps, LTyped, Exclusive, Once, CurrentText;
    BuildingFits(d);
    CachedIsPossible(d.dir, Final(L));
    var was := At(d, Building(L));
    var inode := if step == WipeBuilding then Scrubbed(was, c.keep, c.more && c.keepStamp)
                 else if step == Commit(WriteTree) then Rewritten(was, c.tree) else Ledger(was);
    LChange(d, Entries(d.dir)[Building(L)], inode);
  }

  lemma LWriteTmpStep(d: Disk, c: Choice)
    requires LCore(d) && CommitPlace(d, WriteTmp)
    ensures Onward(d, Commit(WriteTmp), c)
  {
    hide Possible, Certain, ApplyOps, LTyped, Exclusive, Once, CurrentText;
    TmpFits(d);
    LChange(d, Entries(d.dir)[CurrentTmp], Text(CurrentText(L), true));
  }

  lemma TmpFits(d: Disk)
    requires LTyped(d) && Has(d, CurrentTmp)
    ensures Entries(d.dir)[CurrentTmp] in d.inodes && d.inodes[Entries(d.dir)[CurrentTmp]].Text?
  {
    CachedIsPossible(d.dir, CurrentTmp);
    assert LFits(d.inodes, CurrentTmp, Entries(d.dir)[CurrentTmp]);
  }

  /** Only the published generation's stamp changes. */
  lemma LRestamp(d: Disk, stamp: Stamp)
    requires LCore(d) && Has(d, Final(L))
    requires stamp != Unstamped && stamp.version == StampVersion(L)
    ensures HasGeneration(d, Final(L))
    ensures var d' := Put(d, Final(L), WithStamp(At(d, Final(L)), stamp));
      LCore(d') && HasGeneration(d', Final(L)) && At(d', Final(L)).stamp == stamp
  {
    hide Certain, ApplyOps, Exclusive, CurrentText;
    FinalFits(d);
    var j := Entries(d.dir)[Final(L)];
    var inode := WithStamp(At(d, Final(L)), stamp);
    assert Complete(inode);
    var d' := SetInode(d, j, inode);
    assert LTyped(d') by {
      forall n, i | i in Possible(d.dir, n) ensures LFits(d'.inodes, n, i) { assert LFits(d.inodes, n, i); }
    }
  }

  lemma LStampSteps(d: Disk, at: LegStep, c: Choice)
    requires LCore(d) && CommitPlace(d, at) && (at.StampRename? || at.StampSync?)
    ensures Onward(d, Commit(at), c)
  {
    hide Possible, Certain, ApplyOps, LCore, CurrentText;
    LCoreFits(d);
    LRestamp(d, if at.StampRename? then Renamed(StampVersion(L)) else Durable(StampVersion(L)));
  }

  lemma LCoreFits(d: Disk)
    requires LCore(d) && Has(d, Final(L))
    ensures HasGeneration(d, Final(L))
    ensures At(d, Final(L)).stamp != Unstamped ==> At(d, Final(L)).stamp.version == StampVersion(L)
  {
  }

  lemma LStep(d: Disk, step: Step, c: Choice)
    requires LCore(d) && StepFacts(d, step) && c.spare !in d.inodes
    ensures Onward(d, step, c)
  {
    hide LCore, CommitPlace, Onward;
    if step.WipeBuilding? {
      LBuildSteps(d, step, c);
    } else {
      CommitOnly(d, step);
      var at := step.at;
      if at.StampRename? || at.StampSync? { LStampSteps(d, at, c); }
      else if at.CreateBuilding? { LCreateStep(d, c); }
      else if at.CreateTmp? { LCreateTmpStep(d, c); }
      else if at.PublishDir? { LPublishStep(d, c); }
      else if at.DropStaleTmp? { LDropStep(d, c); }
      else if at.SwapCurrent? { LSwapStep(d, c); }
      else if at.WriteTree? || at.FsyncTree? { LBuildSteps(d, step, c); }
      else if at.WriteTmp? { LWriteTmpStep(d, c); }
      else { LSyncSteps(d, at, c); }
    }
  }

  lemma CommitOnly(d: Disk, step: Step)
    requires StepFacts(d, step) && !step.WipeBuilding?
    ensures step.Commit? && Rung(step.at) >= 6
  {
  }

  // ---- every run -----------------------------------------------------------------------------

  lemma LLock(d: Disk, spare: nat)
    requires LCore(d) && spare !in d.inodes
    ensures var d1 := Locked(d, spare);
      && LCore(d1) && (Stamped(d1, Final(L)) <==> Stamped(d, Final(L)))
      && d1.dir.durable == d.dir.durable && d1.inodes.Keys <= d.inodes.Keys + {spare}
      && (forall n :: n != LockFile ==> (Has(d1, n) <==> Has(d, n)) && (Certain(d1.dir, n) <==> Certain(d.dir, n)))
      && (forall n :: n != LockFile && Has(d, n) ==> Entries(d1.dir)[n] == Entries(d.dir)[n])
      && (forall i :: i in d.inodes ==> i in d1.inodes && d1.inodes[i] == d.inodes[i])
  {
    hide Possible, Certain, ApplyOps, LTyped, Exclusive, Once;
    if !Has(d, LockFile) {
      if Has(d, Final(L)) { LCoreFits(d); }
      LChange(d, spare, Text("", true));
      LIssue(SetInode(d, spare, Text("", true)), Link(LockFile, spare));
      ThenIs(d.dir, Link(LockFile, spare));
    }
  }

  lemma LStart(s: LoadState, spare: nat)
    requires LInv(s) && LoadAllowed(s, StartLoad(spare))
    ensures LInv(LoadAfter(s, StartLoad(spare)))
  {
    hide Possible, Certain, ApplyOps, LTyped, Exclusive, Once, CurrentText, Classify, Stuck, Locked;
    var d := s.disk;
    LLock(d, spare);
    ClassifyIs(d);
    StuckIff(d);
    NeverBothCached(d.dir, Building(L), Final(L));
    if Has(d, Building(L)) { BuildingFits(d); }
  }

  lemma LLoss(d: Disk, after: Disk)
    requires LCore(d) && PowerLoss(d, after)
    ensures LCore(after)
  {
    LossSettles(d, after);
    LSettle(d, after);
  }

  lemma {:induction false} LRunKeeps(s: LoadState, run: seq<LoadEvent>)
    requires LInv(s) && LoadRun(s, run)
    ensures LInv(LoadEnd(s, run))
    decreases |run|
  {
    hide LCore, StepFacts, PowerLoss, Stuck, StepAct, StepNext, StepSucceeds, FirstStep, Locked;
    if run == [] {
    } else {
      match run[0] {
        case StartLoad(spare) => LStart(s, spare);
        case FailLoad(spare) => LLock(s.disk, spare);
        case LoadAct(c) => LStep(s.disk, s.phase.step, c);
        case Killed =>
        case PowerCut(after) => LLoss(s.disk, after);
      }
      LRunKeeps(LoadAfter(s, run[0]), run[1..]);
    }
  }

  ghost predicate LoadReachable(s: LoadState) {
    exists run :: LoadRun(LoadInit(), run) && LoadEnd(LoadInit(), run) == s
  }

  lemma LReachableInv(s: LoadState)
    requires LoadReachable(s)
    ensures LInv(s)
  {
    assert LInv(LoadInit()) by { SettledIs(LoadInit().disk.dir); }
    var run :| LoadRun(LoadInit(), run) && LoadEnd(LoadInit(), run) == s;
    LRunKeeps(LoadInit(), run);
  }

  // ---- without a power loss ---------------------------------------------------------------------

  /** Kills alone never leave a directory that a rerun cannot use. */
  lemma {:induction false} KillsNeverStick(s: LoadState, run: seq<LoadEvent>)
    requires LInv(s) && !Stuck(s.disk) && LoadRun(s, run) && forall k :: 0 <= k < |run| ==> !run[k].PowerCut?
    ensures LInv(LoadEnd(s, run)) && !Stuck(LoadEnd(s, run).disk)
    decreases |run|
  {
    hide LCore, StepFacts, PowerLoss, Stuck, StepAct, StepNext, StepSucceeds, FirstStep, Locked;
    if run == [] {
    } else {
      var next := LoadAfter(s, run[0]);
      StuckIff(s.disk);
      match run[0] {
        case StartLoad(spare) => LStart(s, spare); LLock(s.disk, spare);
        case LoadAct(c) => LStep(s.disk, s.phase.step, c);
        case Killed =>
      }
      StuckIff(next.disk);
      KillsNeverStick(next, run[1..]);
    }
  }

  // ---- what a power loss can do -------------------------------------------------------------------

  /** Whatever a power loss keeps, CURRENT comes with its generation and VERSION with
      CURRENT. */
  ghost predicate Firm(d: Disk) {
    && (Has(d, CurrentFile) ==> Certain(d.dir, Final(L)))
    && (Stamped(d, Final(L)) ==> Certain(d.dir, CurrentFile))
  }

  lemma FirmLoss(d: Disk, after: Disk)
    requires LCore(d) && Firm(d) && PowerLoss(d, after)
    ensures LCore(after) && Firm(after) && !Stuck(after)
  {
    hide ApplyOps, LTyped, Exclusive, Stuck, PowerLoss;
    LLoss(d, after);
    LossSettles(d, after);
    SettledIs(after.dir);
    if Stamped(after, Final(L)) { LSettleStamp(d, after); }
    StuckIff(after);
  }

  lemma StampWithoutCurrent(d: Disk)
    requires d.dir.pending == [] && CurrentFile !in d.dir.durable && Stamped(d, Final(L))
    ensures Stuck(d)
  {
  }

  lemma CurrentWithoutFinal(d: Disk)
    requires d.dir.pending == [] && CurrentFile in d.dir.durable && Final(L) !in d.dir.durable
    ensures Stuck(d)
  {
  }

  /** An unfirm directory can lose what the later entry needs and keep that entry. */
  lemma UnfirmLoss(d: Disk) returns (after: Disk)
    requires LCore(d) && !Firm(d)
    ensures PowerLoss(d, after) && Stuck(after)
  {
    hide Possible, Certain, ApplyOps, LTyped, Exclusive, Stuck, PowerLoss, Kept;
    CachedIsPossible(d.dir, CurrentFile);
    CachedIsPossible(d.dir, Final(L));
    if Has(d, CurrentFile) && !Certain(d.dir, Final(L)) {
      var mask := KeepOne(d.dir, CurrentFile, Final(L));
      after := Fall(d, mask, false);
      FallIsLoss(d, mask, false);
      CurrentWithoutFinal(after);
    } else {
      var mask := KeepOne(d.dir, Final(L), CurrentFile);
      after := Fall(d, mask, true);
      FallIsLoss(d, mask, true);
      KeptIsPossible(d.dir, mask, Final(L));
      SettledIs(after.dir);
      StampWithoutCurrent(after);
    }
  }

  /** Every power loss leaves a directory that a rerun can use, exactly when it is firm. */
  lemma LossSafeIffFirm(s: LoadState)
    requires LoadReachable(s)
    ensures (forall after :: PowerLoss(s.disk, after) ==> !Stuck(after)) <==> Firm(s.disk)
  {
    hide LCore, Stuck, PowerLoss;
    LReachableInv(s);
    if Firm(s.disk) {
      forall after | PowerLoss(s.disk, after) ensures !Stuck(after) { FirmLoss(s.disk, after); }
    } else {
      var after := UnfirmLoss(s.disk);
    }
  }
}
