/** An uninterrupted reap of the superseded generation: it is never blocked, it ends, and
    it leaves neither gen-v9 nor its cleanup name exactly if gen-v10 has checkpointed
    beyond the migration's own checkpoint. */
module GenerationReap {
  import opened GenerationDisk
  import opened GenerationUpgrade
  import opened GenerationSettling
  import opened GenerationSafety
  import opened GenerationRuns
  import opened GenerationTheorems

  function Rung(phase: Phase): nat {
    match phase
    case Idle => 8
    case Leg(_, _) => 0
    case Reap(step) =>
      match step
      case ProveSuccessor => 0 case ProveRoot => 1 case Drain => 2
      case RetireDir => 3 case SyncRetired => 4
      case SweepCleanup => 5 case UnlinkCleanup => 6 case SyncCleaned => 7
  }

  /** Nothing of gen-v9 is left, and no power loss brings it back. */
  ghost predicate Gone(d: Disk) {
    && !Has(d, Final(V9)) && !Has(d, CleanupDir)
    && forall after :: PowerLoss(d, after) ==> !Has(after, Final(V9)) && !Has(after, CleanupDir)
  }

  /** How far a reap that started on `was` has come. */
  ghost predicate Reaping(was: Disk, s: State) {
    && Inv(s) && !s.phase.Leg? && s.readers == 0
    && HasGeneration(was, Final(V10)) && HasGeneration(s.disk, Final(V10))
    && At(s.disk, Final(V10)).epoch == At(was, Final(V10)).epoch
    && (Rung(s.phase) <= 1 ==> Entries(s.disk.dir) == Entries(was.dir) && (Has(was, CleanupDir) || Has(was, Final(V9))))
    && (2 <= Rung(s.phase) <= 7 ==> At(was, Final(V10)).epoch > 1)
    && (s.phase == Reap(SyncCleaned) ==> !Has(s.disk, CleanupDir))
    && (s.phase == Idle ==>
          if At(was, Final(V10)).epoch > 1 then Gone(s.disk) else Entries(s.disk.dir) == Entries(was.dir))
  }

  lemma CleanupThere(d: Disk)
    requires Core(d) && Has(d, CleanupDir)
    ensures HasGeneration(d, CleanupDir)
  {
    CachedIsPossible(d.dir, CleanupDir);
    assert Fits(d.inodes, CleanupDir, Entries(d.dir)[CleanupDir]);
  }

  /** No act of a reap is blocked, once no reader is left. */
  lemma ReapGoesOn(s: State, c: Choice)
    requires Inv(s) && s.phase.Reap? && s.readers == 0 && Offers(s, c)
    ensures Allowed(s, Act(c))
  {
    hide Possible, Certain, ApplyOps, CurrentText, Core;
    if s.phase.step.SweepCleanup? { CleanupThere(s.disk); }
  }

  lemma SyncedIsGone(d: Disk)
    requires Possible(d.dir, Final(V9)) == {} && !Has(d, CleanupDir)
    ensures Gone(SyncRoot(d))
  {
    var now := SyncRoot(d);
    SettledIs(now.dir);
    CachedIsPossible(d.dir, Final(V9));
    forall after | PowerLoss(now, after) ensures !Has(after, Final(V9)) && !Has(after, CleanupDir) {
      LossSettles(now, after);
      SettledIs(after.dir);
    }
  }

  /** Gen-v10 stands under its own name throughout, with its checkpoints. */
  lemma SuccessorStays(s: State, c: Choice)
    requires Inv(s) && s.phase.Reap? && Allowed(s, Act(c)) && HasGeneration(s.disk, Final(V10))
    ensures var d' := After(s, Act(c)).disk;
      HasGeneration(d', Final(V10)) && At(d', Final(V10)).epoch == At(s.disk, Final(V10)).epoch
  {
    hide Possible, Certain, ApplyOps, CurrentText, Stamped;
    var d := s.disk;
    match s.phase.step
    case RetireDir => ThenIs(d.dir, Rename(Final(V9), CleanupDir, Entries(d.dir)[Final(V9)]));
    case UnlinkCleanup => ThenIs(d.dir, Unlink(CleanupDir));
    case SweepCleanup => CleanupApart(d);
    case ProveSuccessor =>
    case Drain =>
    case _ => SettledIs(SyncRoot(d).dir);
  }

  lemma CleanupApart(d: Disk)
    requires Core(d) && Has(d, CleanupDir) && Has(d, Final(V10))
    ensures Entries(d.dir)[CleanupDir] != Entries(d.dir)[Final(V10)]
  {
    CachedIsPossible(d.dir, CleanupDir);
    CachedIsPossible(d.dir, Final(V10));
    assert Fits(d.inodes, CleanupDir, Entries(d.dir)[CleanupDir]);
    assert Fits(d.inodes, Final(V10), Entries(d.dir)[Final(V10)]);
  }

  lemma ReapAdvances(was: Disk, s: State, c: Choice)
    requires Reaping(was, s) && s.phase.Reap? && Allowed(s, Act(c))
    ensures Reaping(was, After(s, Act(c))) && Rung(After(s, Act(c)).phase) > Rung(s.phase)
  {
    hide Possible, Certain, ApplyOps, CurrentText, Core, Gone, Stamped, CurrentGeneration;
    var d := s.disk;
    EveryEvent(s, Act(c));
    SuccessorStays(s, c);
    if s.phase.step.ProveRoot? { SettledIs(SyncRoot(d).dir); }
    if s.phase.step.UnlinkCleanup? { ThenIs(d.dir, Unlink(CleanupDir)); }
    if s.phase.step.SyncCleaned? { SyncedIsGone(d); }
  }

  lemma {:induction false} ReapRuns(was: Disk, s: State, run: seq<Event>)
    requires Reaping(was, s) && Valid(s, run) && forall k :: 0 <= k < |run| ==> run[k].Act?
    ensures Reaping(was, EndState(s, run)) && Rung(EndState(s, run).phase) >= Rung(s.phase) + |run|
    decreases |run|
  {
    hide Reaping, After, Rung;
    if run == [] {
    } else {
      ReapPhase(was, s, run[0]);
      ReapAdvances(was, s, run[0].choice);
      ReapRuns(was, After(s, run[0]), run[1..]);
    }
  }

  lemma ReapPhase(was: Disk, s: State, ev: Event)
    requires Reaping(was, s) && ev.Act? && Allowed(s, ev)
    ensures s.phase.Reap?
  {
  }

  /** With no reader left, every uninterrupted reap, whatever the environment decides, is
      never blocked and takes at most eight acts.  When it is done, nothing of gen-v9 is
      left, for good, if gen-v10 has a checkpoint later than the migration's own; and
      otherwise every entry of the root is as it was. */
  lemma ReapCompletes(s: State, run: seq<Event>)
    requires Reachable(s) && Allowed(s, StartReap) && s.readers == 0
    requires Valid(After(s, StartReap), run) && forall k :: 0 <= k < |run| ==> run[k].Act?
    ensures |run| <= 8 && HasGeneration(s.disk, Final(V10))
    ensures var e := EndState(After(s, StartReap), run);
      && (e.phase == Idle || (e.phase.Reap? && forall c :: Offers(e, c) ==> Allowed(e, Act(c))))
      && (e.phase == Idle && At(s.disk, Final(V10)).epoch > 1 ==> Gone(e.disk))
      && (e.phase == Idle && At(s.disk, Final(V10)).epoch <= 1 ==> Entries(e.disk.dir) == Entries(s.disk.dir))
  {
    hide Possible, Certain, ApplyOps, CurrentText, Core, CurrentGeneration, Gone, Allowed, Valid, EndState;
    ReachableInv(s);
    ReapStarts(s);
    ReapRuns(s.disk, After(s, StartReap), run);
    var e := EndState(After(s, StartReap), run);
    if e.phase.Reap? {
      forall c | Offers(e, c) ensures Allowed(e, Act(c)) { ReapGoesOn(e, c); }
    }
  }

  lemma ReapStarts(s: State)
    requires Inv(s) && Allowed(s, StartReap) && s.readers == 0
    ensures Reaping(s.disk, After(s, StartReap)) && After(s, StartReap).phase == Reap(ProveSuccessor)
  {
    hide Possible, Certain, ApplyOps, CurrentText, Core;
    EveryEvent(s, StartReap);
    V10MeansPublished(s.disk);
  }

  // ---- nothing is reaped early ---------------------------------------------------------

  /** No gen-v10 has a checkpoint later than the migration's own. */
  predicate Early(d: Disk) {
    forall i :: i in d.inodes && d.inodes[i].Generation? && d.inodes[i].tool == M4Migration ==> d.inodes[i].epoch == 1
  }

  /** The server takes no checkpoint while gen-v10 is the selected generation. */
  ghost predicate NoCheckpoint(s: State, run: seq<Event>)
    requires Valid(s, run)
    decreases |run|
  {
    run == [] || (&& !(run[0].Checkpoint? && CurrentGeneration(s.disk) == Selected(V10))
                  && NoCheckpoint(After(s, run[0]), run[1..]))
  }

  /** The reaper has not come past its proof. */
  predicate Holding(s: State) {
    !s.retired && (s.phase.Reap? ==> s.phase.step == ProveSuccessor || s.phase.step == ProveRoot)
  }

  lemma TreeOfTool(d: Disk, tool: Tool)
    requires Core(d) && HasGeneration(d, Final(tool))
    ensures At(d, Final(tool)).tool == tool
  {
    CachedIsPossible(d.dir, Final(tool));
    assert Fits(d.inodes, Final(tool), Entries(d.dir)[Final(tool)]);
  }

  lemma EarlyEvent(s: State, ev: Event)
    requires Inv(s) && Early(s.disk) && Holding(s) && Allowed(s, ev)
    requires !(ev.Checkpoint? && CurrentGeneration(s.disk) == Selected(V10))
    ensures Early(After(s, ev).disk) && Holding(After(s, ev))
  {
    hide Possible, Certain, ApplyOps, CurrentText, Core, LegFacts, CurrentGeneration, Surviving;
    AlwaysResolves(s.disk);
    match ev
    case StartLeg(tool) => if tool == V10 { TreeOfTool(s.disk, V9); }
    case Act(c) =>
      if s.phase.Leg? {
        LegEarly(s.disk, s.phase.tool, s.phase.at, c);
      } else if HasGeneration(s.disk, Final(V10)) {
        TreeOfTool(s.disk, V10);
      }
    case Checkpoint => TreeOfTool(s.disk, V9);
    case _ =>
  }

  lemma LegEarly(d: Disk, tool: Tool, at: LegStep, c: Choice)
    requires Early(d) && Succeeds(d, tool, at)
    ensures Early(LegAct(d, tool, at, c))
  {
    hide Possible, Certain, ApplyOps, CurrentText;
  }

  lemma {:induction false} EarlyRun(s: State, run: seq<Event>)
    requires Inv(s) && Early(s.disk) && Holding(s) && Valid(s, run) && NoCheckpoint(s, run)
    ensures Early(EndState(s, run).disk) && Holding(EndState(s, run))
    decreases |run|
  {
    hide Inv, Early, Holding, Allowed, After, CurrentGeneration, Floor;
    if run == [] {
    } else {
      EarlyEvent(s, run[0]);
      EveryEvent(s, run[0]);
      EarlyRun(After(s, run[0]), run[1..]);
    }
  }

  /** Over every run from the empty root, with kills and power losses anywhere: while
      gen-v10 has not been checkpointed by a server, no reap claims or removes gen-v9. */
  lemma NoEarlyReap(run: seq<Event>)
    requires Valid(Init(), run) && NoCheckpoint(Init(), run)
    ensures var e := EndState(Init(), run);
      && !e.retired
      && (e.phase.Reap? ==> e.phase.step == ProveSuccessor || e.phase.step == ProveRoot)
  {
    assert Valid(Init(), []) && EndState(Init(), []) == Init();
    ReachableInv(Init());
    EarlyRun(Init(), run);
  }
}
