/** What a user of a data directory relies on, over every run: the committed
    generation always resolves, complete and stamped, before and after any power
    loss; an upgrade is never undone; every interrupted upgrade can be finished;
    and gen-v9 is retired only behind a proven gen-v10, with no reader left. */
module GenerationTheorems {
  import opened GenerationDisk
  import opened GenerationUpgrade
  import opened GenerationSettling
  import opened GenerationSafety
  import opened GenerationRuns

  // ---- the invariant over every event ---------------------------------------------

  function RankOf(tool: Tool): nat {
    match tool case M3Migration => 1 case M4Migration => 2 case M5Load => 0
  }

  function Rank(r: Resolution): nat {
    if r.Selected? then RankOf(r.tool) else 0
  }

  /** The newest generation that no power loss can take away any more. */
  ghost function Floor(d: Disk): nat {
    if AllCommitted(d, V10) then 2
    else if AllCommitted(d, V9) && Certain(d.dir, CurrentFile) then 1
    else 0
  }

  lemma LegFloor(d: Disk, tool: Tool)
    requires LegBase(d, tool)
    ensures Floor(d) == RankOf(tool) - 1
    ensures tool == V10 ==> Stamped(d, Final(V9))
    ensures tool == V9 ==> !Stamped(d, Final(V9))
  {
    CachedIsPossible(d.dir, Final(V9));
    if AllCommitted(d, V10) { CommittedIsMarked(d, V10); }
    if AllCommitted(d, V9) { CommittedIsMarked(d, V9); }
  }

  lemma PendingFloor(d: Disk, tool: Tool)
    requires StampPending(d, tool)
    ensures Floor(d) == RankOf(tool) - 1 && Stamped(d, Final(V9))
  {
  }

  /** Every event keeps the invariant and never lowers the floor. */
  ghost predicate Advances(s: State, s': State) {
    Inv(s') && Floor(s.disk) <= Floor(s'.disk)
  }

  lemma LegFactsFloor(d: Disk, tool: Tool, at: LegStep)
    requires LegFacts(d, tool, at)
    ensures Core(d) && Floor(d) == RankOf(tool) - 1
    ensures Stamped(d, Final(V9)) <==> tool == V10 || at.StampSync?
    ensures tool == V9 || tool == V10
  {
    if at.StampSync? { PendingFloor(d, tool); } else { LegFloor(d, tool); LegBaseIsCore(d, tool); }
  }

  lemma LegEvent(s: State, c: Choice)
    requires Inv(s) && s.phase.Leg? && Offers(s, c)
    ensures Allowed(s, Act(c)) && Advances(s, After(s, Act(c)))
    ensures s.phase.at == StampSync ==>
      Floor(After(s, Act(c)).disk) == RankOf(s.phase.tool) == Rank(CurrentGeneration(After(s, Act(c)).disk))
  {
    var d, tool, at := s.disk, s.phase.tool, s.phase.at;
    hide LegFacts, LegAct, Succeeds, Core, CurrentGeneration, Floor, Stamped;
    LegFactsFloor(d, tool, at);
    if at.StampSync? {
      LastAct(d, tool, c);
    } else {
      LegKeeps(d, tool, at, c);
      LegFactsFloor(LegAct(d, tool, at, c), tool, LegNext(d, tool, at, c).at);
    }
  }

  lemma LastAct(d: Disk, tool: Tool, c: Choice)
    requires LegFacts(d, tool, StampSync)
    ensures Succeeds(d, tool, StampSync)
    ensures var d' := LegAct(d, tool, StampSync, c);
      Core(d') && Stamped(d', Final(V9)) && Floor(d') == RankOf(tool) == Rank(CurrentGeneration(d'))
  {
    hide Possible, Certain, ApplyOps, CurrentText, Core;
    LegEnds(d, tool, c);
    var d' := LegAct(d, tool, StampSync, c);
    CommittedIsMarked(d', V9);
    CoreIsSound(d');
    if tool == V9 {
      assert NoneMarked(d', V10);
      if AllCommitted(d', V10) { CommittedIsMarked(d', V10); }
      CachedIsPossible(d'.dir, Final(V10));
    } else {
      CommittedIsMarked(d', V10);
      V10Resolves(d');
    }
  }

  lemma ProveEvent(s: State, c: Choice)
    requires Inv(s) && s.phase == Reap(ProveSuccessor) && Allowed(s, Act(c))
    ensures Advances(s, After(s, Act(c)))
  {
    hide Possible, Certain, ApplyOps, CurrentText, Core;
    var was := At(s.disk, Final(V10));
    Restamp(s.disk, V10, WithStamp(was, Durable(was.stamp.version)));
    if s.readers > 0 { OtherOwner(s.disk); }
  }

  lemma OtherOwner(d: Disk)
    requires Core(d) && Has(d, Final(V9)) && Has(d, Final(V10))
    ensures Entries(d.dir)[Final(V9)] != Entries(d.dir)[Final(V10)]
  {
    CachedIsPossible(d.dir, Final(V9));
    CachedIsPossible(d.dir, Final(V10));
    assert Fits(d.inodes, Final(V9), Entries(d.dir)[Final(V9)]);
    assert Fits(d.inodes, Final(V10), Entries(d.dir)[Final(V10)]);
  }

  lemma RootEvent(s: State, c: Choice)
    requires Inv(s) && (s.phase == Reap(ProveRoot) || s.phase == Reap(SyncRetired) || s.phase == Reap(SyncCleaned))
    requires Allowed(s, Act(c))
    ensures Advances(s, After(s, Act(c)))
  {
    hide Possible, Certain, ApplyOps, CurrentText, Core;
    ProveRootAct(s.disk);
  }

  lemma ReapEvent(s: State, c: Choice)
    requires Inv(s) && s.phase.Reap? && Allowed(s, Act(c))
    ensures Advances(s, After(s, Act(c)))
  {
    hide Possible, Certain, ApplyOps, CurrentText, Core;
    match s.phase.step
    case ProveSuccessor => ProveEvent(s, c);
    case Drain =>
    case RetireDir => RetireAct(s.disk);
    case SweepCleanup =>
      SweepCleanupAct(s.disk, c);
      CachedIsPossible(s.disk.dir, Final(V9));
    case UnlinkCleanup =>
      UnlinkCleanupAct(s.disk);
      CachedIsPossible(s.disk.dir, Final(V9));
    case _ => RootEvent(s, c);
  }

  lemma CheckpointEvent(s: State)
    requires Inv(s) && Allowed(s, Checkpoint)
    ensures Advances(s, After(s, Checkpoint))
  {
    hide Possible, Certain, ApplyOps, CurrentText, Core;
    var d := s.disk;
    var tool := CurrentGeneration(d).tool;
    AlwaysResolves(d);
    if tool == V9 { V9MeansReady(d); } else { V10MeansPublished(d); }
    Restamp(d, tool, Checkpointed(At(d, Final(tool))));
    CommittedIsMarked(After(s, Checkpoint).disk, tool);
    if s.readers > 0 && tool == V10 { OtherOwner(d); }
    if s.phase.Reap? { ReapingMeansV10(s); }
  }

  lemma ReapingMeansV10(s: State)
    requires Inv(s) && s.phase.Reap?
    ensures CurrentGeneration(s.disk) == Selected(V10)
  {
    CommittedIsMarked(s.disk, V10);
    V10Resolves(s.disk);
  }

  lemma StartEvent(s: State, tool: Tool)
    requires Inv(s) && Allowed(s, StartLeg(tool))
    ensures Advances(s, After(s, StartLeg(tool)))
  {
    hide Possible, Certain, ApplyOps, CurrentText;
    var d := s.disk;
    if tool == V9 {
      LegacyMeansUnmarked(d);
      LegSync(d, tool);
      LegFloor(d, tool);
      LegFloor(SyncRoot(d), tool);
      LegBaseIsCore(SyncRoot(d), tool);
    } else {
      V9MeansReady(d);
      Restamp(d, V9, Checkpointed(At(d, Final(V9))));
      var d' := After(s, StartLeg(tool)).disk;
      CommittedIsMarked(d', V9);
      assert LegBase(d', V10);
      LegFloor(d', V10);
      if AllCommitted(d, V10) { CommittedIsMarked(d, V10); }
    }
  }

  lemma LossEvent(d: Disk, after: Disk)
    requires Core(d) && PowerLoss(d, after)
    ensures Core(after) && Floor(d) <= Floor(after)
  {
    LossSettles(d, after);
    SettleCore(d, after);
    SettleCertain(d, after, CurrentFile);
    if AllCommitted(d, V10) { SettleCommitted(d, after, V10); }
    if AllCommitted(d, V9) { SettleCommitted(d, after, V9); }
  }

  /** The invariant is inductive, and the floor only rises. */
  lemma EveryEvent(s: State, ev: Event)
    requires Inv(s) && Allowed(s, ev)
    ensures Advances(s, After(s, ev))
  {
    hide Possible, Certain, ApplyOps, CurrentText, Core, LegFacts, PowerLoss;
    match ev
    case StartLeg(tool) => StartEvent(s, tool);
    case StartReap => V10MeansPublished(s.disk);
    case Act(c) => if s.phase.Leg? { LegEvent(s, c); } else { ReapEvent(s, c); }
    case Kill =>
    case Loss(after) => LossEvent(s.disk, after);
    case Checkpoint => CheckpointEvent(s);
    case Pin =>
    case Unpin =>
  }

  // ---- the theorems -----------------------------------------------------------------

  ghost predicate Reachable(s: State) {
    exists run :: Valid(Init(), run) && EndState(Init(), run) == s
  }

  lemma {:induction false} RunKeeps(s: State, run: seq<Event>)
    requires Inv(s) && Valid(s, run)
    ensures Advances(s, EndState(s, run))
    decreases |run|
  {
    hide Allowed, After, Inv, Floor;
    if run == [] {
    } else {
      EveryEvent(s, run[0]);
      RunKeeps(After(s, run[0]), run[1..]);
    }
  }

  lemma ReachableInv(s: State)
    requires Reachable(s)
    ensures Inv(s)
  {
    assert Inv(Init()) by { SettledIs(Init().disk.dir); }
    var run :| Valid(Init(), run) && EndState(Init(), run) == s;
    RunKeeps(Init(), run);
  }

  /** CURRENT, if present, holds a whole generation name, never a torn one. */
  predicate CurrentWhole(d: Disk) {
    Has(d, CurrentFile) ==> Names(d, V9) || Names(d, V10)
  }

  predicate Names(d: Disk, tool: Tool) {
    Has(d, CurrentFile) && TextAt(d.inodes, Entries(d.dir)[CurrentFile], tool)
  }

  /** The resolved generation carries its own VERSION, and every file its
      durability ledger covered is there byte for byte. */
  ghost predicate Sound(d: Disk) {
    CurrentWhole(d) &&
    match CurrentGeneration(d)
    case Refused => false
    case Legacy => true
    case Selected(tool) =>
      && HasGeneration(d, Final(tool)) && At(d, Final(tool)).tool == tool
      && At(d, Final(tool)).stamp != Unstamped
      && At(d, Final(tool)).stamp.version == (if tool == M3Migration then 5 else 6)
      && Complete(At(d, Final(tool)))
  }

  lemma CoreIsSound(d: Disk)
    requires Core(d)
    ensures Sound(d) && Rank(CurrentGeneration(d)) >= Floor(d)
  {
    AlwaysResolves(d);
    CachedIsPossible(d.dir, CurrentFile);
    assert Has(d, CurrentFile) ==> Fits(d.inodes, CurrentFile, Entries(d.dir)[CurrentFile]);
    if CurrentGeneration(d) == Selected(V9) { V9MeansReady(d); }
    if CurrentGeneration(d) == Selected(V10) { V10MeansPublished(d); }
    if CurrentGeneration(d) == Legacy { LegacyMeansUnmarked(d); LegFloor(d, V9); }
    if AllCommitted(d, V10) { CommittedIsMarked(d, V10); V10Resolves(d); }
  }

  /** CURRENT always resolves to the legacy store or to a generation that is
      stamped and complete - at any point of any run, and after a power loss
      there, whatever the loss keeps. */
  lemma AlwaysSound(s: State, after: Disk)
    requires Reachable(s) && PowerLoss(s.disk, after)
    ensures Sound(s.disk) && Sound(after)
  {
    hide Possible, Certain, ApplyOps, CurrentText, PowerLoss;
    ReachableInv(s);
    CoreIsSound(s.disk);
    LossEvent(s.disk, after);
    CoreIsSound(after);
  }

  /** A stamped gen-v10 is the one CURRENT names, and CURRENT never names gen-v10
      without a stamped generation to fall back to. */
  lemma NamedMeansStamped(s: State)
    requires Reachable(s)
    ensures Stamped(s.disk, Final(V10)) ==> Names(s.disk, V10)
    ensures Names(s.disk, V10) ==> Stamped(s.disk, Final(V9)) || Stamped(s.disk, Final(V10))
  {
    var d := s.disk;
    ReachableInv(s);
    CachedIsPossible(d.dir, CurrentFile);
    CachedIsPossible(d.dir, Final(V10));
    if Stamped(d, Final(V10)) { assert Marked(d.inodes, Entries(d.dir)[Final(V10)]); }
    NamesApart(d);
  }

  /** The two names are different texts. */
  lemma NamesApart(d: Disk)
    ensures !(Names(d, V9) && Names(d, V10))
  {
    CurrentTextNames(V9);
    CurrentTextNames(V10);
  }

  /** Once a leg has finished, no later run - kills, power losses, further legs
      and reaping included - resolves to an older generation. */
  lemma NeverUndone(s: State, c: Choice, rest: seq<Event>)
    requires Reachable(s) && s.phase.Leg? && s.phase.at == StampSync && Offers(s, c)
    requires Allowed(s, Act(c)) && Valid(After(s, Act(c)), rest)
    ensures Rank(CurrentGeneration(EndState(After(s, Act(c)), rest).disk)) >= RankOf(s.phase.tool)
  {
    hide Possible, Certain, ApplyOps, CurrentText, Core, LegFacts, Allowed, After, Floor, CurrentGeneration;
    ReachableInv(s);
    LegEvent(s, c);
    RunKeeps(After(s, Act(c)), rest);
    CoreIsSound(EndState(After(s, Act(c)), rest).disk);
  }

  lemma FallUnmarks(d: Disk, tool: Tool, mask: seq<bool>)
    requires |mask| == |d.dir.pending| && Core(d) && AllPublished(d, tool) && !AllCommitted(d, tool)
    requires tool == V9 ==> NoneMarked(d, V10)
    requires tool == V9 || tool == V10
    ensures Core(Fall(d, mask, false)) && Rank(CurrentGeneration(Fall(d, mask, false))) < RankOf(tool)
  {
    var after := Fall(d, mask, false);
    FallIsLoss(d, mask, false);
    LossSettles(d, after);
    SettleCore(d, after);
    SettledIs(after.dir);
    assert NoneMarked(after, tool);
    if tool == V9 { SettleUnmarked(d, after, V10); }
    AlwaysResolves(after);
    CachedIsPossible(after.dir, Final(tool));
    CachedIsPossible(after.dir, Final(V10));
  }

  /** The resolved generation outlives every power loss exactly when its VERSION
      rename has been made durable: a store that reports itself upgraded right
      after a kill between that rename and its fsync can still fall back. */
  lemma ResolvedOutlivesLoss(d: Disk)
    requires Core(d) && CurrentGeneration(d).Selected?
    ensures HasGeneration(d, Final(CurrentGeneration(d).tool))
    ensures (forall after :: PowerLoss(d, after) ==> Rank(CurrentGeneration(after)) >= Rank(CurrentGeneration(d)))
            <==> At(d, Final(CurrentGeneration(d).tool)).stamp.Durable?
  {
    hide Possible, Certain, ApplyOps, CurrentText, PowerLoss;
    var tool := CurrentGeneration(d).tool;
    AlwaysResolves(d);
    if tool == V9 { V9MeansReady(d); } else { V10MeansPublished(d); }
    if At(d, Final(tool)).stamp.Durable? {
      forall after | PowerLoss(d, after) ensures Rank(CurrentGeneration(after)) >= RankOf(tool) {
        LossEvent(d, after);
        CoreIsSound(after);
      }
    } else {
      var mask := seq(|d.dir.pending|, _ => true);
      FallIsLoss(d, mask, false);
      FallUnmarks(d, tool, mask);
    }
  }

  // ---- every interrupted upgrade can be finished -------------------------------------

  /** Only the tool runs: leg after leg, whatever the environment decides in each act. */
  ghost predicate Uninterrupted(run: seq<Event>) {
    forall k :: 0 <= k < |run| ==> run[k].StartLeg? || run[k].Act?
  }

  /** How many acts of the run let a build go on. */
  function Mores(run: seq<Event>): nat {
    if run == [] then 0 else (if run[0].Act? && run[0].choice.more then 1 else 0) + Mores(run[1..])
  }

  /** At most how many events are left, but for builds that go on. */
  function Left(s: State): nat {
    match s.phase
    case Idle =>
      (match CurrentGeneration(s.disk)
       case Selected(tool) => if tool == V9 then 21 else 0
       case _ => 42)
    case Leg(tool, at) => (if tool == V9 then 21 else 0) + if Order(at) < 20 then 20 - Order(at) else 0
    case Reap(_) => 0
  }

  lemma LegShortens(d: Disk, tool: Tool, at: LegStep, c: Choice)
    requires LegNext(d, tool, at, c).Leg?
    ensures var next := LegNext(d, tool, at, c);
      next.tool == tool && Order(next.at) + (if c.more then 1 else 0) >= Order(at) + 1
  {
  }

  /** One event of the tool: it shortens what is left, and it ends a leg only with that
      leg's generation committed for good. */
  lemma ToolEvent(s: State, ev: Event)
    requires Inv(s) && !s.phase.Reap? && Allowed(s, ev) && (ev.StartLeg? || ev.Act?)
    ensures var s' := After(s, ev);
      && Inv(s') && !s'.phase.Reap?
      && Left(s') + 1 <= Left(s) + (if ev.Act? && ev.choice.more then 1 else 0)
      && (s'.phase == Idle ==> Floor(s'.disk) == Rank(CurrentGeneration(s'.disk)))
  {
    hide Possible, Certain, ApplyOps, CurrentText, Core, LegFacts, Floor, CurrentGeneration, Succeeds, LegAct;
    EveryEvent(s, ev);
    if ev.Act? {
      LegEvent(s, ev.choice);
      LegTools(s);
      var next := LegNext(s.disk, s.phase.tool, s.phase.at, ev.choice);
      if next.Leg? { LegShortens(s.disk, s.phase.tool, s.phase.at, ev.choice); }
      RankIs(CurrentGeneration(After(s, ev).disk));
    }
  }

  lemma LegTools(s: State)
    requires Inv(s) && s.phase.Leg?
    ensures s.phase.tool == V9 || s.phase.tool == V10
  {
    LegFactsFloor(s.disk, s.phase.tool, s.phase.at);
  }

  lemma RankIs(r: Resolution)
    ensures Rank(r) == 1 ==> r == Selected(V9)
    ensures Rank(r) == 2 ==> r == Selected(V10)
  {
  }

  lemma {:induction false} ToolRun(s: State, run: seq<Event>)
    requires Inv(s) && !s.phase.Reap? && Valid(s, run) && Uninterrupted(run)
    ensures var e := EndState(s, run);
      && Inv(e) && !e.phase.Reap?
      && |run| + Left(e) <= Left(s) + Mores(run)
      && (run != [] && e.phase == Idle ==> Floor(e.disk) == Rank(CurrentGeneration(e.disk)))
    decreases |run|
  {
    hide Inv, Allowed, After, Floor, CurrentGeneration, Left;
    if run == [] {
    } else {
      ToolEvent(s, run[0]);
      ToolRun(After(s, run[0]), run[1..]);
    }
  }

  ghost predicate Lasting(d: Disk) {
    forall after :: PowerLoss(d, after) ==> CurrentGeneration(after) == Selected(V10)
  }

  /** Where the tool stands between two of its events: its next act succeeds whatever the
      environment decides, or the next leg can start, or gen-v10 is resolved. */
  ghost predicate GoesOn(e: State) {
    match e.phase
    case Leg(_, _) => forall c :: Offers(e, c) ==> Allowed(e, Act(c))
    case Idle =>
      || Allowed(e, StartLeg(V9)) || Allowed(e, StartLeg(V10))
      || (CurrentGeneration(e.disk) == Selected(V10) && HasGeneration(e.disk, Final(V10)))
    case Reap(_) => false
  }

  lemma InvGoesOn(e: State)
    requires Inv(e) && !e.phase.Reap?
    ensures GoesOn(e)
  {
    hide Possible, Certain, ApplyOps, CurrentText, Core, LegFacts, CurrentGeneration, Succeeds, Stamped;
    if e.phase.Leg? {
      forall c | Offers(e, c) ensures Allowed(e, Act(c)) { LegEvent(e, c); }
    } else {
      AlwaysResolves(e.disk);
      CoreIsSound(e.disk);
    }
  }

  lemma DoneLasts(e: State)
    requires Inv(e) && CurrentGeneration(e.disk) == Selected(V10) && HasGeneration(e.disk, Final(V10))
    ensures Lasting(e.disk) <==> At(e.disk, Final(V10)).stamp.Durable?
    ensures Floor(e.disk) == 2 ==> Lasting(e.disk)
  {
    hide Possible, Certain, ApplyOps, CurrentText, Core, LegFacts, CurrentGeneration, PowerLoss;
    ResolvedOutlivesLoss(e.disk);
    forall after ensures Rank(CurrentGeneration(after)) >= 2 <==> CurrentGeneration(after) == Selected(V10) {
      RankIs(CurrentGeneration(after));
    }
    if Floor(e.disk) == 2 {
      forall after | PowerLoss(e.disk, after) ensures CurrentGeneration(after) == Selected(V10) {
        LossEvent(e.disk, after);
        CoreIsSound(after);
      }
    }
  }

  /** Whatever run led here - any number of kills and power losses at any act - kill the
      tool and run it again, uninterrupted.  However the environment decides, it finds
      nothing in its way and takes at most 42 events besides the acts by which a build
      goes on.  Once it is done, gen-v10 is resolved; no power loss can take that away
      exactly if the tool did anything, or found the VERSION rename already durable. */
  lemma AlwaysCompletable(s: State, run: seq<Event>)
    requires Reachable(s) && Valid(s, [Kill] + run) && Uninterrupted(run)
    ensures var e := EndState(s, [Kill] + run);
      && |run| <= 42 + Mores(run)
      && GoesOn(e)
      && (e.phase == Idle && CurrentGeneration(e.disk) == Selected(V10) ==>
           && HasGeneration(e.disk, Final(V10))
           && (Lasting(e.disk) <==>
                 run != [] || (HasGeneration(s.disk, Final(V10)) && At(s.disk, Final(V10)).stamp.Durable?)))
  {
    hide Possible, Certain, ApplyOps, CurrentText, Core, LegFacts, CurrentGeneration, Allowed, Order, Lasting;
    ReachableInv(s);
    assert ([Kill] + run)[1..] == run;
    KillEvent(s);
    ToolRun(After(s, Kill), run);
    var e := EndState(s, [Kill] + run);
    InvGoesOn(e);
    if e.phase == Idle && CurrentGeneration(e.disk) == Selected(V10) {
      CoreIsSound(e.disk);
      DoneLasts(e);
    }
  }

  lemma KillEvent(s: State)
    requires Inv(s)
    ensures Allowed(s, Kill) && Inv(After(s, Kill)) && After(s, Kill) == State(s.disk, Idle, 0, false)
  {
    EveryEvent(s, Kill);
  }

  // ---- retiring gen-v9 ---------------------------------------------------------------

  /** A pinned reader's gen-v9 is there, complete, at every point of every run. */
  lemma ReadersKeepTheirFiles(s: State)
    requires Reachable(s) && s.readers > 0
    ensures Stamped(s.disk, Final(V9)) && Complete(s.disk.inodes[Entries(s.disk.dir)[Final(V9)]])
  {
    ReachableInv(s);
    CachedIsPossible(s.disk.dir, Final(V9));
    assert Marked(s.disk.inodes, Entries(s.disk.dir)[Final(V9)]);
  }

  /** A stamped gen-v9 goes away, other than by a power loss, only by being
      retired: with no reader left, behind a gen-v10 that is durable and has
      checkpointed beyond the migration's own checkpoint. */
  lemma RetiredBehindSuccessor(s: State, ev: Event)
    requires Reachable(s) && Allowed(s, ev) && !ev.Loss?
    requires Stamped(s.disk, Final(V9)) && !Stamped(After(s, ev).disk, Final(V9))
    ensures ev.Act? && s.phase == Reap(RetireDir) && s.readers == 0 && Handover(s.disk)
  {
    hide Possible, Certain, ApplyOps, CurrentText, Core, LegFacts, CurrentGeneration;
    ReachableInv(s);
    if !(ev.Act? && (s.phase == Reap(RetireDir) || s.phase == Reap(Drain))) && !ev.Kill? && !ev.Pin? && !ev.Unpin? {
      // A reader would still be served, and the same disk results without one.
      var reading := s.(readers := 1, retired := false);
      EveryEvent(reading, ev);
    }
  }
}
