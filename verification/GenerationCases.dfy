/** Runs of the upgrade from the empty root that end resolved to a generation whose VERSION
    rename is not durable yet, and the power loss that takes it away again. */
module GenerationCases {
  import opened GenerationDisk
  import opened GenerationUpgrade
  import opened GenerationSettling
  import opened GenerationSafety
  import opened GenerationRuns
  import opened GenerationTheorems
  import opened GenerationPins

  lemma {:induction false} RunThen(s: State, run: seq<Event>, ev: Event)
    requires Valid(s, run) && Allowed(EndState(s, run), ev)
    ensures Valid(s, run + [ev]) && EndState(s, run + [ev]) == After(EndState(s, run), ev)
    decreases |run|
  {
    hide Allowed, After;
    if run == [] {
      assert run + [ev] == [ev] && [ev][1..] == [];
      assert Valid(After(s, ev), []);
    } else {
      RunThen(After(s, run[0]), run[1..], ev);
      assert (run + [ev])[1..] == run[1..] + [ev];
    }
  }

  lemma ReachThen(s: State, ev: Event)
    requires Reachable(s) && Allowed(s, ev)
    ensures Reachable(After(s, ev))
  {
    hide Allowed, After, Init, Valid, EndState;
    var run :| Valid(Init(), run) && EndState(Init(), run) == s;
    RunThen(Init(), run, ev);
  }

  /** One act of a leg, with a build that does not go on. */
  lemma ActOn(s: State) returns (e: State)
    requires Reachable(s) && s.phase.Leg?
    ensures Reachable(e)
    ensures s.phase.at != StampSync ==>
      e.phase.Leg? && e.phase.tool == s.phase.tool && Order(e.phase.at) > Order(s.phase.at)
    ensures s.phase.at == StampSync ==>
      e.phase == Idle && Rank(CurrentGeneration(e.disk)) == RankOf(s.phase.tool)
  {
    hide Possible, Certain, ApplyOps, CurrentText, Inv, Floor, CurrentGeneration, Succeeds, LegAct, Reachable;
    ReachableInv(s);
    var spare := SpareBound(s.disk.inodes.Keys);
    var c := Choice(spare, map[], false, {}, false);
    LegEvent(s, c);
    ReachThen(s, Act(c));
    e := After(s, Act(c));
    if e.phase.Leg? { LegShortens(s.disk, s.phase.tool, s.phase.at, c); }
  }

  lemma {:induction false} RunToStamp(s: State) returns (e: State)
    requires Reachable(s) && s.phase.Leg?
    ensures Reachable(e) && e.phase == Leg(s.phase.tool, StampSync)
    decreases 20 - Order(s.phase.at)
  {
    hide Reachable, CurrentGeneration;
    if s.phase.at == StampSync {
      e := s;
    } else {
      e := ActOn(s);
      e := RunToStamp(e);
    }
  }

  lemma LegUnderWay(tool: Tool) returns (s: State)
    requires tool == V9 || tool == V10
    ensures Reachable(s) && s.phase.Leg? && s.phase.tool == tool
    decreases RankOf(tool)
  {
    hide Reachable, ApplyOps, Stamped;
    if tool == V9 {
      EmptyIsLegacy();
      ReachThen(Init(), StartLeg(V9));
      s := After(Init(), StartLeg(V9));
    } else {
      s := LegUnderWay(V9);
      s := RunToStamp(s);
      s := ActOn(s);
      RankIs(CurrentGeneration(s.disk));
      ReachThen(s, StartLeg(V10));
      s := After(s, StartLeg(V10));
    }
  }

  lemma EmptyIsLegacy()
    ensures Reachable(Init()) && CurrentGeneration(Init().disk) == Legacy
  {
    assert Valid(Init(), []) && EndState(Init(), []) == Init();
  }

  /** Either leg, killed between the VERSION rename and its fsync: the store resolves to the
      new generation, and a power loss there resolves to an older one. */
  lemma ResolvedCanFall(tool: Tool) returns (s: State, after: Disk)
    requires tool == V9 || tool == V10
    ensures Reachable(s) && s.phase == Idle && CurrentGeneration(s.disk) == Selected(tool)
    ensures Allowed(s, Loss(after)) && Rank(CurrentGeneration(after)) < RankOf(tool)
  {
    hide Possible, Certain, ApplyOps, CurrentText, Core, CurrentGeneration, Reachable, PowerLoss, LegFacts;
    var running := LegUnderWay(tool);
    running := RunToStamp(running);
    ReachableInv(running);
    LegRank(running.disk, tool, StampSync);
    RankIs(CurrentGeneration(running.disk));
    RenamedOnly(running.disk, tool);
    ReachThen(running, Kill);
    s := After(running, Kill);
    ReachableInv(s);
    ResolvedOutlivesLoss(s.disk);
    after :| PowerLoss(s.disk, after) && Rank(CurrentGeneration(after)) < Rank(CurrentGeneration(s.disk));
  }

  lemma RenamedOnly(d: Disk, tool: Tool)
    requires LegFacts(d, tool, StampSync)
    ensures HasGeneration(d, Final(tool)) && At(d, Final(tool)).stamp.Renamed?
  {
  }

  // ---- what is lost without the ledger ---------------------------------------------------

  function Settled(stamp: Stamp): Stamp {
    if stamp.Renamed? then Durable(stamp.version) else stamp
  }

  /** What a power loss leaves of an inode of which it takes nothing. */
  function Untouched(inode: Inode): Inode {
    match inode
    case Text(text, _) => Text(text, true)
    case Generation(tool, files, covered, stamp, epoch) =>
      Generation(tool, SyncedFiles(files), covered, Settled(stamp), epoch)
  }

  /** And of a generation of which it takes the bytes of one file. */
  function Torn(inode: Inode, f: string, bytes: string): Inode
    requires inode.Generation? && f in inode.files && !inode.files[f].synced
  {
    inode.(files := SyncedFiles(inode.files)[f := FileState(bytes, true)], stamp := Settled(inode.stamp))
  }

  lemma TornSurvives(inode: Inode, f: string, bytes: string)
    requires inode.Generation? && f in inode.files && !inode.files[f].synced
    ensures Survives(inode, Torn(inode, f, bytes))
  {
  }

  lemma UntouchedSurvives(inode: Inode)
    ensures Survives(inode, Untouched(inode))
  {
  }

  lemma KeepsEntries(dir: Dir)
    ensures Surviving(dir, Synced(dir)) && Entries(Synced(dir)) == Entries(dir)
  {
    var mask := seq(|dir.pending|, _ => true);
    AllKept(dir.pending, mask);
    SettledIs(Synced(dir));
  }

  /** Between writing the tree and the durability ledger, a power loss may leave any bytes
      in any file of it, even where it keeps every directory entry. */
  lemma WrittenCanBeLost(d: Disk, tool: Tool, c: Choice, f: string, bytes: string) returns (after: Disk)
    requires Succeeds(d, tool, WriteTree) && f in c.tree
    ensures PowerLoss(LegAct(d, tool, WriteTree, c), after) && HasGeneration(after, Building(tool))
    ensures f in At(after, Building(tool)).files && At(after, Building(tool)).files[f].bytes == bytes
  {
    hide ApplyOps, Survives, Surviving, Untouched;
    var now := LegAct(d, tool, WriteTree, c);
    var b := Entries(now.dir)[Building(tool)];
    TornSurvives(now.inodes[b], f, bytes);
    forall i | i in now.inodes ensures Survives(now.inodes[i], Untouched(now.inodes[i])) {
      UntouchedSurvives(now.inodes[i]);
    }
    KeepsEntries(now.dir);
    var inodes := map i | i in now.inodes ::
      if i == b then Torn(now.inodes[i], f, bytes) else Untouched(now.inodes[i]);
    after := Disk(inodes, Synced(now.dir));
  }
}
