/** When a rerun of the fresh-load tool is safe from power losses: exactly when it starts
    rooted, over every run before it. */
module FreshLoadSafety {
  import opened GenerationDisk
  import opened GenerationSettling
  import opened GenerationUpgrade
  import opened FreshLoad
  import opened FreshLoadRuns

  // ---- the acts of one rerun ----------------------------------------------------------

  ghost predicate Acts(s: LoadState, cs: seq<Choice>)
    decreases |cs|
  {
    cs != [] ==> LoadAllowed(s, LoadAct(cs[0])) && Acts(LoadAfter(s, LoadAct(cs[0])), cs[1..])
  }

  ghost function ActsEnd(s: LoadState, cs: seq<Choice>): LoadState
    requires Acts(s, cs)
    decreases |cs|
  {
    if cs == [] then s else ActsEnd(LoadAfter(s, LoadAct(cs[0])), cs[1..])
  }

  /** Some power loss during a rerun from here leaves a directory no rerun can use. */
  ghost predicate CanGetStuck(s: LoadState, spare: nat, cs: seq<Choice>, after: Disk) {
    && LoadAllowed(s, StartLoad(spare))
    && Acts(LoadAfter(s, StartLoad(spare)), cs)
    && PowerLoss(ActsEnd(LoadAfter(s, StartLoad(spare)), cs).disk, after)
    && Stuck(after)
  }

  lemma {:induction false} ActsKeep(s: LoadState, cs: seq<Choice>)
    requires LInv(s) && Acts(s, cs)
    ensures LInv(ActsEnd(s, cs))
    decreases |cs|
  {
    hide LCore, StepFacts, StepAct, StepNext, StepSucceeds;
    if cs == [] {
    } else {
      LStep(s.disk, s.phase.step, cs[0]);
      ActsKeep(LoadAfter(s, LoadAct(cs[0])), cs[1..]);
    }
  }

  // ---- the firm invariant ----------------------------------------------------------------

  ghost predicate FirmFacts(d: Disk, step: Step) {
    step.Commit? ==>
      var r := Rung(step.at);
      && (r == 12 ==> Certain(d.dir, Final(L)) || Has(d, CurrentTmp))
      && (r >= 14 ==> Certain(d.dir, Final(L)))
      && (r >= 18 ==> Certain(d.dir, CurrentFile))
  }

  ghost predicate FirmInv(s: LoadState) {
    && LInv(s) && Firm(s.disk)
    && (s.phase.Loading? ==> FirmFacts(s.disk, s.phase.step))
  }

  /** No act makes the generation or CURRENT doubtful again, and an fsync of the root
      ends all doubt. */
  lemma CertainStays(d: Disk, step: Step, c: Choice)
    requires LCore(d) && StepFacts(d, step) && StepSucceeds(d, step)
    ensures var d' := StepAct(d, step, c);
      && (Certain(d.dir, Final(L)) ==> Certain(d'.dir, Final(L)))
      && (Certain(d.dir, CurrentFile) ==> Certain(d'.dir, CurrentFile))
      && (step.Commit? && (step.at.SyncPublished? || step.at.SyncDropped? || step.at.SyncCurrent?) ==>
           forall n :: Has(d, n) ==> Certain(d'.dir, n))
      && (step.Commit? && Rung(step.at) >= 18 ==> d'.dir == d.dir)
  {
    hide LTyped, Exclusive, Once, CurrentText, ApplyOps, Possible, Certain;
    CachedIsPossible(d.dir, Final(L));
    CachedIsPossible(d.dir, CurrentFile);
    var d' := StepAct(d, step, c);
    if d'.dir == Synced(d.dir) {
      SettledIs(d'.dir);
    } else if d'.dir != d.dir {
      var op := Last(d'.dir);
      assert d'.dir == Then(d.dir, op) && !Drops(op, Final(L)) && !Drops(op, CurrentFile);
      ThenIs(d.dir, op);
    }
  }

  lemma FirmStep(d: Disk, step: Step, c: Choice)
    requires FirmInv(LoadState(d, Loading(step))) && c.spare !in d.inodes
    ensures StepSucceeds(d, step) && FirmInv(LoadState(StepAct(d, step, c), StepNext(d, step, c)))
  {
    hide LCore, ApplyOps, Possible, Certain, StepAct, StepSucceeds, CurrentText;
    LStep(d, step, c);
    CertainStays(d, step, c);
  }

  lemma FirmStart(s: LoadState, spare: nat)
    requires LInv(s) && LoadAllowed(s, StartLoad(spare)) && Rooted(s.disk)
    ensures FirmInv(LoadAfter(s, StartLoad(spare)))
  {
    hide Possible, Certain, ApplyOps, LCore, CurrentText, Classify, Stuck, Locked;
    LStart(s, spare);
    LLock(s.disk, spare);
    ClassifyIs(s.disk);
    StuckIff(s.disk);
  }

  lemma {:induction false} FirmActs(s: LoadState, cs: seq<Choice>)
    requires FirmInv(s) && Acts(s, cs)
    ensures FirmInv(ActsEnd(s, cs))
    decreases |cs|
  {
    hide FirmInv, StepAct, StepNext, StepSucceeds;
    if cs == [] {
    } else {
      FirmStep(s.disk, s.phase.step, cs[0]);
      FirmActs(LoadAfter(s, LoadAct(cs[0])), cs[1..]);
    }
  }

  lemma RootedIsSafe(s: LoadState, spare: nat, cs: seq<Choice>, after: Disk)
    requires LInv(s) && Rooted(s.disk)
    ensures !CanGetStuck(s, spare, cs, after)
  {
    hide LCore, StepFacts, FirmFacts, PowerLoss, Stuck, Rooted, FirstStep, Locked;
    if CanGetStuck(s, spare, cs, after) {
      FirmStart(s, spare);
      FirmActs(LoadAfter(s, StartLoad(spare)), cs);
      FirmLoss(ActsEnd(LoadAfter(s, StartLoad(spare)), cs).disk, after);
    }
  }

  // ---- runs whose every start is rooted ----------------------------------------------------

  ghost predicate RootedStarts(s: LoadState, run: seq<LoadEvent>)
    requires LoadRun(s, run)
    decreases |run|
  {
    run != [] ==> (run[0].StartLoad? ==> Rooted(s.disk)) && RootedStarts(LoadAfter(s, run[0]), run[1..])
  }

  lemma {:induction false} FirmRun(s: LoadState, run: seq<LoadEvent>)
    requires FirmInv(s) && LoadRun(s, run) && RootedStarts(s, run)
    ensures FirmInv(LoadEnd(s, run))
    decreases |run|
  {
    hide LCore, StepFacts, FirmFacts, PowerLoss, Stuck, Rooted, StepAct, StepNext, StepSucceeds, FirstStep, Locked;
    if run == [] {
    } else {
      match run[0] {
        case StartLoad(spare) => FirmStart(s, spare);
        case FailLoad(spare) => LLock(s.disk, spare);
        case LoadAct(c) => FirmStep(s.disk, s.phase.step, c);
        case Killed =>
        case PowerCut(after) => FirmLoss(s.disk, after);
      }
      FirmRun(LoadAfter(s, run[0]), run[1..]);
    }
  }

  /** However runs of the tool are cut, if each starts rooted, no rerun ever fails:
      neither on the directory they leave nor after any power loss. */
  lemma NeverStuck(run: seq<LoadEvent>, after: Disk)
    requires LoadRun(LoadInit(), run) && RootedStarts(LoadInit(), run)
    requires PowerLoss(LoadEnd(LoadInit(), run).disk, after)
    ensures !Stuck(LoadEnd(LoadInit(), run).disk) && !Stuck(after)
  {
    hide LCore, StepFacts, FirmFacts, PowerLoss, Stuck;
    assert FirmInv(LoadInit()) by { EmptyIsFirm(); }
    FirmRun(LoadInit(), run);
    var d := LoadEnd(LoadInit(), run).disk;
    CachedIsPossible(d.dir, Final(L));
    CachedIsPossible(d.dir, CurrentFile);
    StuckIff(d);
    FirmLoss(d, after);
  }

  lemma EmptyIsFirm()
    ensures FirmInv(LoadInit())
  {
    SettledIs(LoadInit().disk.dir);
  }

  // ---- why a rerun must start rooted ----------------------------------------------------------

  lemma ActsCons(s: LoadState, c: Choice, rest: seq<Choice>)
    requires LoadAllowed(s, LoadAct(c)) && Acts(LoadAfter(s, LoadAct(c)), rest)
    ensures Acts(s, [c] + rest) && ActsEnd(s, [c] + rest) == ActsEnd(LoadAfter(s, LoadAct(c)), rest)
  {
  }

  lemma EndsHere(s: LoadState)
    ensures Acts(s, []) && ActsEnd(s, []) == s
  {
  }

  /** A rerun that passes through an unfirm directory can be cut so that none follows. */
  lemma StickBy(s: LoadState, spare: nat, cs: seq<Choice>) returns (after: Disk)
    requires LInv(s) && LoadAllowed(s, StartLoad(spare)) && Acts(LoadAfter(s, StartLoad(spare)), cs)
    requires !Firm(ActsEnd(LoadAfter(s, StartLoad(spare)), cs).disk)
    ensures CanGetStuck(s, spare, cs, after)
  {
    hide LCore, StepFacts, Firm, PowerLoss, Stuck, Locked, FirstStep, Acts, ActsEnd;
    LStart(s, spare);
    ActsKeep(LoadAfter(s, StartLoad(spare)), cs);
    after := UnfirmLoss(ActsEnd(LoadAfter(s, StartLoad(spare)), cs).disk);
  }

  /** The tool can start on an unfirm directory; the loss need not wait for its acts. */
  lemma UnfirmStart(s: LoadState) returns (spare: nat, cs: seq<Choice>, after: Disk)
    requires LInv(s) && s.phase == Quiet && !Stuck(s.disk) && !Firm(s.disk)
    ensures CanGetStuck(s, spare, cs, after)
  {
    hide LCore, StepFacts, PowerLoss, Stuck, Locked, FirstStep;
    spare := SpareBound(s.disk.inodes.Keys);
    cs := [];
    LLock(s.disk, spare);
    EndsHere(LoadAfter(s, StartLoad(spare)));
    after := StickBy(s, spare, cs);
  }

  lemma StampActs(s: LoadState, c: Choice) returns (cs: seq<Choice>)
    requires s.phase == Loading(Commit(StampRename)) && HasGeneration(s.disk, Final(L)) && c.spare !in s.disk.inodes
    ensures Acts(s, cs)
    ensures ActsEnd(s, cs).disk.dir == s.disk.dir && Stamped(ActsEnd(s, cs).disk, Final(L))
  {
    hide ApplyOps, Acts, ActsEnd;
    var next := LoadAfter(s, LoadAct(c));
    EndsHere(next);
    ActsCons(s, c, []);
    cs := [c] + [];
  }

  /** VERSION stamped while the CURRENT rename is still pending: a power loss can
      keep VERSION and lose CURRENT, and no rerun accepts that. */
  lemma UnrootedStamp(s: LoadState) returns (spare: nat, cs: seq<Choice>, after: Disk)
    requires LInv(s) && s.phase == Quiet && Classify(s.disk) == SelectedUnstamped && !Certain(s.disk.dir, CurrentFile)
    ensures CanGetStuck(s, spare, cs, after)
  {
    hide Possible, Certain, ApplyOps, LTyped, Exclusive, CurrentText, Stuck, Classify, PowerLoss, Locked, Acts, ActsEnd;
    var d := s.disk;
    ClassifyIs(d);
    StuckIff(d);
    FinalFits(d);
    spare := SpareBound(d.inodes.Keys);
    LLock(d, spare);
    cs := StampActs(LoadAfter(s, StartLoad(spare)), Choice(spare + 1, map[], false, {}, false));
    after := StickBy(s, spare, cs);
  }

  lemma TmpActs(s: LoadState, c: Choice) returns (end: LoadState)
    requires s.phase == Loading(Commit(DropStaleTmp)) && !Has(s.disk, CurrentTmp) && c.spare !in s.disk.inodes
    ensures LoadAllowed(s, LoadAct(c)) && LoadAllowed(LoadAfter(s, LoadAct(c)), LoadAct(c))
    ensures end == LoadAfter(LoadAfter(s, LoadAct(c)), LoadAct(c))
    ensures end.phase == Loading(Commit(WriteTmp)) && end.disk.dir == Then(s.disk.dir, Link(CurrentTmp, c.spare))
    ensures Has(end.disk, CurrentTmp) && Entries(end.disk.dir)[CurrentTmp] == c.spare
    ensures end.disk.inodes.Keys == s.disk.inodes.Keys + {c.spare}
  {
    hide ApplyOps;
    var s1 := LoadAfter(s, LoadAct(c));
    assert s1 == LoadState(s.disk, Loading(Commit(CreateTmp)));
    end := LoadAfter(s1, LoadAct(c));
    ThenIs(s.disk.dir, Link(CurrentTmp, c.spare));
  }

  lemma WriteSwapActs(s: LoadState, c: Choice) returns (mid: LoadState)
    requires s.phase == Loading(Commit(WriteTmp)) && Has(s.disk, CurrentTmp) && c.spare !in s.disk.inodes
    requires Entries(s.disk.dir)[CurrentTmp] in s.disk.inodes
    ensures LoadAllowed(s, LoadAct(c)) && mid == LoadAfter(s, LoadAct(c)) && LoadAllowed(mid, LoadAct(c))
    ensures mid.disk.dir == s.disk.dir
    ensures LoadAfter(mid, LoadAct(c)).disk.dir ==
      Then(s.disk.dir, Rename(CurrentTmp, CurrentFile, Entries(s.disk.dir)[CurrentTmp]))
  {
    hide ApplyOps, CurrentText;
    mid := LoadAfter(s, LoadAct(c));
  }

  /** A resumed commit up to the CURRENT rename: nothing is fsynced on the way. */
  lemma SwapActs(s: LoadState, c: Choice) returns (cs: seq<Choice>)
    requires s.phase == Loading(Commit(DropStaleTmp)) && !Has(s.disk, CurrentTmp)
    requires c.spare !in s.disk.inodes && c.spare + 1 !in s.disk.inodes
    ensures Acts(s, cs)
    ensures var d := ActsEnd(s, cs).disk; d.dir.durable == s.disk.dir.durable && Has(d, CurrentFile)
  {
    hide ApplyOps, Acts, ActsEnd;
    var next := c.(spare := c.spare + 1);
    hide LoadAllowed, LoadAfter;
    var s2 := TmpActs(s, c);
    var s3 := WriteSwapActs(s2, next);
    var end := LoadAfter(s3, LoadAct(next));
    ThenIs(s2.disk.dir, Rename(CurrentTmp, CurrentFile, c.spare));
    EndsHere(end);
    ActsCons(s3, next, []);
    ActsCons(s2, next, [next] + []);
    ActsCons(LoadAfter(s, LoadAct(c)), c, [next] + ([next] + []));
    ActsCons(s, c, [c] + ([next] + ([next] + [])));
    cs := [c] + ([c] + ([next] + ([next] + [])));
  }

  /** CURRENT renamed while the rename of the generation is still pending: a
      power loss can keep the first and lose the second. */
  lemma UnrootedSwap(s: LoadState) returns (spare: nat, cs: seq<Choice>, after: Disk)
    requires LInv(s) && s.phase == Quiet && !Stuck(s.disk) && Classify(s.disk) == CommittedUnselected
    requires !Certain(s.disk.dir, Final(L)) && !Has(s.disk, CurrentTmp)
    ensures CanGetStuck(s, spare, cs, after)
  {
    hide Possible, Certain, ApplyOps, LTyped, CurrentText, Stuck, Classify, PowerLoss, Locked, Acts, ActsEnd;
    var d := s.disk;
    NeverBothCached(d.dir, Building(L), Final(L));
    ClassifyIs(d);
    spare := SpareBound(d.inodes.Keys);
    LLock(d, spare);
    var started := LoadAfter(s, StartLoad(spare));
    cs := SwapActs(started, Choice(spare + 1, map[], false, {}, false));
    LStart(s, spare);
    ActsKeep(started, cs);
    after := StickBy(s, spare, cs);
  }

  /** Over every run before it: a rerun that can start is safe from every power loss
      exactly when it starts rooted. */
  lemma SafeIffRooted(s: LoadState)
    requires LoadReachable(s) && s.phase == Quiet && !Stuck(s.disk)
    ensures Rooted(s.disk) <==> forall spare, cs, after :: !CanGetStuck(s, spare, cs, after)
  {
    hide LCore, StepFacts, Classify, Stuck, CanGetStuck, Certain, ApplyOps;
    LReachableInv(s);
    ClassifyIs(s.disk);
    if Rooted(s.disk) {
      forall spare, cs, after ensures !CanGetStuck(s, spare, cs, after) { RootedIsSafe(s, spare, cs, after); }
    } else if Classify(s.disk) == CommittedUnselected {
      var spare, cs, after := UnrootedSwap(s);
    } else if Firm(s.disk) {
      var spare, cs, after := UnrootedStamp(s);
    } else {
      var spare, cs, after := UnfirmStart(s);
    }
  }

  /** A rerun that starts rooted and is killed leaves an unrooted directory exactly in
      three windows: after the rename that publishes the generation, after the removal of
      a stale temporary file over such a rename, and after the rename of CURRENT - each
      until the fsync that follows. */
  lemma UnrootedWindows(s: LoadState, spare: nat, cs: seq<Choice>)
    requires LoadReachable(s) && LoadAllowed(s, StartLoad(spare)) && Rooted(s.disk)
    requires Acts(LoadAfter(s, StartLoad(spare)), cs)
    requires ActsEnd(LoadAfter(s, StartLoad(spare)), cs).phase.Loading?
    ensures var e := ActsEnd(LoadAfter(s, StartLoad(spare)), cs);
      Rooted(e.disk) <==>
        && (e.phase.step == Commit(SyncPublished) ==> Has(e.disk, CurrentTmp))
        && (e.phase.step == Commit(SyncDropped) ==> Certain(e.disk.dir, Final(L)))
        && e.phase.step != Commit(SyncCurrent)
  {
    hide LCore, Possible, Certain, ApplyOps, CurrentText, Classify, Stuck, Rooted, Locked, FirstStep, Acts, ActsEnd;
    LReachableInv(s);
    FirmStart(s, spare);
    FirmActs(LoadAfter(s, StartLoad(spare)), cs);
    WindowIs(ActsEnd(LoadAfter(s, StartLoad(spare)), cs));
  }

  lemma WindowIs(e: LoadState)
    requires FirmInv(e) && e.phase.Loading?
    ensures Rooted(e.disk) <==>
      && (e.phase.step == Commit(SyncPublished) ==> Has(e.disk, CurrentTmp))
      && (e.phase.step == Commit(SyncDropped) ==> Certain(e.disk.dir, Final(L)))
      && e.phase.step != Commit(SyncCurrent)
  {
    hide Possible, Certain, ApplyOps, LCore, CurrentText, Classify;
    ClassifyIs(e.disk);
  }
}
