/** Runs of the fresh-load tool from the empty directory that end in each of the unrooted
    directories, and the power losses after which no rerun follows. */
module FreshLoadCases {
  import opened GenerationDisk
  import opened GenerationSettling
  import opened GenerationUpgrade
  import opened FreshLoad
  import opened FreshLoadRuns
  import opened FreshLoadSafety

  lemma {:induction false} RunThen(s: LoadState, run: seq<LoadEvent>, ev: LoadEvent)
    requires LoadRun(s, run) && LoadAllowed(LoadEnd(s, run), ev)
    ensures LoadRun(s, run + [ev]) && LoadEnd(s, run + [ev]) == LoadAfter(LoadEnd(s, run), ev)
    decreases |run|
  {
    hide LoadAllowed, LoadAfter;
    if run == [] {
      assert run + [ev] == [ev] && [ev][1..] == [];
      assert LoadRun(LoadAfter(s, ev), []);
    } else {
      RunThen(LoadAfter(s, run[0]), run[1..], ev);
      assert (run + [ev])[1..] == run[1..] + [ev];
    }
  }

  lemma ReachThen(s: LoadState, ev: LoadEvent)
    requires LoadReachable(s) && LoadAllowed(s, ev)
    ensures LoadReachable(LoadAfter(s, ev))
  {
    hide LoadAllowed, LoadAfter, LoadInit, LoadRun, LoadEnd;
    var run :| LoadRun(LoadInit(), run) && LoadEnd(LoadInit(), run) == s;
    RunThen(LoadInit(), run, ev);
  }

  /** No act before the temporary file is created makes one. */
  lemma NoTmpYet(d: Disk, at: LegStep, c: Choice)
    requires 6 <= Rung(at) < 14 && StepSucceeds(d, Commit(at)) && !Has(d, CurrentTmp)
    ensures !Has(StepAct(d, Commit(at), c), CurrentTmp)
  {
    hide Possible, Certain, CurrentText, ApplyOps;
    var d' := LegAct(d, L, at, c);
    if d'.dir == Synced(d.dir) {
      SettledIs(d'.dir);
    } else if d'.dir != d.dir {
      ThenIs(d.dir, Last(d'.dir));
    }
  }

  /** Let the tool run on, without interruption, up to a later act. */
  lemma {:induction false} RunUpTo(s: LoadState, at: LegStep) returns (e: LoadState)
    requires LoadReachable(s) && s.phase.Loading? && s.phase.step.Commit? && Rung(s.phase.step.at) <= Rung(at)
    requires at != SyncDropped && (Rung(at) <= 14 ==> !Has(s.disk, CurrentTmp))
    ensures LoadReachable(e) && e.phase == Loading(Commit(at))
    ensures Rung(at) <= 14 ==> !Has(e.disk, CurrentTmp)
    ensures Rung(s.phase.step.at) >= 18 ==> e.disk.dir == s.disk.dir
    decreases 20 - Rung(s.phase.step.at)
  {
    hide LCore, CommitPlace, StepAct, StepSucceeds, LoadReachable, LegAct, Succeeds;
    LReachableInv(s);
    var step := s.phase.step;
    if step.at == at {
      e := s;
    } else {
      var spare := SpareBound(s.disk.inodes.Keys);
      var c := Choice(spare, map[], false, {}, false);
      LStep(s.disk, step, c);
      CertainStays(s.disk, step, c);
      CommitOnly(s.disk, step);
      ReachThen(s, LoadAct(c));
      Onwards(s.disk, step.at, at, c);
      if Rung(at) <= 14 { NoTmpYet(s.disk, step.at, c); }
      e := RunUpTo(LoadAfter(s, LoadAct(c)), at);
    }
  }

  /** The next act is at or before the one aimed for. */
  lemma Onwards(d: Disk, from: LegStep, at: LegStep, c: Choice)
    requires 6 <= Rung(from) < Rung(at) && !c.more
    requires at != SyncDropped && (Rung(at) <= 14 ==> !Has(d, CurrentTmp))
    ensures var next := StepNext(d, Commit(from), c);
      next.Loading? && next.step.Commit? && Rung(from) < Rung(next.step.at) <= Rung(at)
  {
    hide ApplyOps;
  }

  /** The first run of all, under way. */
  lemma FirstRun() returns (s: LoadState)
    ensures LoadReachable(s) && s.phase == Loading(Commit(CreateBuilding)) && !Has(s.disk, CurrentTmp)
  {
    hide Possible, Certain, ApplyOps, Locked, LCore;
    var init := LoadInit();
    assert LoadRun(init, []) && LoadEnd(init, []) == init;
    assert LoadReachable(init);
    EmptyIsFirm();
    EmptyIsVirgin();
    ReachThen(init, StartLoad(0));
    LLock(init.disk, 0);
    s := LoadAfter(init, StartLoad(0));
  }

  lemma EmptyIsVirgin()
    ensures Classify(LoadInit().disk) == Virgin && !Has(LoadInit().disk, CurrentTmp)
  {
    SettledIs(LoadInit().disk.dir);
  }

  /** Killed between the rename that publishes the generation and its fsync. */
  lemma KilledPublishing() returns (s: LoadState)
    ensures LoadReachable(s) && s.phase == Quiet && !Stuck(s.disk) && Classify(s.disk) == CommittedUnselected
    ensures !Certain(s.disk.dir, Final(L)) && !Has(s.disk, CurrentTmp)
  {
    hide Possible, Certain, ApplyOps, LCore, Stuck, Classify, LoadReachable;
    var first := FirstRun();
    var running := RunUpTo(first, SyncPublished);
    LReachableInv(running);
    ReachThen(running, Killed);
    s := LoadAfter(running, Killed);
    ClassifyIs(s.disk);
    StuckIff(s.disk);
  }

  /** Killed between the rename of CURRENT and its fsync. */
  lemma KilledSelecting() returns (s: LoadState)
    ensures LoadReachable(s) && s.phase == Quiet && !Stuck(s.disk) && Classify(s.disk) == SelectedUnstamped
    ensures !Certain(s.disk.dir, CurrentFile)
  {
    hide Possible, Certain, ApplyOps, LCore, Stuck, Classify, LoadReachable;
    var first := FirstRun();
    var running := RunUpTo(first, SyncCurrent);
    LReachableInv(running);
    ReachThen(running, Killed);
    s := LoadAfter(running, Killed);
    ClassifyIs(s.disk);
    StuckIff(s.disk);
  }

  /** ... and then run again to its end: loaded, over a CURRENT that was never synced. */
  lemma LoadedUnsynced() returns (s: LoadState)
    ensures LoadReachable(s) && s.phase == Quiet && !Stuck(s.disk) && Classify(s.disk) == AlreadyLoaded
    ensures !Firm(s.disk)
  {
    hide Possible, Certain, ApplyOps, LCore, Stuck, Classify, LoadReachable, CommitPlace, Locked;
    var killed := KilledSelecting();
    LReachableInv(killed);
    var spare := SpareBound(killed.disk.inodes.Keys);
    ReachThen(killed, StartLoad(spare));
    LLock(killed.disk, spare);
    var running := RunUpTo(LoadAfter(killed, StartLoad(spare)), StampSync);
    s := Stamps(running);
    StampedIs(s.disk);
  }

  lemma Stamps(running: LoadState) returns (s: LoadState)
    requires LoadReachable(running) && running.phase == Loading(Commit(StampSync))
    ensures LoadReachable(s) && s.phase == Quiet && s.disk.dir == running.disk.dir
    ensures Has(s.disk, CurrentFile) && Has(s.disk, Final(L)) && Stamped(s.disk, Final(L))
  {
    hide Possible, Certain, ApplyOps, LCore, LoadReachable;
    LReachableInv(running);
    var spare := SpareBound(running.disk.inodes.Keys);
    var c := Choice(spare, map[], false, {}, false);
    LStep(running.disk, Commit(StampSync), c);
    ReachThen(running, LoadAct(c));
    s := LoadAfter(running, LoadAct(c));
  }

  lemma StampedIs(d: Disk)
    requires exists s :: LoadReachable(s) && s.disk == d
    requires Has(d, CurrentFile) && Has(d, Final(L)) && Stamped(d, Final(L))
    ensures Classify(d) == AlreadyLoaded && !Stuck(d)
    ensures !Certain(d.dir, CurrentFile) ==> !Firm(d)
  {
    hide LCore, Possible, Certain, ApplyOps, Classify, Stuck, LoadReachable;
    var s :| LoadReachable(s) && s.disk == d;
    LReachableInv(s);
    ClassifyIs(d);
    StuckIff(d);
  }

  /** Each failing half of the condition is met by a run from the empty directory: a kill in
      the first window, and the rerun's CURRENT outlives its generation; a kill in the
      second, and the rerun's VERSION outlives CURRENT; and that rerun completed, and lost. */
  lemma RerunsCanStick() returns (swap: LoadState, stamp: LoadState, loaded: LoadState)
    ensures LoadReachable(swap) && Classify(swap.disk) == CommittedUnselected && !Rooted(swap.disk)
    ensures exists spare, cs, after :: CanGetStuck(swap, spare, cs, after)
    ensures LoadReachable(stamp) && Classify(stamp.disk) == SelectedUnstamped && !Rooted(stamp.disk)
    ensures exists spare, cs, after :: CanGetStuck(stamp, spare, cs, after)
    ensures LoadReachable(loaded) && Classify(loaded.disk) == AlreadyLoaded && !Rooted(loaded.disk)
    ensures exists spare, cs, after :: CanGetStuck(loaded, spare, cs, after)
  {
    hide LCore, Possible, Certain, ApplyOps, Classify, Stuck, LoadReachable, CanGetStuck, StepFacts;
    swap := KilledPublishing();
    LReachableInv(swap);
    var spare, cs, after := UnrootedSwap(swap);
    stamp := KilledSelecting();
    LReachableInv(stamp);
    spare, cs, after := UnrootedStamp(stamp);
    loaded := LoadedUnsynced();
    LReachableInv(loaded);
    spare, cs, after := UnfirmStart(loaded);
    ClassifyIs(loaded.disk);
  }
}
