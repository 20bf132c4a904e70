/** An uninterrupted rerun of the fresh-load tool is never blocked and ends with the load
    committed, whatever runs came before; and when that commit lasts. */
module FreshLoadCompletion {
  import opened GenerationDisk
  import opened GenerationSettling
  import opened GenerationUpgrade
  import opened FreshLoad
  import opened FreshLoadRuns
  import opened FreshLoadSafety

  // ---- when a commit lasts ------------------------------------------------------------

  /** Loaded, whatever a power loss keeps. */
  ghost predicate Lasting(d: Disk) {
    forall after :: PowerLoss(d, after) ==> Classify(after) == AlreadyLoaded
  }

  ghost predicate Settled(d: Disk) {
    && Certain(d.dir, Final(L)) && Certain(d.dir, CurrentFile)
    && HasGeneration(d, Final(L)) && At(d, Final(L)).stamp.Durable?
  }

  lemma SettledSurvives(d: Disk, after: Disk)
    requires LCore(d) && Settled(d) && PowerLoss(d, after)
    ensures Classify(after) == AlreadyLoaded
  {
    LossSettles(d, after);
    LSettle(d, after);
    SettledIs(after.dir);
    assert after.dir.durable[Final(L)] in Possible(d.dir, Final(L));
    ClassifyIs(after);
  }

  /** What was not fsynced can be lost, and then the load is not committed. */
  lemma UnsettledFalls(d: Disk) returns (after: Disk)
    requires LCore(d) && Classify(d) == AlreadyLoaded && !Settled(d)
    ensures PowerLoss(d, after) && Classify(after) != AlreadyLoaded
  {
    hide Possible, ApplyOps, LTyped, Exclusive, Kept, PowerLoss;
    ClassifyIs(d);
    var mask := KeepNone(d);
    after := Fall(d, mask, false);
    FallIsLoss(d, mask, false);
    SettledIs(after.dir);
    if Certain(d.dir, Final(L)) { DurableIsPossible(d.dir, Final(L)); }
  }

  lemma LastingIffSettled(d: Disk)
    requires LCore(d) && Classify(d) == AlreadyLoaded
    ensures Lasting(d) <==> Settled(d)
  {
    hide LCore, Classify, Settled, PowerLoss;
    if Settled(d) {
      forall after | PowerLoss(d, after) ensures Classify(after) == AlreadyLoaded { SettledSurvives(d, after); }
    } else {
      var after := UnsettledFalls(d);
    }
  }

  /** Where a rerun from this directory leads: it fsyncs all it builds on, except what it
      finds already named by CURRENT, and it changes nothing that is already loaded. */
  ghost predicate EndsLasting(d: Disk) {
    match Classify(d)
    case SelectedUnstamped => Certain(d.dir, Final(L)) && Certain(d.dir, CurrentFile)
    case AlreadyLoaded => Settled(d)
    case _ => true
  }

  // ---- an uninterrupted rerun -------------------------------------------------------------

  /** How many of these choices let the build or the wipe go on. */
  function Mores(cs: seq<Choice>): nat {
    if cs == [] then 0 else (if cs[0].more then 1 else 0) + Mores(cs[1..])
  }

  function Place(phase: LoadPhase): (p: nat)
    ensures p <= 20
  {
    match phase
    case Quiet => 20
    case Loading(WipeBuilding) => 7
    case Loading(Commit(at)) => Rung(at)
    case _ => 0
  }

  lemma PlaceRises(s: LoadState, c: Choice)
    requires LInv(s) && LoadAllowed(s, LoadAct(c))
    ensures var next := LoadAfter(s, LoadAct(c));
      Place(next.phase) >= Place(s.phase) + (if c.more then 0 else 1)
  {
    hide LCore, StepAct;
  }

  /** What is known once the stamp is next: both entries are certain exactly if the rerun
      leads to a lasting commit. */
  ghost predicate Heads(was: Disk, s: LoadState) {
    && (Classify(was) == SelectedUnstamped ==> Place(s.phase) >= 18)
    && (Place(s.phase) >= 18 ==>
         (Certain(s.disk.dir, Final(L)) && Certain(s.disk.dir, CurrentFile) <==> EndsLasting(was)))
    && (s.phase == Quiet ==>
         && Has(s.disk, CurrentFile) && HasGeneration(s.disk, Final(L)) && At(s.disk, Final(L)).stamp.Durable?)
  }

  lemma HeadsStart(s: LoadState, spare: nat)
    requires LInv(s) && LoadAllowed(s, StartLoad(spare)) && Classify(s.disk) != AlreadyLoaded
    ensures Heads(s.disk, LoadAfter(s, StartLoad(spare)))
  {
    hide LCore, Possible, Certain, ApplyOps, CurrentText, Classify, Locked;
    LLock(s.disk, spare);
    ClassifyIs(s.disk);
    NeverBothHere(s.disk);
  }

  lemma NeverBothHere(d: Disk)
    requires LCore(d)
    ensures !(Has(d, Building(L)) && Has(d, Final(L)))
  {
    NeverBothCached(d.dir, Building(L), Final(L));
  }

  lemma HeadsAct(was: Disk, s: LoadState, c: Choice)
    requires LInv(s) && LoadAllowed(s, LoadAct(c)) && Heads(was, s) && Classify(was) != AlreadyLoaded
    ensures Heads(was, LoadAfter(s, LoadAct(c)))
  {
    hide LCore, Possible, Certain, ApplyOps, CurrentText, Classify;
    CertainStays(s.disk, s.phase.step, c);
  }

  lemma {:induction false} HeadsActs(was: Disk, s: LoadState, cs: seq<Choice>)
    requires LInv(s) && Acts(s, cs) && Heads(was, s) && Classify(was) != AlreadyLoaded
    ensures LInv(ActsEnd(s, cs)) && Heads(was, ActsEnd(s, cs))
    ensures Place(ActsEnd(s, cs).phase) + Mores(cs) >= Place(s.phase) + |cs|
    decreases |cs|
  {
    hide LCore, Classify, Heads, StepFacts, StepAct, StepSucceeds, StepNext;
    if cs == [] {
    } else {
      LStep(s.disk, s.phase.step, cs[0]);
      HeadsAct(was, s, cs[0]);
      PlaceRises(s, cs[0]);
      HeadsActs(was, LoadAfter(s, LoadAct(cs[0])), cs[1..]);
    }
  }

  /** Where an uninterrupted rerun stands: it can go on whatever the environment decides,
      or it is done, with the load committed - for good exactly as foretold. */
  ghost predicate GoesOn(was: Disk, s: LoadState) {
    && !Stuck(s.disk)
    && (s.phase.Loading? ==> forall c: Choice :: c.spare !in s.disk.inodes ==> LoadAllowed(s, LoadAct(c)))
    && (s.phase == Quiet ==> Classify(s.disk) == AlreadyLoaded && (Lasting(s.disk) <==> EndsLasting(was)))
  }

  lemma HeadsGoesOn(was: Disk, s: LoadState)
    requires LInv(s) && Heads(was, s)
    ensures GoesOn(was, s)
  {
    hide Possible, Certain, ApplyOps, LCore, CurrentText, Classify, Stuck, Lasting, EndsLasting, PowerLoss;
    ClassifyIs(s.disk);
    StuckIff(s.disk);
    if s.phase == Quiet {
      LastingIffSettled(s.disk);
    } else {
      forall c: Choice | c.spare !in s.disk.inodes ensures LoadAllowed(s, LoadAct(c)) {
        LStep(s.disk, s.phase.step, c);
      }
    }
  }

  lemma LoadedStays(s: LoadState, spare: nat)
    requires LInv(s) && LoadAllowed(s, StartLoad(spare)) && Classify(s.disk) == AlreadyLoaded
    ensures LoadAfter(s, StartLoad(spare)).phase == Quiet && GoesOn(s.disk, LoadAfter(s, StartLoad(spare)))
  {
    hide Possible, Certain, ApplyOps, LCore, CurrentText, Classify, Stuck, Lasting, PowerLoss, Locked;
    var d1 := Locked(s.disk, spare);
    LLock(s.disk, spare);
    ClassifyIs(s.disk);
    StuckIff(s.disk);
    ClassifyIs(d1);
    StuckIff(d1);
    LastingIffSettled(d1);
  }

  /** Kill the tool and run it again without interruption: on any directory that earlier
      runs left, unless a power loss made it unusable, that rerun is never blocked, takes
      at most fourteen acts besides those the build chooses to repeat, and ends with the
      load committed; the commit outlasts every power loss exactly if EndsLasting says so
      of the directory the rerun started on. */
  lemma LoadCompletes(s: LoadState, spare: nat, cs: seq<Choice>)
    requires LoadReachable(s) && !Stuck(s.disk) && spare !in s.disk.inodes
    ensures var killed := s.(phase := Quiet);
      && LoadAllowed(s, Killed) && LoadAfter(s, Killed) == killed && LoadAllowed(killed, StartLoad(spare))
      && var started := LoadAfter(killed, StartLoad(spare));
         Acts(started, cs) ==> |cs| <= 14 + Mores(cs) && GoesOn(s.disk, ActsEnd(started, cs))
  {
    hide LCore, StepFacts, Stuck, Classify, GoesOn, Locked, Heads, FirstStep, Place, Acts, ActsEnd;
    LReachableInv(s);
    var killed := s.(phase := Quiet);
    LStart(killed, spare);
    var started := LoadAfter(killed, StartLoad(spare));
    if !Acts(started, cs) {
    } else if Classify(s.disk) == AlreadyLoaded {
      LoadedStays(killed, spare);
      NoActs(started, cs);
    } else {
      HeadsStart(killed, spare);
      HeadsActs(s.disk, started, cs);
      HeadsGoesOn(s.disk, ActsEnd(started, cs));
      StartsLate(killed.disk);
    }
  }

  lemma NoActs(s: LoadState, cs: seq<Choice>)
    requires s.phase == Quiet && Acts(s, cs)
    ensures cs == [] && ActsEnd(s, cs) == s
  {
  }

  lemma StartsLate(d: Disk)
    requires LCore(d) && !Stuck(d)
    ensures Place(FirstStep(d)) >= 6
  {
    NeverBothHere(d);
  }

  /** With kills only, from the empty directory on, every rerun can start. */
  lemma KillsAlwaysComplete(run: seq<LoadEvent>, spare: nat, cs: seq<Choice>)
    requires LoadRun(LoadInit(), run) && forall k :: 0 <= k < |run| ==> !run[k].PowerCut?
    requires spare !in LoadEnd(LoadInit(), run).disk.inodes
    ensures var killed := LoadEnd(LoadInit(), run).(phase := Quiet);
      && LoadAllowed(killed, StartLoad(spare))
      && var started := LoadAfter(killed, StartLoad(spare));
         Acts(started, cs) ==> |cs| <= 14 + Mores(cs) && GoesOn(killed.disk, ActsEnd(started, cs))
  {
    hide LCore, StepFacts, Stuck, GoesOn, Locked, FirstStep;
    EmptyIsFirm();
    StuckIff(LoadInit().disk);
    KillsNeverStick(LoadInit(), run);
    LoadCompletes(LoadEnd(LoadInit(), run), spare, cs);
  }
}
