/** What a fresh load publishes: exactly the tree its build last wrote, at every point of
    every run and after every power loss. */
module FreshLoadContents {
  import opened GenerationDisk
  import opened GenerationUpgrade
  import opened GenerationSettling
  import GenerationRuns
  import opened GenerationContents
  import opened FreshLoad
  import opened FreshLoadRuns

  /** The tree the build last wrote. */
  function TreeAfter(s: LoadState, ev: LoadEvent, tree: Tree): Tree {
    if ev.LoadAct? && s.phase == Loading(Commit(WriteTree)) then ev.choice.tree else tree
  }

  /** Whatever published generation a power loss could leave holds the tree, and a build
      under way has it as far as it got. */
  ghost predicate LFilled(s: LoadState, tree: Tree) {
    && (forall i :: i in Possible(s.disk.dir, Final(L)) ==> i in s.disk.inodes && Stored(s.disk.inodes[i], tree))
    && (s.phase.Loading? && s.phase.step.Commit? ==> Built(s.disk, L, s.phase.step.at, tree))
  }

  /** While nothing is published, only a build under way is to be seen to. */
  lemma UnpublishedFilled(s: LoadState, tree: Tree)
    requires LInv(s) && !Has(s.disk, Final(L))
    requires s.phase.Loading? && s.phase.step.Commit? && Rung(s.phase.step.at) >= 9 ==>
      Built(s.disk, L, s.phase.step.at, tree)
    ensures LFilled(s, tree)
  {
    hide Certain, ApplyOps, LTyped, Exclusive, Stored, Wrote, Stamped, Complete;
  }

  lemma PublishedFilled(s: LoadState, tree: Tree)
    requires LInv(s) && HasGeneration(s.disk, Final(L)) && Stored(At(s.disk, Final(L)), tree)
    requires s.phase.Loading? && s.phase.step.Commit? ==> Rung(s.phase.step.at) >= 11
    ensures LFilled(s, tree)
  {
    hide Certain, ApplyOps, LTyped, Exclusive, Stored, Wrote, Stamped, Complete;
  }

  lemma FinalStored(s: LoadState, tree: Tree)
    requires LInv(s) && LFilled(s, tree) && Has(s.disk, Final(L))
    ensures HasGeneration(s.disk, Final(L)) && Stored(At(s.disk, Final(L)), tree)
  {
    hide ApplyOps, LTyped, Exclusive, Wrote;
    CachedIsPossible(s.disk.dir, Final(L));
  }

  lemma TmpApart(d: Disk)
    requires LCore(d) && Has(d, CurrentTmp) && Has(d, Final(L))
    ensures Entries(d.dir)[CurrentTmp] != Entries(d.dir)[Final(L)]
  {
    TmpFits(d);
    FinalFits(d);
  }

  lemma CommitFills(d: Disk, at: LegStep, c: Choice, tree: Tree)
    requires LCore(d) && CommitPlace(d, at) && c.spare !in d.inodes && LFilled(LoadState(d, Loading(Commit(at))), tree)
    requires Onward(d, Commit(at), c)
    ensures LFilled(LoadState(LegAct(d, L, at, c), StepNext(d, Commit(at), c)), if at.WriteTree? then c.tree else tree)
  {
    hide Possible, Certain, ApplyOps, LCore, Stored, Wrote, CurrentText, LegAct, Stamped, Complete, Succeeds;
    var next := LoadState(LegAct(d, L, at, c), StepNext(d, Commit(at), c));
    PlaceSucceeds(d, at);
    if Rung(at) >= 11 {
      FinalStored(LoadState(d, Loading(Commit(at))), tree);
      if at.WriteTmp? { TmpApart(d); }
      PublishedAct(d, L, at, c);
      SameFiles(At(d, Final(L)), At(next.disk, Final(L)), tree);
      PublishedFilled(next, tree);
    } else if Rung(at) >= 8 {
      BuildAct(d, L, at, c, tree);
      if at.PublishDir? {
        PublishedFilled(next, tree);
      } else {
        UnpublishedFilled(next, if at.WriteTree? then c.tree else tree);
      }
    } else {
      UnpublishedFilled(next, tree);
    }
  }

  lemma PlaceSucceeds(d: Disk, at: LegStep)
    requires CommitPlace(d, at) && StepSucceeds(d, Commit(at))
    ensures Succeeds(d, L, at) && Rung(at) == GenerationRuns.Order(at) >= 6
    ensures Rung(at) >= 11 ==> Has(d, Final(L))
  {
  }

  lemma StepFills(s: LoadState, c: Choice, tree: Tree)
    requires LInv(s) && LoadAllowed(s, LoadAct(c)) && LFilled(s, tree)
    ensures LFilled(LoadAfter(s, LoadAct(c)), TreeAfter(s, LoadAct(c), tree))
  {
    hide Possible, Certain, ApplyOps, LCore, Stored, Wrote, CurrentText, LegAct, Stamped, Complete, CommitPlace,
      LFilled;
    LStep(s.disk, s.phase.step, c);
    if s.phase.step.WipeBuilding? {
      WipeFills(s, c, tree);
    } else {
      CommitOnly(s.disk, s.phase.step);
      CommitFills(s.disk, s.phase.step.at, c, tree);
    }
  }

  lemma WipeFills(s: LoadState, c: Choice, tree: Tree)
    requires LInv(s) && s.phase == Loading(WipeBuilding) && LoadAllowed(s, LoadAct(c))
    requires LInv(LoadAfter(s, LoadAct(c)))
    ensures LFilled(LoadAfter(s, LoadAct(c)), tree)
  {
    hide Possible, Certain, ApplyOps, LCore, Stored, Wrote, CurrentText, Stamped, Complete;
    UnpublishedFilled(LoadAfter(s, LoadAct(c)), tree);
  }

  lemma LockFills(d: Disk, spare: nat, phase: LoadPhase, tree: Tree)
    requires LCore(d) && spare !in d.inodes && LFilled(LoadState(d, Quiet), tree)
    requires LInv(LoadState(Locked(d, spare), phase))
    requires phase.Loading? && phase.step.Commit? ==> Rung(phase.step.at) <= 8 || Has(d, Final(L))
    requires phase.Loading? && phase.step.Commit? && Has(d, Final(L)) ==> Rung(phase.step.at) >= 11
    ensures LFilled(LoadState(Locked(d, spare), phase), tree)
  {
    hide Possible, Certain, ApplyOps, LCore, Stored, Wrote, CurrentText, Stamped, Complete, LFilled, CommitPlace,
      Locked;
    LLock(d, spare);
    if Has(d, Final(L)) {
      FinalStored(LoadState(d, Quiet), tree);
      PublishedFilled(LoadState(Locked(d, spare), phase), tree);
    } else {
      UnpublishedFilled(LoadState(Locked(d, spare), phase), tree);
    }
  }

  lemma StartFills(s: LoadState, spare: nat, tree: Tree)
    requires LInv(s) && LoadAllowed(s, StartLoad(spare)) && LFilled(s, tree)
    ensures LFilled(LoadAfter(s, StartLoad(spare)), tree)
  {
    hide Possible, Certain, ApplyOps, LCore, Stored, Wrote, CurrentText, Stuck, Classify, Locked, CommitPlace;
    LStart(s, spare);
    ClassifyIs(s.disk);
    StuckIff(s.disk);
    LockFills(s.disk, spare, FirstStep(s.disk), tree);
  }

  lemma CutFills(d: Disk, after: Disk, tree: Tree)
    requires PowerLoss(d, after) && LFilled(LoadState(d, Quiet), tree)
    ensures LFilled(LoadState(after, Quiet), tree)
  {
    hide ApplyOps, Stored;
    LossSettles(d, after);
    SettledIs(after.dir);
    forall i | i in Possible(after.dir, Final(L)) ensures i in after.inodes && Stored(after.inodes[i], tree) {
      assert i in Possible(d.dir, Final(L));
      StoredSurvives(d.inodes[i], after.inodes[i], tree);
    }
  }

  ghost function TreeOf(s: LoadState, run: seq<LoadEvent>, tree: Tree): Tree
    requires LoadRun(s, run)
    decreases |run|
  {
    if run == [] then tree else TreeOf(LoadAfter(s, run[0]), run[1..], TreeAfter(s, run[0], tree))
  }

  lemma {:induction false} RunFills(s: LoadState, run: seq<LoadEvent>, tree: Tree)
    requires LInv(s) && LoadRun(s, run) && LFilled(s, tree)
    ensures LInv(LoadEnd(s, run)) && LFilled(LoadEnd(s, run), TreeOf(s, run, tree))
    decreases |run|
  {
    hide LCore, StepFacts, PowerLoss, Stuck, StepAct, StepNext, StepSucceeds, FirstStep, Locked, Built, Stored;
    if run == [] {
    } else {
      LRunKeeps(s, [run[0]]);
      OneEvent(s, run[0]);
      match run[0] {
        case StartLoad(spare) => StartFills(s, spare, tree);
        case FailLoad(spare) => FailFills(s, spare, tree);
        case LoadAct(c) => StepFills(s, c, tree);
        case Killed =>
        case PowerCut(after) => CutFills(s.disk, after, tree);
      }
      RunFills(LoadAfter(s, run[0]), run[1..], TreeAfter(s, run[0], tree));
    }
  }

  lemma OneEvent(s: LoadState, ev: LoadEvent)
    requires LoadAllowed(s, ev)
    ensures LoadRun(s, [ev]) && LoadEnd(s, [ev]) == LoadAfter(s, ev)
  {
    assert [ev][1..] == [];
  }

  lemma FailFills(s: LoadState, spare: nat, tree: Tree)
    requires LInv(s) && LoadAllowed(s, FailLoad(spare)) && LFilled(s, tree)
    requires LInv(LoadAfter(s, FailLoad(spare)))
    ensures LFilled(LoadAfter(s, FailLoad(spare)), tree)
  {
    hide Possible, Certain, ApplyOps, LCore, Stored, Stuck, Classify, Locked;
    if LoadAfter(s, FailLoad(spare)).disk != s.disk { LockFills(s.disk, spare, Quiet, tree); }
  }

  /** At the end of every run of the tool a published generation holds exactly the files of
      the tree last written, with the bytes it was given, all durable. */
  lemma LoadedHoldsTree(run: seq<LoadEvent>, none: Tree)
    requires LoadRun(LoadInit(), run)
    ensures var e, tree := LoadEnd(LoadInit(), run), TreeOf(LoadInit(), run, none);
      Has(e.disk, Final(L)) ==>
        && HasGeneration(e.disk, Final(L)) && At(e.disk, Final(L)).files.Keys == tree.Keys
        && forall f :: f in tree ==> At(e.disk, Final(L)).files[f] == FileState(tree[f], true)
  {
    hide LCore, LoadRun, LoadEnd, TreeOf, ApplyOps;
    EmptyFilled(none);
    RunFills(LoadInit(), run, none);
    var e := LoadEnd(LoadInit(), run);
    if Has(e.disk, Final(L)) { FinalStored(e, TreeOf(LoadInit(), run, none)); }
  }

  lemma EmptyFilled(tree: Tree)
    ensures LInv(LoadInit()) && LFilled(LoadInit(), tree)
  {
    SettledIs(LoadInit().disk.dir);
  }
}
