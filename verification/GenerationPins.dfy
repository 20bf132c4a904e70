/** Reader pins: the process-local registry, and the acquisition loop that pins
    whatever CURRENT selects while the upgrade machine moves underneath it. */
module GenerationPins {
  import opened GenerationDisk
  import opened GenerationUpgrade
  import opened GenerationSettling
  import opened GenerationSafety
  import opened GenerationRuns
  import opened GenerationTheorems

  // ---- the registry ------------------------------------------------------------------

  datatype PinResult = Pinned(generation: Resolution) | Failed

  /** Pin counts, retirement claims and waiting reapers, under one mutex: each
      method is one critical section. */
  class GenerationPinRegistry {
    var pins: map<Resolution, nat>
    var retired: set<Resolution>
    var cleanupWaiters: set<Resolution>

    /** The counts are exactly the live readers, and no live reader reads a
        retired generation. */
    ghost predicate Serves(live: multiset<Resolution>)
      reads this
    {
      && (forall g :: g in pins <==> g in live)
      && (forall g :: g in pins ==> pins[g] == live[g])
      && (forall g :: g in retired ==> g !in live)
    }

    /** The machine's view of the registry: the pins on gen-v9 and whether it is retired. */
    ghost predicate Mirrors(s: State)
      reads this
    {
      && s.readers == (if Selected(V9) in pins then pins[Selected(V9)] else 0)
      && (s.retired <==> Selected(V9) in retired)
    }

    /** A new process starts with an empty registry, as the machine does after a crash. */
    constructor (ghost s: State)
      ensures Serves(multiset{}) && retired == {} && cleanupWaiters == {}
      ensures Mirrors(After(s, Kill)) && forall after :: PowerLoss(s.disk, after) ==> Mirrors(After(s, Loss(after)))
    {
      pins, retired, cleanupWaiters := map[], {}, {};
    }

    /** A pin of gen-v9 is the machine's `Pin`, and it is refused exactly when that is. */
    method Pin(g: Resolution, isDirectory: bool, ghost live: multiset<Resolution>, ghost s: State)
      returns (r: PinResult)
      requires Serves(live)
      modifies this`pins
      ensures r == if isDirectory && g !in retired then Pinned(g) else Failed
      ensures Serves(if r.Pinned? then live + multiset{g} else live)
      ensures old(Mirrors(s)) && g == Selected(V9) && (isDirectory <==> Stamped(s.disk, Final(V9))) ==>
        (r.Pinned? <==> Allowed(s, GenerationUpgrade.Pin)) && TryPin(s, g).1 == r.Pinned? && Mirrors(TryPin(s, g).0)
      ensures old(Mirrors(s)) && g != Selected(V9) ==> Mirrors(s)
    {
      if !isDirectory || g in retired { return Failed; }
      pins := pins[g := (if g in pins then pins[g] else 0) + 1];
      return Pinned(g);
    }

    method Unpin(g: Resolution, ghost live: multiset<Resolution>, ghost s: State) returns (notify: bool)
      requires Serves(live) && g in live
      modifies this`pins
      ensures Serves(live - multiset{g})
      ensures notify <==> g !in live - multiset{g}
      ensures old(Mirrors(s)) && g == Selected(V9) ==>
        Allowed(s, GenerationUpgrade.Unpin) && Mirrors(After(s, GenerationUpgrade.Unpin))
      ensures old(Mirrors(s)) && g != Selected(V9) ==> Mirrors(s)
    {
      notify := pins[g] == 1;
      pins := if notify then pins - {g} else pins[g := pins[g] - 1];
    }

    /** One pass of the drain loop: retire when no reader is left, otherwise be
        seen waiting.  A retirement closes the generation for good.  For gen-v9 it is the
        machine's drain act, and it is done exactly when that act succeeds. */
    method TryRetire(g: Resolution, ghost live: multiset<Resolution>, ghost s: State, ghost c: Choice)
      returns (done: bool)
      requires Serves(live)
      modifies this`retired, this`cleanupWaiters
      ensures Serves(live)
      ensures done <==> g !in live
      ensures retired == if done then old(retired) + {g} else old(retired)
      ensures cleanupWaiters == if done then old(cleanupWaiters) - {g} else old(cleanupWaiters) + {g}
      ensures old(Mirrors(s)) && g == Selected(V9) && s.phase == Reap(Drain) && Offers(s, c) ==>
        (done <==> Allowed(s, Act(c))) && Mirrors(if done then After(s, Act(c)) else s)
      ensures old(Mirrors(s)) && g != Selected(V9) ==> Mirrors(s)
    {
      done := g !in pins;
      if done {
        retired, cleanupWaiters := retired + {g}, cleanupWaiters - {g};
      } else {
        cleanupWaiters := cleanupWaiters + {g};
      }
    }
  }

  /** Nothing else the machine does touches what the registry mirrors. */
  lemma OnlyPinsMove(s: State, ev: Event)
    requires Allowed(s, ev) && !ev.Pin? && !ev.Unpin? && !ev.Kill? && !ev.Loss?
    requires !(ev.Act? && s.phase == Reap(Drain))
    ensures After(s, ev).readers == s.readers && After(s, ev).retired == s.retired
  {
    hide LegAct, LegNext, ReapAct, ReapNext, Succeeds, CurrentGeneration, SyncRoot, Put;
  }

  // ---- the acquisition loop -------------------------------------------------------------

  /** A reaper that has claimed gen-v9 has a durable gen-v10 behind it. */
  ghost predicate Good(s: State) {
    Inv(s) && (s.retired ==> Floor(s.disk) == 2)
  }

  lemma GoodEvent(s: State, ev: Event)
    requires Good(s) && Allowed(s, ev)
    ensures Good(After(s, ev))
  {
    hide Possible, Certain, ApplyOps, CurrentText, Core, LegFacts, CurrentGeneration;
    EveryEvent(s, ev);
    FloorBound(After(s, ev).disk);
  }

  lemma {:induction false} GoodRun(s: State, run: seq<Event>)
    requires Good(s) && Valid(s, run)
    ensures Good(EndState(s, run))
    decreases |run|
  {
    hide Good, Allowed, After;
    if run == [] {
    } else {
      GoodEvent(s, run[0]);
      GoodRun(After(s, run[0]), run[1..]);
    }
  }

  /** Every state of every run can be read from. */
  lemma ReachableGood(s: State)
    requires Reachable(s)
    ensures Good(s)
  {
    hide Valid, EndState, Inv;
    assert Good(Init()) by {
      assert Valid(Init(), []) && EndState(Init(), []) == Init() by { EmptyRun(); }
      ReachableInv(Init());
    }
    var run :| Valid(Init(), run) && EndState(Init(), run) == s;
    GoodRun(Init(), run);
  }

  lemma EmptyRun()
    ensures Valid(Init(), []) && EndState(Init(), []) == Init()
  {
  }

  lemma FloorBound(d: Disk)
    ensures Floor(d) <= 2
  {
  }

  lemma LegRank(d: Disk, tool: Tool, at: LegStep)
    requires LegFacts(d, tool, at)
    ensures Rank(CurrentGeneration(d)) == if at.StampSync? then RankOf(tool) else RankOf(tool) - 1
  {
    if at.StampSync? {
      CommittedIsMarked(d, tool);
      if tool == V9 { V9Resolves(d); } else { V10Resolves(d); }
    } else {
      LegBaseIsCore(d, tool);
      AlwaysResolves(d);
      CachedIsPossible(d.dir, Final(V9));
      CachedIsPossible(d.dir, Final(V10));
      if tool == V10 { V9Resolves(d); }
    }
  }

  /** While the process lives, what CURRENT resolves to only moves forward. */
  lemma RankRises(s: State, ev: Event)
    requires Inv(s) && Allowed(s, ev) && !ev.Loss?
    ensures Rank(CurrentGeneration(s.disk)) <= Rank(CurrentGeneration(After(s, ev).disk))
  {
    hide Possible, Certain, ApplyOps, CurrentText, Core, LegFacts, CurrentGeneration;
    EveryEvent(s, ev);
    CoreIsSound(s.disk);
    var next := After(s, ev);
    CoreIsSound(next.disk);
    AlwaysResolves(s.disk);
    match ev
    case Act(c) =>
      if s.phase.Leg? {
        LegRank(s.disk, s.phase.tool, s.phase.at);
        if s.phase.at == StampSync { LegEvent(s, c); } else {
          LegKeeps(s.disk, s.phase.tool, s.phase.at, c);
          LegRank(next.disk, s.phase.tool, next.phase.at);
        }
      } else {
        ReapRank(s, c);
      }
    case StartLeg(tool) => LegRank(next.disk, tool, SweepBuilding);
    case Checkpoint => CheckpointRank(s);
    case _ =>
  }

  lemma ReapRank(s: State, c: Choice)
    requires Inv(s) && s.phase.Reap? && Allowed(s, Act(c))
    ensures Floor(After(s, Act(c)).disk) == 2
  {
    hide Possible, Certain, ApplyOps, CurrentText, Core, CurrentGeneration;
    EveryEvent(s, Act(c));
    if s.phase.step.ProveSuccessor? {
      var was := At(s.disk, Final(V10));
      Restamp(s.disk, V10, WithStamp(was, Durable(was.stamp.version)));
    }
    FloorBound(After(s, Act(c)).disk);
  }

  lemma CheckpointSettles(s: State)
    requires Inv(s) && !s.phase.Leg? && CurrentGeneration(s.disk) == Selected(V10)
    ensures Floor(After(s, Checkpoint).disk) == 2
  {
    hide Possible, Certain, ApplyOps, CurrentText, Core;
    V10MeansPublished(s.disk);
    Restamp(s.disk, V10, Checkpointed(At(s.disk, Final(V10))));
  }

  lemma CheckpointRank(s: State)
    requires Inv(s) && Allowed(s, Checkpoint)
    ensures Rank(CurrentGeneration(s.disk)) <= Floor(After(s, Checkpoint).disk)
  {
    hide Possible, Certain, ApplyOps, CurrentText, Core;
    AlwaysResolves(s.disk);
    if CurrentGeneration(s.disk) == Selected(V10) {
      CheckpointSettles(s);
    } else {
      V9MeansReady(s.disk);
      Restamp(s.disk, V9, Checkpointed(At(s.disk, Final(V9))));
    }
  }

  /** What the other threads of the process may do while `mine` pins of ours are
      held: any events but a crash, never dropping a pin that is ours. */
  ghost predicate Moves(s: State, run: seq<Event>, s': State, mine: nat)
    decreases |run|
  {
    && s.readers >= mine
    && if run == [] then s' == s
       else Allowed(s, run[0]) && !run[0].Loss? && !run[0].Kill? && Moves(After(s, run[0]), run[1..], s', mine)
  }

  ghost predicate Others(s: State, s': State, mine: nat) {
    exists run :: Moves(s, run, s', mine)
  }

  lemma {:induction false} MovesKeep(s: State, run: seq<Event>, s': State, mine: nat)
    requires Good(s) && Moves(s, run, s', mine)
    ensures Good(s') && s'.readers >= mine
    ensures Rank(CurrentGeneration(s.disk)) <= Rank(CurrentGeneration(s'.disk))
    decreases |run|
  {
    hide Allowed, After, Inv, Floor, CurrentGeneration;
    if run == [] {
    } else {
      GoodEvent(s, run[0]);
      RankRises(s, run[0]);
      MovesKeep(After(s, run[0]), run[1..], s', mine);
    }
  }

  lemma OthersKeep(s: State, s': State, mine: nat)
    requires Good(s) && Others(s, s', mine)
    ensures Good(s') && s'.readers >= mine
    ensures Rank(CurrentGeneration(s.disk)) <= Rank(CurrentGeneration(s'.disk))
  {
    hide Good, CurrentGeneration;
    var run :| Moves(s, run, s', mine);
    MovesKeep(s, run, s', mine);
  }

  lemma SameRank(s: State, s': State)
    requires Good(s) && Good(s')
    ensures Rank(CurrentGeneration(s'.disk)) <= 2
    ensures Rank(CurrentGeneration(s.disk)) == Rank(CurrentGeneration(s'.disk))
            <==> CurrentGeneration(s.disk) == CurrentGeneration(s'.disk)
  {
    hide CurrentGeneration, Core;
    AlwaysResolves(s.disk);
    AlwaysResolves(s'.disk);
  }

  /** Gen-v9 can be pinned whenever CURRENT resolves to it. */
  lemma SelectedIsPinnable(s: State)
    requires Good(s) && CurrentGeneration(s.disk) == Selected(V9)
    ensures Allowed(s, Pin) && Good(After(s, Pin))
  {
    hide Possible, Certain, ApplyOps, CurrentText, LegFacts, ReapPlace;
    AlwaysResolves(s.disk);
    CoreIsSound(s.disk);
    V9MeansReady(s.disk);
    GoodEvent(s, Pin);
  }

  /** The registry call, on the machine: only gen-v9 can be retired, so only its
      pins matter to the reaper. */
  function TryPin(s: State, g: Resolution): (r: (State, bool))
    ensures g == Selected(V9) ==> r == if Allowed(s, Pin) then (After(s, Pin), true) else (s, false)
  {
    if g != Selected(V9) then (s, true)
    else if s.retired || !Stamped(s.disk, Final(V9)) then (s, false)
    else (s.(readers := s.readers + 1), true)
  }

  lemma TryPinKeeps(s: State, g: Resolution)
    requires Good(s)
    ensures Good(TryPin(s, g).0) && TryPin(s, g).0.disk == s.disk
    ensures g == Selected(V9) && TryPin(s, g).1 ==> TryPin(s, g).0.readers == s.readers + 1
    ensures CurrentGeneration(s.disk) == g ==> TryPin(s, g).1
  {
    hide Possible, Certain, ApplyOps, CurrentText, LegFacts, ReapPlace, CurrentGeneration, Floor;
    if CurrentGeneration(s.disk) == Selected(V9) { SelectedIsPinnable(s); }
    if g == Selected(V9) && TryPin(s, g).1 { GoodEvent(s, Pin); }
  }

  function Drop(s: State, g: Resolution): (r: State)
    ensures g == Selected(V9) && Allowed(s, Unpin) ==> r == After(s, Unpin)
  {
    if g == Selected(V9) && s.readers > 0 then s.(readers := s.readers - 1) else s
  }

  lemma DropKeeps(s: State, g: Resolution)
    requires Good(s)
    ensures Good(Drop(s, g)) && Drop(s, g).disk == s.disk
  {
  }

  /** Resolve CURRENT, pin, resolve again; retry when CURRENT moved in between.
      `env` is the rest of the process, run at each of the three gaps.  The loop
      ends because every retry uses up one forward move, and it never fails: the
      reader it returns is of the generation CURRENT resolves to while the pin is
      already held. */
  method PinCurrentGeneration(start: State, env: (State, nat, nat) -> State) returns (s: State, r: PinResult)
    requires Good(start)
    requires forall s: State, tick, mine :: Good(s) && s.readers >= mine ==> Others(s, env(s, tick, mine), mine)
    ensures Good(s) && r == Pinned(CurrentGeneration(s.disk))
    ensures r == Pinned(Selected(V9)) ==> s.readers > 0
  {
    hide Good, Others, CurrentGeneration, TryPin, Drop;
    s := start;
    SameRank(s, s);
    var tick := 0;
    ghost var floor := 0;
    while true
      invariant Good(s) && floor <= Rank(CurrentGeneration(s.disk)) <= 2
      decreases 3 - floor
    {
      var selected := CurrentGeneration(s.disk);
      var atPin := env(s, tick, 0);
      OthersKeep(s, atPin, 0);
      TryPinKeeps(atPin, selected);
      var (held, ok) := TryPin(atPin, selected);
      var mine := if ok && selected == Selected(V9) then 1 else 0;
      var next := env(held, tick + 1, mine);
      OthersKeep(held, next, mine);
      SameRank(s, atPin);
      SameRank(s, next);
      if ok {
        if CurrentGeneration(next.disk) == selected { return next, Pinned(selected); }
        DropKeeps(next, selected);
        next := Drop(next, selected);
      } else if CurrentGeneration(next.disk) == selected {
        return next, Failed;
      }
      floor := Rank(selected) + 1;
      s, tick := next, tick + 2;
    }
  }
}
