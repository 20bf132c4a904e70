/** Every interleaving of the writer-admission threads: permits are conserved,
    indexes hold exactly what was committed, and lock waits never form a cycle. */
module WriterRuns {
  import opened Bm25Index
  import opened WriterAdmission
  import opened Wrappers

  // ---- every step keeps the invariant -----------------------------------------------------

  /** A change takes a free lock, gives up the thread's own, or keeps all holders. */
  predicate LockChange(s: State, t: nat, c: Change) {
    t in s.threads && c.key in s.slots && (c.pc.Locking? ==> c.pc.key in s.slots) &&
    var was := s.slots[c.key];
    || (c.slot.holder == was.holder && c.slot.since == was.since && Key(c.pc) == Key(s.threads[t]))
    || (&& c.slot.holder == Some(t) && c.slot.since == s.clock && was.holder == None
        && Key(c.pc) == Some(c.key) && Key(s.threads[t]) == None)
    || (c.slot.holder == None && c.slot.since == was.since && Key(c.pc) == None && Key(s.threads[t]) == Some(c.key))
  }

  lemma LocksApply(s: State, t: nat, c: Change)
    requires Locks(s) && LockChange(s, t, c)
    ensures Locks(Apply(s, t, c))
  {
  }

  lemma TimesApply(s: State, t: nat, c: Change)
    requires Locks(s) && Times(s) && LockChange(s, t, c)
    requires c.pc.Choosing? ==> c.pc.at == s.clock && c.pc.victim in s.slots && s.slots[c.pc.victim].holder == None
                                && c.slot == s.slots[c.key] && c.pc.key in s.slots && c.pc.victim != c.pc.key
    ensures Times(Apply(s, t, c))
  {
  }

  lemma EmptiesApply(s: State, t: nat, c: Change)
    requires Locks(s) && Empties(s) && LockChange(s, t, c)
    requires || c.slot.writer == None || c.slot == s.slots[c.key]
             || (Key(s.threads[t]) == Some(c.key) && Key(c.pc) == None)
             || (c.slot.holder == Some(t) && s.slots[c.key].holder == None)
    requires Key(c.pc).Some? && !c.pc.Holding? ==>
      c.slot.writer == None && (Key(c.pc) == Some(c.key) || (Key(c.pc) == Key(s.threads[t]) && !s.threads[t].Holding?))
    ensures Empties(Apply(s, t, c))
  {
  }

  lemma StepChanges(s: State, t: nat, step: Step)
    requires Inv(s) && Enabled(s, t, step)
    ensures Locks(Next(s, t, step)) && Times(Next(s, t, step)) && Empties(Next(s, t, step))
  {
    hide ApplyOps, BufferedAll, Contents, Permits, Apply;
    OwnSlot(s, t);
    var c := Effect(s, t, step);
    assert LockChange(s, t, c);
    LocksApply(s, t, c);
    TimesApply(s, t, c);
    EmptiesApply(s, t, c);
  }

  lemma ContentsStep(s: State, t: nat, step: Step)
    requires Inv(s) && Enabled(s, t, step)
    ensures Contents(Next(s, t, step))
  {
    hide ApplyOps, BufferedAll, Holds, WonByAll, Permits, Times, Empties;
    var pc := s.threads[t];
    if step.Finish? && step.ok && pc.req.CommitPending? {
      var slot := s.slots[pc.key];
      WindowHolds(slot.docs, WonByAll(slot.closed), pc.window);
      ClosedConcat(slot.closed, pc.window);
    }
  }

  function One(b: bool): int { if b then 1 else 0 }

  lemma CardWithout(xs: set<nat>, x: nat)
    ensures |xs| == |xs - {x}| + One(x in xs)
  {
  }

  lemma OccupiedApply(s: State, t: nat, c: Change)
    requires c.key in s.slots
    ensures |Occupied(Apply(s, t, c))| == |Occupied(s)| + One(c.slot.writer.Some?) - One(s.slots[c.key].writer.Some?)
    ensures |Occupied(s)| >= One(s.slots[c.key].writer.Some?)
  {
    var s' := Apply(s, t, c);
    assert Occupied(s') - {c.key} == Occupied(s) - {c.key};
    CardWithout(Occupied(s), c.key);
    CardWithout(Occupied(s'), c.key);
  }

  lemma TransitApply(s: State, t: nat, c: Change)
    requires t in s.threads
    ensures |Transit(Apply(s, t, c))| == |Transit(s)| + One(InTransit(c.pc)) - One(InTransit(s.threads[t]))
    ensures |Transit(s)| >= One(InTransit(s.threads[t]))
  {
    var s' := Apply(s, t, c);
    assert Transit(s') - {t} == Transit(s) - {t};
    CardWithout(Transit(s), t);
    CardWithout(Transit(s'), t);
  }

  lemma PermitsStep(s: State, t: nat, step: Step)
    requires Inv(s) && Enabled(s, t, step)
    ensures Permits(Next(s, t, step))
  {
    hide ApplyOps, BufferedAll, Contents, Apply, Occupied, Transit;
    OwnSlot(s, t);
    OccupiedApply(s, t, Effect(s, t, step));
    TransitApply(s, t, Effect(s, t, step));
    CapacityKept(s, t, Effect(s, t, step));
  }

  lemma CapacityKept(s: State, t: nat, c: Change)
    ensures Apply(s, t, c).capacity == s.capacity && Apply(s, t, c).inUse == c.inUse
  {
  }

  lemma EveryStep(s: State, t: nat, step: Step)
    requires Inv(s) && Enabled(s, t, step)
    ensures Inv(Next(s, t, step))
  {
    hide Locks, Times, Empties, Contents, Permits, Next;
    StepChanges(s, t, step);
    ContentsStep(s, t, step);
    PermitsStep(s, t, step);
  }

  // ---- runs ---------------------------------------------------------------------------------

  /** A fresh service: empty slots for its tenants, idle threads, all permits free. */
  predicate Fresh(s: State) {
    && (forall k :: k in s.slots ==> s.slots[k] == Slot(None, [], [], None, 0))
    && (forall t :: t in s.threads ==> s.threads[t] == Idle)
    && s.inUse == 0 && s.capacity >= 1 && s.clock >= 1
  }

  lemma FreshInv(s: State)
    requires Fresh(s)
    ensures Inv(s)
  {
  }

  /** An interleaving: which thread steps, and how. */
  ghost predicate Runs(s: State, run: seq<(nat, Step)>, end: State)
    decreases |run|
  {
    if run == [] then end == s
    else Enabled(s, run[0].0, run[0].1) && Runs(Next(s, run[0].0, run[0].1), run[1..], end)
  }

  lemma {:induction false} RunsKeep(s: State, run: seq<(nat, Step)>, end: State)
    requires Inv(s) && Runs(s, run, end)
    ensures Inv(end)
    decreases |run|
  {
    hide Inv, Enabled, Next;
    if run == [] {
    } else {
      EveryStep(s, run[0].0, run[0].1);
      RunsKeep(Next(s, run[0].0, run[0].1), run[1..], end);
    }
  }

  /** Over every interleaving of writes, commits, rollbacks, failures and
      evictions: the permit count is the occupied slots plus the permits in
      transit, and never exceeds the capacity; and every tenant's index is the
      last-writer-wins map of exactly its successfully committed windows. */
  lemma PermitsAndContents(s: State, run: seq<(nat, Step)>, end: State, k: nat)
    requires Fresh(s) && Runs(s, run, end)
    ensures end.inUse == |Occupied(end)| + |Transit(end)| && end.inUse <= end.capacity
    ensures k in end.slots ==> Holds(end.slots[k].docs, WonByAll(end.slots[k].closed))
  {
    hide Fresh, Runs, Locks, Times, Empties, Holds, Occupied, Transit, WonByAll;
    FreshInv(s);
    RunsKeep(s, run, end);
  }

  // ---- lock waits -------------------------------------------------------------------------------

  /** `t` is blocked on a lock that `h` holds. */
  predicate WaitsFor(s: State, t: nat, h: nat) {
    t in s.threads && h in s.threads &&
    var pc := s.threads[t];
    || (pc.Locking? && pc.key in s.slots && s.slots[pc.key].holder == Some(h))
    || (pc.Choosing? && pc.victim in s.slots && s.slots[pc.victim].holder == Some(h))
  }

  /** When the thread took its slot lock; 0 if it holds none. */
  function HoldStart(s: State, t: nat): nat
    requires t in s.threads
  {
    var key := Key(s.threads[t]);
    if key.Some? && key.value in s.slots then s.slots[key.value].since + 1 else 0
  }

  /** Hold times strictly increase along every wait edge. */
  lemma WaitsRise(s: State, t: nat, h: nat)
    requires Inv(s) && WaitsFor(s, t, h)
    ensures HoldStart(s, t) < HoldStart(s, h) <= s.clock
  {
    hide Permits, Contents, Empties;
  }

  ghost predicate WaitChain(s: State, chain: seq<nat>) {
    forall i :: 0 <= i < |chain| - 1 ==> WaitsFor(s, chain[i], chain[i + 1])
  }

  lemma {:induction false} ChainRises(s: State, chain: seq<nat>)
    requires Inv(s) && |chain| >= 2 && WaitChain(s, chain)
    ensures chain[0] in s.threads && chain[|chain| - 1] in s.threads
    ensures HoldStart(s, chain[0]) < HoldStart(s, chain[|chain| - 1])
    decreases |chain|
  {
    hide Inv, HoldStart;
    assert WaitsFor(s, chain[0], chain[0 + 1]);
    WaitsRise(s, chain[0], chain[1]);
    if |chain| > 2 {
      var rest := chain[1..];
      forall i | 0 <= i < |rest| - 1 ensures WaitsFor(s, rest[i], rest[i + 1]) {
        assert WaitsFor(s, chain[i + 1], chain[i + 1 + 1]);
      }
      ChainRises(s, rest);
    } else {
      assert WaitsFor(s, chain[0], chain[|chain| - 1]);
    }
  }

  /** No cycle of lock waits, in any reachable state. */
  lemma NoWaitCycle(s: State, run: seq<(nat, Step)>, end: State, chain: seq<nat>)
    requires Fresh(s) && Runs(s, run, end)
    requires |chain| >= 2 && WaitChain(end, chain)
    ensures chain[0] != chain[|chain| - 1]
  {
    hide Inv, Runs, Fresh, WaitChain, HoldStart;
    FreshInv(s);
    RunsKeep(s, run, end);
    ChainRises(end, chain);
  }

  // ---- progress ----------------------------------------------------------------------------------

  ghost predicate CanStep(s: State, t: nat) {
    exists step :: Enabled(s, t, step) && !step.Begin?
  }

  /** Someone in the middle of a request can always go on. */
  ghost predicate SomeoneCan(s: State) {
    exists t :: t in s.threads && s.threads[t] != Idle && CanStep(s, t)
  }

  lemma UnblockedCan(s: State, t: nat)
    requires Inv(s) && t in s.threads
    requires s.threads[t].Holding? || s.threads[t].Sweeping? || InTransit(s.threads[t])
    ensures CanStep(s, t)
  {
    hide Permits, Contents, Times;
    var pc := s.threads[t];
    var step := match pc
      case Holding(_, _) =>
        if !pc.req.Mutate? then Take
        else if s.slots[pc.key].writer.Some? then Buffer
        else if s.inUse < s.capacity then Acquire else FindFull
      case Sweeping(_, _) => EndSweep
      case Admitted(_, _) => Open(true)
      case _ => Finish(true);
    assert Enabled(s, t, step) && !step.Begin?;
  }

  /** A thread waiting for a permit can take one or pick a victim, unless a permit
      is with a thread that can go on itself. */
  lemma WaiterCan(s: State, t: nat)
    requires Inv(s) && t in s.threads && s.threads[t].Waiting?
    ensures SomeoneCan(s)
  {
    hide Contents, Times;
    if s.inUse < s.capacity {
      assert Enabled(s, t, Acquire);
      assert CanStep(s, t);
    } else if Transit(s) != {} {
      var u :| u in Transit(s);
      UnblockedCan(s, u);
    } else {
      assert Occupied(s) != {};
      var v :| v in Occupied(s);
      if s.slots[v].holder == None {
        assert Enabled(s, t, TimeOut(v));
        assert CanStep(s, t);
      } else {
        UnblockedCan(s, s.slots[v].holder.value);
      }
    }
  }

  /** Follow the lock waits: they end at a thread that is not waiting for a lock. */
  lemma {:induction false} WaitsEnd(s: State, t: nat)
    requires Inv(s) && t in s.threads && s.threads[t] != Idle
    ensures SomeoneCan(s)
    decreases s.clock + 1 - HoldStart(s, t)
  {
    hide Contents, Times, Permits, Empties;
    var pc := s.threads[t];
    if pc.Waiting? {
      WaiterCan(s, t);
    } else if pc.Locking? || pc.Choosing? {
      VictimThere(s, t);
      var k := if pc.Locking? then pc.key else pc.victim;
      if s.slots[k].holder == None {
        assert Enabled(s, t, if pc.Locking? then Lock else EvictVictim);
        assert CanStep(s, t);
      } else {
        var h := s.slots[k].holder.value;
        WaitsRise(s, t, h);
        WaitsEnd(s, h);
      }
    } else {
      UnblockedCan(s, t);
    }
  }

  lemma VictimThere(s: State, t: nat)
    requires Inv(s) && t in s.threads && (s.threads[t].Locking? || s.threads[t].Choosing?)
    ensures (if s.threads[t].Locking? then s.threads[t].key else s.threads[t].victim) in s.slots
    ensures HoldStart(s, t) <= s.clock
  {
  }

  /** No deadlock: while any request is under way, some thread can take a step of
      one. */
  lemma NoDeadlock(s: State, run: seq<(nat, Step)>, end: State, t: nat)
    requires Fresh(s) && Runs(s, run, end)
    requires t in end.threads && end.threads[t] != Idle
    ensures SomeoneCan(end)
  {
    hide Inv, SomeoneCan, Runs;
    FreshInv(s);
    RunsKeep(s, run, end);
    WaitsEnd(end, t);
  }
}
