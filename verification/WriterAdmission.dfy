/** Threads writing to tenants' indexes through a bounded pool of writer permits:
    one transition per critical section.  A thread holds its tenant's slot lock
    while it waits for a permit, sweeps idle writers, scans for the least recently
    written one and blocks on that victim's lock. */
module WriterAdmission {
  import opened Bm25Index
  import opened Wrappers

  /** A tenant's slot: the buffered window of its active writer (which owns a
      permit), the committed documents with the windows they came from, and the
      lock with the time it was taken. */
  datatype Slot = Slot(writer: Option<Window>, docs: seq<Doc>, closed: seq<Window>, holder: Option<nat>, since: nat)

  /** `ForceEvict` is an eviction asked for on demand, by a thread that holds no slot. */
  datatype Request = Mutate(write: Write) | CommitPending | RollbackPending | ForceEvict

  datatype Pc =
    | Idle
    | Locking(key: nat, req: Request)                 // blocked on its own slot lock
    | Holding(key: nat, req: Request)                 // slot lock held
    | Sweeping(key: nat, write: Write)                // pool full: eager strict-idle sweep
    | Waiting(key: nat, write: Write)                 // blocked on the pool
    | Choosing(key: nat, write: Write, victim: nat, at: nat)  // victim picked; blocked on its lock
    | Admitted(key: nat, write: Write)                // permit in hand, writer not yet open
    | Closing(key: nat, req: Request, window: Window) // active writer taken out of the slot

  datatype State = State(slots: map<nat, Slot>, threads: map<nat, Pc>, inUse: nat, capacity: nat, clock: nat)

  function Key(pc: Pc): Option<nat> {
    match pc
    case Idle => None
    case Locking(_, _) => None
    case _ => Some(pc.key)
  }

  /** The thread carries a permit that is in no slot. */
  predicate InTransit(pc: Pc) {
    pc.Admitted? || pc.Closing?
  }

  // ---- steps --------------------------------------------------------------------------

  datatype Step =
    | Begin(key: nat, req: Request)
    | Lock
    | Buffer                      // write into the open writer
    | Acquire                     // take a permit
    | FindFull                    // fast path failed
    | SweepIdle(victim: nat)
    | EndSweep
    | TimeOut(victim: nat)        // the wait elapsed, the pool is still full: pick a victim
    | EvictVictim
    | Open(ok: bool)              // allocate the writer
    | Take                        // commit or rollback takes the slot's writer
    | Finish(ok: bool)

  function Unlocked(slot: Slot): Slot { slot.(holder := None) }

  /** A writer can be evicted by a scan: its lock is free and the slot occupied. */
  predicate Evictable(s: State, v: nat) {
    v in s.slots && s.slots[v].holder == None && s.slots[v].writer.Some?
  }

  predicate Enabled(s: State, t: nat, step: Step) {
    t in s.threads && (Key(s.threads[t]).Some? ==> Key(s.threads[t]).value in s.slots) &&
    var pc := s.threads[t];
    match step
    case Begin(key, _) => pc == Idle && key in s.slots
    case Lock => pc.Locking? && pc.key in s.slots && s.slots[pc.key].holder == None
    case Buffer => pc.Holding? && pc.req.Mutate? && pc.key in s.slots && s.slots[pc.key].writer.Some?
    case Acquire =>
      && s.inUse < s.capacity
      && ((pc.Holding? && pc.req.Mutate? && pc.key in s.slots && s.slots[pc.key].writer == None) || pc.Waiting?)
    case FindFull =>
      pc.Holding? && pc.req.Mutate? && pc.key in s.slots && s.slots[pc.key].writer == None && s.inUse >= s.capacity
    case SweepIdle(v) => (pc.Sweeping? || pc == Idle) && Evictable(s, v)  // idle: after a commit, or on demand
    case EndSweep => pc.Sweeping?
    case TimeOut(v) => pc.Waiting? && s.inUse >= s.capacity && Evictable(s, v)
    case EvictVictim => pc.Choosing? && pc.victim in s.slots && s.slots[pc.victim].holder == None
    case Open(_) => pc.Admitted? && pc.key in s.slots
    case Take => pc.Holding? && !pc.req.Mutate? && pc.key in s.slots
    case Finish(_) => pc.Closing? && pc.key in s.slots
  }

  function Release(inUse: nat): nat { if inUse > 0 then inUse - 1 else 0 }

  /** Every step changes one thread, at most one slot and the permit count. */
  datatype Change = Change(pc: Pc, inUse: nat, key: nat, slot: Slot)

  function Effect(s: State, t: nat, step: Step): Change
    requires Enabled(s, t, step)
  {
    var pc := s.threads[t];
    match step
    case Begin(key, req) => Change(Locking(key, req), s.inUse, key, s.slots[key])
    case Lock => Change(Holding(pc.key, pc.req), s.inUse, pc.key, s.slots[pc.key].(holder := Some(t), since := s.clock))
    case Buffer =>
      var slot := s.slots[pc.key];
      Change(Idle, s.inUse, pc.key, Unlocked(slot).(writer := Some(slot.writer.value + [pc.req.write])))
    case Acquire =>
      Change(Admitted(pc.key, if pc.Holding? then pc.req.write else pc.write), s.inUse + 1, pc.key, s.slots[pc.key])
    case FindFull => Change(Sweeping(pc.key, pc.req.write), s.inUse, pc.key, s.slots[pc.key])
    case SweepIdle(v) => Change(pc, Release(s.inUse), v, s.slots[v].(writer := None))
    case EndSweep => Change(Waiting(pc.key, pc.write), s.inUse, pc.key, s.slots[pc.key])
    case TimeOut(v) => Change(Choosing(pc.key, pc.write, v, s.clock), s.inUse, pc.key, s.slots[pc.key])
    case EvictVictim =>
      var slot := s.slots[pc.victim];
      var inUse := if slot.writer.Some? then Release(s.inUse) else s.inUse;
      Change(Waiting(pc.key, pc.write), inUse, pc.victim, slot.(writer := None))
    case Open(ok) =>
      var slot := Unlocked(s.slots[pc.key]);
      if ok then Change(Idle, s.inUse, pc.key, slot.(writer := Some([pc.write])))
      else Change(Idle, Release(s.inUse), pc.key, slot)
    case Take =>
      var slot := s.slots[pc.key];
      if slot.writer.Some?
      then Change(Closing(pc.key, pc.req, slot.writer.value), s.inUse, pc.key, slot.(writer := None))
      else Change(Idle, s.inUse, pc.key, Unlocked(slot))
    case Finish(ok) =>
      var slot := Unlocked(s.slots[pc.key]);
      Change(Idle, Release(s.inUse), pc.key,
             if ok && pc.req.CommitPending?
             then slot.(docs := ApplyOps(slot.docs, BufferedAll(pc.window)), closed := slot.closed + [pc.window])
             else slot)
  }

  function Apply(s: State, t: nat, c: Change): State {
    State(s.slots[c.key := c.slot], s.threads[t := c.pc], c.inUse, s.capacity, s.clock + 1)
  }

  // ---- the invariant ---------------------------------------------------------------------

  ghost predicate Locks(s: State) {
    && (forall t :: t in s.threads && Key(s.threads[t]).Some? ==>
          Key(s.threads[t]).value in s.slots && s.slots[Key(s.threads[t]).value].holder == Some(t))
    && (forall k :: k in s.slots && s.slots[k].holder.Some? ==>
          s.slots[k].holder.value in s.threads && Key(s.threads[s.slots[k].holder.value]) == Some(k))
    && (forall t :: t in s.threads && s.threads[t].Locking? ==> s.threads[t].key in s.slots)
  }

  /** Between finding its slot empty and filling it, a thread keeps it empty. */
  ghost predicate Empties(s: State) {
    forall t :: t in s.threads && Key(s.threads[t]).Some? && !s.threads[t].Holding? ==>
      Key(s.threads[t]).value in s.slots && s.slots[Key(s.threads[t]).value].writer == None
  }

  /** A victim was free when it was scanned, after the scanner took its own lock. */
  ghost predicate Times(s: State) {
    && (forall k :: k in s.slots ==> s.slots[k].since < s.clock)
    && (forall t :: t in s.threads && s.threads[t].Choosing? ==>
          var pc := s.threads[t];
          && pc.victim in s.slots && pc.victim != pc.key && pc.key in s.slots
          && s.slots[pc.key].since < pc.at < s.clock
          && (s.slots[pc.victim].holder.Some? ==> pc.at < s.slots[pc.victim].since))
  }

  function Occupied(s: State): set<nat> {
    set k | k in s.slots && s.slots[k].writer.Some?
  }

  function Transit(s: State): set<nat> {
    set t | t in s.threads && InTransit(s.threads[t])
  }

  /** Every permit is in an occupied slot or carried by one thread. */
  ghost predicate Permits(s: State) {
    s.inUse == |Occupied(s)| + |Transit(s)| && s.inUse <= s.capacity && s.capacity >= 1
  }

  ghost predicate Contents(s: State) {
    forall k :: k in s.slots ==> Holds(s.slots[k].docs, WonByAll(s.slots[k].closed))
  }

  ghost predicate Inv(s: State) {
    Locks(s) && Empties(s) && Times(s) && Permits(s) && Contents(s)
  }

  lemma OwnSlot(s: State, t: nat)
    requires Locks(s) && t in s.threads
    ensures Key(s.threads[t]).Some? ==> Key(s.threads[t]).value in s.slots
  {
  }

  function Next(s: State, t: nat, step: Step): State
    requires Enabled(s, t, step)
  {
    Apply(s, t, Effect(s, t, step))
  }
}
