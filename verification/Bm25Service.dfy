/** The writer pool and the eviction sweeps of the BM25 service, run by one
    thread: strict-idle sweep, forced least-recently-written eviction, and the
    admission loop that falls back from one to the other. */
module Bm25Service {
  const IDLE_EVICTION_COMMIT_THRESHOLD: nat := 100
  const IDLE_EVICTION_WALL_CLOCK_THRESHOLD_SECS: nat := 300
  const TWO_64: nat := 0x1_0000_0000_0000_0000

  // ---- idle tracking -------------------------------------------------------------------

  datatype Mark = Wrote(at: nat) | Committed

  function CommitsSince(log: seq<Mark>): nat {
    if log == [] || log[|log| - 1].Wrote? then 0 else CommitsSince(log[..|log| - 1]) + 1
  }

  function LastWrite(created: nat, log: seq<Mark>): nat {
    if log == [] then created
    else if log[|log| - 1].Wrote? then log[|log| - 1].at
    else LastWrite(created, log[..|log| - 1])
  }

  class IdleTracker {
    const created: nat
    var lastWriteTime: nat
    var commitsSinceLastWrite: nat
    ghost var log: seq<Mark>

    ghost predicate Valid()
      reads this
    {
      lastWriteTime == LastWrite(created, log) && commitsSinceLastWrite == CommitsSince(log) % TWO_64
    }

    constructor (now: nat)
      ensures Valid() && log == [] && created == now
    {
      created, lastWriteTime, commitsSinceLastWrite, log := now, now, 0, [];
    }

    method NoteWrite(now: nat)
      requires Valid()
      modifies this
      ensures Valid() && log == old(log) + [Wrote(now)]
    {
      lastWriteTime, commitsSinceLastWrite := now, 0;
      log := log + [Wrote(now)];
    }

    /** The counter is a wrapping 64-bit one. */
    method NoteCommit()
      requires Valid()
      modifies this
      ensures Valid() && log == old(log) + [Committed]
    {
      WrapInc(CommitsSince(log));
      commitsSinceLastWrite := (commitsSinceLastWrite + 1) % TWO_64;
      log := log + [Committed];
      assert log[..|log| - 1] == old(log);
    }

    /** Idle on either axis. */
    method IsIdle(now: nat) returns (idle: bool)
      requires Valid()
      ensures idle <==> CommitsSince(log) % TWO_64 >= 100 || now - LastWrite(created, log) >= 300
    {
      idle := commitsSinceLastWrite >= IDLE_EVICTION_COMMIT_THRESHOLD;
      if !idle {
        var elapsed := if now >= lastWriteTime then now - lastWriteTime else 0;
        idle := elapsed >= IDLE_EVICTION_WALL_CLOCK_THRESHOLD_SECS;
      }
    }
  }

  lemma WrapInc(n: nat)
    ensures (n % TWO_64 + 1) % TWO_64 == (n + 1) % TWO_64
  {
  }

  // ---- the sweeps ------------------------------------------------------------------------

  /** What a sweep sees of one cached handle: whether its slot holds a writer,
      whether its lock is held, whether it is idle, and its last write. */
  datatype Handle = Handle(occupied: bool, locked: bool, idle: bool, lastWrite: nat)

  predicate Eligible(h: Handle) { h.occupied && !h.locked }

  function Emptied(h: Handle): Handle { h.(occupied := false) }

  function Occupied(hs: seq<Handle>): nat {
    if hs == [] then 0 else Occupied(hs[..|hs| - 1]) + if hs[|hs| - 1].occupied then 1 else 0
  }

  lemma {:induction false} OccupiedUpdate(hs: seq<Handle>, i: nat, h: Handle)
    requires i < |hs|
    ensures Occupied(hs[i := h]) == Occupied(hs) + (if h.occupied then 1 else 0) - (if hs[i].occupied then 1 else 0)
    ensures hs[i].occupied ==> Occupied(hs) >= 1
    decreases |hs|
  {
    var last := |hs| - 1;
    if i == last {
      assert hs[i := h][..last] == hs[..last];
    } else {
      assert hs[i := h][..last] == hs[..last][i := h];
      OccupiedUpdate(hs[..last], i, h);
    }
  }

  /** The strict-idle sweep: empty every slot that is idle and not locked. */
  function Swept(hs: seq<Handle>): seq<Handle> {
    seq(|hs|, i requires 0 <= i < |hs| => if hs[i].idle && Eligible(hs[i]) then Emptied(hs[i]) else hs[i])
  }

  /** The first of the least recently written eligible handles. */
  predicate Oldest(hs: seq<Handle>, v: nat) {
    && v < |hs| && Eligible(hs[v])
    && (forall i :: 0 <= i < |hs| && Eligible(hs[i]) ==> hs[v].lastWrite <= hs[i].lastWrite)
    && (forall i :: 0 <= i < v && Eligible(hs[i]) ==> hs[v].lastWrite < hs[i].lastWrite)
  }

  function Evicted(hs: seq<Handle>, v: nat): seq<Handle>
    requires v < |hs|
  {
    hs[v := Emptied(hs[v])]
  }

  class Service {
    const capacity: nat
    var inUse: nat
    var handles: seq<Handle>

    /** Every permit in use is in an occupied slot. */
    ghost predicate Valid()
      reads this
    {
      inUse == Occupied(handles) && inUse <= capacity && capacity >= 1
    }

    /** Capacity is clamped to at least one. */
    constructor (configured: nat, tenants: nat)
      ensures Valid() && capacity == (if configured == 0 then 1 else configured) && |handles| == tenants
    {
      capacity := if configured == 0 then 1 else configured;
      inUse := 0;
      handles := seq(tenants, _ => Handle(false, false, false, 0));
      new;
      NoneOccupied(handles);
    }

    method EvictIdle() returns (count: nat)
      requires Valid()
      modifies this
      ensures Valid() && handles == Swept(old(handles)) && inUse + count == old(inUse)
      ensures |handles| == |old(handles)| && forall i :: 0 <= i < |handles| ==>
        var was := old(handles)[i];
        handles[i] == if was.occupied && was.idle && !was.locked then was.(occupied := false) else was
    {
      count := 0;
      ghost var start := handles;
      for i := 0 to |handles|
        invariant |handles| == |start|
        invariant forall k :: 0 <= k < i ==> handles[k] == Swept(start)[k]
        invariant forall k :: i <= k < |start| ==> handles[k] == start[k]
        invariant Valid() && inUse + count == old(inUse)
      {
        if handles[i].idle && Eligible(handles[i]) {
          OccupiedUpdate(handles, i, Emptied(handles[i]));
          handles := handles[i := Emptied(handles[i])];
          inUse := inUse - 1;
          count := count + 1;
        }
      }
      assert handles == Swept(start);
    }

    method EvictOneLru() returns (count: nat, victim: nat)
      requires Valid()
      modifies this
      ensures Valid()
      ensures count == 1 <==>
        exists i :: 0 <= i < |old(handles)| && old(handles)[i].occupied && !old(handles)[i].locked
      ensures count == 1 ==> Oldest(old(handles), victim) && handles == Evicted(old(handles), victim)
      ensures count == 1 ==> inUse == old(inUse) - 1
      ensures count != 1 ==> count == 0 && handles == old(handles) && inUse == old(inUse)
    {
      var found := false;
      count, victim := 0, 0;
      for i := 0 to |handles|
        invariant handles == old(handles) && inUse == old(inUse)
        invariant found <==> exists j :: 0 <= j < i && Eligible(handles[j])
        invariant found ==> victim < i && Oldest(handles[..i], victim)
      {
        if Eligible(handles[i]) && (!found || handles[i].lastWrite < handles[victim].lastWrite) {
          found, victim := true, i;
        }
        assert handles[..i + 1][..i] == handles[..i];
        assert forall j :: 0 <= j < i ==> handles[..i + 1][j] == handles[..i][j];
      }
      assert handles[..|handles|] == handles;
      if found {
        OccupiedUpdate(handles, victim, Emptied(handles[victim]));
        handles := handles[victim := Emptied(handles[victim])];
        inUse := inUse - 1;
        count := 1;
      }
    }

    /** Admission for a lone acquirer: take a free permit; otherwise sweep idle writers
        once; otherwise wait, and each time the wait elapses with the pool still full,
        force one eviction.  `patience` is how many waits elapse while it is watched.  It
        gets its permit exactly when one is free, the sweep frees one, or a wait elapses
        and some writer's lock is free; at most one eviction is ever forced, of the oldest
        writer, and only if the sweep freed nothing.  With every lock held it waits on. */
    method Acquire(patience: nat) returns (got: bool, forced: nat, victim: nat)
      requires Valid()
      modifies this
      ensures got <==> old(inUse) < capacity || Swept(old(handles)) != old(handles)
                       || (patience > 0 && exists i :: 0 <= i < |old(handles)| && Eligible(old(handles)[i]))
      ensures if got then inUse == Occupied(handles) + 1 && inUse <= capacity
              else Valid() && inUse == old(inUse) && handles == old(handles)
      ensures old(inUse) < capacity ==> forced == 0 && handles == old(handles)
      ensures old(inUse) == capacity && Swept(old(handles)) != old(handles) ==>
        forced == 0 && handles == Swept(old(handles))
      ensures old(inUse) == capacity && Swept(old(handles)) == old(handles) ==>
        if got then forced == 1 && Oldest(old(handles), victim) && handles == Evicted(old(handles), victim)
        else forced == 0
    {
      got, forced, victim := true, 0, 0;
      if inUse < capacity {
        inUse := inUse + 1;
        return;
      }
      var swept := EvictIdle();
      SweptSame(old(handles), swept);
      ghost var afterSweep := handles;
      var waits := 0;
      while inUse >= capacity && waits < patience
        invariant Valid() && forced <= 1 && forced <= waits <= patience
        invariant forced == 0 ==> handles == afterSweep && inUse == old(inUse) - swept
        invariant forced == 0 && waits > 0 ==> forall i :: 0 <= i < |handles| ==> !Eligible(handles[i])
        invariant forced == 1 ==> afterSweep == old(handles) && inUse < capacity && Oldest(afterSweep, victim)
                                  && handles == Evicted(afterSweep, victim)
        decreases patience - waits
      {
        var count;
        count, victim := EvictOneLru();
        forced := forced + count;
        waits := waits + 1;
      }
      got := inUse < capacity;
      if got { inUse := inUse + 1; }
    }
  }

  lemma {:induction false} NoneOccupied(hs: seq<Handle>)
    requires forall i :: 0 <= i < |hs| ==> !hs[i].occupied
    ensures Occupied(hs) == 0
    decreases |hs|
  {
    if hs == [] {
    } else {
      NoneOccupied(hs[..|hs| - 1]);
    }
  }

  /** The sweep freed nothing exactly when it changed nothing. */
  lemma SweptSame(hs: seq<Handle>, count: nat)
    requires Occupied(Swept(hs)) + count == Occupied(hs)
    ensures count == 0 <==> Swept(hs) == hs
  {
    if count == 0 { SweptFewer(hs); }
  }

  lemma {:induction false} SweptFewer(hs: seq<Handle>)
    ensures Occupied(Swept(hs)) <= Occupied(hs)
    ensures Occupied(Swept(hs)) == Occupied(hs) ==> Swept(hs) == hs
    decreases |hs|
  {
    if hs == [] {
    } else {
      var front := hs[..|hs| - 1];
      SweptFewer(front);
      assert Swept(hs)[..|hs| - 1] == Swept(front);
      assert hs == front + [hs[|hs| - 1]];
    }
  }
}
