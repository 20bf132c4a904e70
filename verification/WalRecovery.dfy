/** Checkpoints, WAL reclamation and checkpoint-anchored replay: a commit is installed in
    memory, becomes durable in the active segment in any order, and is made visible in
    LSN order; a checkpoint captures the visible memory under the commit freeze, and old
    segments are deleted one by one behind its frontier. */
module WalRecovery {
  type Lsn = nat
  type History = map<Lsn, string>

  datatype Commit = Commit(lsn: Lsn, payload: string)
  type Segment = seq<Commit>

  /** How far a commit in flight is: installed but not logged, logged, or failed to be. */
  datatype Progress = Building | Written | Failed

  /** `floor` and `snapshot` are the established checkpoint.  `live` is the memory, with
      the commits in flight already installed; readers see it up to `visible`.  Commits
      complete in LSN order, up to `done`; `next` is the next LSN. */
  datatype Store = Store(segments: seq<Segment>, floor: Lsn, snapshot: History, live: History,
                         flight: map<Lsn, Progress>, visible: Lsn, done: Lsn, next: Lsn)

  datatype Event =
    | Begin(payload: string)
    | Append(commit: Commit, rotate: bool)
    | Fail(lsn: Lsn)
    | Complete
    | Establish
    | ReclaimFirst
    | Crash(next: Lsn)

  // ---- the machine -----------------------------------------------------------------------

  function MaxLsn(seg: Segment): Lsn {
    if seg == [] then 0
    else
      var rest := MaxLsn(seg[..|seg| - 1]);
      if seg[|seg| - 1].lsn > rest then seg[|seg| - 1].lsn else rest
  }

  /** The reclaimer's test on the oldest segment: not the active one, and every
      commit in it at or below the frontier. */
  predicate Reclaimable(s: Store) {
    s.floor != 0 && |s.segments| > 1 && MaxLsn(s.segments[0]) <= s.floor
  }

  predicate Enabled(s: Store, ev: Event) {
    match ev
    case Begin(_) => true
    case Append(c, _) =>
      && c.lsn in s.flight && s.flight[c.lsn] == Building
      && c.lsn in s.live && s.live[c.lsn] == c.payload
    case Fail(n) => n in s.flight && s.flight[n] == Building
    case Complete => s.done + 1 in s.flight && s.flight[s.done + 1] != Building  // its predecessors have completed
    case Establish => s.flight == map[]                                        // the commit freeze waits for them
    case ReclaimFirst => Reclaimable(s)
    case Crash(next) => s.floor < next && forall n :: n in Recovered(s) ==> n < next  // the replay's high-water mark
  }

  function Appended(segments: seq<Segment>, c: Commit, rotate: bool): seq<Segment> {
    if rotate || segments == [] then segments + [[c]]
    else segments[..|segments| - 1] + [segments[|segments| - 1] + [c]]
  }

  function Records(seg: Segment): History {
    if seg == [] then map[] else Records(seg[..|seg| - 1])[seg[|seg| - 1].lsn := seg[|seg| - 1].payload]
  }

  function Logged(segments: seq<Segment>): History {
    if segments == [] then map[] else Logged(segments[..|segments| - 1]) + Records(segments[|segments| - 1])
  }

  function Above(m: History, floor: Lsn): History { map n | n in m && n > floor :: m[n] }

  function Upto(m: History, n: Lsn): History { map k | k in m && k <= n :: m[k] }

  /** Restore the checkpoint, then replay what is logged above its frontier. */
  function Recovered(s: Store): History { s.snapshot + Above(Logged(s.segments), s.floor) }

  function Pick(m: History): (n: Lsn)
    requires m != map[]
    ensures n in m
  {
    MinExists(m.Keys);
    var n :| n in m && forall j :: j in m ==> n <= j;
    n
  }

  lemma MinExists(keys: set<Lsn>)
    requires keys != {}
    ensures exists n :: n in keys && forall j :: j in keys ==> n <= j
  {
    var n := Least(keys);
  }

  lemma {:induction false} Least(keys: set<Lsn>) returns (n: Lsn)
    requires keys != {}
    ensures n in keys && forall j :: j in keys ==> n <= j
    decreases |keys|
  {
    n :| n in keys;
    var rest := keys - {n};
    if rest != {} {
      var m := Least(rest);
      assert keys == rest + {n};
      if m < n { n := m; }
    } else {
      assert keys == {n};
    }
  }

  /** A failed commit is rolled back when its turn comes.  A crash loses the memory, and
      recovery rebuilds it and seeds the counters past the newest durable commit. */
  function Next(s: Store, ev: Event): Store
    requires Enabled(s, ev)
  {
    match ev
    case Begin(payload) =>
      s.(live := s.live[s.next := payload], flight := s.flight[s.next := Building], next := s.next + 1)
    case Append(c, rotate) =>
      s.(segments := Appended(s.segments, c, rotate), flight := s.flight[c.lsn := Written])
    case Fail(n) => s.(flight := s.flight[n := Failed])
    case Complete =>
      var n := s.done + 1;
      if s.flight[n] == Written then s.(flight := s.flight - {n}, visible := n, done := n)
      else s.(flight := s.flight - {n}, live := s.live - {n}, done := n)
    case Establish => s.(floor := s.visible, snapshot := Upto(s.live, s.visible))
    case ReclaimFirst => s.(segments := s.segments[1..])
    case Crash(next) =>
      s.(live := Recovered(s), flight := map[], next := next,
         visible := if next > 0 then next - 1 else 0, done := if next > 0 then next - 1 else 0)
  }

  // ---- recovery is the fold of all durable commits ---------------------------------------------

  /** The memory without the commits that are not durable. */
  function Settled(live: History, flight: map<Lsn, Progress>): History {
    map n | n in live && !(n in flight && flight[n] != Written) :: live[n]
  }

  ghost predicate Counters(s: Store) {
    && s.floor <= s.visible <= s.done < s.next
    && (forall n :: n in s.flight <==> s.done < n < s.next)
    && (forall n :: n in s.flight ==> n in s.live)
    && (forall n :: n in s.live ==> n <= s.visible || n in s.flight)
  }

  ghost predicate Log(s: Store) {
    && (forall n :: n in s.snapshot ==> n <= s.floor)
    && (forall n :: n in Logged(s.segments) ==> n < s.next)
    && (forall n :: n in s.flight ==> (n in Logged(s.segments) <==> s.flight[n] == Written))
    && (forall n :: n in Logged(s.segments) && n <= s.floor ==>
          n in s.snapshot && s.snapshot[n] == Logged(s.segments)[n])
  }

  /** What recovery would yield is what the memory holds, less what is not durable. */
  ghost predicate Inv(s: Store) {
    Counters(s) && Log(s) && Recovered(s) == Settled(s.live, s.flight)
  }

  /** The durable commits after an event: an append adds one, nothing takes one
      away. */
  function Durable(durable: History, ev: Event): History {
    if ev.Append? then durable[ev.commit.lsn := ev.commit.payload] else durable
  }

  lemma AppendLogs(segments: seq<Segment>, c: Commit, rotate: bool)
    ensures Logged(Appended(segments, c, rotate)) == Logged(segments)[c.lsn := c.payload]
  {
    if rotate || segments == [] {
      assert (segments + [[c]])[..|segments|] == segments;
      assert [c][..0] == [];
      assert Records([c]) == map[c.lsn := c.payload];
    } else {
      var front, last := segments[..|segments| - 1], segments[|segments| - 1];
      var next := front + [last + [c]];
      assert next[..|next| - 1] == front;
      assert (last + [c])[..|last|] == last;
    }
  }

  lemma MergeAssociates(a: History, b: History, c: History)
    ensures a + (b + c) == (a + b) + c
    ensures map[] + a == a && a + map[] == a
  {
  }

  lemma {:induction false} FirstSegment(segments: seq<Segment>)
    requires segments != []
    ensures Logged(segments) == Records(segments[0]) + Logged(segments[1..])
    decreases |segments|
  {
    hide Records;
    var front, last := segments[..|segments| - 1], segments[|segments| - 1];
    if |segments| > 1 {
      FirstSegment(front);
      assert segments[1..][..|segments| - 2] == front[1..];
      MergeAssociates(Records(segments[0]), Logged(front[1..]), Records(last));
    } else {
      MergeAssociates(Records(last), map[], map[]);
      assert front == [] && segments[1..] == [];
    }
  }

  lemma {:induction false} MaxBounds(seg: Segment)
    ensures forall n :: n in Records(seg) ==> n <= MaxLsn(seg)
  {
    if seg == [] {
    } else {
      MaxBounds(seg[..|seg| - 1]);
    }
  }

  /** Deleting a segment at or below the frontier changes nothing that replay
      would use. */
  lemma ReclaimKeeps(s: Store)
    requires Reclaimable(s)
    ensures Above(Logged(s.segments[1..]), s.floor) == Above(Logged(s.segments), s.floor)
    ensures forall n :: n in Logged(s.segments[1..]) ==>
      n in Logged(s.segments) && Logged(s.segments)[n] == Logged(s.segments[1..])[n]
    ensures forall n :: n in Logged(s.segments) && n > s.floor ==> n in Logged(s.segments[1..])
  {
    FirstSegment(s.segments);
    MaxBounds(s.segments[0]);
  }

  lemma SettledMoves(live: History, flight: map<Lsn, Progress>, n: Lsn)
    requires n in flight && n in live
    ensures Settled(live, flight[n := Written]) == Settled(live, flight)[n := live[n]]
    ensures flight[n] == Building ==> Settled(live, flight[n := Failed]) == Settled(live, flight)
    ensures flight[n] == Written ==> Settled(live, flight - {n}) == Settled(live, flight)
    ensures flight[n] == Failed ==> Settled(live - {n}, flight - {n}) == Settled(live, flight)
  {
  }

  lemma SettledBegins(live: History, flight: map<Lsn, Progress>, n: Lsn, payload: string)
    requires n !in flight && n !in live
    ensures Settled(live[n := payload], flight[n := Building]) == Settled(live, flight)
  {
  }

  lemma SettledQuiet(live: History)
    ensures Settled(live, map[]) == live
  {
  }

  lemma RecoversMore(snapshot: History, logged: History, floor: Lsn, c: Commit)
    requires c.lsn > floor
    ensures snapshot + Above(logged[c.lsn := c.payload], floor) ==
      (snapshot + Above(logged, floor))[c.lsn := c.payload]
  {
  }

  lemma BeginKeeps(s: Store, payload: string)
    requires Inv(s)
    ensures Inv(Next(s, Begin(payload))) && Recovered(Next(s, Begin(payload))) == Recovered(s)
  {
    hide Logged, Settled, Recovered;
    assert s.next !in s.flight && s.next !in s.live;
    SettledBegins(s.live, s.flight, s.next, payload);
    SameLog(s, Next(s, Begin(payload)));
  }

  /** Recovery reads only the checkpoint and the log. */
  lemma SameLog(s: Store, s': Store)
    requires s'.segments == s.segments && s'.floor == s.floor && s'.snapshot == s.snapshot
    ensures Recovered(s') == Recovered(s)
  {
  }

  lemma AppendKeeps(s: Store, c: Commit, rotate: bool)
    requires Inv(s) && Enabled(s, Append(c, rotate))
    ensures Inv(Next(s, Append(c, rotate)))
    ensures Recovered(Next(s, Append(c, rotate))) == Recovered(s)[c.lsn := c.payload]
  {
    hide Logged, Appended, Settled, Above;
    assert s.done < c.lsn;
    AppendLogs(s.segments, c, rotate);
    SettledMoves(s.live, s.flight, c.lsn);
    RecoversMore(s.snapshot, Logged(s.segments), s.floor, c);
  }

  lemma FailKeeps(s: Store, n: Lsn)
    requires Inv(s) && Enabled(s, Fail(n))
    ensures Inv(Next(s, Fail(n))) && Recovered(Next(s, Fail(n))) == Recovered(s)
  {
    hide Logged, Settled, Recovered;
    SettledMoves(s.live, s.flight, n);
    SameLog(s, Next(s, Fail(n)));
  }

  lemma CompleteKeeps(s: Store)
    requires Inv(s) && Enabled(s, Complete)
    ensures Inv(Next(s, Complete)) && Recovered(Next(s, Complete)) == Recovered(s)
  {
    hide Logged, Settled, Recovered;
    assert s.done < s.done + 1 < s.next;
    SettledMoves(s.live, s.flight, s.done + 1);
    SameLog(s, Next(s, Complete));
  }

  /** Under the freeze the memory and the log agree. */
  lemma QuietAgrees(s: Store)
    requires Inv(s) && s.flight == map[]
    ensures Recovered(s) == s.live == Upto(s.live, s.visible)
    ensures forall n :: n in Logged(s.segments) ==>
      n <= s.visible && n in s.live && s.live[n] == Logged(s.segments)[n]
  {
    hide Logged, Settled;
    SettledQuiet(s.live);
    assert Upto(s.live, s.visible) == s.live;
    forall n | n in Logged(s.segments) ensures n in s.live && s.live[n] == Logged(s.segments)[n] {
      assert n > s.floor ==> n in Above(Logged(s.segments), s.floor);
    }
  }

  /** The capture is of the memory, not of the log. */
  lemma EstablishKeeps(s: Store)
    requires Inv(s) && s.flight == map[]
    ensures Inv(Next(s, Establish)) && Recovered(Next(s, Establish)) == Recovered(s)
  {
    hide Logged, Settled, Upto;
    QuietAgrees(s);
    SettledQuiet(s.live);
    assert Above(Logged(s.segments), s.visible) == map[];
    MergeAssociates(s.live, s.live, s.live);
  }

  lemma CrashKeeps(s: Store, next: Lsn)
    requires Inv(s) && Enabled(s, Crash(next))
    ensures Inv(Next(s, Crash(next))) && Recovered(Next(s, Crash(next))) == Recovered(s)
  {
    hide Logged, Settled;
    SettledQuiet(Recovered(s));
    assert forall n :: n in Logged(s.segments) && n > s.floor ==>
      n in Above(Logged(s.segments), s.floor) && n in Recovered(s);
  }

  lemma StepRecovers(s: Store, ev: Event)
    requires Inv(s) && Enabled(s, ev)
    ensures Inv(Next(s, ev)) && Recovered(Next(s, ev)) == Durable(Recovered(s), ev)
  {
    hide Logged, Inv;
    match ev
    case Begin(payload) => BeginKeeps(s, payload);
    case Append(c, rotate) => AppendKeeps(s, c, rotate);
    case Fail(n) => FailKeeps(s, n);
    case Complete => CompleteKeeps(s);
    case Establish => EstablishKeeps(s);
    case ReclaimFirst => ReclaimStep(s);
    case Crash(next) => CrashKeeps(s, next);
  }

  lemma ReclaimStep(s: Store)
    requires Inv(s) && Reclaimable(s)
    ensures Inv(Next(s, ReclaimFirst)) && Recovered(Next(s, ReclaimFirst)) == Recovered(s)
  {
    hide Logged, MaxLsn, Settled, Above;
    ReclaimKeeps(s);
  }

  lemma {:induction false} MaxIs(seg: Segment)
    ensures forall c :: c in seg ==> c.lsn <= MaxLsn(seg)
    ensures MaxLsn(seg) > 0 ==> exists c :: c in seg && c.lsn == MaxLsn(seg)
  {
    if seg == [] {
    } else {
      var front, last := seg[..|seg| - 1], seg[|seg| - 1];
      MaxIs(front);
      assert seg == front + [last];
      if last.lsn > MaxLsn(front) { assert last in seg; }
    }
  }

  /** The reclaimer's loop: oldest first, it stops at the active segment or at one
      that holds a commit above the frontier. */
  method ReclaimSegmentsBelow(s: Store) returns (after: Store, deleted: nat)
    requires Inv(s)
    ensures deleted <= |s.segments| && after == s.(segments := s.segments[deleted..])
    ensures Inv(after) && Recovered(after) == Recovered(s)
    ensures (s.segments != [] ==> deleted < |s.segments|) && (s.floor == 0 ==> deleted == 0)
    ensures forall i, c :: 0 <= i < deleted && c in s.segments[i] ==> c.lsn <= s.floor
    ensures s.floor != 0 && deleted + 1 < |s.segments| ==> exists c :: c in s.segments[deleted] && c.lsn > s.floor
  {
    hide Logged, MaxLsn, Inv, Recovered;
    after, deleted := s, 0;
    while Reclaimable(after)
      invariant deleted <= |s.segments| && after == s.(segments := s.segments[deleted..])
      invariant Inv(after) && Recovered(after) == Recovered(s)
      invariant (s.segments != [] ==> deleted < |s.segments|) && (s.floor == 0 ==> deleted == 0)
      invariant forall i, c :: 0 <= i < deleted && c in s.segments[i] ==> c.lsn <= s.floor
      decreases |after.segments|
    {
      StepRecovers(after, ReclaimFirst);
      MaxIs(after.segments[0]);
      after, deleted := Next(after, ReclaimFirst), deleted + 1;
    }
    if s.floor != 0 && deleted + 1 < |s.segments| { MaxIs(s.segments[deleted]); }
  }

  ghost predicate Valid(s: Store, run: seq<Event>)
    decreases |run|
  {
    run != [] ==> Enabled(s, run[0]) && Valid(Next(s, run[0]), run[1..])
  }

  ghost function End(s: Store, run: seq<Event>): Store
    requires Valid(s, run)
    decreases |run|
  {
    if run == [] then s else End(Next(s, run[0]), run[1..])
  }

  function DurableAfter(durable: History, run: seq<Event>): History
    decreases |run|
  {
    if run == [] then durable else DurableAfter(Durable(durable, run[0]), run[1..])
  }

  lemma {:induction false} RunsRecover(s: Store, run: seq<Event>)
    requires Inv(s) && Valid(s, run)
    ensures Inv(End(s, run)) && Recovered(End(s, run)) == DurableAfter(Recovered(s), run)
    decreases |run|
  {
    hide Inv, Recovered, Enabled, Next;
    if run == [] {
    } else {
      StepRecovers(s, run[0]);
      RunsRecover(Next(s, run[0]), run[1..]);
    }
  }

  function Empty(): Store { Store([], 0, map[], map[], map[], 0, 0, 1) }

  /** For a crash at any point of any run - between establishing a checkpoint and
      deleting segments, or between two deletions - anchored recovery yields
      exactly the commits that ever became durable. */
  lemma AnchoredRecoveryIsComplete(run: seq<Event>)
    requires Valid(Empty(), run)
    ensures Recovered(End(Empty(), run)) == DurableAfter(map[], run)
  {
    hide Inv, Recovered, Valid, End;
    EmptyInv();
    RunsRecover(Empty(), run);
  }

  lemma EmptyInv()
    ensures Inv(Empty()) && Unique(Empty().segments) && Intact(Empty()) && Recovered(Empty()) == map[]
  {
  }

  /** At every point of every run, what readers can see is what recovery would give up to
      the same LSN; and when nothing is in flight the whole memory is. */
  lemma VisibleIsRecovered(run: seq<Event>)
    requires Valid(Empty(), run)
    ensures var s := End(Empty(), run);
      Upto(s.live, s.visible) == Upto(Recovered(s), s.visible) && (s.flight == map[] ==> s.live == Recovered(s))
  {
    hide Logged, Valid, End, Recovered, Settled;
    EmptyInv();
    RunsRecover(Empty(), run);
    var s := End(Empty(), run);
    SettledBelow(s.live, s.flight, s.visible);
    SettledQuiet(s.live);
  }

  lemma SettledBelow(live: History, flight: map<Lsn, Progress>, n: Lsn)
    requires forall k :: k in flight ==> n < k
    ensures Upto(live, n) == Upto(Settled(live, flight), n)
  {
  }

  // ---- replaying from zero --------------------------------------------------------------------------

  /** Nothing the checkpoint captured is missing from the log. */
  ghost predicate Intact(s: Store) {
    forall n :: n in s.snapshot ==> n in Logged(s.segments)
  }

  lemma IntactIff(s: Store)
    requires Inv(s)
    ensures Logged(s.segments) == Recovered(s) <==> Intact(s)
  {
    hide Logged;
    var logged := Logged(s.segments);
    if Intact(s) {
      assert forall n :: n in logged && n > s.floor ==> n in Above(logged, s.floor);
      assert logged.Keys == Recovered(s).Keys;
    } else {
      var n :| n in s.snapshot && n !in logged;
      assert n in Recovered(s);
    }
  }

  /** No LSN is logged in two segments. */
  ghost predicate Unique(segments: seq<Segment>) {
    forall i, j :: 0 <= i < j < |segments| ==> Records(segments[i]).Keys !! Records(segments[j]).Keys
  }

  lemma {:induction false} LoggedSomewhere(segments: seq<Segment>, n: Lsn)
    ensures n in Logged(segments) <==> exists i :: 0 <= i < |segments| && n in Records(segments[i])
  {
    if segments == [] {
    } else {
      var front := segments[..|segments| - 1];
      LoggedSomewhere(front, n);
      assert forall i :: 0 <= i < |front| ==> front[i] == segments[i];
    }
  }

  lemma AppendUnique(segments: seq<Segment>, c: Commit, rotate: bool)
    requires Unique(segments) && c.lsn !in Logged(segments)
    ensures Unique(Appended(segments, c, rotate))
  {
    hide Logged;
    LoggedSomewhere(segments, c.lsn);
    RecordsOne(c);
    if !rotate && segments != [] {
      var last := segments[|segments| - 1];
      assert (last + [c])[..|last|] == last;
      assert Records(last + [c]) == Records(last)[c.lsn := c.payload];
    }
  }

  /** Deleting a segment that holds a commit takes that commit out of the log, and the
      checkpoint has it. */
  lemma ReclaimLoses(s: Store)
    requires Inv(s) && Unique(s.segments) && Reclaimable(s)
    ensures Unique(s.segments[1..])
    ensures Records(s.segments[0]) != map[] ==> !Intact(Next(s, ReclaimFirst))
    ensures Records(s.segments[0]) == map[] ==> Logged(s.segments[1..]) == Logged(s.segments)
  {
    hide Logged, MaxLsn, Recovered, Counters, Settled;
    var first, rest := s.segments[0], s.segments[1..];
    FirstSegment(s.segments);
    if Records(first) != map[] {
      var n :| n in Records(first);
      MaxBounds(first);
      LoggedSomewhere(rest, n);
      assert n in Logged(s.segments) && n <= s.floor;
    } else {
      MergeAssociates(Logged(rest), map[], map[]);
    }
  }

  /** The event deletes a segment that holds a commit. */
  predicate Deletes(s: Store, ev: Event) {
    ev.ReclaimFirst? && s.segments != [] && Records(s.segments[0]) != map[]
  }

  lemma ZeroStep(s: Store, ev: Event)
    requires Inv(s) && Unique(s.segments) && Enabled(s, ev)
    ensures Unique(Next(s, ev).segments)
    ensures Intact(Next(s, ev)) <==> Intact(s) && !Deletes(s, ev)
  {
    hide Logged, Unique, MaxLsn, Records, Recovered, Settled, Appended;
    match ev
    case Append(c, rotate) =>
      AppendUnique(s.segments, c, rotate);
      AppendLogs(s.segments, c, rotate);
      assert s.done < c.lsn;
    case Establish => EstablishIntact(s);
    case ReclaimFirst =>
      ReclaimLoses(s);
      ReclaimKeeps(s);
      if !Intact(s) { var n :| n in s.snapshot && n !in Logged(s.segments); }
    case _ =>
  }

  /** A new checkpoint captures what was captured before. */
  lemma EstablishIntact(s: Store)
    requires Inv(s) && s.flight == map[]
    ensures Intact(Next(s, Establish)) <==> Intact(s)
  {
    hide Logged, Settled, Upto;
    QuietAgrees(s);
    if !Intact(s) {
      var n :| n in s.snapshot && n !in Logged(s.segments);
      assert n in Recovered(s);
    }
  }

  /** Some reclamation of the run deleted a segment that held a commit. */
  ghost predicate Deleted(s: Store, run: seq<Event>)
    requires Valid(s, run)
    decreases |run|
  {
    run != [] && (Deletes(s, run[0]) || Deleted(Next(s, run[0]), run[1..]))
  }

  lemma {:induction false} ZeroRuns(s: Store, run: seq<Event>)
    requires Inv(s) && Unique(s.segments) && Valid(s, run)
    ensures Intact(End(s, run)) <==> Intact(s) && !Deleted(s, run)
    decreases |run|
  {
    hide Inv, Intact, Unique, Enabled, Next, Deletes;
    if run == [] {
    } else {
      StepRecovers(s, run[0]);
      ZeroStep(s, run[0]);
      ZeroRuns(Next(s, run[0]), run[1..]);
    }
  }

  /** Replaying from zero, as for a directory without a usable checkpoint, yields the same
      exactly when no reclamation of the run has deleted a segment that held a commit. */
  lemma FromZeroIffNothingReclaimed(run: seq<Event>)
    requires Valid(Empty(), run)
    ensures var s := End(Empty(), run); Logged(s.segments) == Recovered(s) <==> !Deleted(Empty(), run)
  {
    hide Logged, Valid, End, Deleted, Inv, Unique, Intact, Recovered;
    EmptyInv();
    RunsRecover(Empty(), run);
    ZeroRuns(Empty(), run);
    IntactIff(End(Empty(), run));
  }

  lemma RecordsOne(c: Commit)
    ensures Records([c]) == map[c.lsn := c.payload] && MaxLsn([c]) == c.lsn
  {
  }

  lemma Steps(s: Store, ev: Event, rest: seq<Event>)
    requires Enabled(s, ev) && Valid(Next(s, ev), rest)
    ensures Valid(s, [ev] + rest) && End(s, [ev] + rest) == End(Next(s, ev), rest)
    ensures Deleted(s, [ev] + rest) <==> Deletes(s, ev) || Deleted(Next(s, ev), rest)
  {
    assert ([ev] + rest)[1..] == rest;
  }

  /** One commit from start to end. */
  function CommitOne(c: Commit, rotate: bool, rest: seq<Event>): seq<Event> {
    [Begin(c.payload)] + ([Append(c, rotate)] + ([Complete] + rest))
  }

  function Quiet(segments: seq<Segment>, m: History, n: Lsn): Store { Store(segments, 0, map[], m, map[], n, n, n + 1) }

  lemma CommitRuns(segments: seq<Segment>, m: History, n: Lsn, payload: string, rotate: bool, rest: seq<Event>)
    requires n + 1 !in m
    requires Valid(Quiet(Appended(segments, Commit(n + 1, payload), rotate), m[n + 1 := payload], n + 1), rest)
    ensures var s, c := Quiet(segments, m, n), Commit(n + 1, payload);
      var s' := Quiet(Appended(segments, c, rotate), m[n + 1 := payload], n + 1);
      && Valid(s, CommitOne(c, rotate, rest)) && End(s, CommitOne(c, rotate, rest)) == End(s', rest)
      && (Deleted(s, CommitOne(c, rotate, rest)) <==> Deleted(s', rest))
  {
    hide Valid, End, Deleted, Appended;
    var s, c := Quiet(segments, m, n), Commit(n + 1, payload);
    var s1 := Next(s, Begin(payload));
    var s2 := Next(s1, Append(c, rotate));
    var s3 := Next(s2, Complete);
    assert s3.flight == map[];
    assert s3 == Quiet(Appended(segments, c, rotate), m[n + 1 := payload], n + 1);
    Steps(s2, Complete, rest);
    Steps(s1, Append(c, rotate), [Complete] + rest);
    Steps(s, Begin(payload), [Append(c, rotate)] + ([Complete] + rest));
  }

  lemma NoMore(s: Store)
    ensures Valid(s, []) && End(s, []) == s && !Deleted(s, [])
  {
  }

  /** Two commits in two segments, a checkpoint and the reclamation behind it. */
  function LosingRun(): seq<Event> {
    CommitOne(Commit(1, "a"), true, CommitOne(Commit(2, "b"), true, [Establish] + ([ReclaimFirst] + [])))
  }

  /** From zero, that run loses a commit that became durable. */
  lemma FromZeroCanLose()
    ensures Valid(Empty(), LosingRun())
    ensures var s := End(Empty(), LosingRun()); Logged(s.segments) != Recovered(s) == map[1 := "a", 2 := "b"]
  {
    hide Valid, End, Deleted, Logged, Recovered, Records;
    var a, b := Commit(1, "a"), Commit(2, "b");
    var two := Quiet([[a], [b]], map[1 := "a", 2 := "b"], 2);
    var kept := Next(two, Establish);
    RecordsOne(a);
    NoMore(Next(kept, ReclaimFirst));
    Steps(kept, ReclaimFirst, []);
    Steps(two, Establish, [ReclaimFirst] + []);
    var none: seq<Segment>, nothing: History := [], map[];
    assert [[a]] + [[b]] == [[a], [b]] && none + [[a]] == [[a]];
    assert map[1 := "a"] == nothing[1 := "a"];
    assert map[1 := "a"][2 := "b"] == map[1 := "a", 2 := "b"];
    CommitRuns([[a]], map[1 := "a"], 1, "b", true, [Establish] + ([ReclaimFirst] + []));
    CommitRuns(none, nothing, 0, "a", true, CommitOne(b, true, [Establish] + ([ReclaimFirst] + [])));
    FromZeroIffNothingReclaimed(LosingRun());
    AnchoredRecoveryIsComplete(LosingRun());
    LosingDurable();
  }

  lemma LosingDurable()
    ensures DurableAfter(map[], LosingRun()) == map[1 := "a", 2 := "b"]
  {
    var tail: seq<Event> := [Establish] + ([ReclaimFirst] + []);
    DurableCommit(map[], Commit(1, "a"), true, CommitOne(Commit(2, "b"), true, tail));
    DurableCommit(map[1 := "a"], Commit(2, "b"), true, tail);
    assert tail[1..] == [ReclaimFirst] && [ReclaimFirst][1..] == [];
  }

  lemma DurableCommit(m: History, c: Commit, rotate: bool, rest: seq<Event>)
    ensures DurableAfter(m, CommitOne(c, rotate, rest)) == DurableAfter(m[c.lsn := c.payload], rest)
  {
    var run := CommitOne(c, rotate, rest);
    assert run[1..] == [Append(c, rotate)] + ([Complete] + rest);
    assert run[1..][1..] == [Complete] + rest && run[1..][1..][1..] == rest;
    var m' := m[c.lsn := c.payload];
    assert DurableAfter(m, run) == DurableAfter(m, run[1..]);
    assert DurableAfter(m, run[1..]) == DurableAfter(m', run[1..][1..]);
  }

  // ---- the replay loop ---------------------------------------------------------------------------

  lemma Shrinks(m: History, n: Lsn)
    requires n in m
    ensures |m - {n}| < |m|
  {
  }

  /** The commits of a history in LSN order. */
  function InOrder(m: History): seq<Commit>
    decreases |m|
  {
    if m == map[] then []
    else
      var n := Pick(m);
      Shrinks(m, n);
      [Commit(n, m[n])] + InOrder(m - {n})
  }

  lemma PickLow(low: History, high: History, floor: Lsn)
    requires low != map[] && (forall n :: n in low ==> n <= floor) && (forall n :: n in high ==> n > floor)
    ensures low + high != map[] && Pick(low + high) == Pick(low) && (low + high)[Pick(low)] == low[Pick(low)]
    ensures (low + high) - {Pick(low)} == (low - {Pick(low)}) + high
  {
  }

  /** Everything low comes before everything high. */
  lemma {:induction false} InOrderSplits(low: History, high: History, floor: Lsn)
    requires forall n :: n in low ==> n <= floor
    requires forall n :: n in high ==> n > floor
    ensures InOrder(low + high) == InOrder(low) + InOrder(high)
    decreases |low|
  {
    hide Pick;
    if low == map[] {
      MergeAssociates(high, high, high);
    } else {
      var n := Pick(low);
      PickLow(low, high, floor);
      Shrinks(low, n);
      InOrderSplits(low - {n}, high, floor);
    }
  }

  /** Read every retained record in disk order and keep those above the floor. */
  method Buffered(segments: seq<Segment>, floor: Lsn) returns (buffer: History)
    ensures buffer == Above(Logged(segments), floor)
  {
    buffer := map[];
    for k := 0 to |segments|
      invariant buffer == Above(Logged(segments[..k]), floor)
    {
      assert segments[..k + 1][..k] == segments[..k];
      buffer := BufferedSegment(buffer, segments[k], floor, Logged(segments[..k]));
    }
    assert segments[..|segments|] == segments;
  }

  method BufferedSegment(before: History, seg: Segment, floor: Lsn, ghost logged: History) returns (buffer: History)
    requires before == Above(logged, floor)
    ensures buffer == Above(logged + Records(seg), floor)
  {
    buffer := before;
    MergeAssociates(logged, logged, logged);
    for i := 0 to |seg|
      invariant buffer == Above(logged + Records(seg[..i]), floor)
    {
      assert seg[..i + 1][..i] == seg[..i];
      AboveUpdate(logged, Records(seg[..i]), seg[i], floor);
      if seg[i].lsn > floor { buffer := buffer[seg[i].lsn := seg[i].payload]; }
    }
    assert seg[..|seg|] == seg;
  }

  lemma AboveUpdate(a: History, b: History, c: Commit, floor: Lsn)
    ensures Above(a + b[c.lsn := c.payload], floor) ==
      if c.lsn > floor then Above(a + b, floor)[c.lsn := c.payload] else Above(a + b, floor)
  {
  }

  /** Drain the buffer in LSN order, keeping the high-water mark. */
  method Drain(before: seq<Commit>, pending: History, floor: Lsn) returns (applied: seq<Commit>, highWater: Lsn)
    ensures applied == before + InOrder(pending)
    ensures highWater >= floor && forall n :: n in pending ==> n <= highWater
  {
    hide InOrder, Pick;
    var buffer: History := pending;
    applied, highWater := before, floor;
    while buffer != map[]
      invariant applied + InOrder(buffer) == before + InOrder(pending)
      invariant highWater >= floor && forall n :: n in pending ==> n <= highWater || n in buffer
      decreases |buffer|
    {
      var n := Pick(buffer);
      Shrinks(buffer, n);
      DrainOne(buffer);
      applied := applied + [Commit(n, buffer[n])];
      if n > highWater { highWater := n; }
      buffer := buffer - {n};
    }
    DrainNone();
  }

  /** Replay the log above the floor onto the restored checkpoint. */
  method Replay(s: Store) returns (applied: seq<Commit>, highWater: Lsn)
    requires Inv(s)
    ensures applied == InOrder(Recovered(s))
    ensures Enabled(s, Crash(highWater + 1))
  {
    hide Logged, InOrder, Inv, Above;
    var buffer: History := Buffered(s.segments, s.floor);
    SnapshotBelow(s);
    AboveIs(Logged(s.segments), s.floor);
    InOrderSplits(s.snapshot, buffer, s.floor);
    applied, highWater := Drain(InOrder(s.snapshot), buffer, s.floor);
  }

  lemma AboveIs(m: History, floor: Lsn)
    ensures forall n :: n in Above(m, floor) ==> n > floor
  {
  }

  lemma SnapshotBelow(s: Store)
    requires Inv(s)
    ensures forall n :: n in s.snapshot ==> n <= s.floor
  {
  }

  lemma DrainOne(m: History)
    requires m != map[]
    ensures InOrder(m) == [Commit(Pick(m), m[Pick(m)])] + InOrder(m - {Pick(m)})
  {
  }

  lemma DrainNone()
    ensures InOrder(map[]) == []
  {
  }
}
