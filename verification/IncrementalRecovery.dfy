/** Incremental checkpoints: home pages lag behind, the dirty-page table remembers
    the first operation each is missing, and replay redoes from the oldest of these.
    A page's content is the set of operations that reached it, so a page that is
    recovered wrong is missing an operation. */
module IncrementalRecovery {
  type Lsn = nat
  type PageNo = nat

  /** One commit's contiguous range of LSNs: operation `lo + i` is on `pages[i]`, and
      `hi` is the commit LSN.  A commit without operations still takes one LSN. */
  datatype Commit = Commit(lo: Lsn, hi: Lsn, pages: seq<PageNo>)

  /** `log` is every durable commit in LSN order, `place` the WAL segment that holds
      each, in any order; segments below `low` are deleted.  The first `applied`
      commits are applied in memory.  A home page holds its operations up to `stamp`.
      `frontier`, `redo` and the table `saved` are the established checkpoint's. */
  datatype Store = Store(log: seq<Commit>, place: seq<nat>, low: nat, applied: nat, stamp: map<PageNo, Lsn>,
                         dpt: map<PageNo, Lsn>, frontier: Lsn, redo: Lsn, saved: map<PageNo, Lsn>)

  datatype Event =
    | Log(pages: seq<PageNo>, segment: nat, skipped: nat)  // after LSNs of commits that never became durable
    | ApplyNext
    | Flush(page: PageNo)
    | Checkpoint
    | ReclaimFirst
    | Crash

  predicate On(c: Commit, o: Lsn, p: PageNo) {
    c.lo <= o && o - c.lo < |c.pages| && c.pages[o - c.lo] == p
  }

  type Stamps = map<PageNo, Lsn>

  function Stamp(stamp: Stamps, p: PageNo): Lsn { if p in stamp then stamp[p] else 0 }

  /** The LSN of the last of the first `n` commits. */
  function UpTo(log: seq<Commit>, n: nat): Lsn { if 0 < n <= |log| then log[n - 1].hi else 0 }

  function Last(log: seq<Commit>): Lsn { if log == [] then 0 else log[|log| - 1].hi }

  // ---- recovery ---------------------------------------------------------------------------

  /** The home page does not hold this operation of commit `i`. */
  predicate Missing(log: seq<Commit>, stamp: Stamps, i: nat, o: Lsn, p: PageNo) {
    i < |log| && On(log[i], o, p) && o > Stamp(stamp, p)
  }

  /** Replay redoes this operation, if its commit is still logged: all of a commit
      above the frontier; at or below it, only from the redo LSN on. */
  predicate Redone(c: Commit, o: Lsn, frontier: Lsn, redo: Lsn) {
    c.hi > frontier || (c.hi >= redo && o >= redo)
  }

  ghost predicate AllRedone(log: seq<Commit>, stamp: Stamps, frontier: Lsn, redo: Lsn) {
    forall i: nat, o: Lsn, p: PageNo :: Missing(log, stamp, i, o, p) ==> Redone(log[i], o, frontier, redo)
  }

  ghost predicate AllLogged(log: seq<Commit>, stamp: Stamps, place: seq<nat>, low: nat) {
    forall i: nat, o: Lsn, p: PageNo :: Missing(log, stamp, i, o, p) ==> i < |place| && place[i] >= low
  }

  /** Recovery now would give every page every operation of the durable commits. */
  ghost predicate Complete(s: Store) {
    AllLogged(s.log, s.stamp, s.place, s.low) && AllRedone(s.log, s.stamp, s.frontier, s.redo)
  }

  // ---- steps --------------------------------------------------------------------------------

  /** The first operation of the commit on each page it touches. */
  function FirstOps(c: Commit, n: nat): map<PageNo, Lsn>
    requires n <= |c.pages|
  {
    if n == 0 then map[]
    else
      var m := FirstOps(c, n - 1);
      if c.pages[n - 1] in m then m else m[c.pages[n - 1] := c.lo + (n - 1)]
  }

  function MinOr(m: map<PageNo, Lsn>, otherwise: Lsn): (r: Lsn)
    ensures m == map[] ==> r == otherwise
    ensures m != map[] ==> exists p :: p in m && m[p] == r
    ensures forall p :: p in m ==> r <= m[p]
    decreases |m|
  {
    if m == map[] then otherwise
    else
      MinEntry(m);
      var p :| p in m && forall q :: q in m ==> m[p] < m[q] || (m[p] == m[q] && p <= q);
      m[p]
  }

  lemma {:induction false} MinEntry(m: map<PageNo, Lsn>)
    requires m != map[]
    ensures exists p :: p in m && forall q :: q in m ==> m[p] < m[q] || (m[p] == m[q] && p <= q)
  {
    var p := Smallest(m, m.Keys);
  }

  lemma {:induction false} Smallest(m: map<PageNo, Lsn>, keys: set<PageNo>) returns (p: PageNo)
    requires keys != {} && keys <= m.Keys
    ensures p in keys && forall q :: q in keys ==> m[p] < m[q] || (m[p] == m[q] && p <= q)
    decreases |keys|
  {
    p :| p in keys;
    var rest := keys - {p};
    if rest != {} {
      var q: PageNo := Smallest(m, rest);
      assert keys == rest + {p};
      if m[q] < m[p] || (m[q] == m[p] && q <= p) { p := q; }
    } else {
      assert keys == {p};
    }
  }

  /** The checkpoint's frontier stops short of the oldest commit whose apply is
      deferred; its redo LSN is the oldest operation any home page may lack. */
  function Frontier(s: Store): Lsn
    requires s.applied <= |s.log|
  {
    var current := Last(s.log);
    if s.applied == |s.log| then current
    else
      var deferred := s.log[s.applied].hi;
      if deferred > 0 && deferred - 1 < current then deferred - 1 else current
  }

  function Redo(s: Store): Lsn
    requires s.applied <= |s.log|
  {
    var fromTable := MinOr(s.dpt, Frontier(s));
    if s.applied < |s.log| then
      var c := s.log[s.applied];
      var deferred := if c.pages == [] then c.hi else c.lo;
      if deferred < fromTable then deferred else fromTable
    else fromTable
  }

  /** A dirty-page table of the first `applied` commits: every page that lacks one of
      their operations at home is in it, at or below the first it lacks.  Entries may
      be stale: a restored table still has those of pages flushed since. */
  ghost predicate Tracks(log: seq<Commit>, stamp: Stamps, applied: nat, dpt: map<PageNo, Lsn>) {
    && (forall p: PageNo :: p in dpt ==> dpt[p] <= UpTo(log, applied))
    && (forall i: nat, o: Lsn, p: PageNo :: i < applied && Missing(log, stamp, i, o, p) ==> p in dpt && dpt[p] <= o)
  }

  /** What a restart replays: the operations still logged that the home page lacks. */
  predicate Replayed(s: Store, i: nat, o: Lsn, p: PageNo) {
    && Missing(s.log, s.stamp, i, o, p) && Redone(s.log[i], o, s.frontier, s.redo)
    && i < |s.place| && s.place[i] >= s.low
  }

  /** A restart restores the checkpoint's table as captured, and replay, in LSN order,
      marks each page it changes dirty unless the page is in the table already. */
  function ReplayOps(s: Store, i: nat, k: nat, dpt: map<PageNo, Lsn>): map<PageNo, Lsn>
    requires i < |s.log| && k <= |s.log[i].pages|
    decreases k
  {
    if k == 0 then dpt
    else
      var m := ReplayOps(s, i, k - 1, dpt);
      var p, o := s.log[i].pages[k - 1], s.log[i].lo + (k - 1);
      if Replayed(s, i, o, p) && p !in m then m[p := o] else m
  }

  function ReplayTable(s: Store, n: nat): map<PageNo, Lsn>
    requires n <= |s.log|
    decreases n
  {
    if n == 0 then s.saved else ReplayOps(s, n - 1, |s.log[n - 1].pages|, ReplayTable(s, n - 1))
  }

  /** What that leaves, after the commits before `n` and `k` operations of commit `n`: the
      captured entries, and the pages dirtied, each from its first replayed operation. */
  ghost predicate Restored(s: Store, n: nat, k: nat, dpt: map<PageNo, Lsn>) {
    && (forall p: PageNo :: p in s.saved ==> p in dpt && dpt[p] == s.saved[p])
    && (forall p: PageNo :: p in dpt && p !in s.saved ==> Dirtied(s, dpt[p], p))
    && (forall i: nat, o: Lsn, p: PageNo :: Replayed(s, i, o, p) && Before(s.log, i, o, n, k) ==>
          p in dpt && (p !in s.saved ==> dpt[p] <= o))
    && (forall p: PageNo :: p in dpt && p !in s.saved && n < |s.log| ==> dpt[p] < s.log[n].lo + k)
  }

  ghost predicate Dirtied(s: Store, o: Lsn, p: PageNo) {
    exists i: nat :: Replayed(s, i, o, p)
  }

  predicate Before(log: seq<Commit>, i: nat, o: Lsn, n: nat, k: nat) {
    i < n || (i == n && i < |log| && o < log[i].lo + k)
  }

  ghost predicate Lacks(log: seq<Commit>, stamp: Stamps, applied: nat, o: Lsn, p: PageNo) {
    exists i: nat :: i < applied && Missing(log, stamp, i, o, p)
  }

  /** Every commit of the oldest segment is at or below the LSN. */
  predicate Below(s: Store, lsn: Lsn) {
    forall i :: 0 <= i < |s.place| && i < |s.log| && s.place[i] == s.low ==> s.log[i].hi <= lsn
  }

  ghost predicate Enabled(s: Store, ev: Event) {
    match ev
    case Log(_, segment, _) => segment >= s.low
    case ApplyNext => s.applied < |s.log|
    case Flush(p) => p in s.dpt
    case Checkpoint => s.applied <= |s.log|
    case ReclaimFirst =>  // not the active segment, and no commit in it above the redo LSN
      s.redo != 0 && (exists j :: 0 <= j < |s.place| && s.place[j] > s.low) && Below(s, s.redo)
    case Crash => true
  }

  ghost function Next(s: Store, ev: Event): Store
    requires Enabled(s, ev)
  {
    match ev
    case Log(pages, segment, skipped) =>
      var lo := Last(s.log) + 1 + skipped;
      var hi := if pages == [] then lo else lo + |pages| - 1;
      s.(log := s.log + [Commit(lo, hi, pages)], place := s.place + [segment])
    case ApplyNext =>
      var c := s.log[s.applied];
      s.(applied := s.applied + 1, dpt := FirstOps(c, |c.pages|) + s.dpt)
    case Flush(p) =>
      s.(stamp := s.stamp[p := UpTo(s.log, s.applied)], dpt := s.dpt - {p})
    case Checkpoint => s.(frontier := Frontier(s), redo := Redo(s), saved := s.dpt)
    case ReclaimFirst => s.(low := s.low + 1)
    case Crash => s.(applied := |s.log|, dpt := ReplayTable(s, |s.log|))
  }

  // ---- the invariant --------------------------------------------------------------------------

  ghost predicate Ranges(log: seq<Commit>) {
    && (forall i :: 0 <= i < |log| ==>
          1 <= log[i].lo <= log[i].hi && |log[i].pages| <= log[i].hi - log[i].lo + 1)
    && (forall i, j :: 0 <= i < j < |log| ==> log[i].hi < log[j].lo)
  }

  ghost predicate Cut(s: Store) {
    s.applied <= |s.log| && |s.place| == |s.log|
  }

  ghost predicate Stamped(s: Store) {
    forall p: PageNo :: p in s.stamp ==> s.stamp[p] <= UpTo(s.log, s.applied)
  }

  /** The checkpoint's table is at or below everything its pages lack, ever after. */
  ghost predicate SavedCovers(log: seq<Commit>, stamp: Stamps, saved: map<PageNo, Lsn>) {
    && (forall p: PageNo :: p in saved ==> saved[p] <= Last(log))
    && (forall i: nat, o: Lsn, p: PageNo :: p in saved && Missing(log, stamp, i, o, p) ==> saved[p] <= o)
  }

  ghost predicate Inv(s: Store) {
    && Ranges(s.log) && Cut(s)
    && Tracks(s.log, s.stamp, s.applied, s.dpt)
    && Stamped(s)
    && s.redo <= s.frontier <= Last(s.log)
    && AllRedone(s.log, s.stamp, s.frontier, s.redo)
    && SavedCovers(s.log, s.stamp, s.saved)
  }

  /** Every event but a reclamation keeps recovery complete. */
  ghost predicate Keeps(s: Store, s': Store) {
    Inv(s') && (Complete(s) ==> Complete(s'))
  }

  lemma LogTracks(log: seq<Commit>, c: Commit, stamp: Stamps, applied: nat, dpt: map<PageNo, Lsn>)
    requires Tracks(log, stamp, applied, dpt) && applied <= |log|
    ensures Tracks(log + [c], stamp, applied, dpt)
  {
    LogExtends(log, c, stamp);
  }

  lemma LogSaved(log: seq<Commit>, c: Commit, stamp: Stamps, saved: map<PageNo, Lsn>)
    requires SavedCovers(log, stamp, saved) && Last(log) < c.lo <= c.hi
    ensures SavedCovers(log + [c], stamp, saved)
  {
    LogExtends(log, c, stamp);
  }

  lemma LogRedone(log: seq<Commit>, c: Commit, stamp: Stamps, frontier: Lsn, redo: Lsn)
    requires AllRedone(log, stamp, frontier, redo) && c.hi > frontier
    ensures AllRedone(log + [c], stamp, frontier, redo)
  {
    LogExtends(log, c, stamp);
  }

  lemma LogLogged(log: seq<Commit>, c: Commit, stamp: Stamps, place: seq<nat>, segment: nat, low: nat)
    requires AllLogged(log, stamp, place, low) && |place| == |log| && segment >= low
    ensures AllLogged(log + [c], stamp, place + [segment], low)
  {
    LogExtends(log, c, stamp);
  }

  lemma LogKeeps(s: Store, pages: seq<PageNo>, segment: nat, skipped: nat)
    requires Inv(s) && segment >= s.low
    ensures Keeps(s, Next(s, Log(pages, segment, skipped)))
  {
    hide Tracks, AllRedone, AllLogged, SavedCovers;
    var s' := Next(s, Log(pages, segment, skipped));
    var c := s'.log[|s.log|];
    LogTracks(s.log, c, s.stamp, s.applied, s.dpt);
    LogRedone(s.log, c, s.stamp, s.frontier, s.redo);
    LogSaved(s.log, c, s.stamp, s.saved);
    if Complete(s) { LogLogged(s.log, c, s.stamp, s.place, segment, s.low); }
    LogRanges(s.log, c);
  }

  lemma LogRanges(log: seq<Commit>, c: Commit)
    requires Ranges(log) && c.lo > Last(log) && c.lo <= c.hi && |c.pages| <= c.hi - c.lo + 1
    ensures Ranges(log + [c])
  {
  }

  lemma LogExtends(log: seq<Commit>, c: Commit, stamp: Stamps)
    ensures forall i: nat, o: Lsn, p: PageNo :: i < |log| ==>
      (Missing(log + [c], stamp, i, o, p) <==> Missing(log, stamp, i, o, p))
  {
  }

  lemma {:induction false} FirstOpsIs(c: Commit, n: nat)
    requires n <= |c.pages|
    ensures forall p :: p in FirstOps(c, n) ==> On(c, FirstOps(c, n)[p], p) && FirstOps(c, n)[p] < c.lo + n
    ensures forall k :: 0 <= k < n ==> c.pages[k] in FirstOps(c, n) && FirstOps(c, n)[c.pages[k]] <= c.lo + k
  {
    if n == 0 {
    } else {
      FirstOpsIs(c, n - 1);
    }
  }

  /** Stamps and table entries lie at or below the last applied commit. */
  lemma StampBelow(s: Store, p: PageNo)
    requires Ranges(s.log) && Cut(s) && Stamped(s)
    ensures forall i :: s.applied <= i < |s.log| ==> Stamp(s.stamp, p) < s.log[i].lo
  {
  }

  lemma TableBelow(s: Store, p: PageNo)
    requires Inv(s) && p in s.dpt
    ensures forall i :: s.applied <= i < |s.log| ==> s.dpt[p] < s.log[i].lo
  {
  }

  lemma ApplyTracks(s: Store)
    requires Inv(s) && s.applied < |s.log|
    ensures var s' := Next(s, ApplyNext); Tracks(s.log, s.stamp, s'.applied, s'.dpt)
  {
    hide AllRedone, AllLogged, SavedCovers, FirstOps;
    var s' := Next(s, ApplyNext);
    var c := s.log[s.applied];
    FirstOpsIs(c, |c.pages|);
    forall p: PageNo | p in s'.dpt ensures s'.dpt[p] <= UpTo(s.log, s'.applied) {
      if p in s.dpt { TableBelow(s, p); }
    }
    forall i: nat, o: Lsn, p: PageNo | i < s'.applied && Missing(s.log, s.stamp, i, o, p)
      ensures p in s'.dpt && s'.dpt[p] <= o
    {
      if i == s.applied {
        assert c.pages[o - c.lo] == p;
        if p in s.dpt { TableBelow(s, p); }
      }
    }
  }

  lemma ApplyKeeps(s: Store)
    requires Inv(s) && s.applied < |s.log|
    ensures Keeps(s, Next(s, ApplyNext))
  {
    hide AllRedone, AllLogged, Tracks, SavedCovers, FirstOps;
    ApplyTracks(s);
    if s.applied > 0 { assert s.log[s.applied - 1].hi < s.log[s.applied].lo; }
  }

  /** After a flush the page lacks only operations that are not applied yet. */
  lemma FlushMissing(s: Store, page: PageNo, i: nat, o: Lsn, p: PageNo)
    requires Ranges(s.log) && Cut(s) && Stamped(s)
    requires Missing(s.log, s.stamp[page := UpTo(s.log, s.applied)], i, o, p)
    ensures Missing(s.log, s.stamp, i, o, p) && (p == page ==> i >= s.applied)
  {
  }

  lemma FlushKeeps(s: Store, page: PageNo)
    requires Inv(s) && page in s.dpt
    ensures Keeps(s, Next(s, Flush(page)))
  {
    hide Ranges;
    var stamp' := s.stamp[page := UpTo(s.log, s.applied)];
    forall i: nat, o: Lsn, p: PageNo | Missing(s.log, stamp', i, o, p)
      ensures Missing(s.log, s.stamp, i, o, p) && (p == page ==> i >= s.applied)
    {
      FlushMissing(s, page, i, o, p);
    }
  }

  lemma RedoBelowFrontier(s: Store)
    requires Inv(s)
    ensures Redo(s) <= Frontier(s) <= Last(s.log)
  {
  }

  lemma CheckpointKeeps(s: Store)
    requires Inv(s)
    ensures Keeps(s, Next(s, Checkpoint))
  {
    hide Redo, Frontier;
    var s' := Next(s, Checkpoint);
    RedoBelowFrontier(s);
    CheckpointRedoes(s);
    forall i: nat, o: Lsn, p: PageNo | p in s.dpt && Missing(s.log, s.stamp, i, o, p) ensures s.dpt[p] <= o {
      TableBelow(s, p);
    }
    forall p | p in s.dpt ensures s.dpt[p] <= Last(s.log) { UpToLast(s.log, s.applied); }
  }

  lemma UpToLast(log: seq<Commit>, n: nat)
    requires Ranges(log) && n <= |log|
    ensures UpTo(log, n) <= Last(log)
  {
  }

  lemma CheckpointRedoes(s: Store)
    requires Inv(s)
    ensures AllRedone(s.log, s.stamp, Frontier(s), Redo(s))
  {
    RedoBelowFrontier(s);
    forall i: nat, o: Lsn, p: PageNo | Missing(s.log, s.stamp, i, o, p)
      ensures Redone(s.log[i], o, Frontier(s), Redo(s))
    {
      if i < s.applied {
        assert p in s.dpt && s.dpt[p] <= o;
      } else if i > s.applied {
        assert s.log[s.applied].hi < s.log[i].lo;
      }
    }
  }

  lemma {:induction false} ReplayOpsIs(s: Store, i: nat, k: nat, dpt: map<PageNo, Lsn>)
    requires Ranges(s.log) && i < |s.log| && k <= |s.log[i].pages| && Restored(s, i, 0, dpt)
    ensures Restored(s, i, k, ReplayOps(s, i, k, dpt))
    decreases k
  {
    hide Restored;
    if k == 0 {
    } else {
      ReplayOpsIs(s, i, k - 1, dpt);
      OneMore(s, i, k - 1, ReplayOps(s, i, k - 1, dpt));
    }
  }

  lemma OneMore(s: Store, i: nat, k: nat, m: map<PageNo, Lsn>)
    requires Ranges(s.log) && i < |s.log| && k < |s.log[i].pages| && Restored(s, i, k, m)
    ensures var p, o := s.log[i].pages[k], s.log[i].lo + k;
      Restored(s, i, k + 1, if Replayed(s, i, o, p) && p !in m then m[p := o] else m)
  {
    hide Replayed, Ranges;
    var p, o := s.log[i].pages[k], s.log[i].lo + k;
    var m' := if Replayed(s, i, o, p) && p !in m then m[p := o] else m;
    forall j: nat, oo: Lsn, q: PageNo | Replayed(s, j, oo, q) && Before(s.log, j, oo, i, k + 1)
      ensures q in m' && (q !in s.saved ==> m'[q] <= oo)
    {
      ReplayedOn(s, j, oo, q);
      if !Before(s.log, j, oo, i, k) { assert j == i && oo == o && q == p; }
    }
  }

  lemma ReplayedOn(s: Store, i: nat, o: Lsn, p: PageNo)
    requires Replayed(s, i, o, p)
    ensures i < |s.log| && On(s.log[i], o, p)
  {
  }

  lemma NextCommit(s: Store, i: nat, m: map<PageNo, Lsn>)
    requires Ranges(s.log) && i < |s.log| && Restored(s, i, |s.log[i].pages|, m)
    ensures Restored(s, i + 1, 0, m)
  {
    hide Replayed;
    forall j: nat, o: Lsn, p: PageNo | Replayed(s, j, o, p) && Before(s.log, j, o, i + 1, 0)
      ensures p in m && (p !in s.saved ==> m[p] <= o)
    {
      ReplayedOn(s, j, o, p);
      assert Before(s.log, j, o, i, |s.log[i].pages|);
    }
    if i + 1 < |s.log| {
      forall p: PageNo | p in m && p !in s.saved ensures m[p] < s.log[i + 1].lo { assert m[p] <= s.log[i].hi; }
    }
  }

  lemma {:induction false} ReplayTableIs(s: Store, n: nat)
    requires Ranges(s.log) && n <= |s.log|
    ensures Restored(s, n, 0, ReplayTable(s, n))
    decreases n
  {
    hide Restored;
    if n == 0 {
      NothingReplayed(s);
    } else {
      ReplayTableIs(s, n - 1);
      ReplayOpsIs(s, n - 1, |s.log[n - 1].pages|, ReplayTable(s, n - 1));
      NextCommit(s, n - 1, ReplayTable(s, n));
    }
  }

  lemma NothingReplayed(s: Store)
    ensures Restored(s, 0, 0, s.saved)
  {
  }

  /** The restored table is conservative: nothing that was still recoverable is left out,
      and the entries captured before the crash are low enough. */
  lemma RestoredTracks(s: Store)
    requires Inv(s) && Complete(s)
    ensures Tracks(s.log, s.stamp, |s.log|, ReplayTable(s, |s.log|))
  {
    hide ReplayTable;
    var dpt := ReplayTable(s, |s.log|);
    ReplayTableIs(s, |s.log|);
    forall i: nat, o: Lsn, p: PageNo | Missing(s.log, s.stamp, i, o, p) ensures p in dpt && dpt[p] <= o {
      assert Replayed(s, i, o, p) && Before(s.log, i, o, |s.log|, 0);
    }
    forall p: PageNo | p in dpt ensures dpt[p] <= UpTo(s.log, |s.log|) {
      if p !in s.saved {
        assert Dirtied(s, dpt[p], p);
        var i: nat :| Replayed(s, i, dpt[p], p);
        assert s.log[i].hi <= Last(s.log);
      }
    }
  }

  /** The operation is of a commit in a segment that is still there. */
  predicate StillLogged(s: Store, o: Lsn, p: PageNo) {
    exists i: nat :: i < |s.log| && i < |s.place| && s.place[i] >= s.low && On(s.log[i], o, p)
  }

  /** Nothing is replayed from a deleted segment, whatever the pages lack. */
  lemma RestoredFromLog(s: Store, p: PageNo)
    requires Ranges(s.log) && p !in s.saved && p in ReplayTable(s, |s.log|)
    ensures StillLogged(s, ReplayTable(s, |s.log|)[p], p)
  {
    hide ReplayTable;
    var dpt := ReplayTable(s, |s.log|);
    ReplayTableIs(s, |s.log|);
    assert Dirtied(s, dpt[p], p);
    var i: nat :| Replayed(s, i, dpt[p], p);
    assert On(s.log[i], dpt[p], p);
  }

  lemma CrashKeeps(s: Store)
    requires Inv(s) && Complete(s)
    ensures Keeps(s, Next(s, Crash))
  {
    hide AllRedone, AllLogged, Tracks, SavedCovers, ReplayTable;
    RestoredTracks(s);
    UpToLast(s.log, s.applied);
  }

  // ---- reclamation -----------------------------------------------------------------------------

  /** A commit of the oldest segment ends exactly at the redo LSN, and the home page
      of that last operation still lacks it. */
  ghost predicate AtFloor(s: Store) {
    exists i: nat, p: PageNo :: i < |s.place| && i < |s.log| && s.place[i] == s.low
      && s.log[i].hi == s.redo && Missing(s.log, s.stamp, i, s.redo, p)
  }

  /** Segments are deleted up to and including the redo LSN, but replay starts at it:
      recovery stays complete exactly when no operation at the redo LSN is needed
      from a deleted segment. */
  lemma ReclaimExact(s: Store)
    requires Inv(s) && Complete(s) && Enabled(s, ReclaimFirst)
    ensures Inv(Next(s, ReclaimFirst))
    ensures Complete(Next(s, ReclaimFirst)) <==> !AtFloor(s)
  {
    hide Tracks, Ranges;
    var s' := Next(s, ReclaimFirst);
    if AtFloor(s) {
      var i: nat, p: PageNo :| i < |s.place| && i < |s.log| && s.place[i] == s.low && s.log[i].hi == s.redo
        && Missing(s.log, s.stamp, i, s.redo, p);
      assert !AllLogged(s'.log, s'.stamp, s'.place, s'.low);
    } else {
      forall i: nat, o: Lsn, p: PageNo | Missing(s.log, s.stamp, i, o, p)
        ensures i < |s.place| && s.place[i] >= s'.low
      {
        if s.place[i] == s.low { OnlyAtFloor(s, i, o, p); }
      }
    }
  }

  lemma OnlyAtFloor(s: Store, i: nat, o: Lsn, p: PageNo)
    requires Inv(s) && Below(s, s.redo) && i < |s.place| && s.place[i] == s.low && Missing(s.log, s.stamp, i, o, p)
    ensures AtFloor(s)
  {
    assert Redone(s.log[i], o, s.frontier, s.redo);
    assert o == s.redo == s.log[i].hi;
  }

  /** Deleting only what lies strictly below the redo LSN is always safe; so is
      deleting when nothing is dirty and nothing deferred. */
  lemma StrictlyBelowIsSafe(s: Store)
    requires Inv(s) && Complete(s) && Enabled(s, ReclaimFirst)
    requires (s.redo > 0 && Below(s, s.redo - 1)) || (s.dpt == map[] && s.applied == |s.log|)
    ensures Complete(Next(s, ReclaimFirst))
  {
    ReclaimExact(s);
  }

  /** Some page entered in the table at the LSN really lacks it: the entry is not stale. */
  ghost predicate LackedAt(s: Store, lsn: Lsn) {
    exists p :: p in s.dpt && s.dpt[p] == lsn && Lacks(s.log, s.stamp, s.applied, lsn, p)
  }

  /** A commit of the oldest segment ends at the LSN. */
  ghost predicate EndsAt(s: Store, lsn: Lsn) {
    exists i: nat :: i < |s.log| && i < |s.place| && s.place[i] == s.low && s.log[i].hi == lsn
  }

  /** Right after its checkpoint, with or without deferred applies, the reclamation loses
      an operation exactly when a commit of the deleted segment ends at the redo LSN and
      some page entered in the table there really lacks it. */
  lemma AtFloorAfterCheckpoint(s: Store)
    requires Inv(s)
    ensures var s' := Next(s, Checkpoint); AtFloor(s') <==> EndsAt(s, s'.redo) && LackedAt(s, s'.redo)
  {
    hide Inv, AtFloor, EndsAt, LackedAt, Redo, Frontier;
    InvCut(s);
    var s' := Next(s, Checkpoint);
    if AtFloor(s') {
      FloorIsLacked(s);
    } else if EndsAt(s, s'.redo) && LackedAt(s, s'.redo) {
      LackedIsFloor(s);
    }
  }

  lemma InvCut(s: Store)
    requires Inv(s)
    ensures s.applied <= |s.log| == |s.place|
  {
  }

  /** The redo LSN comes before every commit whose apply is deferred, and is the table's
      least entry if there is one. */
  lemma RedoIs(s: Store)
    requires Inv(s)
    ensures forall i :: s.applied <= i < |s.log| ==> Redo(s) < s.log[i].hi
    ensures s.dpt != map[] ==> Redo(s) == MinOr(s.dpt, Frontier(s))
    ensures s.dpt == map[] && s.applied == |s.log| ==> Redo(s) == if s.log == [] then 0 else s.log[|s.log| - 1].hi
    ensures s.dpt == map[] && s.applied < |s.log| ==>
      var c := s.log[s.applied]; Redo(s) == if c.pages != [] && c.lo < c.hi then c.lo else c.hi - 1
  {
    hide AllRedone, SavedCovers;
    if s.dpt != map[] {
      var p :| p in s.dpt && s.dpt[p] == MinOr(s.dpt, Frontier(s));
      TableBelow(s, p);
    }
  }

  lemma FloorIsLacked(s: Store)
    requires Inv(s) && AtFloor(Next(s, Checkpoint))
    ensures EndsAt(s, Redo(s)) && LackedAt(s, Redo(s))
  {
    hide AllRedone, SavedCovers, Frontier, Redo;
    var lsn := Redo(s);
    RedoIs(s);
    var i: nat, p: PageNo :| i < |s.place| && i < |s.log| && s.place[i] == s.low && s.log[i].hi == lsn
      && Missing(s.log, s.stamp, i, lsn, p);
    assert p in s.dpt && s.dpt[p] == lsn;
    assert Lacks(s.log, s.stamp, s.applied, lsn, p);
  }

  lemma LackedIsFloor(s: Store)
    requires Inv(s) && EndsAt(s, Redo(s)) && LackedAt(s, Redo(s))
    ensures AtFloor(Next(s, Checkpoint))
  {
    hide Redo, Frontier, AllRedone, SavedCovers, Tracks;
    var lsn := Redo(s);
    var i: nat :| i < |s.log| && i < |s.place| && s.place[i] == s.low && s.log[i].hi == lsn;
    var p :| p in s.dpt && s.dpt[p] == lsn && Lacks(s.log, s.stamp, s.applied, lsn, p);
    var j: nat :| j < s.applied && Missing(s.log, s.stamp, j, lsn, p);
    SameCommit(s.log, i, j, lsn);
  }

  /** An LSN lies in one commit only. */
  lemma SameCommit(log: seq<Commit>, i: nat, j: nat, lsn: Lsn)
    requires Ranges(log) && i < |log| && j < |log|
    requires log[i].lo <= lsn <= log[i].hi && log[j].lo <= lsn <= log[j].hi
    ensures i == j
  {
  }

  // ---- before any restart the table is exact --------------------------------------------------

  /** Every entry is the first operation its page lacks. */
  ghost predicate Exact(s: Store) {
    forall p: PageNo :: p in s.dpt ==> Lacks(s.log, s.stamp, s.applied, s.dpt[p], p)
  }

  lemma LogExact(s: Store, pages: seq<PageNo>, segment: nat, skipped: nat)
    requires Inv(s) && Exact(s) && segment >= s.low
    ensures Exact(Next(s, Log(pages, segment, skipped)))
  {
    hide Tracks, AllRedone, AllLogged, SavedCovers, Ranges;
    var s' := Next(s, Log(pages, segment, skipped));
    forall p: PageNo | p in s.dpt ensures Lacks(s'.log, s.stamp, s.applied, s.dpt[p], p) {
      var i: nat :| i < s.applied && Missing(s.log, s.stamp, i, s.dpt[p], p);
      assert Missing(s'.log, s.stamp, i, s.dpt[p], p);
    }
  }

  lemma ApplyExact(s: Store)
    requires Inv(s) && Exact(s) && s.applied < |s.log|
    ensures Exact(Next(s, ApplyNext))
  {
    hide AllRedone, AllLogged, SavedCovers, FirstOps;
    var s' := Next(s, ApplyNext);
    var c := s.log[s.applied];
    FirstOpsIs(c, |c.pages|);
    forall p: PageNo | p in s'.dpt ensures Lacks(s.log, s.stamp, s'.applied, s'.dpt[p], p) {
      if p in s.dpt {
        var i: nat :| i < s.applied && Missing(s.log, s.stamp, i, s.dpt[p], p);
        assert i < s'.applied && Missing(s.log, s.stamp, i, s'.dpt[p], p);
      } else {
        StampBelow(s, p);
        assert Missing(s.log, s.stamp, s.applied, s'.dpt[p], p);
      }
    }
  }

  lemma FlushExact(s: Store, page: PageNo)
    requires Inv(s) && Exact(s) && page in s.dpt
    ensures Exact(Next(s, Flush(page)))
  {
    hide Ranges, Tracks, AllRedone, SavedCovers;
    var s' := Next(s, Flush(page));
    forall p: PageNo | p in s.dpt && p != page ensures Lacks(s.log, s'.stamp, s.applied, s.dpt[p], p) {
      var i: nat :| i < s.applied && Missing(s.log, s.stamp, i, s.dpt[p], p);
      assert Missing(s.log, s'.stamp, i, s.dpt[p], p);
    }
  }

  /** Only a restart brings stale entries. */
  lemma OnlyCrashesMakeStale(s: Store, ev: Event)
    requires Inv(s) && Exact(s) && Enabled(s, ev) && !ev.Crash?
    ensures Exact(Next(s, ev))
  {
    hide Inv, Exact;
    match ev
    case Log(pages, segment, skipped) => LogExact(s, pages, segment, skipped);
    case ApplyNext => ApplyExact(s);
    case Flush(p) => FlushExact(s, p);
    case Checkpoint => SameTable(s, Next(s, ev));
    case ReclaimFirst => SameTable(s, Next(s, ev));
  }

  lemma SameTable(s: Store, s': Store)
    requires Exact(s) && s'.log == s.log && s'.stamp == s.stamp && s'.applied == s.applied && s'.dpt == s.dpt
    ensures Exact(s')
  {
  }

  /** With an exact table the table alone decides: some page is dirty. */
  lemma AtFloorWhenExact(s: Store)
    requires Inv(s) && Exact(s)
    ensures var s' := Next(s, Checkpoint); AtFloor(s') <==> EndsAt(s, s'.redo) && s.dpt != map[]
  {
    hide Inv, Lacks, AtFloor, EndsAt, Redo, Frontier;
    AtFloorAfterCheckpoint(s);
    InvCut(s);
    RedoIs(s);
    if s.dpt != map[] { var p :| p in s.dpt && s.dpt[p] == MinOr(s.dpt, Frontier(s)); }
  }

  // ---- runs ---------------------------------------------------------------------------------------

  ghost predicate Valid(s: Store, run: seq<Event>)
    decreases |run|
  {
    run != [] ==> Enabled(s, run[0]) && Valid(Next(s, run[0]), run[1..])
  }

  /** No reclamation of the run deletes a segment needed at its redo LSN. */
  ghost predicate Careful(s: Store, run: seq<Event>)
    requires Valid(s, run)
    decreases |run|
  {
    run != [] ==> (run[0].ReclaimFirst? ==> !AtFloor(s)) && Careful(Next(s, run[0]), run[1..])
  }

  /** At every point of the run, recovery would give every page every durable operation. */
  ghost predicate AlwaysComplete(s: Store, run: seq<Event>)
    requires Valid(s, run)
    decreases |run|
  {
    Complete(s) && (run != [] ==> AlwaysComplete(Next(s, run[0]), run[1..]))
  }

  lemma EventKeeps(s: Store, ev: Event)
    requires Inv(s) && Complete(s) && Enabled(s, ev)
    ensures Inv(Next(s, ev))
    ensures Complete(Next(s, ev)) <==> !(ev.ReclaimFirst? && AtFloor(s))
  {
    hide Inv, Complete, AtFloor;
    match ev
    case Log(pages, segment, skipped) => LogKeeps(s, pages, segment, skipped);
    case ApplyNext => ApplyKeeps(s);
    case Flush(p) => FlushKeeps(s, p);
    case Checkpoint => CheckpointKeeps(s);
    case ReclaimFirst => ReclaimExact(s);
    case Crash => CrashKeeps(s);
  }

  lemma {:induction false} CarefulFrom(s: Store, run: seq<Event>)
    requires Inv(s) && Complete(s) && Valid(s, run)
    ensures AlwaysComplete(s, run) <==> Careful(s, run)
    decreases |run|
  {
    hide Inv, Complete, AtFloor, Enabled, Next;
    if run == [] {
    } else {
      EventKeeps(s, run[0]);
      if Complete(Next(s, run[0])) { CarefulFrom(Next(s, run[0]), run[1..]); }
    }
  }

  function Fresh(): Store { Store([], [], 0, 0, map[], map[], 0, 0, map[]) }

  lemma FreshIsComplete()
    ensures Inv(Fresh()) && Complete(Fresh())
  {
  }

  /** Over every run from the empty store, with crashes anywhere and tables restored as
      captured: recovery is complete at every point exactly when the run is careful. */
  lemma CarefulRunsRecover(run: seq<Event>)
    requires Valid(Fresh(), run)
    ensures AlwaysComplete(Fresh(), run) <==> Careful(Fresh(), run)
  {
    hide Inv, Complete, AtFloor;
    FreshIsComplete();
    CarefulFrom(Fresh(), run);
  }

  // ---- the smallest careless run ---------------------------------------------------------------------

  ghost function End(s: Store, run: seq<Event>): Store
    requires Valid(s, run)
    decreases |run|
  {
    if run == [] then s else End(Next(s, run[0]), run[1..])
  }

  lemma Steps(s: Store, ev: Event, rest: seq<Event>)
    requires Enabled(s, ev) && Valid(Next(s, ev), rest)
    ensures Valid(s, [ev] + rest) && End(s, [ev] + rest) == End(Next(s, ev), rest)
    ensures Careful(s, [ev] + rest) <==> (ev.ReclaimFirst? ==> !AtFloor(s)) && Careful(Next(s, ev), rest)
  {
    assert ([ev] + rest)[1..] == rest;
  }

  lemma FirstOpOnly(c: Commit, p: PageNo)
    requires c.pages == [p]
    ensures FirstOps(c, |c.pages|) == map[p := c.lo]
  {
    assert FirstOps(c, 0) == map[];
  }

  function OneCommit(applied: nat, dpt: map<PageNo, Lsn>): Store {
    Store([Commit(1, 1, [7])], [0], 0, applied, map[], dpt, 0, 0, map[])
  }

  function TwoCommits(): Store {
    Store([Commit(1, 1, [7]), Commit(2, 2, [8])], [0, 1], 0, 2, map[], map[7 := 1, 8 := 2], 0, 0, map[])
  }

  /** One commit with one operation is logged and applied ... */
  lemma OneApplied()
    ensures Next(Fresh(), Log([7], 0, 0)) == OneCommit(0, map[])
    ensures Next(OneCommit(0, map[]), ApplyNext) == OneCommit(1, map[7 := 1])
  {
    hide FirstOps;
    FirstOpOnly(Commit(1, 1, [7]), 7);
  }

  /** ... then a second, in a new segment ... */
  lemma TwoApplied()
    ensures Next(Next(OneCommit(1, map[7 := 1]), Log([8], 1, 0)), ApplyNext) == TwoCommits()
  {
    hide FirstOps;
    FirstOpOnly(Commit(2, 2, [8]), 8);
    assert map[8 := 2] + map[7 := 1] == map[7 := 1, 8 := 2];
  }

  /** ... and a checkpoint while the first page is still dirty triggers the reclamation. */
  lemma ThenCareless()
    ensures var s := Next(TwoCommits(), Checkpoint);
      s.frontier == 2 && s.redo == 1 && Enabled(s, ReclaimFirst) && AtFloor(s)
  {
    var s2 := TwoCommits();
    assert 7 in s2.dpt && s2.dpt[7] == 1 && MinOr(s2.dpt, 2) == 1;
    var s := Next(s2, Checkpoint);
    assert s.place[1] > s.low;
    assert Missing(s.log, s.stamp, 0, 1, 7);
  }

  function Setup(): seq<Event> {
    [Log([7], 0, 0)] + ([ApplyNext] + ([Log([8], 1, 0)] + ([ApplyNext] + ([Checkpoint] + []))))
  }

  /** The run up to the reclamation, from the empty store. */
  lemma SetupRuns(rest: seq<Event>)
    requires Valid(Next(TwoCommits(), Checkpoint), rest)
    ensures var run := [Log([7], 0, 0)] + ([ApplyNext] + ([Log([8], 1, 0)] + ([ApplyNext] + ([Checkpoint] + rest))));
      && Valid(Fresh(), run) && End(Fresh(), run) == End(Next(TwoCommits(), Checkpoint), rest)
      && (Careful(Fresh(), run) <==> Careful(Next(TwoCommits(), Checkpoint), rest))
  {
    hide Careful, End, FirstOps, AtFloor;
    OneApplied();
    TwoApplied();
    var one := OneCommit(1, map[7 := 1]);
    Steps(TwoCommits(), Checkpoint, rest);
    Steps(Next(one, Log([8], 1, 0)), ApplyNext, [Checkpoint] + rest);
    Steps(one, Log([8], 1, 0), [ApplyNext] + ([Checkpoint] + rest));
    Steps(OneCommit(0, map[]), ApplyNext, [Log([8], 1, 0)] + ([ApplyNext] + ([Checkpoint] + rest)));
    Steps(Fresh(), Log([7], 0, 0), [ApplyNext] + ([Log([8], 1, 0)] + ([ApplyNext] + ([Checkpoint] + rest))));
  }

  /** A careful run, complete at every point, and then the reclamation that its checkpoint
      triggers: the first operation is in neither the home page nor the WAL. */
  lemma ReclaimCanLose()
    ensures Valid(Fresh(), Setup()) && Careful(Fresh(), Setup()) && AlwaysComplete(Fresh(), Setup())
    ensures Valid(End(Fresh(), Setup()), [ReclaimFirst]) && !Complete(Next(End(Fresh(), Setup()), ReclaimFirst))
  {
    hide Inv, Complete, AtFloor, FirstOps;
    ThenCareless();
    SetupRuns([]);
    CarefulRunsRecover(Setup());
    FreshIsComplete();
    EndInv(Fresh(), Setup());
    EventKeeps(End(Fresh(), Setup()), ReclaimFirst);
  }

  lemma {:induction false} EndInv(s: Store, run: seq<Event>)
    requires Inv(s) && Complete(s) && Valid(s, run) && Careful(s, run)
    ensures Inv(End(s, run)) && Complete(End(s, run))
    decreases |run|
  {
    hide Inv, Complete, AtFloor, Enabled, Next;
    if run == [] {
    } else {
      EventKeeps(s, run[0]);
      EndInv(Next(s, run[0]), run[1..]);
    }
  }
}
