/** What callers see of each tenant: writes accepted, windows discarded, windows
    committed.  The index follows this journal, whatever the threads interleave. */
module WriterJournal {
  import opened Bm25Index
  import opened WriterAdmission
  import opened WriterRuns
  import opened Wrappers

  datatype Note = Wrote(key: nat, write: Write) | Discarded(key: nat) | Committed(key: nat)

  /** What a step means to the tenant it touches: a write accepted, a window dropped by
      eviction, rollback or a failed commit, or a window committed. */
  function NoteOf(s: State, t: nat, step: Step): seq<Note>
    requires Enabled(s, t, step)
  {
    var pc := s.threads[t];
    match step
    case Buffer => [Wrote(pc.key, pc.req.write)]
    case Open(ok) => if ok then [Wrote(pc.key, pc.write)] else []
    case SweepIdle(v) => [Discarded(v)]
    case EvictVictim => if s.slots[pc.victim].writer.Some? then [Discarded(pc.victim)] else []
    case Finish(ok) => [if ok && pc.req.CommitPending? then Committed(pc.key) else Discarded(pc.key)]
    case _ => []
  }

  datatype Journal = Journal(window: Window, closed: seq<Window>)

  /** One tenant's open window and committed windows after a history. */
  function JournalOf(k: nat, notes: seq<Note>): Journal {
    if notes == [] then Journal([], [])
    else
      var j := JournalOf(k, notes[..|notes| - 1]);
      var n := notes[|notes| - 1];
      if n.key != k then j
      else
        match n
        case Wrote(_, w) => Journal(j.window + [w], j.closed)
        case Discarded(_) => Journal([], j.closed)
        case Committed(_) => Journal([], j.closed + [j.window])
  }

  /** The open window is in the slot's writer, or with the thread that is closing it. */
  ghost predicate Carries(s: State, k: nat, window: Window)
    requires k in s.slots
  {
    match s.slots[k].writer
    case Some(w) => window == w
    case None =>
      if s.slots[k].holder.Some? && s.slots[k].holder.value in s.threads && s.threads[s.slots[k].holder.value].Closing?
      then window == s.threads[s.slots[k].holder.value].window
      else window == []
  }

  ghost predicate Follows(s: State, notes: seq<Note>) {
    forall k :: k in s.slots ==>
      var j := JournalOf(k, notes); s.slots[k].closed == j.closed && Carries(s, k, j.window)
  }

  lemma JournalStep(k: nat, notes: seq<Note>, more: seq<Note>)
    requires |more| <= 1
    ensures more == [] || more[0].key != k ==> JournalOf(k, notes + more) == JournalOf(k, notes)
    ensures more != [] && more[0].key == k ==>
      var j := JournalOf(k, notes);
      JournalOf(k, notes + more) == match more[0]
        case Wrote(_, w) => Journal(j.window + [w], j.closed)
        case Discarded(_) => Journal([], j.closed)
        case Committed(_) => Journal([], j.closed + [j.window])
  {
    if more == [] { assert notes + more == notes; } else { assert (notes + more)[..|notes|] == notes; }
  }

  /** A tenant whose slot the step does not touch is carried as before. */
  lemma OthersCarried(s: State, t: nat, c: Change, k: nat, window: Window)
    requires Locks(s) && LockChange(s, t, c) && k in s.slots && k != c.key && Carries(s, k, window)
    requires Key(s.threads[t]) == Some(k) ==> Key(c.pc) == Some(k) && !s.threads[t].Closing? && !c.pc.Closing?
    ensures Carries(Apply(s, t, c), k, window)
  {
  }

  /** The tenant whose slot the step touches. */
  lemma TouchedFollows(s: State, t: nat, step: Step, notes: seq<Note>)
    requires Inv(s) && Enabled(s, t, step) && Follows(s, notes)
    ensures var k := Effect(s, t, step).key;
      && k in s.slots
      && var j := JournalOf(k, notes + NoteOf(s, t, step));
         Next(s, t, step).slots[k].closed == j.closed && Carries(Next(s, t, step), k, j.window)
  {
    hide ApplyOps, BufferedAll, Contents, Permits, Times, JournalOf;
    OwnSlot(s, t);
    JournalStep(Effect(s, t, step).key, notes, NoteOf(s, t, step));
  }

  lemma UntouchedFollows(s: State, t: nat, step: Step, notes: seq<Note>, k: nat)
    requires Inv(s) && Enabled(s, t, step) && Follows(s, notes) && k in s.slots && k != Effect(s, t, step).key
    ensures var j := JournalOf(k, notes + NoteOf(s, t, step));
      Next(s, t, step).slots[k].closed == j.closed && Carries(Next(s, t, step), k, j.window)
  {
    hide ApplyOps, BufferedAll, Contents, Permits, Times, JournalOf;
    OwnSlot(s, t);
    var c := Effect(s, t, step);
    assert LockChange(s, t, c);
    JournalStep(k, notes, NoteOf(s, t, step));
    OthersCarried(s, t, c, k, JournalOf(k, notes).window);
  }

  lemma StepFollows(s: State, t: nat, step: Step, notes: seq<Note>)
    requires Inv(s) && Enabled(s, t, step) && Follows(s, notes)
    ensures Follows(Next(s, t, step), notes + NoteOf(s, t, step))
  {
    hide Inv, Effect, JournalOf, Carries, NoteOf, Enabled;
    TouchedFollows(s, t, step, notes);
    forall k | k in s.slots
      ensures var j := JournalOf(k, notes + NoteOf(s, t, step));
        Next(s, t, step).slots[k].closed == j.closed && Carries(Next(s, t, step), k, j.window)
    {
      if k != Effect(s, t, step).key { UntouchedFollows(s, t, step, notes, k); }
    }
  }

  // ---- runs ------------------------------------------------------------------------------

  ghost function NotesOf(s: State, run: seq<(nat, Step)>, end: State): seq<Note>
    requires Runs(s, run, end)
    decreases |run|
  {
    if run == [] then []
    else
      NoteOf(s, run[0].0, run[0].1) + NotesOf(Next(s, run[0].0, run[0].1), run[1..], end)
  }

  lemma {:induction false} RunFollows(s: State, run: seq<(nat, Step)>, end: State, notes: seq<Note>)
    requires Inv(s) && Runs(s, run, end) && Follows(s, notes)
    ensures Inv(end) && Follows(end, notes + NotesOf(s, run, end))
    decreases |run|
  {
    hide Inv, Enabled, Next, Follows, NoteOf;
    if run == [] {
      assert notes + [] == notes;
    } else {
      var next, note := Next(s, run[0].0, run[0].1), NoteOf(s, run[0].0, run[0].1);
      EveryStep(s, run[0].0, run[0].1);
      StepFollows(s, run[0].0, run[0].1, notes);
      RunFollows(next, run[1..], end, notes + note);
      assert notes + note + NotesOf(next, run[1..], end) == notes + (note + NotesOf(next, run[1..], end));
    }
  }

  /** Over every interleaving, a tenant's index is the last-writer-wins map of exactly the
      windows that were committed: writes accepted, in order, and not discarded by an
      eviction, a rollback or a failed commit in between. */
  lemma IndexFollowsJournal(s: State, run: seq<(nat, Step)>, end: State, k: nat)
    requires Fresh(s) && Runs(s, run, end) && k in end.slots
    ensures Holds(end.slots[k].docs, WonByAll(JournalOf(k, NotesOf(s, run, end)).closed))
    ensures var docs, writes := end.slots[k].docs, Flat(JournalOf(k, NotesOf(s, run, end)).closed);
      && (forall i :: 0 <= i < |docs| ==> LastPuts(writes, docs[i].node, docs[i].commitLsn, docs[i].body))
      && (forall n, lsn, body :: LastPuts(writes, n, lsn, body) ==> Doc(n, lsn, U64_MAX, body) in docs)
  {
    hide Runs, Locks, Times, Empties, Permits, Holds, NotesOf, LastPuts, Flat, WonByAll;
    FreshInv(s);
    assert Follows(s, []);
    RunFollows(s, run, end, []);
    assert [] + NotesOf(s, run, end) == NotesOf(s, run, end);
    HoldsLastWrites(end.slots[k].docs, JournalOf(k, NotesOf(s, run, end)).closed);
  }
}
