/** One tenant's search handle: the writer slot, the committed index and the
    reader's snapshot of it, changed in place under the slot's lock. */
module Bm25Handle {
  import opened Bm25Index

  datatype Outcome = Done | EngineError

  class IndexHandle {
    var open: bool
    var buffer: seq<EngineOp>
    var committed: seq<Doc>
    var snapshot: seq<Doc>
    /** The writes of the open window, the windows committed so far, and how many
        of them the reader has reloaded. */
    ghost var window: Window
    ghost var closed: seq<Window>
    ghost var reloaded: nat

    ghost predicate Valid()
      reads this
    {
      && (open ==> buffer == BufferedAll(window))
      && Holds(committed, WonByAll(closed))
      && reloaded <= |closed| && Holds(snapshot, WonByAll(closed[..reloaded]))
    }

    constructor ()
      ensures Valid() && !open && closed == [] && reloaded == 0
    {
      open, buffer, committed, snapshot := false, [], [], [];
      window, closed, reloaded := [], [], 0;
    }

    /** Open a writer unless one is open; the engine may fail to allocate it. */
    method EnsureWriter(allocates: bool) returns (r: Outcome)
      requires Valid()
      modifies this
      ensures Valid() && r == (if old(open) || allocates then Done else EngineError)
      ensures open == (r == Done) && window == if old(open) then old(window) else []
      ensures closed == old(closed) && reloaded == old(reloaded) && snapshot == old(snapshot)
    {
      if !open {
        window := [];
        if !allocates { return EngineError; }
        open, buffer := true, [];
      }
      return Done;
    }

    /** Delete by term, then add: if the engine rejects the document the delete
        stays buffered, and the window records a rejected upsert. */
    method UpsertDocument(node: NodeId, lsn: nat, body: string, allocates: bool, accepts: bool) returns (r: Outcome)
      requires Valid()
      modifies this
      ensures Valid() && closed == old(closed) && reloaded == old(reloaded) && snapshot == old(snapshot)
      ensures r == (if (old(open) || allocates) && accepts then Done else EngineError)
      ensures open == (old(open) || allocates)
      ensures open ==> window == (if old(open) then old(window) else [])
                                 + [if accepts then Upsert(node, lsn, body) else RejectedUpsert(node)]
    {
      r := EnsureWriter(allocates);
      if r == EngineError { return; }
      ghost var w := if accepts then Upsert(node, lsn, body) else RejectedUpsert(node);
      buffer := buffer + [DeleteTerm(node)];
      if accepts {
        buffer := buffer + [AddDocument(Doc(node, lsn, U64_MAX, body))];
      } else {
        r := EngineError;
      }
      Extend(window, w);
      window := window + [w];
    }

    method DeleteDocument(node: NodeId, allocates: bool) returns (r: Outcome)
      requires Valid()
      modifies this
      ensures Valid() && closed == old(closed) && reloaded == old(reloaded) && snapshot == old(snapshot)
      ensures r == (if old(open) || allocates then Done else EngineError) && open == (r == Done)
      ensures open ==> window == (if old(open) then old(window) else []) + [Delete(node)]
    {
      r := EnsureWriter(allocates);
      if r == EngineError { return; }
      buffer := buffer + [DeleteTerm(node)];
      Extend(window, Delete(node));
      window := window + [Delete(node)];
    }

    /** Take the writer out first: the slot is empty afterwards whether the engine
        commits or not, and only a successful commit closes the window.  The
        reader reloads after it, also when there was nothing to commit. */
    method Commit(commits: bool, reloads: bool) returns (r: Outcome)
      requires Valid()
      modifies this
      ensures Valid() && !open
      ensures closed == if old(open) && commits then old(closed) + [old(window)] else old(closed)
      ensures r == (if (old(open) && !commits) || !reloads then EngineError else Done)
      ensures reloaded == if r == Done then |closed| else old(reloaded)
    {
      if open {
        open := false;
        if !commits { return EngineError; }
        WindowHolds(committed, WonByAll(closed), window);
        committed := ApplyOps(committed, buffer);
        ClosedConcat(closed, window);
        assert (closed + [window])[..reloaded] == closed[..reloaded];
        closed := closed + [window];
      }
      if !reloads { return EngineError; }
      snapshot := committed;
      assert closed[..|closed|] == closed;
      reloaded := |closed|;
      return Done;
    }

    /** Rollback and eviction drop the writer with its window. */
    method DropWriter() returns (dropped: bool)
      requires Valid()
      modifies this
      ensures Valid() && !open && dropped == old(open)
      ensures closed == old(closed) && reloaded == old(reloaded) && snapshot == old(snapshot)
    {
      dropped := open;
      open := false;
    }

    /** The nodes a search may return: those whose last write, of all the windows committed
        and reloaded, is an upsert at or below the read LSN. */
    method SearchNodes(readLsn: nat) returns (nodes: set<NodeId>)
      requires Valid() && readLsn <= U64_MAX
      ensures forall n :: n in nodes <==> Seen(Flat(closed[..reloaded]), n, readLsn)
    {
      hide WonByAll, Flat, Seen, Holds;
      nodes := {};
      for i := 0 to |snapshot|
        invariant nodes == set j | 0 <= j < i && Filter(snapshot[j], readLsn) :: snapshot[j].node
      {
        if Filter(snapshot[i], readLsn) { nodes := nodes + {snapshot[i].node}; }
      }
      assert nodes == Visible(snapshot, readLsn);
      forall n ensures n in nodes <==> Seen(Flat(closed[..reloaded]), n, readLsn) {
        SearchSees(snapshot, closed[..reloaded], readLsn, n);
      }
    }
  }

  lemma Extend(window: Window, w: Write)
    ensures BufferedAll(window + [w]) == BufferedAll(window) + Buffered(w)
  {
  }
}
