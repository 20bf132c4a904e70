/** What a tenant's index holds: documents appended and deleted by term, in
    buffered write windows that a commit applies and anything else discards. */
module Bm25Index {
  const U64_MAX: nat := 0xFFFF_FFFF_FFFF_FFFF

  type NodeId = nat

  datatype Doc = Doc(node: NodeId, commitLsn: nat, expiredLsn: nat, body: string)

  /** The index engine's own buffered operations. */
  datatype EngineOp = DeleteTerm(node: NodeId) | AddDocument(doc: Doc)

  /** A write as the kernel issues it.  An upsert whose document the engine
      rejects has already buffered its delete. */
  datatype Write =
    | Upsert(node: NodeId, lsn: nat, body: string)
    | RejectedUpsert(node: NodeId)
    | Delete(node: NodeId)

  type Window = seq<Write>

  function NewDoc(w: Write): Doc
    requires w.Upsert?
  {
    Doc(w.node, w.lsn, U64_MAX, w.body)
  }

  function Buffered(w: Write): seq<EngineOp> {
    match w
    case Upsert(n, _, _) => [DeleteTerm(n), AddDocument(NewDoc(w))]
    case RejectedUpsert(n) => [DeleteTerm(n)]
    case Delete(n) => [DeleteTerm(n)]
  }

  function Without(docs: seq<Doc>, n: NodeId): seq<Doc> {
    if docs == [] then []
    else if docs[0].node == n then Without(docs[1..], n)
    else [docs[0]] + Without(docs[1..], n)
  }

  function ApplyOp(docs: seq<Doc>, op: EngineOp): seq<Doc> {
    match op
    case DeleteTerm(n) => Without(docs, n)
    case AddDocument(doc) => docs + [doc]
  }

  function ApplyOps(docs: seq<Doc>, ops: seq<EngineOp>): seq<Doc>
    decreases |ops|
  {
    if ops == [] then docs else ApplyOps(ApplyOp(docs, ops[0]), ops[1..])
  }

  function BufferedAll(window: Window): seq<EngineOp> {
    if window == [] then [] else BufferedAll(window[..|window| - 1]) + Buffered(window[|window| - 1])
  }

  // ---- last writer wins -----------------------------------------------------------

  type Latest = map<NodeId, Doc>

  function Won(m: Latest, w: Write): Latest {
    match w
    case Upsert(n, _, _) => m[n := NewDoc(w)]
    case RejectedUpsert(n) => m - {n}
    case Delete(n) => m - {n}
  }

  function WonBy(m: Latest, window: Window): Latest {
    if window == [] then m else Won(WonBy(m, window[..|window| - 1]), window[|window| - 1])
  }

  /** The last-writer-wins map of a history of closed windows. */
  function WonByAll(windows: seq<Window>): Latest {
    if windows == [] then map[] else WonBy(WonByAll(windows[..|windows| - 1]), windows[|windows| - 1])
  }

  ghost predicate Distinct(docs: seq<Doc>) {
    forall i, j :: 0 <= i < j < |docs| ==> docs[i].node != docs[j].node
  }

  /** The documents are exactly the map's entries: each node has at most one. */
  ghost predicate Holds(docs: seq<Doc>, m: Latest) {
    && (forall i :: 0 <= i < |docs| ==> docs[i].node in m && m[docs[i].node] == docs[i])
    && (forall n :: n in m ==> m[n] in docs)
    && Distinct(docs)
    && (forall n :: n in m ==> m[n].node == n)
  }

  lemma {:induction false} WithoutIs(docs: seq<Doc>, n: NodeId)
    ensures forall d :: d in Without(docs, n) <==> d in docs && d.node != n
  {
    if docs == [] {
    } else {
      WithoutIs(docs[1..], n);
      assert docs == [docs[0]] + docs[1..];
    }
  }

  lemma {:induction false} WithoutDistinct(docs: seq<Doc>, n: NodeId)
    requires Distinct(docs)
    ensures Distinct(Without(docs, n))
  {
    if docs == [] {
    } else {
      var rest := Without(docs[1..], n);
      WithoutDistinct(docs[1..], n);
      WithoutIs(docs[1..], n);
      forall j | 0 <= j < |rest| ensures rest[j].node != docs[0].node { assert rest[j] in docs[1..]; }
    }
  }

  lemma DeleteHolds(docs: seq<Doc>, m: Latest, n: NodeId)
    requires Holds(docs, m)
    ensures Holds(Without(docs, n), m - {n})
  {
    WithoutIs(docs, n);
    WithoutDistinct(docs, n);
    var r := Without(docs, n);
    forall i | 0 <= i < |r| ensures r[i].node in m - {n} && m[r[i].node] == r[i] { assert r[i] in docs; }
  }

  lemma AddHolds(docs: seq<Doc>, m: Latest, doc: Doc)
    requires Holds(docs, m) && doc.node !in m
    ensures Holds(docs + [doc], m[doc.node := doc])
  {
  }

  lemma ApplyOne(docs: seq<Doc>, a: EngineOp)
    ensures ApplyOps(docs, [a]) == ApplyOp(docs, a)
  {
  }

  lemma WriteHolds(docs: seq<Doc>, m: Latest, w: Write)
    requires Holds(docs, m)
    ensures Holds(ApplyOps(docs, Buffered(w)), Won(m, w))
  {
    hide Holds;
    DeleteHolds(docs, m, w.node);
    ApplyOne(docs, DeleteTerm(w.node));
    if w.Upsert? {
      var r := Without(docs, w.node);
      AddHolds(r, m - {w.node}, NewDoc(w));
      ApplyOne(r, AddDocument(NewDoc(w)));
      assert Buffered(w) == [DeleteTerm(w.node)] + [AddDocument(NewDoc(w))];
      ApplyConcat(docs, [DeleteTerm(w.node)], [AddDocument(NewDoc(w))]);
      assert Won(m, w) == (m - {w.node})[w.node := NewDoc(w)];
    }
  }

  lemma {:induction false} ApplyConcat(docs: seq<Doc>, a: seq<EngineOp>, b: seq<EngineOp>)
    ensures ApplyOps(docs, a + b) == ApplyOps(ApplyOps(docs, a), b)
    decreases |a|
  {
    if a == [] {
      assert a + b == b;
    } else {
      assert (a + b)[1..] == a[1..] + b;
      ApplyConcat(ApplyOp(docs, a[0]), a[1..], b);
    }
  }

  /** Applying a committed window to the index is last-writer-wins on its writes. */
  lemma {:induction false} WindowHolds(docs: seq<Doc>, m: Latest, window: Window)
    requires Holds(docs, m)
    ensures Holds(ApplyOps(docs, BufferedAll(window)), WonBy(m, window))
    decreases |window|
  {
    if window == [] {
    } else {
      var front, w := window[..|window| - 1], window[|window| - 1];
      WindowHolds(docs, m, front);
      ApplyConcat(docs, BufferedAll(front), Buffered(w));
      WriteHolds(ApplyOps(docs, BufferedAll(front)), WonBy(m, front), w);
    }
  }

  /** Closing one more window. */
  lemma ClosedConcat(closed: seq<Window>, window: Window)
    ensures WonByAll(closed + [window]) == WonBy(WonByAll(closed), window)
  {
  }

  // ---- an upsert that fails ------------------------------------------------------------

  /** The map a caller would expect if a failed upsert had no effect. */
  function Expected(m: Latest, window: Window): Latest {
    if window == [] then m
    else
      var before := Expected(m, window[..|window| - 1]);
      var w := window[|window| - 1];
      if w.RejectedUpsert? then before else Won(before, w)
  }

  /** The last write to the node in the window is a failed upsert. */
  predicate EndsRejected(window: Window, n: NodeId) {
    if window == [] then false
    else
      var w := window[|window| - 1];
      if w.node == n then w.RejectedUpsert? else EndsRejected(window[..|window| - 1], n)
  }

  lemma {:induction false} RejectedRemoves(m: Latest, window: Window, n: NodeId)
    ensures EndsRejected(window, n) ==> n !in WonBy(m, window)
    ensures !EndsRejected(window, n) ==>
      (n in WonBy(m, window) <==> n in Expected(m, window))
      && (n in WonBy(m, window) ==> WonBy(m, window)[n] == Expected(m, window)[n])
    decreases |window|
  {
    if window == [] {
    } else {
      RejectedRemoves(m, window[..|window| - 1], n);
    }
  }

  /** Failed upserts leave no trace in a committed window exactly when none of
      them is the last write to a node that would otherwise be indexed. */
  lemma RejectedUpsertsHarmless(m: Latest, window: Window)
    ensures WonBy(m, window) == Expected(m, window)
            <==> forall n :: EndsRejected(window, n) ==> n !in Expected(m, window)
  {
    forall n ensures
      && (EndsRejected(window, n) ==> n !in WonBy(m, window))
      && (!EndsRejected(window, n) ==>
            (n in WonBy(m, window) <==> n in Expected(m, window))
            && (n in WonBy(m, window) ==> WonBy(m, window)[n] == Expected(m, window)[n]))
    {
      RejectedRemoves(m, window, n);
    }
  }

  /** A retried document that the engine rejects deletes what was indexed. */
  lemma RejectedUpsertDeletes()
    ensures var before := WonBy(map[], [Upsert(7, 1, "old")]);
      7 in before && 7 !in WonBy(before, [RejectedUpsert(7)])
  {
  }

  // ---- visibility ------------------------------------------------------------------------

  function SaturatingInc(x: nat): nat {
    if x >= U64_MAX then U64_MAX else x + 1
  }

  /** The two range clauses a search conjoins with the user's query. */
  predicate Filter(doc: Doc, readLsn: nat) {
    0 <= doc.commitLsn <= readLsn && SaturatingInc(readLsn) <= doc.expiredLsn <= U64_MAX
  }

  /** The filter is snapshot visibility except at the one saturated corner. */
  lemma FilterIsSnapshot(doc: Doc, readLsn: nat)
    requires doc.expiredLsn <= U64_MAX && readLsn <= U64_MAX && doc.commitLsn <= readLsn
    ensures (Filter(doc, readLsn) <==> readLsn < doc.expiredLsn) <==> !(readLsn == U64_MAX && doc.expiredLsn == U64_MAX)
  {
  }

  function Visible(docs: seq<Doc>, readLsn: nat): set<NodeId> {
    set i | 0 <= i < |docs| && Filter(docs[i], readLsn) :: docs[i].node
  }

  // ---- in terms of the writes ----------------------------------------------------------------

  /** All the writes of these windows, in order. */
  function Flat(windows: seq<Window>): seq<Write> {
    if windows == [] then [] else Flat(windows[..|windows| - 1]) + windows[|windows| - 1]
  }

  /** The last write to the node, of all of these, is the one at `i`. */
  predicate LastAt(writes: seq<Write>, n: NodeId, i: nat) {
    i < |writes| && writes[i].node == n && forall j :: i < j < |writes| ==> writes[j].node != n
  }

  /** The last write to the node puts this LSN and this body in the index. */
  ghost predicate LastPuts(writes: seq<Write>, n: NodeId, lsn: nat, body: string) {
    exists i: nat :: LastAt(writes, n, i) && writes[i] == Upsert(n, lsn, body)
  }

  /** The map holds for the node what the last write to it put there, and nothing else. */
  ghost predicate Agrees(m: Latest, writes: seq<Write>, n: NodeId) {
    && (forall lsn, body :: LastPuts(writes, n, lsn, body) ==> n in m && m[n] == Doc(n, lsn, U64_MAX, body))
    && (n in m ==> LastPuts(writes, n, m[n].commitLsn, m[n].body) && m[n].node == n && m[n].expiredLsn == U64_MAX)
  }

  lemma LastOfMore(writes: seq<Write>, w: Write, n: NodeId, i: nat)
    ensures w.node != n ==> (LastAt(writes + [w], n, i) <==> LastAt(writes, n, i))
    ensures w.node == n ==> (LastAt(writes + [w], n, i) <==> i == |writes|)
  {
    if LastAt(writes, n, i) && w.node != n { assert LastAt(writes + [w], n, i); }
    if LastAt(writes + [w], n, i) && i < |writes| {
      assert (writes + [w])[|writes|].node != n;
      forall j | i < j < |writes| ensures writes[j].node != n { assert (writes + [w])[j] == writes[j]; }
    }
  }

  lemma OneWrite(m: Latest, writes: seq<Write>, w: Write, n: NodeId)
    requires Agrees(m, writes, n)
    ensures Agrees(Won(m, w), writes + [w], n)
  {
    forall i: nat ensures w.node != n ==> (LastAt(writes + [w], n, i) <==> LastAt(writes, n, i))
                  ensures w.node == n ==> (LastAt(writes + [w], n, i) <==> i == |writes|)
    {
      LastOfMore(writes, w, n, i);
    }
    forall lsn, body ensures w.node != n ==> (LastPuts(writes + [w], n, lsn, body) <==> LastPuts(writes, n, lsn, body))
                     ensures w.node == n ==> (LastPuts(writes + [w], n, lsn, body) <==> w == Upsert(n, lsn, body))
    {
      if LastPuts(writes, n, lsn, body) && w.node != n {
        var i: nat :| LastAt(writes, n, i) && writes[i] == Upsert(n, lsn, body);
        assert LastAt(writes + [w], n, i) && (writes + [w])[i] == Upsert(n, lsn, body);
      }
      if w == Upsert(n, lsn, body) { assert LastAt(writes + [w], n, |writes|); }
    }
  }

  lemma {:induction false} OneWindow(m: Latest, writes: seq<Write>, window: Window, n: NodeId)
    requires Agrees(m, writes, n)
    ensures Agrees(WonBy(m, window), writes + window, n)
    decreases |window|
  {
    hide Agrees;
    if window == [] {
      assert writes + window == writes;
    } else {
      var front, w := window[..|window| - 1], window[|window| - 1];
      OneWindow(m, writes, front, n);
      OneWrite(WonBy(m, front), writes + front, w, n);
      assert writes + front + [w] == writes + window;
    }
  }

  /** Last writer wins: for every node, the map of a history of committed windows holds the
      LSN and the body of the last write to it, if that is an upsert, and otherwise
      nothing. */
  lemma {:induction false} LastWriterWins(windows: seq<Window>, n: NodeId)
    ensures Agrees(WonByAll(windows), Flat(windows), n)
    decreases |windows|
  {
    if windows == [] {
    } else {
      hide Agrees;
      var front := windows[..|windows| - 1];
      LastWriterWins(front, n);
      OneWindow(WonByAll(front), Flat(front), windows[|windows| - 1], n);
    }
  }

  /** The index itself: one document for each node whose last write is an upsert, with that
      write's LSN and body, and no other document. */
  lemma HoldsLastWrites(docs: seq<Doc>, windows: seq<Window>)
    requires Holds(docs, WonByAll(windows))
    ensures forall i :: 0 <= i < |docs| ==> LastPuts(Flat(windows), docs[i].node, docs[i].commitLsn, docs[i].body)
    ensures forall n, lsn, body :: LastPuts(Flat(windows), n, lsn, body) ==> Doc(n, lsn, U64_MAX, body) in docs
    ensures forall i, j :: 0 <= i < j < |docs| ==> docs[i].node != docs[j].node
  {
    hide WonByAll, Flat, LastPuts;
    forall n ensures Agrees(WonByAll(windows), Flat(windows), n) { LastWriterWins(windows, n); }
    forall i | 0 <= i < |docs| ensures LastPuts(Flat(windows), docs[i].node, docs[i].commitLsn, docs[i].body) {
      assert Agrees(WonByAll(windows), Flat(windows), docs[i].node);
    }
    forall n, lsn, body | LastPuts(Flat(windows), n, lsn, body) ensures Doc(n, lsn, U64_MAX, body) in docs {
      assert Agrees(WonByAll(windows), Flat(windows), n);
    }
  }

  /** The last write to the node is an upsert at or below this LSN. */
  ghost predicate Seen(writes: seq<Write>, n: NodeId, readLsn: nat) {
    exists i: nat :: LastAt(writes, n, i) && writes[i].Upsert? && writes[i].lsn <= readLsn
  }

  /** A search sees a node exactly if the last committed write to it is an upsert at or
      below its LSN. */
  lemma SearchSees(docs: seq<Doc>, windows: seq<Window>, readLsn: nat, n: NodeId)
    requires Holds(docs, WonByAll(windows)) && readLsn <= U64_MAX
    ensures n in Visible(docs, readLsn) <==> Seen(Flat(windows), n, readLsn)
  {
    hide WonByAll, Flat;
    var m := WonByAll(windows);
    LastWriterWins(windows, n);
    if Seen(Flat(windows), n, readLsn) {
      var i: nat :| LastAt(Flat(windows), n, i) && Flat(windows)[i].Upsert? && Flat(windows)[i].lsn <= readLsn;
      assert LastPuts(Flat(windows), n, Flat(windows)[i].lsn, Flat(windows)[i].body);
    }
    if n in m {
      var i :| 0 <= i < |docs| && docs[i] == m[n];
      assert Filter(docs[i], readLsn) <==> m[n].commitLsn <= readLsn;
      assert LastPuts(Flat(windows), n, m[n].commitLsn, m[n].body);
    }
  }
}
