/** The densified adjacency store: small blocks packed several to a page in stream
    order, large ones on pages of their own, and the arithmetic that projects the
    bytes this takes before anything is written. */
module TelProjection {
  const PAGE_SIZE: nat := 8192
  const PAGE_HEADER: nat := 40
  const BLOCK_HEADER: nat := 32
  const ENTRY: nat := 32
  const DIR_HEADER: nat := 8
  const DIR_SLOT: nat := 16
  const SUPERNODE: nat := 126
  const MAX_ENTRIES: nat := 253
  const U64_MAX: nat := 0xFFFF_FFFF_FFFF_FFFF

  /** Bytes of a packed page left for blocks and their directory slots. */
  const BODY: nat := 8144  // PAGE_SIZE - PAGE_HEADER - DIR_HEADER

  // ---- the packer -------------------------------------------------------------------------

  /** A block is its number of entries. */
  datatype Page = Packed(blocks: seq<nat>) | Dedicated(entries: nat)

  datatype Layout = Layout(pages: seq<Page>, pending: seq<nat>)

  function Cost(entries: nat): nat { BLOCK_HEADER + ENTRY * entries + DIR_SLOT }

  function CostAll(blocks: seq<nat>): nat {
    if blocks == [] then 0 else CostAll(blocks[..|blocks| - 1]) + Cost(blocks[|blocks| - 1])
  }

  function Flushed(l: Layout): Layout {
    if l.pending == [] then l else Layout(l.pages + [Packed(l.pending)], [])
  }

  function Place(l: Layout, entries: nat): Layout {
    if entries >= SUPERNODE then Layout(Flushed(l).pages + [Dedicated(entries)], [])
    else if l.pending != [] && CostAll(l.pending) + Cost(entries) > BODY
    then Layout(l.pages + [Packed(l.pending)], [entries])
    else Layout(l.pages, l.pending + [entries])
  }

  function PlaceAll(blocks: seq<nat>): Layout {
    if blocks == [] then Layout([], []) else Place(PlaceAll(blocks[..|blocks| - 1]), blocks[|blocks| - 1])
  }

  function Pages(blocks: seq<nat>): seq<Page> { Flushed(PlaceAll(blocks)).pages }

  function BlocksOf(pages: seq<Page>): seq<nat> {
    if pages == [] then []
    else
      var p := pages[|pages| - 1];
      BlocksOf(pages[..|pages| - 1]) + if p.Packed? then p.blocks else [p.entries]
  }

  /** A block the writer accepts: not empty, and it fits a page of its own. */
  predicate Writable(blocks: seq<nat>) {
    forall i :: 0 <= i < |blocks| ==> 1 <= blocks[i] <= MAX_ENTRIES
  }

  /** The largest block is the largest that fits a page of its own; the smallest supernode
      takes up more than half of one. */
  lemma LargestFits(entries: nat)
    ensures BLOCK_HEADER + ENTRY * entries <= PAGE_SIZE - PAGE_HEADER <==> entries <= MAX_ENTRIES
    ensures 2 * Cost(entries) > BODY <==> entries >= SUPERNODE
  {
  }

  /** The writer's loop: running byte counts, with a page flushed when the next
      block and its directory slot do not fit. */
  method PackTel(blocks: seq<nat>) returns (pages: seq<Page>)
    ensures pages == Pages(blocks)
  {
    var pending: seq<nat>, bodyBytes := [], 0;
    pages := [];
    for i := 0 to |blocks|
      invariant Layout(pages, pending) == PlaceAll(blocks[..i])
      invariant bodyBytes + DIR_SLOT * |pending| == CostAll(pending)
    {
      assert blocks[..i + 1][..i] == blocks[..i];
      var bytes := BLOCK_HEADER + ENTRY * blocks[i];
      if blocks[i] >= SUPERNODE {
        if pending != [] {
          pages := pages + [Packed(pending)];
          pending, bodyBytes := [], 0;
        }
        pages := pages + [Dedicated(blocks[i])];
      } else {
        if pending != [] && bodyBytes + bytes > (PAGE_SIZE - PAGE_HEADER) - (DIR_HEADER + (|pending| + 1) * DIR_SLOT) {
          pages := pages + [Packed(pending)];
          pending, bodyBytes := [], 0;
        }
        assert (pending + [blocks[i]])[..|pending|] == pending;
        pending, bodyBytes := pending + [blocks[i]], bodyBytes + bytes;
      }
    }
    assert blocks[..|blocks|] == blocks;
    if pending != [] { pages := pages + [Packed(pending)]; }
  }

  lemma BlocksOfOne(pages: seq<Page>, p: Page)
    ensures BlocksOf(pages + [p]) == BlocksOf(pages) + if p.Packed? then p.blocks else [p.entries]
  {
  }

  /** No packed page overflows. */
  predicate Fit(pages: seq<Page>) {
    forall i :: 0 <= i < |pages| && pages[i].Packed? ==> CostAll(pages[i].blocks) <= BODY
  }

  /** Nothing is lost, repeated or reordered, and no packed page overflows. */
  lemma {:induction false} PackingKeepsStream(blocks: seq<nat>)
    ensures var l := PlaceAll(blocks);
      && Stream(l) == blocks && BlocksOf(Flushed(l).pages) == blocks
      && CostAll(l.pending) <= BODY && Fit(Flushed(l).pages)
    decreases |blocks|
  {
    hide Fit, CostAll, BlocksOf, Place, Stream, Flushed;
    if blocks == [] {
      NothingPacked();
    } else {
      var front, e := blocks[..|blocks| - 1], blocks[|blocks| - 1];
      PackingKeepsStream(front);
      PlaceKeeps(PlaceAll(front), e);
      PlaceFits(PlaceAll(front), e);
      PagesStay(PlaceAll(front), e);
      assert blocks == front + [e];
    }
  }

  lemma NothingPacked()
    ensures var l := Layout([], []);
      Stream(l) == [] && BlocksOf(Flushed(l).pages) == [] && CostAll(l.pending) == 0 && Fit(Flushed(l).pages)
  {
  }

  /** Every block of the layout, in stream order. */
  function Stream(l: Layout): seq<nat> { BlocksOf(l.pages) + l.pending }

  lemma FlushKeeps(l: Layout)
    ensures BlocksOf(Flushed(l).pages) == Stream(l)
  {
  }

  lemma PlaceKeeps(l: Layout, e: nat)
    ensures Stream(Place(l, e)) == Stream(l) + [e] && BlocksOf(Flushed(Place(l, e)).pages) == Stream(l) + [e]
  {
    hide BlocksOf, CostAll;
    FlushKeeps(Place(l, e));
    if e >= SUPERNODE {
      FlushKeeps(l);
      BlocksOfOne(Flushed(l).pages, Dedicated(e));
      assert Stream(l) + [e] + [] == Stream(l) + [e];
    } else if l.pending != [] && CostAll(l.pending) + Cost(e) > BODY {
      BlocksOfOne(l.pages, Packed(l.pending));
    } else {
      assert BlocksOf(l.pages) + (l.pending + [e]) == Stream(l) + [e];
    }
  }

  lemma PlaceFits(l: Layout, e: nat)
    ensures CostAll(Place(l, e).pending) <= BODY
  {
  }

  /** Placing a block adds pages; it never changes a page already filled. */
  lemma PagesStay(l: Layout, e: nat)
    requires CostAll(l.pending) <= BODY && (e < SUPERNODE ==> CostAll(Place(l, e).pending) <= BODY)
    requires Fit(Flushed(l).pages)
    ensures Fit(Flushed(Place(l, e)).pages)
  {
    var pages := Flushed(Place(l, e)).pages;
    forall i | 0 <= i < |pages| && pages[i].Packed? ensures CostAll(pages[i].blocks) <= BODY {
      if i < |l.pages| { assert pages[i] == l.pages[i] == Flushed(l).pages[i]; }
    }
  }

  // ---- the page bound ------------------------------------------------------------------------

  /** Maximal runs of packed blocks: each ends in a page that may be nearly empty. */
  function Runs(blocks: seq<nat>): nat {
    if blocks == [] then 0
    else
      var front := blocks[..|blocks| - 1];
      var begins := blocks[|blocks| - 1] < SUPERNODE && (front == [] || front[|front| - 1] >= SUPERNODE);
      Runs(front) + if begins then 1 else 0
  }

  /** The page count the projection charges: twice the bytes, rounded up to pages. */
  function CeilDiv(a: nat, b: nat): nat
    requires b > 0
  {
    (a + b - 1) / b
  }

  function Charged(blocks: seq<nat>): nat { CeilDiv(2 * CostAll(blocks), BODY) }

  function Open(l: Layout): nat { if l.pending == [] then 0 else 1 }

  lemma {:induction false} PendingIsLastRun(blocks: seq<nat>)
    ensures PlaceAll(blocks).pending != [] <==> blocks != [] && blocks[|blocks| - 1] < SUPERNODE
    ensures Open(PlaceAll(blocks)) <= Runs(blocks)
    decreases |blocks|
  {
    if blocks == [] {
    } else {
      PendingIsLastRun(blocks[..|blocks| - 1]);
    }
  }

  /** What a short page and the supernode that forces it out are charged beyond one page,
      at least: the page's blocks, and, for blocks that are not empty, the supernode's
      own excess over half a page. */
  predicate Surplus(blocks: seq<nat>, surplus: nat) {
    surplus == 96 || (surplus == 176 && Writable(blocks))
  }

  lemma {:induction false} PendingWithin(blocks: seq<nat>)
    ensures forall i :: 0 <= i < |PlaceAll(blocks).pending| ==> PlaceAll(blocks).pending[i] in blocks
    decreases |blocks|
  {
    if blocks == [] {
    } else {
      PendingWithin(blocks[..|blocks| - 1]);
    }
  }

  /** Placing a block closes pages that are more than half full, except the short
      page that a supernode forces out. */
  lemma PlaceEarns(l: Layout, e: nat, surplus: nat)
    requires Surplus(l.pending, surplus)
    ensures var n := Place(l, e); var short := if e >= SUPERNODE && l.pending != [] then 1 else 0;
      2 * Cost(e) + 2 * CostAll(l.pending) >=
        BODY * (|n.pages| - |l.pages| - short) + 2 * CostAll(n.pending) + surplus * short
  {
    AtLeastOne(l.pending);
  }

  /** Runs that have ended, each with its short page. */
  function Ended(blocks: seq<nat>): int { Runs(blocks) - Open(PlaceAll(blocks)) }

  lemma EndedStep(blocks: seq<nat>)
    requires blocks != []
    ensures var front := blocks[..|blocks| - 1];
      var ends := blocks[|blocks| - 1] >= SUPERNODE && PlaceAll(front).pending != [];
      Ended(blocks) == Ended(front) + if ends then 1 else 0
  {
  }

  /** Every page but the last of each run is more than half full. */
  lemma {:induction false} HalfFull(blocks: seq<nat>, surplus: nat)
    requires Surplus(blocks, surplus)
    ensures var l := PlaceAll(blocks);
      2 * CostAll(blocks) >= BODY * (|l.pages| - Ended(blocks)) + 2 * CostAll(l.pending) + surplus * Ended(blocks)
    decreases |blocks|
  {
    if blocks == [] {
    } else {
      var front, e := blocks[..|blocks| - 1], blocks[|blocks| - 1];
      HalfFull(front, surplus);
      EndedStep(blocks);
      PendingWithin(front);
      PlaceEarns(PlaceAll(front), e, surplus);
      Totals(PlaceAll(front), PlaceAll(blocks), Ended(front), Ended(blocks), CostAll(front), Cost(e), surplus);
    }
  }

  lemma Totals(l: Layout, n: Layout, ended: int, now: int, sum: nat, cost: nat, surplus: nat)
    requires 2 * sum >= BODY * (|l.pages| - ended) + 2 * CostAll(l.pending) + surplus * ended
    requires 2 * cost + 2 * CostAll(l.pending) >=
      BODY * (|n.pages| - |l.pages| - (now - ended)) + 2 * CostAll(n.pending) + surplus * (now - ended)
    ensures 2 * (sum + cost) >= BODY * (|n.pages| - now) + 2 * CostAll(n.pending) + surplus * now
  {
    assert surplus * ended + surplus * (now - ended) == surplus * now;
  }

  lemma AtLeastOne(blocks: seq<nat>)
    ensures blocks != [] ==> CostAll(blocks) >= Cost(0)
    ensures blocks != [] && Writable(blocks) ==> CostAll(blocks) >= Cost(1)
  {
  }

  lemma CeilIsLeast(a: nat, b: nat, k: nat)
    requires b > 0
    ensures k <= CeilDiv(a, b) <==> k == 0 || (k - 1) * b < a
  {
    var q := CeilDiv(a, b);
    assert q * b <= a + b - 1 < (q + 1) * b;
    if k <= q { MulOrder(k, q, b); } else { MulOrder(q + 1, k, b); }
    assert (k - 1) * b == k * b - b;
  }

  lemma MulOrder(x: int, y: int, b: nat)
    ensures x <= y ==> x * b <= y * b
  {
  }

  /** The pages used exceed the pages charged by less than the number of runs. */
  lemma PageBound(blocks: seq<nat>)
    ensures |Pages(blocks)| <= Charged(blocks) + (if Runs(blocks) <= 1 then 0 else Runs(blocks) - 1)
  {
    hide CostAll, PlaceAll, Runs, CeilDiv;
    HalfFull(blocks, 96);
    PendingIsLastRun(blocks);
    AtLeastOne(PlaceAll(blocks).pending);
    var extra := if Runs(blocks) <= 1 then 0 else Runs(blocks) - 1;
    if |Pages(blocks)| > extra {
      CeilIsLeast(2 * CostAll(blocks), BODY, |Pages(blocks)| - extra);
    }
  }

  /** For blocks that are not empty, what the pages cost at least: half of each but the
      short ones, one block for each of these, and the excess of the supernode after it. */
  lemma SharpBound(blocks: seq<nat>)
    requires Writable(blocks)
    ensures 2 * CostAll(blocks) >= BODY * (|Pages(blocks)| - Runs(blocks)) + 160 * Runs(blocks) + 16 * Ended(blocks)
  {
    hide CostAll, PlaceAll, Runs;
    HalfFull(blocks, 176);
    PendingWithin(blocks);
    AtLeastOne(PlaceAll(blocks).pending);
  }

  /** One small block, then one supernode, `n` times over. */
  function Alternating(n: nat): seq<nat> {
    if n == 0 then [] else Alternating(n - 1) + [1] + [SUPERNODE]
  }

  lemma Append(blocks: seq<nat>, e: nat)
    ensures PlaceAll(blocks + [e]) == Place(PlaceAll(blocks), e)
    ensures CostAll(blocks + [e]) == CostAll(blocks) + Cost(e)
    ensures Runs(blocks + [e]) ==
      Runs(blocks) + if e < SUPERNODE && (blocks == [] || blocks[|blocks| - 1] >= SUPERNODE) then 1 else 0
  {
  }

  lemma {:induction false} AlternatingUses(n: nat)
    ensures Alternates(Alternating(n), n) && Writable(Alternating(n))
    decreases n
  {
    hide Alternates;
    if n == 0 {
      AlternatingNone();
    } else {
      AlternatingUses(n - 1);
      AlternatingStep(Alternating(n - 1), n - 1);
    }
  }

  /** What `n` pairs use: two pages each, and one run. */
  predicate Alternates(a: seq<nat>, n: nat) {
    && PlaceAll(a).pending == [] && |PlaceAll(a).pages| == 2 * n && Runs(a) == n
    && CostAll(a) == n * (Cost(1) + Cost(SUPERNODE))
    && (a == [] || a[|a| - 1] >= SUPERNODE)
  }

  lemma AlternatingNone()
    ensures Alternates([], 0)
  {
  }

  lemma AlternatingStep(a: seq<nat>, n: nat)
    requires Alternates(a, n)
    ensures Alternates(a + [1] + [SUPERNODE], n + 1)
  {
    hide PlaceAll, CostAll, Runs;
    Append(a, 1);
    Append(a + [1], SUPERNODE);
    NothingCosts();
  }

  lemma NothingCosts()
    ensures CostAll([]) == 0
  {
  }

  /** Neither bound can be improved: for every number of runs some stream meets the sharp
      one exactly, and up to 46 runs it also exceeds the charge by all but one of them. */
  lemma BoundsAreMet(n: nat)
    ensures var blocks := Alternating(n);
      && Writable(blocks) && Runs(blocks) == n
      && 2 * CostAll(blocks) == BODY * (|Pages(blocks)| - n) + 160 * n + 16 * Ended(blocks)
      && (1 <= n <= 46 ==> |Pages(blocks)| == Charged(blocks) + n - 1)
  {
    hide CostAll, PlaceAll, Runs, CeilDiv, Alternating;
    AlternatingUses(n);
    if 1 <= n <= 46 {
      CeilIsLeast(2 * CostAll(Alternating(n)), BODY, n + 1);
      CeilIsLeast(2 * CostAll(Alternating(n)), BODY, n + 2);
    }
  }

  /** The projection covers every stream with the given number of runs of packed
      blocks exactly when there is at most one: from two runs on, the short pages
      that supernodes force out are not paid for. */
  lemma CoversIffOneRun(runs: nat)
    ensures
      (forall blocks :: Writable(blocks) && Runs(blocks) == runs ==> |Pages(blocks)| <= Charged(blocks)) <==> runs <= 1
  {
    if runs <= 1 {
      forall blocks | Writable(blocks) && Runs(blocks) == runs ensures |Pages(blocks)| <= Charged(blocks) {
        PageBound(blocks);
      }
    } else {
      var blocks := Alternating(runs);
      AlternatingUses(runs);
      CeilIsLeast(2 * CostAll(blocks), BODY, 2 * runs);
      assert !(|Pages(blocks)| <= Charged(blocks));
    }
  }

  // ---- the projection's arithmetic ---------------------------------------------------------------

  function Clamp(n: nat): nat { if n <= U64_MAX then n else U64_MAX }

  function SatAdd(a: nat, b: nat): nat { Clamp(a + b) }

  function SatMul(a: nat, b: nat): nat { Clamp(a * b) }

  /** The projected store size in bytes, in saturating 64-bit arithmetic. */
  function Projected(blocks: nat, entries: nat): nat {
    var content := SatAdd(SatMul(blocks, BLOCK_HEADER), SatMul(entries, ENTRY));
    var directory := SatMul(blocks, DIR_SLOT);
    var total := SatAdd(content, directory);
    SatMul(CeilDiv(SatMul(total, 2), BODY), PAGE_SIZE)
  }

  function Exact(blocks: nat, entries: nat): nat {
    CeilDiv(2 * (blocks * BLOCK_HEADER + entries * ENTRY + blocks * DIR_SLOT), BODY) * PAGE_SIZE
  }

  lemma CeilMonotone(a: nat, b: nat)
    ensures a <= b ==> CeilDiv(a, BODY) <= CeilDiv(b, BODY)
  {
  }

  /** Saturation anywhere on the way ends at the same clamp as the exact value. */
  lemma ProjectedIsClamped(blocks: nat, entries: nat)
    requires blocks <= U64_MAX && entries <= U64_MAX
    ensures Projected(blocks, entries) == Clamp(Exact(blocks, entries))
  {
    var total := blocks * BLOCK_HEADER + entries * ENTRY + blocks * DIR_SLOT;
    if 2 * total > U64_MAX { CeilMonotone(U64_MAX, 2 * total); }
  }

  function EntriesOf(blocks: seq<nat>): nat {
    if blocks == [] then 0 else EntriesOf(blocks[..|blocks| - 1]) + blocks[|blocks| - 1]
  }

  lemma {:induction false} CostIs(blocks: seq<nat>)
    ensures CostAll(blocks) == |blocks| * BLOCK_HEADER + EntriesOf(blocks) * ENTRY + |blocks| * DIR_SLOT
    decreases |blocks|
  {
    if blocks == [] {
    } else {
      CostIs(blocks[..|blocks| - 1]);
    }
  }

  /** For a stream with at most one run of packed blocks - every stream without
      supernodes is one - the projected bytes cover the written bytes, up to the
      64-bit maximum. */
  lemma ProjectionCovers(blocks: seq<nat>)
    requires Runs(blocks) <= 1 && |blocks| <= U64_MAX && EntriesOf(blocks) <= U64_MAX
    ensures Projected(|blocks|, EntriesOf(blocks)) >= Clamp(|Pages(blocks)| * PAGE_SIZE)
  {
    hide CostAll, PlaceAll, Runs, CeilDiv, Projected, Pages;
    PageBound(blocks);
    CostIs(blocks);
    ProjectedIsClamped(|blocks|, EntriesOf(blocks));
  }

  lemma {:induction false} NoSupernodesOneRun(blocks: seq<nat>)
    requires forall i :: 0 <= i < |blocks| ==> blocks[i] < SUPERNODE
    ensures Runs(blocks) <= 1
    decreases |blocks|
  {
    if |blocks| <= 1 {
    } else {
      NoSupernodesOneRun(blocks[..|blocks| - 1]);
    }
  }

  lemma {:induction false} EntriesAtLeast(blocks: seq<nat>)
    requires Writable(blocks)
    ensures EntriesOf(blocks) >= |blocks|
    ensures forall i :: 0 <= i < |blocks| ==> EntriesOf(blocks) >= |blocks| - 1 + blocks[i]
    decreases |blocks|
  {
    if blocks == [] {
    } else {
      var front := blocks[..|blocks| - 1];
      EntriesAtLeast(front);
      assert forall i :: 0 <= i < |front| ==> front[i] == blocks[i];
    }
  }

  /** What the projection's caller can see, the two counts, settles it when there are too
      few entries for a supernode among that many blocks. */
  lemma FewEntriesCovered(blocks: seq<nat>)
    requires Writable(blocks) && |blocks| <= U64_MAX && EntriesOf(blocks) <= U64_MAX
    requires EntriesOf(blocks) < |blocks| + SUPERNODE - 1
    ensures Projected(|blocks|, EntriesOf(blocks)) >= Clamp(|Pages(blocks)| * PAGE_SIZE)
  {
    hide Projected, Pages, Clamp, Runs;
    EntriesAtLeast(blocks);
    NoSupernodesOneRun(blocks);
    ProjectionCovers(blocks);
  }

  /** One entry more is not enough to go by: the smallest stream left uncovered. */
  lemma OneSupernodeUncovered()
    ensures var blocks := [1, SUPERNODE, 1];
      && Writable(blocks) && EntriesOf(blocks) == |blocks| + SUPERNODE - 1
      && Projected(|blocks|, EntriesOf(blocks)) < |Pages(blocks)| * PAGE_SIZE
  {
    var none: seq<nat> := [];
    var blocks := [1, SUPERNODE, 1];
    assert none + [1] + [SUPERNODE] + [1] == blocks;
    EntriesAppend(none, 1);
    EntriesAppend(none + [1], SUPERNODE);
    EntriesAppend(none + [1] + [SUPERNODE], 1);
    NoBlocks();
    hide PlaceAll, CostAll, EntriesOf;
    PageMore(none, 1);
    PageMore(none + [1], SUPERNODE);
    PageMore(none + [1] + [SUPERNODE], 1);
  }

  // ---- what the two counts decide ------------------------------------------------------------------

  /** The charge covers every stream with these counts. */
  ghost predicate CoversCounts(n: nat, m: nat) {
    forall blocks :: Writable(blocks) && |blocks| == n && EntriesOf(blocks) == m ==> |Pages(blocks)| <= Charged(blocks)
  }

  lemma {:induction false} PagesAtMost(blocks: seq<nat>)
    ensures |PlaceAll(blocks).pages| + Open(PlaceAll(blocks)) <= |blocks|
    decreases |blocks|
  {
    if blocks == [] {
    } else {
      hide CostAll;
      PagesAtMost(blocks[..|blocks| - 1]);
    }
  }

  lemma TwoBlocksOneRun(blocks: seq<nat>)
    requires |blocks| <= 2
    ensures Runs(blocks) <= 1
  {
    if |blocks| == 2 { assert blocks[..1][..0] == []; }
  }

  /** Small blocks and supernodes in turn, with so many entries beyond the fewest. */
  function Mixed(n: nat, extra: nat): seq<nat> {
    if n == 0 then []
    else Mixed(n - 1, extra - Takes(n, extra)) + [(if n % 2 == 1 then 1 else SUPERNODE) + Takes(n, extra)]
  }

  /** Every block has a page of its own, with the last one still open if it is small. */
  predicate PageEach(blocks: seq<nat>) {
    var l := PlaceAll(blocks);
    && Writable(blocks) && |l.pages| + Open(l) == |blocks|
    && (l.pending != [] <==> |blocks| % 2 == 1)
  }

  lemma PageMore(blocks: seq<nat>, e: nat)
    requires PageEach(blocks)
    requires if |blocks| % 2 == 0 then 1 <= e < SUPERNODE else SUPERNODE <= e <= MAX_ENTRIES
    ensures PageEach(blocks + [e])
  {
    hide PlaceAll, CostAll;
    Append(blocks, e);
  }

  function Takes(n: nat, extra: nat): nat {
    var room := if n % 2 == 1 then 124 else 127;
    if extra < room then extra else room
  }

  lemma {:induction false} MixedIs(n: nat, extra: nat)
    requires extra <= 124 * (n - n / 2) + 127 * (n / 2)
    ensures var blocks := Mixed(n, extra);
      |blocks| == n && PageEach(blocks) && EntriesOf(blocks) == n + 125 * (n / 2) + extra
    decreases n
  {
    hide PageEach, EntriesOf;
    if n == 0 {
      NoBlocks();
    } else {
      var rest := extra - Takes(n, extra);
      var front, e := Mixed(n - 1, rest), (if n % 2 == 1 then 1 else SUPERNODE) + Takes(n, extra);
      MixedIs(n - 1, rest);
      PageMore(front, e);
      EntriesAppend(front, e);
    }
  }

  lemma NoBlocks()
    ensures PageEach([]) && EntriesOf([]) == 0
  {
  }

  lemma EntriesAppend(blocks: seq<nat>, e: nat)
    ensures EntriesOf(blocks + [e]) == EntriesOf(blocks) + e
  {
    assert (blocks + [e])[..|blocks|] == blocks;
  }

  /** When there are too few entries for a supernode, or enough to put one after every
      other block, the counts decide exactly: every stream is covered if and only if there
      are at most two blocks, no room for a supernode, or so many entries that a page for
      each block is paid for. */
  lemma CountsDecide(n: nat, m: nat)
    requires m < n + 125 || m >= n + 125 * (n / 2)
    ensures CoversCounts(n, m) <==> n <= 2 || m < n + 125 || BODY * (n - 1) < 2 * (48 * n + 32 * m)
  {
    if n <= 2 || m < n + 125 || BODY * (n - 1) < 2 * (48 * n + 32 * m) {
      forall blocks | Writable(blocks) && |blocks| == n && EntriesOf(blocks) == m
        ensures |Pages(blocks)| <= Charged(blocks)
      {
        CountsCover(blocks);
      }
    } else {
      var blocks := Mixed(n, m - n - 125 * (n / 2));
      MixedIs(n, m - n - 125 * (n / 2));
      hide Mixed, CostAll, CeilDiv;
      CostIs(blocks);
      CeilIsLeast(2 * CostAll(blocks), BODY, n);
      assert |Pages(blocks)| == n > Charged(blocks);
    }
  }

  /** Each of the three conditions is enough, whatever the counts. */
  lemma CountsCover(blocks: seq<nat>)
    requires Writable(blocks)
    requires var n, m := |blocks|, EntriesOf(blocks);
      n <= 2 || m < n + 125 || BODY * (n - 1) < 2 * (48 * n + 32 * m)
    ensures |Pages(blocks)| <= Charged(blocks)
  {
    hide PlaceAll, CostAll, CeilDiv, Runs;
    var n, m := |blocks|, EntriesOf(blocks);
    if n <= 2 {
      TwoBlocksOneRun(blocks);
      PageBound(blocks);
    } else if m < n + 125 {
      EntriesAtLeast(blocks);
      NoSupernodesOneRun(blocks);
      PageBound(blocks);
    } else {
      PagesAtMost(blocks);
      CostIs(blocks);
      CeilIsLeast(2 * CostAll(blocks), BODY, n);
    }
  }
}
