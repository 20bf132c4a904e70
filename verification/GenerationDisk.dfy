/** The data-dir root as the offline generation tools see it: directory entries
    whose changes are volatile until the root is fsynced, and inodes whose bytes
    are volatile until they are fsynced.  A power loss keeps an arbitrary subset
    of the un-fsynced directory operations and leaves arbitrary bytes in every
    un-fsynced file. */
module GenerationDisk {
  import opened Wrappers

  datatype Tool = M3Migration | M4Migration | M5Load

  /** The entries of a data-dir root that the tools create, rename or refuse. */
  datatype Name =
    | CurrentFile
    | CurrentTmp
    | Building(owner: Tool)
    | Final(owner: Tool)
    | CleanupDir
    | LockFile
    | Foreign(entry: string)

  function FinalDirName(tool: Tool): string {
    match tool
    case M3Migration => "gen-v9"
    case M4Migration => "gen-v10"
    case M5Load => "gen-load-v6"
  }

  function StampVersion(tool: Tool): nat {
    match tool
    case M3Migration => 5
    case M4Migration => 6
    case M5Load => 6
  }

  datatype FileState = FileState(bytes: string, synced: bool)

  /** The generation-local VERSION file: written beside, renamed into place, and
      durable once its parent directory is fsynced. */
  datatype Stamp = Unstamped | Renamed(version: nat) | Durable(version: nat)

  /** `covered` remembers the tree the recursive fsync (the durability ledger)
      walked; `epoch` is the metadata generation of the newest checkpoint. */
  datatype Inode =
    | Text(text: string, synced: bool)
    | Generation(tool: Tool, files: map<string, FileState>,
                 covered: Option<map<string, string>>, stamp: Stamp, epoch: nat)

  datatype DirOp =
    | Link(name: Name, inode: nat)
    | Unlink(name: Name)
    | Rename(from: Name, to: Name, inode: nat)

  /** A directory: its durable entries and the operations not yet fsynced. */
  datatype Dir = Dir(durable: map<Name, nat>, pending: seq<DirOp>)

  datatype Disk = Disk(inodes: map<nat, Inode>, dir: Dir)

  // ---- directory entries ----------------------------------------------------

  function ApplyOp(m: map<Name, nat>, op: DirOp): map<Name, nat> {
    match op
    case Link(name, inode) => m[name := inode]
    case Unlink(name) => m - {name}
    case Rename(from, to, inode) => (m - {from})[to := inode]
  }

  function ApplyOps(m: map<Name, nat>, ops: seq<DirOp>): map<Name, nat> {
    if ops == [] then m else ApplyOp(ApplyOps(m, ops[..|ops| - 1]), ops[|ops| - 1])
  }

  /** What a running process sees: every operation, durable or not. */
  function Entries(dir: Dir): map<Name, nat> {
    ApplyOps(dir.durable, dir.pending)
  }

  function Then(dir: Dir, op: DirOp): Dir {
    Dir(dir.durable, dir.pending + [op])
  }

  function Synced(dir: Dir): Dir {
    Dir(Entries(dir), [])
  }

  function Issue(d: Disk, op: DirOp): Disk {
    d.(dir := Then(d.dir, op))
  }

  function SyncRoot(d: Disk): Disk {
    d.(dir := Synced(d.dir))
  }

  function SetInode(d: Disk, i: nat, inode: Inode): Disk {
    d.(inodes := d.inodes[i := inode])
  }

  // ---- what a directory entry may be, now or after a power loss --------------

  function SetBy(op: DirOp, n: Name): set<nat> {
    if op.Link? && op.name == n then {op.inode}
    else if op.Rename? && op.to == n then {op.inode}
    else {}
  }

  predicate Drops(op: DirOp, n: Name) {
    (op.Unlink? && op.name == n) || (op.Rename? && op.from == n && op.to != n)
  }

  /** Every inode the entry can turn out to be, whatever a power loss keeps. */
  function Possible(dir: Dir, n: Name): set<nat>
    decreases |dir.pending|
  {
    if dir.pending == [] then (if n in dir.durable then {dir.durable[n]} else {})
    else Possible(Front(dir), n) + SetBy(Last(dir), n)
  }

  /** The entry exists, whatever a power loss keeps. */
  predicate Certain(dir: Dir, n: Name)
    decreases |dir.pending|
  {
    if dir.pending == [] then n in dir.durable
    else Certain(Front(dir), n) && !Drops(Last(dir), n)
  }

  function Front(dir: Dir): Dir
    requires dir.pending != []
  {
    Dir(dir.durable, dir.pending[..|dir.pending| - 1])
  }

  function Last(dir: Dir): DirOp
    requires dir.pending != []
  {
    dir.pending[|dir.pending| - 1]
  }

  lemma ThenIs(dir: Dir, op: DirOp)
    ensures Entries(Then(dir, op)) == ApplyOp(Entries(dir), op)
    ensures forall n :: Possible(Then(dir, op), n) == Possible(dir, n) + SetBy(op, n)
    ensures forall n :: Certain(Then(dir, op), n) == (Certain(dir, n) && !Drops(op, n))
  {
  }

  /** The operations of `ops` selected by `mask`, in order. */
  function Kept(ops: seq<DirOp>, mask: seq<bool>): seq<DirOp>
    requires |ops| == |mask|
  {
    if ops == [] then []
    else
      var front := Kept(ops[..|ops| - 1], mask[..|mask| - 1]);
      if mask[|mask| - 1] then front + [ops[|ops| - 1]] else front
  }

  /** The last operation is kept, and applied, or it is not. */
  lemma KeptLast(dir: Dir, mask: seq<bool>)
    requires dir.pending != [] && |mask| == |dir.pending|
    ensures var e := ApplyOps(dir.durable, Kept(Front(dir).pending, mask[..|mask| - 1]));
      ApplyOps(dir.durable, Kept(dir.pending, mask)) == if mask[|mask| - 1] then ApplyOp(e, Last(dir)) else e
  {
    var kept := Kept(Front(dir).pending, mask[..|mask| - 1]);
    assert (kept + [Last(dir)])[..|kept|] == kept;
  }

  /** Whatever subset of the pending operations is applied, an entry is one of
      its possible inodes, and a certain entry is there. */
  lemma {:induction false} KeptIsPossible(dir: Dir, mask: seq<bool>, n: Name)
    requires |mask| == |dir.pending|
    ensures var e := ApplyOps(dir.durable, Kept(dir.pending, mask));
            (n in e ==> e[n] in Possible(dir, n)) && (Certain(dir, n) ==> n in e)
    decreases |dir.pending|
  {
    if dir.pending == [] {
    } else {
      hide ApplyOps, Kept;
      KeptIsPossible(Front(dir), mask[..|mask| - 1], n);
      KeptLast(dir, mask);
    }
  }

  lemma {:induction false} AllKept(ops: seq<DirOp>, mask: seq<bool>)
    requires |ops| == |mask| && forall k :: 0 <= k < |mask| ==> mask[k]
    ensures Kept(ops, mask) == ops
  {
    if ops == [] {
    } else {
      AllKept(ops[..|ops| - 1], mask[..|mask| - 1]);
      assert ops == ops[..|ops| - 1] + [ops[|ops| - 1]];
    }
  }

  lemma CachedIsPossible(dir: Dir, n: Name)
    ensures n in Entries(dir) ==> Entries(dir)[n] in Possible(dir, n)
    ensures Certain(dir, n) ==> n in Entries(dir)
  {
    var mask := seq(|dir.pending|, _ => true);
    AllKept(dir.pending, mask);
    KeptIsPossible(dir, mask, n);
  }

  // ---- power loss ------------------------------------------------------------

  ghost predicate Survives(was: Inode, now: Inode) {
    match was
    case Text(text, synced) => now.Text? && now.synced && (synced ==> now.text == text)
    case Generation(tool, files, covered, stamp, epoch) =>
      && now.Generation? && now.tool == tool && now.covered == covered && now.epoch == epoch
      && (forall f :: f in files && files[f].synced ==> f in now.files && now.files[f] == files[f])
      && (forall f :: f in now.files ==> f in files && now.files[f].synced)
      && match stamp
         case Unstamped => now.stamp == Unstamped
         case Renamed(v) => now.stamp == Unstamped || now.stamp == Durable(v)
         case Durable(v) => now.stamp == stamp
  }

  ghost predicate Surviving(dir: Dir, now: Dir) {
    && now.pending == []
    && exists mask: seq<bool> :: |mask| == |dir.pending|
         && now.durable == ApplyOps(dir.durable, Kept(dir.pending, mask))
  }

  /** A power loss keeps any subset of the un-fsynced directory operations and
      any bytes in un-fsynced files. */
  ghost predicate PowerLoss(d: Disk, d': Disk) {
    && Surviving(d.dir, d'.dir)
    && d'.inodes.Keys == d.inodes.Keys
    && (forall i :: i in d.inodes ==> Survives(d.inodes[i], d'.inodes[i]))
  }

  // ---- generations -------------------------------------------------------------

  /** Every file the ledger covered is present, byte for byte, and fsynced. */
  predicate Complete(inode: Inode) {
    && inode.Generation? && inode.covered.Some?
    && inode.files.Keys == inode.covered.value.Keys
    && forall f :: f in inode.files ==>
         inode.files[f] == FileState(inode.covered.value[f], true)
  }

  function SyncedFiles(files: map<string, FileState>): map<string, FileState> {
    map f | f in files :: FileState(files[f].bytes, true)
  }

  function Bytes(files: map<string, FileState>): map<string, string> {
    map f | f in files :: files[f].bytes
  }

  /** The recursive fsync of a generation directory: the durability ledger. */
  function Ledger(inode: Inode): (r: Inode)
    requires inode.Generation?
    ensures r.Generation? && Complete(r) && Bytes(r.files) == Bytes(inode.files)
    ensures r.tool == inode.tool && r.stamp == inode.stamp && r.epoch == inode.epoch
  {
    var r := inode.(files := SyncedFiles(inode.files), covered := Some(Bytes(inode.files)));
    assert r.files.Keys == inode.files.Keys == r.covered.value.Keys;
    r
  }

  /** A partly finished recursive removal: some files are gone, and nothing that
      is left is known to be durable. */
  function Scrubbed(inode: Inode, keep: set<string>, keepStamp: bool): Inode
    requires inode.Generation?
  {
    inode.(files := map f | f in inode.files && f in keep :: FileState(inode.files[f].bytes, false),
           stamp := if keepStamp then inode.stamp else Unstamped)
  }

  // ---- resolving CURRENT ---------------------------------------------------------

  function TrimLineEnds(s: string): string {
    if s != [] && (s[|s| - 1] == '\n' || s[|s| - 1] == '\r') then TrimLineEnds(s[..|s| - 1]) else s
  }

  /** The generation a CURRENT text names, if it names exactly a known one. */
  function NamedTool(text: string): Option<Tool> {
    var name := TrimLineEnds(text);
    if name == FinalDirName(M3Migration) then Some(M3Migration)
    else if name == FinalDirName(M4Migration) then Some(M4Migration)
    else if name == FinalDirName(M5Load) then Some(M5Load)
    else None
  }

  function CurrentText(tool: Tool): string {
    FinalDirName(tool) + "\n"
  }

  lemma {:induction false} TrimIs(text: string)
    ensures var t := TrimLineEnds(text);
      && |t| <= |text| && t == text[..|t|]
      && (t == [] || (t[|t| - 1] != '\n' && t[|t| - 1] != '\r'))
      && forall k :: |t| <= k < |text| ==> text[k] == '\n' || text[k] == '\r'
    decreases |text|
  {
    if text == [] || (text[|text| - 1] != '\n' && text[|text| - 1] != '\r') {
    } else {
      TrimIs(text[..|text| - 1]);
    }
  }

  /** The text is the name and then nothing but line ends. */
  predicate Reads(text: string, name: string) {
    && |text| >= |name| && text[..|name|] == name
    && forall k :: |name| <= k < |text| ==> text[k] == '\n' || text[k] == '\r'
  }

  lemma TrimmedIff(text: string, name: string)
    requires name != [] && name[|name| - 1] != '\n' && name[|name| - 1] != '\r'
    ensures TrimLineEnds(text) == name <==> Reads(text, name)
  {
    TrimIs(text);
    var t := TrimLineEnds(text);
    if Reads(text, name) {
      assert text[|name| - 1] == name[|name| - 1];
      assert |t| == |name|;
    }
  }

  /** Which texts name which generation. */
  lemma NamedIff(text: string)
    ensures NamedTool(text) == Some(M3Migration) <==> Reads(text, "gen-v9")
    ensures NamedTool(text) == Some(M4Migration) <==> Reads(text, "gen-v10")
    ensures NamedTool(text) == Some(M5Load) <==> Reads(text, "gen-load-v6")
  {
    TrimmedIff(text, "gen-v9");
    TrimmedIff(text, "gen-v10");
    TrimmedIff(text, "gen-load-v6");
  }

  lemma CurrentTextNames(tool: Tool)
    ensures NamedTool(CurrentText(tool)) == Some(tool)
    ensures CurrentText(M3Migration) == "gen-v9\n" && CurrentText(M4Migration) == "gen-v10\n"
    ensures CurrentText(M5Load) == "gen-load-v6\n"
  {
    var name := FinalDirName(tool);
    assert CurrentText(tool)[..|name|] == name;
    assert TrimLineEnds(name) == name;
    assert TrimLineEnds(CurrentText(tool)) == name;
  }

  predicate Stamped(d: Disk, n: Name) {
    && n in Entries(d.dir)
    && Entries(d.dir)[n] in d.inodes
    && d.inodes[Entries(d.dir)[n]].Generation?
    && d.inodes[Entries(d.dir)[n]].stamp != Unstamped
  }

  datatype Resolution = Refused | Legacy | Selected(tool: Tool)

  /** The committed generation: the one CURRENT names if it carries its VERSION
      file; for an unstamped v10, the stamped v9; otherwise the legacy root. */
  function CurrentGeneration(d: Disk): Resolution {
    var e := Entries(d.dir);
    if CurrentFile !in e then Legacy
    else if e[CurrentFile] !in d.inodes || !d.inodes[e[CurrentFile]].Text? then Refused
    else
      match NamedTool(d.inodes[e[CurrentFile]].text)
      case None => Refused
      case Some(tool) =>
        if Stamped(d, Final(tool)) then Selected(tool)
        else if tool == M4Migration && Stamped(d, Final(M3Migration)) then Selected(M3Migration)
        else Legacy
  }
}
