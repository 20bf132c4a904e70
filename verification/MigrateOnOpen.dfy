/** Migrate-on-open: a store opened by this binary is brought from chained records to
    slotted ones (version 3) and from JSON property bags to typed ones (version 4),
    with the VERSION stamp raised before the first record an older binary would
    misread.  Each durable write is a point where a crash may leave the store. */
module MigrateOnOpen {
  datatype Props = Json | Typed | Opaque

  /** `large` bags stay chained; opaque bags stay as they are. */
  datatype Record = Record(slotted: bool, large: bool, props: Props)

  type Records = map<nat, Record>

  datatype Version = Absent | Torn | Stamped(n: nat)

  /** `Delta` is the manifest of an offline-built generation, whose bags are typed. */
  datatype Manifest = NoManifest | M1Migrating | SlottedV1 | M2Migrating | TypedV1 | Delta

  datatype Snapshot = Snapshot(version: Version, manifest: Manifest, records: Records)

  // ---- what must hold at every crash point --------------------------------------------------

  /** The newest format an older binary can no longer be let near: no binary opens a
      torn stamp. */
  function Level(v: Version): nat {
    match v case Absent => 0 case Torn => 4 case Stamped(n) => n
  }

  predicate HasSlotted(r: Records) { exists id :: id in r && r[id].slotted }

  predicate HasTyped(r: Records) { exists id :: id in r && r[id].props == Typed }

  predicate Locked(s: Snapshot) {
    (HasSlotted(s.records) ==> Level(s.version) >= 3) && (HasTyped(s.records) ==> Level(s.version) >= 4)
  }

  predicate AllSlotted(r: Records) { forall id :: id in r ==> r[id].slotted || r[id].large }

  predicate AllTyped(r: Records) { forall id :: id in r ==> r[id].props != Json }

  /** The open will run the first leg. */
  predicate NeedsM1(s: Snapshot) {
    s.version == Stamped(1) || s.manifest == NoManifest || s.manifest == M1Migrating
  }

  predicate PropsTyped(m: Manifest) { m == TypedV1 || m == Delta }

  predicate DeltaStamp(v: Version) { v == Stamped(5) || v == Stamped(6) }

  /** The states this binary and its crashes leave behind. */
  predicate Sane(s: Snapshot) {
    && Locked(s)
    && (HasTyped(s.records) ==> !NeedsM1(s))
    && (!NeedsM1(s) ==> AllSlotted(s.records))
    && (PropsTyped(s.manifest) && !NeedsM1(s) ==> AllTyped(s.records))
    && (DeltaStamp(s.version) ==> s.manifest == Delta)
  }

  function Slot(r: Record): Record { if r.large then r else r.(slotted := true) }

  function Retype(r: Record): Record { if r.props == Json then r.(props := Typed) else r }

  function SlotAll(r: Records): Records { map id | id in r :: Slot(r[id]) }

  function RetypeAll(r: Records): Records { map id | id in r :: Retype(r[id]) }

  // ---- the store ------------------------------------------------------------------------------

  class DataDir {
    var version: Version
    var manifest: Manifest
    var records: Records
    /** The store after each durable write. */
    ghost var points: seq<Snapshot>

    function Now(): Snapshot
      reads this
    {
      Snapshot(version, manifest, records)
    }

    constructor (version: Version, manifest: Manifest, records: Records)
      ensures Now() == Snapshot(version, manifest, records) && points == []
    {
      this.version, this.manifest, this.records, points := version, manifest, records, [];
    }

    method StampVersion(n: nat)
      modifies this
      ensures Now() == old(Now()).(version := Stamped(n)) && points == old(points) + [Now()]
    {
      version := Stamped(n);
      points := points + [Now()];
    }

    method WriteManifest(m: Manifest)
      modifies this
      ensures Now() == old(Now()).(manifest := m) && points == old(points) + [Now()]
    {
      manifest := m;
      points := points + [Now()];
    }

    /** The first sweep: every chained bag that is not too large is slotted, one
        durable commit at a time. */
    method SlotSweep()
      modifies this
      ensures Now() == old(Now()).(records := SlotAll(old(records)))
      ensures old(points) <= points
      ensures forall k :: |old(points)| <= k < |points| ==>
        && points[k].version == version && points[k].manifest == manifest
        && Between(old(records), points[k].records, SlotAll(old(records)))
    {
      ghost var start := records;
      var pending := set id | id in records && !records[id].slotted && !records[id].large;
      while pending != {}
        invariant version == old(version) && manifest == old(manifest) && old(points) <= points
        invariant records.Keys == start.Keys && pending <= records.Keys
        invariant forall id :: id in start ==> records[id] == if id in pending then start[id] else Slot(start[id])
        invariant forall id :: id in pending ==> !start[id].slotted && !start[id].large
        invariant forall k :: |old(points)| <= k < |points| ==>
          && points[k].version == version && points[k].manifest == manifest
          && Between(start, points[k].records, SlotAll(start))
        decreases |pending|
      {
        var id :| id in pending;
        records := records[id := Slot(records[id])];
        pending := pending - {id};
        points := points + [Now()];
      }
      assert records == SlotAll(start);
    }

    /** The second sweep: every JSON bag is re-encoded as a typed one. */
    method RetypeSweep()
      modifies this
      ensures Now() == old(Now()).(records := RetypeAll(old(records)))
      ensures old(points) <= points
      ensures forall k :: |old(points)| <= k < |points| ==>
        && points[k].version == version && points[k].manifest == manifest
        && Between(old(records), points[k].records, RetypeAll(old(records)))
    {
      ghost var start := records;
      var pending := set id | id in records && records[id].props == Json;
      while pending != {}
        invariant version == old(version) && manifest == old(manifest) && old(points) <= points
        invariant records.Keys == start.Keys && pending <= records.Keys
        invariant forall id :: id in start ==> records[id] == if id in pending then start[id] else Retype(start[id])
        invariant forall id :: id in pending ==> start[id].props == Json
        invariant forall k :: |old(points)| <= k < |points| ==>
          && points[k].version == version && points[k].manifest == manifest
          && Between(start, points[k].records, RetypeAll(start))
        decreases |pending|
      {
        var id :| id in pending;
        records := records[id := Retype(records[id])];
        pending := pending - {id};
        points := points + [Now()];
      }
      assert records == RetypeAll(start);
    }

    /** The version guard: a missing stamp is adopted from the manifest or as a chained
        store only when asked to, and a torn one is repaired only while the first leg is
        under way. */
    method CheckVersion(hasData: bool, adopt: bool) returns (ok: bool)
      modifies this
      ensures old(points) <= points && manifest == old(manifest) && records == old(records)
      ensures ok <==> Passes(old(Now()), hasData, adopt)
      ensures match old(version)
              case Stamped(n) => ok <==> n == 1 || n == 3 || n == 4 || n == 5 || n == 6
              case Torn => (ok <==> manifest == M1Migrating) && (ok ==> version == Stamped(4))
              case Absent =>
                && (ok <==> !hasData || (adopt && manifest != Delta))
                && (ok && !hasData ==> version == Stamped(4))
                && (ok && hasData ==> version == Stamped(match manifest
                      case NoManifest => 1 case M1Migrating => 3 case SlottedV1 => 3 case M2Migrating => 4 case _ => 4))
      ensures ok ==> version == Guarded(old(Now()), hasData)
      ensures !ok || old(version).Stamped? ==> Now() == old(Now()) && points == old(points)
      ensures forall k :: |old(points)| <= k < |points| ==> points[k] == Now()
    {
      match version {
        case Stamped(n) => return Supported(n);
        case Torn =>
          if manifest != M1Migrating { return false; }
          StampVersion(4);
        case Absent =>
          if hasData && (!adopt || manifest == Delta) { return false; }
          var n := match manifest case NoManifest => 1 case M1Migrating => 3 case SlottedV1 => 3 case _ => 4;
          StampVersion(if hasData then n else 4);
      }
      return true;
    }

    /** The first leg: marker, stamp 3, sweep, final marker. */
    method SlotLeg()
      modifies this
      ensures Now() == Snapshot(Stamped(3), SlottedV1, SlotAll(old(records)))
      ensures old(points) <= points
      ensures exists k ::
        |old(points)| <= k < |points| && points[k] == Snapshot(Stamped(3), M1Migrating, old(records))
      ensures forall k :: |old(points)| <= k < |points| ==> InSlotLeg(old(Now()), points[k])
    {
      WriteManifest(M1Migrating);
      StampVersion(3);
      ghost var k := |points| - 1;
      SlotSweep();
      WriteManifest(SlottedV1);
      assert points[k] == Snapshot(Stamped(3), M1Migrating, old(records));
    }

    /** The second leg: marker, stamp 4, sweep, final marker. */
    method RetypeLeg()
      modifies this
      ensures Now() == Snapshot(Stamped(4), TypedV1, RetypeAll(old(records)))
      ensures old(points) <= points
      ensures forall k :: |old(points)| <= k < |points| ==> InRetypeLeg(old(Now()), points[k])
    {
      WriteManifest(M2Migrating);
      StampVersion(4);
      RetypeSweep();
      WriteManifest(TypedV1);
    }

    /** The legs this store still needs. */
    method Migrate()
      modifies this
      ensures old(points) <= points && Now() == AfterLegs(old(Now()))
      ensures forall k :: |old(points)| <= k < |points| ==> LegPoint(old(Now()), points[k])
      ensures NeedsM1(old(Now())) ==>
        exists k :: |old(points)| <= k < |points| && points[k] == Snapshot(Stamped(3), M1Migrating, old(records))
    {
      hide InSlotLeg, InRetypeLeg, SlotAll, RetypeAll;
      if NeedsM1(Now()) { SlotLeg(); }
      if !PropsTyped(manifest) { RetypeLeg(); }
    }

    /** Open the store: where it ends and every point a crash may leave it at.  In general
        the stamp protects every such point exactly when the first leg, which stamps 3,
        does not run over typed records. */
    method Open(hasData: bool, adopt: bool) returns (ok: bool)
      modifies this
      ensures old(points) <= points && ok == Opens(old(Now()), hasData, adopt)
      ensures old(version).Stamped? ==>
        (ok <==> old(version) == Stamped(1) || old(version) == Stamped(3) || old(version) == Stamped(4)
                 || ((old(version) == Stamped(5) || old(version) == Stamped(6)) && old(manifest) == Delta))
      ensures !ok ==> Now() == old(Now()) && points == old(points)
      ensures ok ==> Now() == Finished(old(Now()), hasData)
      ensures ok && (old(version) == Stamped(1) || old(manifest) == NoManifest || old(manifest) == M1Migrating) ==>
        records == RetypeAll(SlotAll(old(records))) && version == Stamped(4) && manifest == TypedV1
      ensures ok && old(version) != Stamped(1) && (old(manifest) == SlottedV1 || old(manifest) == M2Migrating) ==>
        records == RetypeAll(old(records)) && version == Stamped(4) && manifest == TypedV1
      ensures ok && old(version) != Stamped(1) && (old(manifest) == TypedV1 || old(manifest) == Delta) ==>
        records == old(records) && manifest == old(manifest)
      ensures ok ==> forall k :: |old(points)| <= k < |points| ==> CrashPoint(old(Now()), hasData, points[k])
      ensures ok && old(Sane(Now())) ==> forall k :: |old(points)| <= k < |points| ==> Reopens(old(Now()), points[k])
      ensures ok && old(Sane(Now())) ==> Migrated(old(Now()), Now())
      ensures ok && old(Locked(Now())) ==>
        ((forall k :: |old(points)| <= k < |points| ==> Locked(points[k])) <==>
           !(HasTyped(old(records)) && NeedsM1(old(Now()))))
    {
      hide Sane, Locked, Reopens, Migrated, LegPoint, AfterLegs, HasTyped;
      ghost var before, start := Now(), |points|;
      ok := CheckVersion(hasData, adopt);
      if !ok || (DeltaStamp(version) && manifest != Delta) { return false; }
      Migrate();
      FinishedIs(before, hasData, adopt);
      PointsKeep(before, hasData, adopt, points[start..]);
      assert forall k :: start <= k < |points| ==> points[k] == points[start..][k - start];
    }
  }

  // ---- the points of each leg ----------------------------------------------------------------------

  predicate InSlotLeg(s: Snapshot, q: Snapshot) {
    || q == s.(manifest := M1Migrating)
    || (q.version == Stamped(3) && q.manifest == M1Migrating && Between(s.records, q.records, SlotAll(s.records)))
    || q == Snapshot(Stamped(3), SlottedV1, SlotAll(s.records))
  }

  predicate InRetypeLeg(s: Snapshot, q: Snapshot) {
    || q == s.(manifest := M2Migrating)
    || (q.version == Stamped(4) && q.manifest == M2Migrating && Between(s.records, q.records, RetypeAll(s.records)))
    || q == Snapshot(Stamped(4), TypedV1, RetypeAll(s.records))
  }

  predicate SlotLegFacts(s: Snapshot, q: Snapshot) {
    && (HasTyped(q.records) <==> HasTyped(s.records))
    && (!HasTyped(s.records) && Locked(s) ==> Locked(q))
    && (Sane(s) ==> Sane(q))
  }

  predicate RetypeLegFacts(s: Snapshot, q: Snapshot) {
    && (Locked(s) ==> Locked(q))
    && (Sane(s) ==> Sane(q))
  }

  lemma SlotLegKeeps(s: Snapshot, q: Snapshot)
    requires NeedsM1(s) && InSlotLeg(s, q)
    ensures SlotLegFacts(s, q)
  {
    assert forall id :: id in s.records ==> SlotAll(s.records)[id].props == s.records[id].props;
    assert forall id :: id in s.records ==> q.records[id].props == s.records[id].props;
  }

  lemma RetypeLegKeeps(s: Snapshot, q: Snapshot)
    requires !NeedsM1(s) && !PropsTyped(s.manifest) && InRetypeLeg(s, q)
    ensures RetypeLegFacts(s, q)
  {
  }

  /** Every record is as it was or as it will be. */
  predicate Between(before: Records, now: Records, after: Records) {
    && now.Keys == before.Keys == after.Keys
    && forall id :: id in now ==> now[id] == before[id] || now[id] == after[id]
  }

  predicate Supported(n: nat) { n == 1 || n == 3 || n == 4 || n == 5 || n == 6 }

  /** The version guard lets the store through. */
  predicate Passes(s: Snapshot, hasData: bool, adopt: bool) {
    match s.version
    case Stamped(n) => Supported(n)
    case Torn => s.manifest == M1Migrating
    case Absent => !hasData || (adopt && s.manifest != Delta)
  }

  /** A store stamped as a generation must also have a generation's manifest. */
  predicate Opens(s: Snapshot, hasData: bool, adopt: bool) {
    Passes(s, hasData, adopt) && (DeltaStamp(s.version) ==> s.manifest == Delta)
  }

  /** The version the guard settles on. */
  function Guarded(s: Snapshot, hasData: bool): Version {
    match s.version
    case Stamped(n) => s.version
    case Torn => Stamped(4)
    case Absent =>
      if !hasData then Stamped(4)
      else match s.manifest
           case NoManifest => Stamped(1)
           case M1Migrating => Stamped(3)
           case SlottedV1 => Stamped(3)
           case _ => Stamped(4)
  }

  /** The guard itself never lowers a stamp and never hides typed records. */
  lemma GuardKeeps(s: Snapshot, hasData: bool)
    ensures var q := Checked(s, hasData);
      && (Locked(s) ==> Locked(q)) && (Sane(s) ==> Sane(q))
      && (HasTyped(s.records) && Locked(s) ==> (NeedsM1(q) <==> NeedsM1(s)))
  {
  }

  // ---- any number of cut opens ----------------------------------------------------------------

  /** The store between the legs. */
  function AfterSlots(g: Snapshot): Snapshot {
    if NeedsM1(g) then Snapshot(Stamped(3), SlottedV1, SlotAll(g.records)) else g
  }

  function AfterLegs(g: Snapshot): Snapshot {
    var m := AfterSlots(g);
    if PropsTyped(m.manifest) then m else Snapshot(Stamped(4), TypedV1, RetypeAll(m.records))
  }

  predicate LegPoint(g: Snapshot, q: Snapshot) {
    || (NeedsM1(g) && InSlotLeg(g, q))
    || (!PropsTyped(AfterSlots(g).manifest) && InRetypeLeg(AfterSlots(g), q))
  }

  function Checked(s: Snapshot, hasData: bool): Snapshot { s.(version := Guarded(s, hasData)) }

  /** Where an open that is not cut ends. */
  function Finished(s: Snapshot, hasData: bool): Snapshot { AfterLegs(Checked(s, hasData)) }

  /** Which legs that takes. */
  lemma FinishedIs(s: Snapshot, hasData: bool, adopt: bool)
    requires Opens(s, hasData, adopt)
    ensures var e := Finished(s, hasData);
      var first := s.version == Stamped(1) || s.manifest == NoManifest || s.manifest == M1Migrating;
      && (first ==> e == Snapshot(Stamped(4), TypedV1, RetypeAll(SlotAll(s.records))))
      && (!first && (s.manifest == SlottedV1 || s.manifest == M2Migrating) ==>
            e == Snapshot(Stamped(4), TypedV1, RetypeAll(s.records)))
      && (!first && (s.manifest == TypedV1 || s.manifest == Delta) ==>
            e.records == s.records && e.manifest == s.manifest)
  {
    hide SlotAll, RetypeAll;
  }

  /** The points a crash may leave an open at, from before its first write on. */
  predicate CrashPoint(s: Snapshot, hasData: bool, q: Snapshot) {
    q == s || q == Checked(s, hasData) || LegPoint(Checked(s, hasData), q)
  }

  /** Every record as the migrations mean it to be. */
  function Target(s: Snapshot): Records { RetypeAll(SlotAll(s.records)) }

  /** The point is sane, still has all of its store's records to give, and, unless nothing
      was written yet, opens whatever the next open is told. */
  ghost predicate Reopens(s: Snapshot, q: Snapshot) {
    Sane(q) && Target(q) == Target(s) && (q == s || forall hasData, adopt :: Opens(q, hasData, adopt))
  }

  predicate Migrated(s: Snapshot, e: Snapshot) {
    && Sane(e) && PropsTyped(e.manifest) && !NeedsM1(e) && e.records == Target(s)
    && AllSlotted(e.records) && AllTyped(e.records)
  }

  lemma SlotsKeepTarget(s: Snapshot, q: Snapshot)
    requires Between(s.records, q.records, SlotAll(s.records))
    ensures Target(q) == Target(s)
  {
    assert forall id :: id in s.records ==> Slot(q.records[id]) == Slot(s.records[id]);
    assert SlotAll(q.records) == SlotAll(s.records);
  }

  lemma RetypesKeepTarget(s: Snapshot, q: Snapshot)
    requires Between(s.records, q.records, RetypeAll(s.records))
    ensures Target(q) == Target(s)
  {
    assert forall id :: id in s.records ==> Retype(Slot(q.records[id])) == Retype(Slot(s.records[id]));
  }

  lemma CrashPointReopens(s: Snapshot, hasData: bool, adopt: bool, q: Snapshot)
    requires Sane(s) && Opens(s, hasData, adopt) && CrashPoint(s, hasData, q)
    ensures Reopens(s, q)
  {
    hide SlotAll, RetypeAll;
    var g, m := Checked(s, hasData), AfterSlots(Checked(s, hasData));
    GuardKeeps(s, hasData);
    if q == s || q == g {
    } else if NeedsM1(g) && InSlotLeg(g, q) {
      SlotLegKeeps(g, q);
      SlotLegWithin(g, q);
      SlotsKeepTarget(g, q);
    } else {
      if NeedsM1(g) {
        SlotLegKeeps(g, m);
        SlotLegWithin(g, m);
        SlotsKeepTarget(g, m);
      }
      RetypeLegKeeps(m, q);
      RetypeLegWithin(m, q);
      RetypesKeepTarget(m, q);
    }
  }

  lemma PointLocked(s: Snapshot, hasData: bool, q: Snapshot)
    requires Locked(s) && CrashPoint(s, hasData, q) && !(HasTyped(s.records) && NeedsM1(s))
    ensures Locked(q)
  {
    hide SlotAll, RetypeAll, Locked;
    var g, m := Checked(s, hasData), AfterSlots(Checked(s, hasData));
    GuardKeeps(s, hasData);
    if NeedsM1(g) && InSlotLeg(g, q) { SlotLegKeeps(g, q); }
    if NeedsM1(g) { SlotLegKeeps(g, m); }
    if !PropsTyped(m.manifest) && InRetypeLeg(m, q) { RetypeLegKeeps(m, q); }
  }

  /** What an open leaves at its points, if it passes through the stamp of each leg. */
  lemma PointsKeep(s: Snapshot, hasData: bool, adopt: bool, points: seq<Snapshot>)
    requires Opens(s, hasData, adopt) && forall k :: 0 <= k < |points| ==> CrashPoint(s, hasData, points[k])
    requires NeedsM1(Checked(s, hasData)) ==> Snapshot(Stamped(3), M1Migrating, s.records) in points
    ensures Sane(s) ==> Migrated(s, Finished(s, hasData))
    ensures Sane(s) ==> forall k :: 0 <= k < |points| ==> Reopens(s, points[k])
    ensures Locked(s) ==>
      ((forall k :: 0 <= k < |points| ==> Locked(points[k])) <==> !(HasTyped(s.records) && NeedsM1(s)))
  {
    hide Sane, CrashPoint, Migrated, Reopens, Opens;
    if Sane(s) {
      FinishedIsMigrated(s, hasData, adopt);
      forall k | 0 <= k < |points| ensures Reopens(s, points[k]) {
        CrashPointReopens(s, hasData, adopt, points[k]);
      }
    }
    if Locked(s) {
      GuardKeeps(s, hasData);
      if HasTyped(s.records) && NeedsM1(s) {
        var k :| 0 <= k < |points| && points[k] == Snapshot(Stamped(3), M1Migrating, s.records);
        assert !Locked(points[k]);
      } else {
        forall k | 0 <= k < |points| ensures Locked(points[k]) { PointLocked(s, hasData, points[k]); }
      }
    }
  }

  lemma SlotLegWithin(s: Snapshot, q: Snapshot)
    requires InSlotLeg(s, q)
    ensures Between(s.records, q.records, SlotAll(s.records))
  {
  }

  lemma RetypeLegWithin(s: Snapshot, q: Snapshot)
    requires InRetypeLeg(s, q)
    ensures Between(s.records, q.records, RetypeAll(s.records))
  {
  }

  lemma FinishedIsMigrated(s: Snapshot, hasData: bool, adopt: bool)
    requires Sane(s) && Opens(s, hasData, adopt)
    ensures Migrated(s, Finished(s, hasData))
  {
    hide Locked, SlotAll, RetypeAll;
    var m, e := AfterSlots(Checked(s, hasData)), Finished(s, hasData);
    GuardKeeps(s, hasData);
    EndIsPoint(s, hasData);
    CrashPointReopens(s, hasData, adopt, m);
    CrashPointReopens(s, hasData, adopt, e);
    NothingLeft(e);
  }

  lemma EndIsPoint(s: Snapshot, hasData: bool)
    ensures CrashPoint(s, hasData, AfterSlots(Checked(s, hasData))) && CrashPoint(s, hasData, Finished(s, hasData))
  {
  }

  lemma NothingLeft(s: Snapshot)
    requires AllSlotted(s.records) && AllTyped(s.records)
    ensures Target(s) == s.records
  {
    assert forall id :: id in s.records ==> Retype(Slot(s.records[id])) == s.records[id];
  }

  /** One open cut by a crash, and the point it was left at. */
  datatype CutOpen = CutOpen(hasData: bool, adopt: bool, point: Snapshot)

  predicate CutChain(s: Snapshot, cuts: seq<CutOpen>)
    decreases |cuts|
  {
    cuts != [] ==>
      && Opens(s, cuts[0].hasData, cuts[0].adopt) && CrashPoint(s, cuts[0].hasData, cuts[0].point)
      && CutChain(cuts[0].point, cuts[1..])
  }

  function LeftAt(s: Snapshot, cuts: seq<CutOpen>): Snapshot
    decreases |cuts|
  {
    if cuts == [] then s else LeftAt(cuts[0].point, cuts[1..])
  }

  /** Any number of opens, each cut at any point: the store still opens, and the next open
      that is not cut ends with every record migrated as the first would have. */
  lemma {:induction false} CutsThenOpen(s: Snapshot, cuts: seq<CutOpen>, hasData: bool, adopt: bool)
    requires Sane(s) && CutChain(s, cuts)
    ensures Reopens(s, LeftAt(s, cuts))
    ensures Opens(LeftAt(s, cuts), hasData, adopt) ==> Migrated(s, Finished(LeftAt(s, cuts), hasData))
    decreases |cuts|
  {
    hide Sane, Opens, CrashPoint, Finished, Migrated, Target;
    if cuts == [] {
      if Opens(s, hasData, adopt) { FinishedIsMigrated(s, hasData, adopt); }
    } else {
      CrashPointReopens(s, cuts[0].hasData, cuts[0].adopt, cuts[0].point);
      CutsThenOpen(cuts[0].point, cuts[1..], hasData, adopt);
      SameTarget(s, cuts[0].point, Finished(LeftAt(s, cuts), hasData));
    }
  }

  lemma SameTarget(s: Snapshot, q: Snapshot, e: Snapshot)
    requires Target(q) == Target(s)
    ensures Migrated(q, e) ==> Migrated(s, e)
  {
  }

  /** Over the whole first leg, the stamp protects the store exactly when it holds no
      typed record to begin with. */
  lemma SlotLegLockedIff(s: Snapshot)
    requires Locked(s) && NeedsM1(s)
    ensures (forall q :: InSlotLeg(s, q) ==> Locked(q)) <==> !HasTyped(s.records)
  {
    forall q | InSlotLeg(s, q) ensures SlotLegFacts(s, q) { SlotLegKeeps(s, q); }
    var stamped := Snapshot(Stamped(3), M1Migrating, s.records);
    assert Between(s.records, s.records, SlotAll(s.records));
    assert InSlotLeg(s, stamped);
  }

  /** A typed store that has lost its manifest is stamped down to 3 when opened. */
  lemma LostManifestDowngrades()
    ensures var s := Snapshot(Stamped(4), NoManifest, map[1 := Record(true, false, Typed)]);
      Locked(s) && Opens(s, true, false) && exists q :: InSlotLeg(s, q) && !Locked(q)
  {
    var s := Snapshot(Stamped(4), NoManifest, map[1 := Record(true, false, Typed)]);
    assert s.records[1].props == Typed;
    SlotLegLockedIff(s);
  }
}
