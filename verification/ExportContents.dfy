/**
 What is in an export, said from the recorded data alone: its largest frame and ID, its events
 frame by frame, its markers and fire lines, each entity slot, and the fields of the document.
 */
module ExportContents {
  import opened Wrappers
  import opened Core
  import opened Frames
  import opened Json
  import opened ExportTypes
  import opened Sorting
  import opened ExportSpec
  import opened V1Rows
  import opened Equivalence

  // ---- largest frame and ID ----

  /** f is the frame of a soldier or vehicle state. */
  ghost predicate StateAt(d: MissionData, f: Frame) {
    || (exists k, i :: k in d.soldiers && 0 <= i < |d.soldiers[k].states| && d.soldiers[k].states[i].captureFrame == f)
    || (exists k, i :: k in d.vehicles && 0 <= i < |d.vehicles[k].states| && d.vehicles[k].states[i].captureFrame == f)
  }

  lemma StateAtMeans(d: MissionData, f: Frame)
    ensures f in StateFrames(d) <==> StateAt(d, f)
  {
    forall k, i | k in d.soldiers && 0 <= i < |d.soldiers[k].states| && d.soldiers[k].states[i].captureFrame == f
      ensures f in StateFrames(d)
    {
      assert SoldierFrames(d.soldiers)[k][i] == f;
    }
    forall k, i | k in d.vehicles && 0 <= i < |d.vehicles[k].states| && d.vehicles[k].states[i].captureFrame == f
      ensures f in StateFrames(d)
    {
      assert VehicleFrames(d.vehicles)[k][i] == f;
    }
    if f in FramesIn(SoldierFrames(d.soldiers)) {
      var k, i :| k in d.soldiers && 0 <= i < |SoldierFrames(d.soldiers)[k]| && SoldierFrames(d.soldiers)[k][i] == f;
      assert d.soldiers[k].states[i].captureFrame == f;
    }
    if f in FramesIn(VehicleFrames(d.vehicles)) {
      var k, i :| k in d.vehicles && 0 <= i < |VehicleFrames(d.vehicles)[k]| && VehicleFrames(d.vehicles)[k][i] == f;
      assert d.vehicles[k].states[i].captureFrame == f;
    }
  }

  /** The end frame of an export: no state is later, and a state is there unless there is none after frame 0. */
  lemma MaxFrameExact(d: MissionData)
    ensures forall f: Frame :: StateAt(d, f) ==> f <= MaxFrame(d)
    ensures MaxFrame(d) == 0 || StateAt(d, MaxFrame(d))
  {
    forall f: Frame | StateAt(d, f) ensures f <= MaxFrame(d) {
      StateAtMeans(d, f);
    }
    StateAtMeans(d, MaxFrame(d));
  }

  /** The largest ID is the ID of a record, or 0. */
  lemma MaxIdExact(d: MissionData)
    ensures forall k :: k in d.soldiers ==> d.soldiers[k].soldier.id as int <= MaxId(d)
    ensures forall k :: k in d.vehicles ==> d.vehicles[k].vehicle.id as int <= MaxId(d)
    ensures MaxId(d) == 0
         || (exists k :: k in d.soldiers && d.soldiers[k].soldier.id as int == MaxId(d))
         || (exists k :: k in d.vehicles && d.vehicles[k].vehicle.id as int == MaxId(d))
  {
    MetadataBounds(d);
    var m := MaxId(d);
    if m in IdsIn(SoldierIds(d.soldiers)) {
      var k :| k in d.soldiers && SoldierIds(d.soldiers)[k] as int == m;
    } else if m in IdsIn(VehicleIds(d.vehicles)) {
      var k :| k in d.vehicles && VehicleIds(d.vehicles)[k] as int == m;
    }
  }

  // ---- orders ----

  /** a is a proper beginning of b, or has the smaller character where they first differ. */
  ghost predicate Before(a: string, b: string) {
    || (|a| < |b| && a == b[..|a|])
    || (exists i :: 0 <= i < |a| && i < |b| && a[..i] == b[..i] && a[i] < b[i])
  }

  lemma {:induction false} LtStringMeans(a: string, b: string)
    ensures LtString(a, b) <==> Before(a, b)
  {
    if a != [] && b != [] {
      LtStringMeans(a[1..], b[1..]);
      assert a == [a[0]] + a[1..] && b == [b[0]] + b[1..];
      if a[0] == b[0] {
        SameHead(a, b);
      } else if a[0] < b[0] {
        assert a[..0] == b[..0];
      } else {
        HeadDecides(a, b);
      }
    }
  }

  lemma HeadDecides(a: string, b: string)
    requires a != [] && b != [] && b[0] < a[0]
    ensures !Before(a, b)
  {
    if |a| < |b| {
      assert b[..|a|][0] != a[0];
    }
    forall i | 0 < i < |a| && i < |b| ensures a[..i] != b[..i] {
      assert a[..i][0] != b[..i][0];
    }
  }

  lemma SameHead(a: string, b: string)
    requires a != [] && b != [] && a[0] == b[0]
    ensures Before(a, b) <==> Before(a[1..], b[1..])
  {
    var c, e := a[1..], b[1..];
    if |a| < |b| {
      assert b[..|a|] == [b[0]] + e[..|c|];
      assert a == [a[0]] + c;
    }
    forall i | 0 <= i < |c| && i < |e| && c[..i] == e[..i] && c[i] < e[i] ensures Before(a, b) {
      assert a[..i + 1] == [a[0]] + c[..i] && b[..i + 1] == [b[0]] + e[..i];
      assert a[i + 1] < b[i + 1];
    }
    forall i | 0 <= i < |a| && i < |b| && a[..i] == b[..i] && a[i] < b[i] ensures Before(c, e) {
      assert c[..i - 1] == a[..i][1..] && e[..i - 1] == b[..i][1..];
      assert c[i - 1] < e[i - 1];
    }
  }

  /** The markers of a mission in the order of their names. */
  ghost predicate ByName(m: map<string, MarkerData>, names: seq<string>, records: seq<MarkerData>) {
    && |names| == |records| == |m|
    && (forall i :: 0 <= i < |names| ==> names[i] in m && records[i] == m[names[i]])
    && forall i, j :: 0 <= i < j < |names| ==> Before(names[i], names[j])
  }

  lemma MarkersByName(m: map<string, MarkerData>) returns (names: seq<string>)
    ensures ByName(m, names, MarkersInOrder(m))
  {
    LtStringStrictTotal();
    names := Listing(LtString, m.Keys);
    ListingLength(LtString, names, m.Keys);
    forall i, j | 0 <= i < j < |names| ensures Before(names[i], names[j]) {
      LtStringMeans(names[i], names[j]);
    }
    forall i | 0 <= i < |names| ensures names[i] in m {
      assert names[i] in names;
    }
  }

  /** The placed objects of a mission in the order of their IDs. */
  ghost predicate ById(m: map<uint16, PlacedRecord>, ids: seq<uint16>, records: seq<PlacedRecord>) {
    && |ids| == |records| == |m|
    && (forall i :: 0 <= i < |ids| ==> ids[i] in m && records[i] == m[ids[i]])
    && forall i, j :: 0 <= i < j < |ids| ==> ids[i] < ids[j]
  }

  lemma PlacedById(m: map<uint16, PlacedRecord>) returns (ids: seq<uint16>)
    ensures ById(m, ids, PlacedInOrder(m))
  {
    LtIdStrictTotal();
    ids := Listing(LtId, m.Keys);
    ListingLength(LtId, ids, m.Keys);
    forall i | 0 <= i < |ids| ensures ids[i] in m {
      assert ids[i] in ids;
    }
    forall i, j | 0 <= i < j < |ids| ensures ids[i] < ids[j] {
      assert LtId(ids[i], ids[j]);
    }
  }

  // ---- events ----

  /** The rows of one exported frame, in order. */
  function RowsAt(rows: seq<EventRow>, frame: int): seq<EventRow> {
    Filter((r: EventRow) => r.frame == frame, rows)
  }

  lemma RowsAtConcat(a: seq<EventRow>, b: seq<EventRow>, frame: int)
    ensures RowsAt(a + b, frame) == RowsAt(a, frame) + RowsAt(b, frame)
  {
    FilterConcat((r: EventRow) => r.frame == frame, a, b);
  }

  lemma {:induction false} HavingIsRowsAt(rows: seq<EventRow>, frame: int)
    ensures Having(EventFrame, frame, rows) == RowsAt(rows, frame)
  {
    if rows != [] {
      HavingIsRowsAt(rows[..|rows| - 1], frame);
    }
  }

  /** The seven sources of event rows, one after the other. */
  datatype Sources = Sources(
    general: seq<EventRow>, sector: seq<EventRow>, endMission: seq<EventRow>, hits: seq<EventRow>,
    kills: seq<EventRow>, placedHits: seq<EventRow>, projectileHits: seq<EventRow>)

  /** Each source is built from its own recorded list. */
  ghost predicate IsSources(fmt: Format, d: MissionData, placed: seq<PlacedRecord>, s: Sources) {
    && s.general == MapSeq(fmt.general, d.generalEvents) && s.sector == MapSeq(fmt.sector, d.sectorEvents)
    && s.endMission == MapSeq(fmt.endMission, d.endMissionEvents) && s.hits == MapSeq(fmt.hit, d.hitEvents)
    && s.kills == MapSeq(fmt.kill, d.killEvents) && s.placedHits == FlatMap(fmt.placedHits, placed)
    && s.projectileHits == FlatMap(fmt.projectileHits, d.projectiles)
  }

  /** Rows of one frame: source after source. */
  ghost predicate FrameBySource(events: seq<EventRow>, s: Sources, frame: int) {
    RowsAt(events, frame)
    == RowsAt(s.general, frame) + RowsAt(s.sector, frame) + RowsAt(s.endMission, frame) + RowsAt(s.hits, frame)
       + RowsAt(s.kills, frame) + RowsAt(s.placedHits, frame) + RowsAt(s.projectileHits, frame)
  }

  lemma SourcesInOrder(fmt: Format, d: MissionData) returns (s: Sources)
    ensures IsSources(fmt, d, PlacedInOrder(d.placed), s)
    ensures UnsortedEvents(fmt, d)
         == s.general + s.sector + s.endMission + s.hits + s.kills + s.placedHits + s.projectileHits
  {
    s := Sources(MapSeq(fmt.general, d.generalEvents), MapSeq(fmt.sector, d.sectorEvents),
                 MapSeq(fmt.endMission, d.endMissionEvents), MapSeq(fmt.hit, d.hitEvents),
                 MapSeq(fmt.kill, d.killEvents), FlatMap(fmt.placedHits, PlacedInOrder(d.placed)),
                 FlatMap(fmt.projectileHits, d.projectiles));
  }

  lemma SevenAt(a: seq<EventRow>, b: seq<EventRow>, c: seq<EventRow>, d: seq<EventRow>, e: seq<EventRow>,
                f: seq<EventRow>, g: seq<EventRow>, frame: int)
    ensures RowsAt(a + b + c + d + e + f + g, frame)
         == RowsAt(a, frame) + RowsAt(b, frame) + RowsAt(c, frame) + RowsAt(d, frame) + RowsAt(e, frame)
            + RowsAt(f, frame) + RowsAt(g, frame)
  {
    RowsAtConcat(a, b, frame);
    RowsAtConcat(a + b, c, frame);
    RowsAtConcat(a + b + c, d, frame);
    RowsAtConcat(a + b + c + d, e, frame);
    RowsAtConcat(a + b + c + d + e, f, frame);
    RowsAtConcat(a + b + c + d + e + f, g, frame);
  }

  /**
   The event list of an export: frames ascend; the rows of one frame are those of general, sector,
   end-mission, hit and kill events, of placed objects in the order of their IDs, and of
   projectiles, in this order and each source in its own; and no row is lost or added.
   */
  lemma EventsBySource(fmt: Format, d: MissionData) returns (ids: seq<uint16>, placed: seq<PlacedRecord>, s: Sources)
    ensures ById(d.placed, ids, placed) && IsSources(fmt, d, placed, s)
    ensures forall i, j :: 0 <= i < j < |Events(fmt, d)| ==> Events(fmt, d)[i].frame <= Events(fmt, d)[j].frame
    ensures forall frame :: FrameBySource(Events(fmt, d), s, frame)
    ensures |Events(fmt, d)| == |s.general| + |s.sector| + |s.endMission| + |s.hits| + |s.kills| + |s.placedHits|
                                + |s.projectileHits|
  {
    ids := PlacedById(d.placed);
    placed := PlacedInOrder(d.placed);
    s := SourcesInOrder(fmt, d);
    var events, unsorted := Events(fmt, d), UnsortedEvents(fmt, d);
    StableSortCorrect(EventFrame, unsorted);
    FramesAscend(events);
    assert |events| == |multiset(events)| == |multiset(unsorted)| == |unsorted|;
    forall frame ensures FrameBySource(events, s, frame) {
      SortedRowsAt(unsorted, events, frame);
      SevenAt(s.general, s.sector, s.endMission, s.hits, s.kills, s.placedHits, s.projectileHits, frame);
    }
  }

  lemma FramesAscend(rows: seq<EventRow>)
    requires SortedBy(EventFrame, rows)
    ensures forall i, j :: 0 <= i < j < |rows| ==> rows[i].frame <= rows[j].frame
  {
    forall i, j | 0 <= i < j < |rows| ensures rows[i].frame <= rows[j].frame {
      assert EventFrame(rows[i]) <= EventFrame(rows[j]);
    }
  }

  lemma SortedRowsAt(unsorted: seq<EventRow>, events: seq<EventRow>, frame: int)
    requires StableRearrangement(EventFrame, unsorted, events)
    ensures RowsAt(events, frame) == RowsAt(unsorted, frame)
  {
    HavingIsRowsAt(unsorted, frame);
    HavingIsRowsAt(events, frame);
  }

  // ---- markers and fire lines ----

  predicate IsBullet(p: ProjectileEvent) { p.simulationType == "shotBullet" }

  lemma {:induction false} FlyingMarkers(fmt: Format, ps: seq<ProjectileEvent>)
    ensures ProjectileMarkers(fmt, ps) == MapSeq(fmt.projectile, Filter((p: ProjectileEvent) => !IsBullet(p), ps))
  {
    if ps != [] {
      var before, p := ps[..|ps| - 1], ps[|ps| - 1];
      FlyingMarkers(fmt, before);
      var flying := Filter((x: ProjectileEvent) => !IsBullet(x), before);
      assert MapSeq(fmt.projectile, flying + [p]) == MapSeq(fmt.projectile, flying) + [fmt.projectile(p)];
      assert flying + [] == flying;
    }
  }

  /** Static markers by name, placed objects by ID, then the projectiles that are no bullets. */
  lemma MarkersByKind(fmt: Format, d: MissionData)
    returns (names: seq<string>, statics: seq<MarkerData>, ids: seq<uint16>, placed: seq<PlacedRecord>)
    ensures ByName(d.markers, names, statics) && ById(d.placed, ids, placed)
    ensures Markers(fmt, d) == MapSeq(fmt.marker, statics) + MapSeq(fmt.placed, placed)
                               + MapSeq(fmt.projectile, Filter((p: ProjectileEvent) => !IsBullet(p), d.projectiles))
  {
    names := MarkersByName(d.markers);
    ids := PlacedById(d.placed);
    statics, placed := MarkersInOrder(d.markers), PlacedInOrder(d.placed);
    FlyingMarkers(fmt, d.projectiles);
  }

  /** A bullet of this firer that was seen at two points or more. */
  predicate IsShot(p: ProjectileEvent, firer: uint16) {
    p.simulationType == "shotBullet" && |p.trajectory| >= 2 && p.firerObjectId == firer
  }

  /** One line for each shot, in order, to the last point of its path. */
  ghost predicate AreLines(fmt: Format, lines: seq<Json>, shots: seq<ProjectileEvent>) {
    && |lines| == |shots|
    && forall i :: 0 <= i < |shots| ==>
         var path := shots[i].trajectory;
         path != [] && lines[i] == fmt.line(shots[i].captureFrame, path[|path| - 1].position)
  }

  lemma {:induction false} LinesOfShots(fmt: Format, ps: seq<ProjectileEvent>, firer: uint16)
    ensures AreLines(fmt, Lines(fmt, ps, firer), Filter((p: ProjectileEvent) => IsShot(p, firer), ps))
  {
    if ps != [] {
      LinesOfShots(fmt, ps[..|ps| - 1], firer);
      var p := ps[|ps| - 1];
      assert IsShot(p, firer) <==> IsLine(p) && p.firerObjectId == firer;
    }
  }

  // ---- identity of soldiers ----

  /** The soldier was taken over by a named player in this state. */
  predicate IsNamed(s: SoldierState) { s.isPlayer && s.unitName != "" }

  /** State i is the last one with a named player. */
  ghost predicate LastNamed(states: seq<SoldierState>, i: nat) {
    i < |states| && IsNamed(states[i]) && forall j :: i < j < |states| ==> !IsNamed(states[j])
  }

  /** The name a player carried last, or the soldier's own. */
  ghost predicate IsName(name: string, own: string, states: seq<SoldierState>) {
    || (exists i: nat :: LastNamed(states, i) && name == states[i].unitName)
    || ((forall i :: 0 <= i < |states| ==> !IsNamed(states[i])) && name == own)
  }

  lemma {:induction false} EverPlayer(start: (bool, string), states: seq<SoldierState>)
    ensures PlayerFold(start, states).0 <==> start.0 || exists i :: 0 <= i < |states| && states[i].isPlayer
  {
    if states != [] {
      var n := |states| - 1;
      var before := states[..n];
      EverPlayer(start, before);
      assert forall i :: 0 <= i < n ==> before[i] == states[i];
    }
  }

  lemma NamedStays(states: seq<SoldierState>, s: SoldierState, name: string, own: string)
    requires IsName(name, own, states) && !IsNamed(s)
    ensures IsName(name, own, states + [s])
  {
    var all := states + [s];
    if i: nat :| LastNamed(states, i) && name == states[i].unitName {
      assert LastNamed(all, i);
    }
  }

  lemma {:induction false} LastName(start: (bool, string), states: seq<SoldierState>)
    ensures IsName(PlayerFold(start, states).1, start.1, states)
  {
    if states != [] {
      var before, s := states[..|states| - 1], states[|states| - 1];
      LastName(start, before);
      if IsNamed(s) {
        assert LastNamed(states, |states| - 1);
      } else {
        NamedStays(before, s, PlayerFold(start, before).1, start.1);
        assert states == before + [s];
      }
    }
  }

  /** A soldier that was ever a player is one, and has the name of its last named player state. */
  lemma PlayerFoldMeans(start: (bool, string), states: seq<SoldierState>)
    ensures PlayerFold(start, states).0 <==> start.0 || exists i :: 0 <= i < |states| && states[i].isPlayer
    ensures IsName(PlayerFold(start, states).1, start.1, states)
  {
    EverPlayer(start, states);
    LastName(start, states);
  }

  // ---- entities ----

  /** The soldier's own shots in the order they were recorded, then the bullet lines. */
  ghost predicate AreFired(fmt: Format, rows: Rows, fired: seq<FiredEvent>, lines: seq<Json>) {
    && rows.Some? && |rows.value| == |fired| + |lines|
    && (forall i :: 0 <= i < |fired| ==> rows.value[i] == fmt.line(fired[i].captureFrame, fired[i].endPos))
    && forall i :: 0 <= i < |lines| ==> rows.value[|fired| + i] == lines[i]
  }

  /** What is exported for a soldier. */
  ghost predicate IsUnit(fmt: Format, r: SoldierRecord, maxFrame: Frame, lines: seq<Json>, e: Entity) {
    var o := r.soldier;
    && e.id == o.id && e.group == o.groupId && e.side == o.side && e.kind == "unit"
    && e.role == o.roleDescription && e.ocapClass == "" && e.startFrameNum == o.joinFrame - 1
    && e.isPlayer == (if o.isPlayer || exists i :: 0 <= i < |r.states| && r.states[i].isPlayer then 1 else 0)
    && IsName(e.name, o.unitName, r.states)
    && AreFired(fmt, e.framesFired, r.firedEvents, lines)
    && e.positions.Some? && (r.states == [] ==> e.positions.value == [])
    && (r.states != [] && StatesInOrder(r.states) ==> ShowsStates(fmt, r, e.positions.value, maxFrame))
  }

  /** What is exported for a vehicle. */
  ghost predicate IsVehicle(fmt: Format, r: VehicleRecord, maxFrame: Frame, lines: seq<Json>, e: Entity) {
    var v := r.vehicle;
    && e.id == v.id && e.name == v.displayName && e.group == "" && e.kind == "vehicle"
    && e.side == (if v.side == "" then "UNKNOWN" else v.side)
    && e.role == "" && e.ocapClass == v.ocapType && e.startFrameNum == v.joinFrame - 1 && e.isPlayer == 0
    && AreFired(fmt, e.framesFired, [], lines)
    && e.positions.Some? && exists ranges :: VehicleRows(fmt, r, maxFrame, e.positions.value, ranges)
  }

  /** What is exported for an unused ID. */
  predicate IsEmpty(lines: seq<Json>, e: Entity) {
    && e.id == 0 && e.name == "" && e.group == "" && e.side == "" && e.isPlayer == 0 && e.kind == ""
    && e.role == "" && e.ocapClass == "" && e.startFrameNum == 0 && e.positions.None?
    && e.framesFired == if lines == [] then None else Some(lines)
  }

  lemma UnitReads(fmt: Format, r: SoldierRecord, maxFrame: Frame, lines: seq<Json>)
    requires forall i :: 0 <= i < |r.states| ==> r.states[i].captureFrame <= maxFrame
    ensures IsUnit(fmt, r, maxFrame, lines, SoldierEntity(fmt, r, maxFrame, lines))
  {
    PlayerFoldMeans((r.soldier.isPlayer, r.soldier.unitName), r.states);
    FiredReads(fmt, r.firedEvents, lines);
    if r.states != [] && StatesInOrder(r.states) {
      SoldierTimeline(fmt, r, maxFrame);
    }
  }

  lemma FiredReads(fmt: Format, fired: seq<FiredEvent>, lines: seq<Json>)
    ensures AreFired(fmt, Some(FiredRows(fmt, fired) + lines), fired, lines)
  {
    var rows := FiredRows(fmt, fired);
    forall i | 0 <= i < |fired| ensures (rows + lines)[i] == fmt.line(fired[i].captureFrame, fired[i].endPos) {
      assert rows[i] == fmt.line(fired[i].captureFrame, fired[i].endPos);
    }
  }

  lemma VehicleReads(fmt: Format, r: VehicleRecord, maxFrame: Frame, lines: seq<Json>)
    ensures IsVehicle(fmt, r, maxFrame, lines, AddLines(VehicleEntity(fmt, r, maxFrame), lines))
  {
    var ranges := VehicleTimeline(fmt, r, maxFrame);
    assert [] + lines == lines;
  }

  /** A record the mission's last frame covers. */
  lemma StatesWithin(d: MissionData, id: uint16)
    requires id in d.soldiers
    ensures forall i :: 0 <= i < |d.soldiers[id].states| ==> d.soldiers[id].states[i].captureFrame <= MaxFrame(d)
  {
    MaxFrameExact(d);
    forall i | 0 <= i < |d.soldiers[id].states| ensures d.soldiers[id].states[i].captureFrame <= MaxFrame(d) {
      assert StateAt(d, d.soldiers[id].states[i].captureFrame);
    }
  }

  /** The shots of one firer. */
  function ShotsOf(d: MissionData, id: uint16): seq<ProjectileEvent> {
    Filter((p: ProjectileEvent) => IsShot(p, id), d.projectiles)
  }

  /** Some soldier or vehicle is recorded. */
  predicate HasRecords(d: MissionData) { d.soldiers != map[] || d.vehicles != map[] }

  /** Without records both exports have no entities. */
  lemma NobodyExported(fmt: Format, d: MissionData)
    requires !HasRecords(d)
    ensures StreamExport(fmt, d).entities == []
    ensures BuildResult(fmt, d).Built? && BuildResult(fmt, d).result.entities == []
  {
  }

  /** Build panics exactly when the ID 65535 is recorded. */
  lemma BuildPanicsExact(fmt: Format, d: MissionData)
    ensures BuildResult(fmt, d).BuildPanic?
       <==> || (exists k :: k in d.soldiers && d.soldiers[k].soldier.id == 0xFFFF)
            || (exists k :: k in d.vehicles && d.vehicles[k].vehicle.id == 0xFFFF)
  {
    MaxIdExact(d);
  }

  /** What Stream writes at an ID: the soldier with its lines, else the vehicle, else an empty entity. */
  lemma StreamSlotReads(fmt: Format, d: MissionData, id: uint16) returns (lines: seq<Json>)
    requires HasRecords(d) && id as int <= MaxId(d)
    ensures AreLines(fmt, lines, ShotsOf(d, id))
    ensures |StreamExport(fmt, d).entities| == MaxId(d) + 1
    ensures var e := StreamExport(fmt, d).entities[id as int];
      if id in d.soldiers then IsUnit(fmt, d.soldiers[id], MaxFrame(d), lines, e)
      else if id in d.vehicles then IsVehicle(fmt, d.vehicles[id], MaxFrame(d), [], e)
      else IsEmpty([], e)
  {
    lines := Lines(fmt, d.projectiles, id);
    LinesOfShots(fmt, d.projectiles, id);
    SlotValues(fmt, d, id);
    if id in d.soldiers {
      StatesWithin(d, id);
      UnitReads(fmt, d.soldiers[id], MaxFrame(d), lines);
    } else if id in d.vehicles {
      VehicleReads(fmt, d.vehicles[id], MaxFrame(d), []);
    }
  }

  /** What Build has at an ID: the vehicle, else the soldier, else an empty entity, each with its lines. */
  lemma BuildSlotReads(fmt: Format, d: MissionData, id: uint16) returns (lines: seq<Json>)
    requires HasRecords(d) && id as int <= MaxId(d) < 0xFFFF
    ensures AreLines(fmt, lines, ShotsOf(d, id))
    ensures BuildResult(fmt, d).Built? && |BuildResult(fmt, d).result.entities| == MaxId(d) + 1
    ensures var e := BuildResult(fmt, d).result.entities[id as int];
      if id in d.vehicles then IsVehicle(fmt, d.vehicles[id], MaxFrame(d), lines, e)
      else if id in d.soldiers then IsUnit(fmt, d.soldiers[id], MaxFrame(d), lines, e)
      else IsEmpty(lines, e)
  {
    lines := Lines(fmt, d.projectiles, id);
    LinesOfShots(fmt, d.projectiles, id);
    SlotValues(fmt, d, id);
    if id in d.vehicles {
      VehicleReads(fmt, d.vehicles[id], MaxFrame(d), lines);
    } else if id in d.soldiers {
      StatesWithin(d, id);
      UnitReads(fmt, d.soldiers[id], MaxFrame(d), lines);
      UnitWithLines(fmt, d.soldiers[id], MaxFrame(d), lines);
    } else {
      assert [] + lines == lines;
    }
  }

  lemma UnitWithLines(fmt: Format, r: SoldierRecord, maxFrame: Frame, lines: seq<Json>)
    ensures AddLines(SoldierEntity(fmt, r, maxFrame, []), lines) == SoldierEntity(fmt, r, maxFrame, lines)
  {
    var fired := FiredRows(fmt, r.firedEvents);
    assert fired + [] == fired;
    assert lines == [] ==> fired + lines == fired;
  }

  // ---- the document ----

  /** The fields of an object. */
  function FieldsOf(j: Json): seq<Field> { if j.JObj? then j.fields else [] }

  /** An optional field is there when it is not empty. */
  predicate MayHave(fs: seq<Field>, key: string, s: string) { s != "" ==> Field(key, JStr(s)) in fs }

  function Present(s: string): nat { if s == "" then 0 else 1 }

  /** A list of rows, null for a nil list. */
  function RowsOf(rows: Rows): Json { if rows.None? then JNull else JArr(rows.value) }

  predicate HasIdentity(fs: seq<Field>, e: Entity) {
    && Field("id", JNum(e.id as int as real)) in fs && Field("name", JStr(e.name)) in fs
    && MayHave(fs, "group", e.group) && Field("side", JStr(e.side)) in fs
    && Field("isPlayer", JNum(e.isPlayer as real)) in fs && Field("type", JStr(e.kind)) in fs
  }

  predicate HasCourse(fs: seq<Field>, e: Entity) {
    && MayHave(fs, "role", e.role) && MayHave(fs, "class", e.ocapClass)
    && Field("startFrameNum", JNum(e.startFrameNum as real)) in fs
    && Field("positions", RowsOf(e.positions)) in fs && Field("framesFired", RowsOf(e.framesFired)) in fs
  }

  lemma HeadReads(e: Entity)
    ensures HasIdentity(EntityHead(e), e) && |EntityHead(e)| == 5 + Present(e.group)
  {
  }

  lemma TailReads(e: Entity)
    ensures HasCourse(EntityTail(e), e) && |EntityTail(e)| == 3 + Present(e.role) + Present(e.ocapClass)
  {
  }

  lemma BothRead(head: seq<Field>, tail: seq<Field>, e: Entity)
    requires HasIdentity(head, e) && HasCourse(tail, e)
    ensures HasIdentity(head + tail, e) && HasCourse(head + tail, e)
  {
  }

  /** An encoded entity: eight fields, and those of group, role and class that are not empty. */
  lemma EntityReads(e: Entity)
    ensures var fs := FieldsOf(EntityJson(e));
      && HasIdentity(fs, e) && HasCourse(fs, e)
      && |fs| == 8 + Present(e.group) + Present(e.role) + Present(e.ocapClass)
  {
    HeadReads(e);
    TailReads(e);
    BothRead(EntityHead(e), EntityTail(e), e);
  }

  /** An encoded time: date, frame, system time, mission time and multiplier. */
  lemma TimeReads(lib: Lib, vs: map<uint16, VehicleRecord>, t: TimeState)
    ensures var fs := FieldsOf(TimeJson(V1(lib, vs).time(t)));
      && |fs| == 5 && Field("date", JStr(t.missionDate)) in fs
      && Field("frameNum", JNum((t.captureFrame - 1) as real)) in fs
      && Field("systemTimeUTC", JStr(t.systemTimeUTC)) in fs && Field("time", JNum(t.missionTime)) in fs
      && Field("timeMultiplier", JNum(t.timeMultiplier)) in fs
  {
  }

  /** The whole document around its entities. */
  lemma DocumentReads(fmt: Format, d: MissionData, es: seq<Entity>)
    ensures var fs := FieldsOf(ExportJson(fmt, ExportWith(fmt, d, es)));
      && |fs| == 13
      && Field("addonVersion", JStr(d.mission.addonVersion)) in fs
      && Field("extensionVersion", JStr(d.mission.extensionVersion)) in fs
      && Field("extensionBuild", JStr(d.mission.extensionBuild)) in fs
      && Field("missionName", JStr(d.mission.missionName)) in fs
      && Field("missionAuthor", JStr(d.mission.author)) in fs
      && Field("worldName", JStr(d.world.worldName)) in fs
      && Field("endFrame", JNum((MaxFrame(d) - 1) as real)) in fs
      && Field("captureDelay", JNum(d.mission.captureDelay)) in fs
      && Field("tags", JStr(d.mission.tag)) in fs
      && Field("times", JArr(MapSeq(TimeJson, MapSeq(fmt.time, d.timeStates)))) in fs
      && Field("entities", JArr(MapSeq(fmt.entity, es))) in fs
      && Field("events", JArr(MapSeq(fmt.event, Events(fmt, d)))) in fs
      && Field("Markers", JArr(Markers(fmt, d))) in fs
  {
    var e := ExportWith(fmt, d, es);
    var head := HeaderFields(e);
    var tail := [Field("entities", JArr(MapSeq(fmt.entity, e.entities))),
                 Field("events", JArr(MapSeq(fmt.event, e.events))), Field("Markers", JArr(e.markers))];
    assert FieldsOf(ExportJson(fmt, e)) == head + tail;
    assert head[6] == Field("endFrame", JNum((MaxFrame(d) - 1) as real));
    assert tail[0] in tail && tail[1] in tail && tail[2] in tail;
  }

  /** The v1 format encodes entities and events by the functions above. */
  lemma V1Encodes(lib: Lib, vs: map<uint16, VehicleRecord>, e: Entity, r: EventRow)
    ensures V1(lib, vs).entity(e) == EntityJson(e)
    ensures V1(lib, vs).event(r) == JArr([JNum(r.frame as real)] + r.rest)
  {
  }
}
