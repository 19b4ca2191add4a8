/** What Build and Stream compute, as functions and relations over the recorded data. */
module ExportSpec {
  import opened Wrappers
  import opened Core
  import opened Frames
  import opened Json
  import opened ExportTypes
  import opened Sorting

  // ---- metadata ----

  ghost function StateFrames(d: MissionData): set<int> {
    FramesIn(SoldierFrames(d.soldiers)) + FramesIn(VehicleFrames(d.vehicles))
  }

  ghost function RecordIds(d: MissionData): set<int> {
    IdsIn(SoldierIds(d.soldiers)) + IdsIn(VehicleIds(d.vehicles))
  }

  ghost function MaxFrame(d: MissionData): Frame { MaxOf(StateFrames(d)) }

  ghost function MaxId(d: MissionData): (m: int)
    ensures 0 <= m < 0x1_0000
  {
    MaxOf(RecordIds(d))
  }

  lemma MetadataBounds(d: MissionData)
    ensures forall k :: k in d.soldiers ==> d.soldiers[k].soldier.id as int <= MaxId(d)
    ensures forall k :: k in d.vehicles ==> d.vehicles[k].vehicle.id as int <= MaxId(d)
    ensures forall f :: f in StateFrames(d) ==> f <= MaxFrame(d)
  {
    forall k | k in d.soldiers ensures d.soldiers[k].soldier.id as int <= MaxId(d) {
      assert SoldierIds(d.soldiers)[k] as int in IdsIn(SoldierIds(d.soldiers));
    }
    forall k | k in d.vehicles ensures d.vehicles[k].vehicle.id as int <= MaxId(d) {
      assert VehicleIds(d.vehicles)[k] as int in IdsIn(VehicleIds(d.vehicles));
    }
  }

  predicate HasEntities(d: MissionData) { |d.soldiers| > 0 || |d.vehicles| > 0 }

  // ---- events and markers ----

  ghost function MarkersInOrder(m: map<string, MarkerData>): seq<MarkerData> {
    LtStringStrictTotal();
    var ks := Listing(LtString, m.Keys);
    seq(|ks|, i requires 0 <= i < |ks| => assert ks[i] in ks; m[ks[i]])
  }

  ghost function PlacedInOrder(m: map<uint16, PlacedRecord>): seq<PlacedRecord> {
    LtIdStrictTotal();
    var ks := Listing(LtId, m.Keys);
    seq(|ks|, i requires 0 <= i < |ks| => assert ks[i] in ks; m[ks[i]])
  }

  /** The rows of the recorded event lists, list after list. */
  function ListedEvents(fmt: Format, d: MissionData): seq<EventRow> {
    MapSeq(fmt.general, d.generalEvents)
    + MapSeq(fmt.sector, d.sectorEvents) + MapSeq(fmt.endMission, d.endMissionEvents)
    + MapSeq(fmt.hit, d.hitEvents) + MapSeq(fmt.kill, d.killEvents)
  }

  /** One marker for each projectile that is not a bullet. */
  function ProjectileMarkers(fmt: Format, ps: seq<ProjectileEvent>): seq<Json> {
    if ps == [] then []
    else
      var p := ps[|ps| - 1];
      ProjectileMarkers(fmt, ps[..|ps| - 1])
      + if IsProjectileMarker(p.simulationType) then [fmt.projectile(p)] else []
  }

  ghost function UnsortedEvents(fmt: Format, d: MissionData): seq<EventRow> {
    ListedEvents(fmt, d) + FlatMap(fmt.placedHits, PlacedInOrder(d.placed))
    + FlatMap(fmt.projectileHits, d.projectiles)
  }

  function EventFrame(r: EventRow): int { r.frame }

  ghost function Events(fmt: Format, d: MissionData): seq<EventRow> {
    StableSort(EventFrame, UnsortedEvents(fmt, d))
  }

  ghost function Markers(fmt: Format, d: MissionData): seq<Json> {
    MapSeq(fmt.marker, MarkersInOrder(d.markers))
    + MapSeq(fmt.placed, PlacedInOrder(d.placed))
    + ProjectileMarkers(fmt, d.projectiles)
  }

  /** The export around a given entity list. */
  ghost function ExportWith(fmt: Format, d: MissionData, entities: seq<Entity>): Export {
    Export(d.mission.addonVersion, d.mission.extensionVersion, d.mission.extensionBuild,
           d.mission.missionName, d.mission.author, d.world.worldName,
           GapFill.FrameToV1(MaxFrame(d)), d.mission.captureDelay, d.mission.tag,
           MapSeq(fmt.time, d.timeStates), entities, Events(fmt, d), Markers(fmt, d))
  }

  // ---- Build: any order of walking the maps ----

  /** Build returns an export, or panics on an index outside the entity list. */
  datatype BuildOutcome = Built(result: Export) | BuildPanic

  /** What slot id may hold once the soldiers filed under the keys of done are written. */
  ghost predicate SoldierSlot(fmt: Format, d: MissionData, done: set<uint16>, id: uint16, e: Entity) {
    || (exists k :: k in done && k in d.soldiers && d.soldiers[k].soldier.id == id
                    && e == SoldierEntity(fmt, d.soldiers[k], MaxFrame(d), []))
    || ((forall k :: k in done && k in d.soldiers ==> d.soldiers[k].soldier.id != id) && e == PLACEHOLDER)
  }

  /** The same, once all soldiers and the vehicles filed under done are written. */
  ghost predicate VehicleSlot(fmt: Format, d: MissionData, done: set<uint16>, id: uint16, e: Entity) {
    || (exists k :: k in done && k in d.vehicles && d.vehicles[k].vehicle.id == id
                    && e == VehicleEntity(fmt, d.vehicles[k], MaxFrame(d)))
    || ((forall k :: k in done && k in d.vehicles ==> d.vehicles[k].vehicle.id != id)
        && SoldierSlot(fmt, d, d.soldiers.Keys, id, e))
  }

  ghost predicate FinalSlot(fmt: Format, d: MissionData, id: uint16, e: Entity) {
    exists base :: VehicleSlot(fmt, d, d.vehicles.Keys, id, base) && e == AddLines(base, Lines(fmt, d.projectiles, id))
  }

  ghost predicate EntitiesAllowed(fmt: Format, d: MissionData, es: seq<Entity>) {
    && |es| == (if HasEntities(d) then MaxId(d) + 1 else 0)
    && forall i :: 0 <= i < |es| ==> FinalSlot(fmt, d, i as uint16, es[i])
  }

  /** Every outcome Build may have, over all orders of walking its maps. */
  ghost predicate BuildAllows(fmt: Format, d: MissionData, r: BuildOutcome) {
    if HasEntities(d) && MaxId(d) == 0xFFFF then r == BuildPanic
    else r.Built? && EntitiesAllowed(fmt, d, r.result.entities)
         && r.result == ExportWith(fmt, d, r.result.entities)
  }

  // ---- Stream ----

  /** What Stream writes at slot id. */
  ghost function StreamSlot(fmt: Format, d: MissionData, id: uint16): Entity {
    if id in d.soldiers then SoldierEntity(fmt, d.soldiers[id], MaxFrame(d), Lines(fmt, d.projectiles, id))
    else if id in d.vehicles then VehicleEntity(fmt, d.vehicles[id], MaxFrame(d))
    else PLACEHOLDER
  }

  ghost function StreamEntities(fmt: Format, d: MissionData, n: nat): seq<Entity>
    requires n <= 0x1_0000
  {
    seq(n, i requires 0 <= i < n => StreamSlot(fmt, d, i as uint16))
  }

  ghost function StreamExport(fmt: Format, d: MissionData): Export {
    ExportWith(fmt, d, StreamEntities(fmt, d, if HasEntities(d) then MaxId(d) + 1 else 0))
  }
}
