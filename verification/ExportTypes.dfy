/**
 The v1 export (internal/storage/memory/export/v1): its types, its JSON encoding, fire lines
 and entities.
 */
module ExportTypes {
  import opened Wrappers
  import opened Core
  import opened Json
  import opened Frames
  import opened GapFill

  // ---- types.go ----

  /** A Go slice of rows: nil and the empty slice differ in JSON. */
  type Rows = Option<seq<Json>>

  datatype Entity = Entity(
    id: uint16, name: string, group: string, side: string, isPlayer: int, kind: string,
    role: string, ocapClass: string, startFrameNum: int, positions: Rows, framesFired: Rows)

  /** The zero Entity that fills the slots of unused IDs. */
  const PLACEHOLDER := Entity(0, "", "", "", 0, "", "", "", 0, None, None)

  datatype EventRow = EventRow(frame: int, rest: seq<Json>)

  datatype TimeRow = TimeRow(
    date: string, frameNum: int, systemTimeUTC: string, time: real, timeMultiplier: real)

  datatype Export = Export(
    addonVersion: string, extensionVersion: string, extensionBuild: string, missionName: string,
    missionAuthor: string, worldName: string, endFrame: int, captureDelay: real, tags: string,
    times: seq<TimeRow>, entities: seq<Entity>, events: seq<EventRow>, markers: seq<Json>)

  // ---- rows ----

  /**
   How single records are printed. Building and streaming never look inside a printed record,
   so what is proved about them holds for every format; V1Rows.V1 is the one that is written.
   */
  datatype Format = Format(
    entity: Entity -> Json,
    event: EventRow -> Json,
    time: TimeState -> TimeRow,
    general: GeneralEvent -> EventRow,
    sector: SectorEvent -> EventRow,
    endMission: EndMissionEvent -> EventRow,
    hit: CombatEvent -> EventRow,
    kill: CombatEvent -> EventRow,
    placedHits: PlacedRecord -> seq<EventRow>,
    projectileHits: ProjectileEvent -> seq<EventRow>,
    marker: MarkerData -> Json,
    placed: PlacedRecord -> Json,
    projectile: ProjectileEvent -> Json,
    line: (Frame, Position3D) -> Json,
    soldierPosition: SoldierState -> Json,
    vehiclePosition: (VehicleState, (int, int)) -> Json)

  // ---- encoding ----

  function RowsJson(r: Rows): Json { if r.None? then JNull else JArr(r.value) }

  /** A field marked omitempty. */
  function Omittable(key: string, s: string): seq<Field> {
    if s == "" then [] else [Field(key, JStr(s))]
  }

  function EntityHead(e: Entity): seq<Field> {
    [Field("id", Num(e.id as int)), Field("name", JStr(e.name))] + Omittable("group", e.group)
    + [Field("side", JStr(e.side)), Field("isPlayer", Num(e.isPlayer)), Field("type", JStr(e.kind))]
  }

  function EntityTail(e: Entity): seq<Field> {
    Omittable("role", e.role) + Omittable("class", e.ocapClass)
    + [Field("startFrameNum", Num(e.startFrameNum)), Field("positions", RowsJson(e.positions)),
       Field("framesFired", RowsJson(e.framesFired))]
  }

  function EntityJson(e: Entity): Json { JObj(EntityHead(e) + EntityTail(e)) }

  function EventJson(r: EventRow): Json { JArr([Num(r.frame)] + r.rest) }

  function TimeJson(t: TimeRow): Json {
    JObj([Field("date", JStr(t.date)), Field("frameNum", Num(t.frameNum)),
          Field("systemTimeUTC", JStr(t.systemTimeUTC)), Field("time", JNum(t.time)),
          Field("timeMultiplier", JNum(t.timeMultiplier))])
  }

  /** The fields before the entities, in the order of the Export struct. */
  function HeaderFields(e: Export): seq<Field> {
    [Field("addonVersion", JStr(e.addonVersion)),
     Field("extensionVersion", JStr(e.extensionVersion)),
     Field("extensionBuild", JStr(e.extensionBuild)),
     Field("missionName", JStr(e.missionName)),
     Field("missionAuthor", JStr(e.missionAuthor)),
     Field("worldName", JStr(e.worldName)),
     Field("endFrame", Num(e.endFrame)),
     Field("captureDelay", JNum(e.captureDelay)),
     Field("tags", JStr(e.tags)),
     Field("times", JArr(MapSeq(TimeJson, e.times)))]
  }

  /** What json.Marshal makes of an Export. */
  function ExportJson(fmt: Format, e: Export): Json {
    JObj(HeaderFields(e)
         + [Field("entities", JArr(MapSeq(fmt.entity, e.entities))),
            Field("events", JArr(MapSeq(fmt.event, e.events))),
            Field("Markers", JArr(e.markers))])
  }

  function BoolToInt(b: bool): int { if b then 1 else 0 }

  // ---- fire lines ----

  predicate IsProjectileMarker(simulation: string) { simulation != "shotBullet" }

  /** A bullet with at least two points is drawn as a line. */
  predicate IsLine(p: ProjectileEvent) {
    !IsProjectileMarker(p.simulationType) && |p.trajectory| >= 2
  }

  function LineRow(fmt: Format, p: ProjectileEvent): Json
    requires p.trajectory != []
  {
    fmt.line(p.captureFrame, p.trajectory[|p.trajectory| - 1].position)
  }

  /** The line p gives to one firer, if any. */
  function LineOf(fmt: Format, p: ProjectileEvent, firer: uint16): seq<Json> {
    if IsLine(p) && p.firerObjectId == firer then [LineRow(fmt, p)] else []
  }

  /** The lines of one firer, in the order of the projectile events. */
  function Lines(fmt: Format, ps: seq<ProjectileEvent>, firer: uint16): seq<Json> {
    if ps == [] then [] else Lines(fmt, ps[..|ps| - 1], firer) + LineOf(fmt, ps[|ps| - 1], firer)
  }

  /** Go's append on a possibly nil slice; appending nothing keeps nil. */
  function AppendRows(r: Rows, more: seq<Json>): Rows {
    if more == [] then r else Some((if r.None? then [] else r.value) + more)
  }

  /** Build's step: the line is appended in place to the firer's slot, when there is one. */
  function AddOne(fmt: Format, es: seq<Entity>, p: ProjectileEvent): (r: seq<Entity>)
    ensures |r| == |es|
  {
    var slot := p.firerObjectId as int;
    if IsLine(p) && slot < |es| then es[slot := AddLines(es[slot], [LineRow(fmt, p)])] else es
  }

  function AddAll(fmt: Format, es: seq<Entity>, ps: seq<ProjectileEvent>): (r: seq<Entity>)
    ensures |r| == |es|
  {
    if ps == [] then es else AddOne(fmt, AddAll(fmt, es, ps[..|ps| - 1]), ps[|ps| - 1])
  }

  function AddLines(e: Entity, lines: seq<Json>): Entity {
    e.(framesFired := AppendRows(e.framesFired, lines))
  }

  lemma AddLinesTwice(e: Entity, a: seq<Json>, b: seq<Json>)
    ensures AddLines(AddLines(e, a), b) == AddLines(e, a + b)
  {
    if b == [] {
      assert a + b == a;
    } else if a == [] {
      assert a + b == b;
    } else {
      var have := if e.framesFired.None? then [] else e.framesFired.value;
      assert have + (a + b) == have + a + b;
    }
  }

  /**
   Appending lines in place, projectile after projectile, over the whole entity list leaves
   each slot with its own firer's lines, grouped and in order.
   */
  lemma {:induction false} InPlaceIsGrouped(fmt: Format, es: seq<Entity>, ps: seq<ProjectileEvent>, i: nat)
    requires i < |es| && i < 0x1_0000
    ensures AddAll(fmt, es, ps)[i] == AddLines(es[i], Lines(fmt, ps, i as uint16))
  {
    if ps != [] {
      var before, p := ps[..|ps| - 1], ps[|ps| - 1];
      InPlaceIsGrouped(fmt, es, before, i);
      AddLinesTwice(es[i], Lines(fmt, before, i as uint16), LineOf(fmt, p, i as uint16));
    }
  }

  // ---- entities ----

  /** Last frame an entity is shown: its delete frame, else the mission's last frame. */
  function EndOf(deleteFrame: Frame, maxFrame: Frame): Frame {
    if deleteFrame > 0 then deleteFrame else maxFrame
  }

  /** Once a player always a player; the name is the last one a player state carried. */
  function PlayerFold(start: (bool, string), states: seq<SoldierState>): (bool, string) {
    if states == [] then start
    else
      var before := PlayerFold(start, states[..|states| - 1]);
      var s := states[|states| - 1];
      if s.isPlayer then (true, if s.unitName != "" then s.unitName else before.1) else before
  }

  function SoldierPositions(fmt: Format, r: SoldierRecord, maxFrame: Frame, n: nat): seq<Json>
    requires n <= |r.states|
  {
    var fill := FillTo(MapSeq(StateFrame, r.states), EndOf(r.soldier.deleteFrame, maxFrame), n);
    seq(|fill|, k requires 0 <= k < |fill| => fmt.soldierPosition(r.states[fill[k]]))
  }

  function FiredRows(fmt: Format, es: seq<FiredEvent>): seq<Json> {
    MapSeq((f: FiredEvent) => fmt.line(f.captureFrame, f.endPos), es)
  }

  function SoldierEntity(fmt: Format, r: SoldierRecord, maxFrame: Frame, extra: seq<Json>): Entity {
    var player := PlayerFold((r.soldier.isPlayer, r.soldier.unitName), r.states);
    Entity(r.soldier.id, player.1, r.soldier.groupId, r.soldier.side, BoolToInt(player.0), "unit",
           r.soldier.roleDescription, "", FrameToV1(r.soldier.joinFrame),
           Some(SoldierPositions(fmt, r, maxFrame, |r.states|)),
           Some(FiredRows(fmt, r.firedEvents) + extra))
  }

  function VehiclePositions(fmt: Format, r: VehicleRecord, maxFrame: Frame): seq<Json> {
    var ranges := Ranges(MapSeq(VehicleStateFrame, r.states), EndOf(r.vehicle.deleteFrame, maxFrame));
    seq(|r.states|, i requires 0 <= i < |r.states| => fmt.vehiclePosition(r.states[i], ranges[i]))
  }

  function VehicleEntity(fmt: Format, r: VehicleRecord, maxFrame: Frame): Entity {
    Entity(r.vehicle.id, r.vehicle.displayName, "", if r.vehicle.side == "" then "UNKNOWN" else r.vehicle.side,
           0, "vehicle", "", r.vehicle.ocapType, FrameToV1(r.vehicle.joinFrame),
           Some(VehiclePositions(fmt, r, maxFrame)), Some([]))
  }
}
