/**
 What each recorded value becomes in the v1 export. Library calls are fields of Lib, so the
 rows are defined for any behaviour of them.
 */
module V1Rows {
  import opened Wrappers
  import opened Core
  import opened Json
  import opened GapFill
  import opened ExportTypes

  /**
   unmarshal: json.Unmarshal into any; parseSize: json.Unmarshal into a float list;
   toUpper: strings.ToUpper; distance(dx, dy): the float32 length of (dx, dy).
   */
  datatype Lib = Lib(
    unmarshal: string -> Option<Json>, parseSize: string -> Option<seq<real>>,
    toUpper: string -> string, distance: (real, real) -> real)

  // ---- small conversions ----

  function Vec3(p: Position3D): Json { JArr([JNum(p.x), JNum(p.y), JNum(p.z)]) }

  function Vec2(p: Position2D): Json { JArr([JNum(p.x), JNum(p.y)]) }

  const UNIT_SIZE := JArr([JNum(1.0), JNum(1.0)])

  function MarkerSize(lib: Lib, size: string): Json {
    var parsed := lib.parseSize(size);
    if parsed.None? || |parsed.value| != 2 then UNIT_SIZE
    else JArr([JNum(parsed.value[0]), JNum(parsed.value[1])])
  }

  function SideToIndex(lib: Lib, side: string): int {
    var s := lib.toUpper(side);
    if s == "EAST" || s == "OPFOR" then 0
    else if s == "WEST" || s == "BLUFOR" then 1
    else if s == "GUER" || s == "INDEPENDENT" then 2
    else if s == "CIV" || s == "CIVILIAN" then 3
    else -1
  }

  function TrimHash(color: string): string {
    if color != [] && color[0] == '#' then color[1..] else color
  }

  predicate IsSeparator(c: char) { c == '/' || c == '\\' }

  /** The part of a path after its last separator. */
  function FileName(path: string): (r: string)
    ensures |r| <= |path| && r == path[|path| - |r|..]
    ensures forall j :: |path| - |r| <= j < |path| ==> path[j] != '/' && path[j] != '\\'
    ensures r == path || path[|path| - |r| - 1] == '/' || path[|path| - |r| - 1] == '\\'
  {
    if path == "" || IsSeparator(path[|path| - 1]) then ""
    else FileName(path[..|path| - 1]) + [path[|path| - 1]]
  }

  lemma FileNameUnique(path: string, i: nat)
    requires i <= |path| && (i == 0 || IsSeparator(path[i - 1]))
    requires forall j :: i <= j < |path| ==> !IsSeparator(path[j])
    ensures path[i..] == FileName(path)
  {
  }

  /** extractFilename: scan back for the last separator. */
  method ExtractFilename(path: string) returns (r: string)
    ensures r == FileName(path)
  {
    var i := |path|;
    while i > 0 && !IsSeparator(path[i - 1])
      invariant 0 <= i <= |path|
      invariant forall j :: i <= j < |path| ==> !IsSeparator(path[j])
    {
      i := i - 1;
    }
    FileNameUnique(path, i);
    return path[i..];
  }

  function WeaponText(vehicle: string, weapon: string, magazine: string): string {
    vehicle + (if vehicle != "" && weapon != "" then ": " else "") + weapon
    + if magazine != "" then " [" + magazine + "]" else ""
  }

  function FirstId(preferred: Option<nat>, other: Option<nat>): nat {
    if preferred.Some? then preferred.value else if other.Some? then other.value else 0
  }

  // ---- event rows ----

  function GeneralRow(lib: Lib, e: GeneralEvent): EventRow {
    var parsed := if e.message != "" && (e.message[0] == '[' || e.message[0] == '{')
                  then lib.unmarshal(e.message) else None;
    var message := if parsed.Some? then parsed.value else JStr(e.message);
    var uid := if (e.name == "connected" || e.name == "disconnected")
                  && e.playerUid.Some? && e.playerUid.value != ""
               then [JStr(e.playerUid.value)] else [];
    EventRow(FrameToV1(e.captureFrame), [JStr(e.name), message] + uid)
  }

  function SectorRow(e: SectorEvent): EventRow {
    EventRow(FrameToV1(e.captureFrame),
             [JStr(e.name),
              JArr([JStr(e.objectType), JStr(e.unitName), JStr(e.side),
                    Vec3(Position3D(e.posX, e.posY, e.posZ))])])
  }

  function EndMissionRow(e: EndMissionEvent): EventRow {
    EventRow(FrameToV1(e.captureFrame), [JStr("endMission"), JArr([JStr(e.side), JStr(e.message)])])
  }

  function CombatRow(kind: string, frame: Frame, victim: nat, source: nat, text: string, dist: real): EventRow {
    EventRow(FrameToV1(frame),
             [JStr(kind), Num(victim), JArr([Num(source), JStr(text)]), JNum(dist)])
  }

  function HitRow(e: CombatEvent): EventRow {
    CombatRow("hit", e.captureFrame, FirstId(e.victimVehicleId, e.victimSoldierId),
              FirstId(e.sourceVehicleId, e.sourceSoldierId), e.eventText, e.distance)
  }

  function KillRow(e: CombatEvent): EventRow {
    CombatRow("killed", e.captureFrame, FirstId(e.victimVehicleId, e.victimSoldierId),
              FirstId(e.sourceVehicleId, e.sourceSoldierId), e.eventText, e.distance)
  }

  function PlacedHitRow(lib: Lib, o: PlacedObject, e: PlacedObjectEvent): seq<EventRow> {
    if e.eventType == "hit" && e.hitEntityId.Some? then
      [CombatRow("hit", e.captureFrame, e.hitEntityId.value as nat, o.ownerId as nat, o.displayName,
                 lib.distance(o.position.x - e.position.x, o.position.y - e.position.y))]
    else []
  }

  function ProjectileHitRow(lib: Lib, p: ProjectileEvent, h: ProjectileHit): EventRow {
    var weapon := if p.muzzleDisplay == "" then p.weaponDisplay else p.muzzleDisplay;
    var start := if p.trajectory == [] then Position3D(0.0, 0.0, 0.0) else p.trajectory[0].position;
    var victim: nat := if h.soldierId.Some? then h.soldierId.value as nat
                       else if h.vehicleId.Some? then h.vehicleId.value as nat else 0;
    CombatRow("hit", h.captureFrame, victim, p.firerObjectId as nat,
              WeaponText("", weapon, p.magazineDisplay),
              lib.distance(start.x - h.position.x, start.y - h.position.y))
  }

  function PlacedHits(lib: Lib, r: PlacedRecord): seq<EventRow> {
    FlatMap(e => PlacedHitRow(lib, r.placedObject, e), r.events)
  }

  function ProjectileHits(lib: Lib, p: ProjectileEvent): seq<EventRow> {
    MapSeq(h => ProjectileHitRow(lib, p, h), p.hits)
  }

  // ---- markers ----

  function MarkerPosition(lib: Lib, frame: Frame, where: Json, direction: real, alpha: real,
                          text: string, color: string, size: string, markerType: string,
                          brush: string, shape: string): Json {
    JArr([Num(FrameToV1(frame)), where, JNum(direction), JNum(alpha), JStr(text),
          JStr(TrimHash(color)), MarkerSize(lib, size), JStr(markerType), JStr(brush), JStr(shape)])
  }

  function MarkerStatePosition(lib: Lib, s: MarkerState): Json {
    MarkerPosition(lib, s.captureFrame, Vec3(s.position), s.direction, s.alpha, s.text, s.color,
                   s.size, s.markerType, s.brush, s.shape)
  }

  function MarkerPositions(lib: Lib, r: MarkerData): seq<Json> {
    var m := r.marker;
    var polyline := m.shape == "POLYLINE";
    var where := if polyline then JArr(MapSeq(Vec2, m.polyline)) else Vec3(m.position);
    [MarkerPosition(lib, m.captureFrame, where, m.direction, m.alpha, m.text, m.color, m.size,
                    m.markerType, m.brush, m.shape)]
    + if polyline then [] else MapSeq(s => MarkerStatePosition(lib, s), r.states)
  }

  function MarkerRow(lib: Lib, r: MarkerData): Json {
    var m := r.marker;
    JArr([JStr(m.markerType), JStr(m.text), Num(FrameToV1(m.captureFrame)),
          Num(FrameToV1(m.endFrame)), Num(m.ownerId), JStr(TrimHash(m.color)),
          Num(SideToIndex(lib, m.side)), JArr(MarkerPositions(lib, r)), MarkerSize(lib, m.size),
          JStr(m.shape), JStr(m.brush)])
  }

  /** A marker that is not a map marker: a mine or a projectile in flight. */
  function IconRow(markerType: string, text: string, start: Frame, end: int, owner: uint16,
                   color: string, positions: seq<Json>): Json {
    JArr([JStr(markerType), JStr(text), Num(FrameToV1(start)), Num(end), Num(owner as int),
          JStr(color), Num(-1), JArr(positions), UNIT_SIZE, JStr("ICON"), JStr("Solid")])
  }

  function IconPosition(frame: Frame, p: Position3D): Json {
    JArr([Num(FrameToV1(frame)), Vec3(p), Num(0), JNum(1.0)])
  }

  predicate EndsPlaced(e: PlacedObjectEvent) { e.eventType == "detonated" || e.eventType == "deleted" }

  /** The frame of the first detonation or deletion, -1 without one. */
  function PlacedEnd(events: seq<PlacedObjectEvent>): int {
    if events == [] then -1
    else if EndsPlaced(events[0]) then FrameToV1(events[0].captureFrame)
    else PlacedEnd(events[1..])
  }

  lemma {:induction false} PlacedEndIsFirst(events: seq<PlacedObjectEvent>, i: nat)
    requires i <= |events|
    requires forall j :: 0 <= j < i ==> events[j].eventType != "detonated" && events[j].eventType != "deleted"
    requires i < |events| ==> events[i].eventType == "detonated" || events[i].eventType == "deleted"
    ensures PlacedEnd(events) == if i < |events| then events[i].captureFrame - 1 else -1
  {
    if i > 0 {
      PlacedEndIsFirst(events[1..], i - 1);
    }
  }

  /** The search with its early exit. */
  method PlacedEndFrame(events: seq<PlacedObjectEvent>) returns (end: int)
    ensures end == PlacedEnd(events)
  {
    end := -1;
    var i := 0;
    while i < |events|
      invariant 0 <= i <= |events| && end == -1
      invariant forall j :: 0 <= j < i ==> !EndsPlaced(events[j])
    {
      if EndsPlaced(events[i]) {
        end := FrameToV1(events[i].captureFrame);
        break;
      }
      i := i + 1;
    }
    PlacedEndIsFirst(events, i);
  }

  function PlacedRow(r: PlacedRecord): Json {
    var o := r.placedObject;
    var icon := FileName(o.magazineIcon);
    IconRow(if icon != "" then "magIcons/" + icon else "Minefield", o.displayName, o.joinFrame,
            PlacedEnd(r.events), o.ownerId, "D96600", [IconPosition(o.joinFrame, o.position)])
  }

  function ProjectileText(vehicles: map<uint16, VehicleRecord>, p: ProjectileEvent): string {
    if p.vehicleObjectId.Some? && p.vehicleObjectId.value != p.firerObjectId then
      var v := p.vehicleObjectId.value;
      (if v in vehicles then vehicles[v].vehicle.displayName else "")
      + " " + p.muzzleDisplay + " - " + p.magazineDisplay
    else if p.simulationType == "shotGrenade" then p.magazineDisplay
    else p.muzzleDisplay + " - " + p.magazineDisplay
  }

  function ProjectileRow(vehicles: map<uint16, VehicleRecord>, p: ProjectileEvent): Json {
    var icon := FileName(p.magazineIcon);
    var n := |p.trajectory|;
    IconRow(if icon != "" then "magIcons/" + icon else "mil_triangle", ProjectileText(vehicles, p),
            p.captureFrame, if n > 0 then FrameToV1(p.trajectory[n - 1].frameNum) else -1,
            p.firerObjectId, if icon != "" then "ColorWhite" else "ColorRed",
            MapSeq((t: TrajectoryPoint) => IconPosition(t.frameNum, t.position), p.trajectory))
  }

  // ---- entities and times ----

  function SoldierPosition(s: SoldierState): Json {
    JArr([Vec3(s.position), Num(s.bearing), Num(s.lifestate),
          Num(if s.inVehicleObjectId.Some? then s.inVehicleObjectId.value as int else 0),
          JStr(s.unitName), Num(BoolToInt(s.isPlayer)), JStr(s.currentRole), JStr(s.groupId),
          JStr(s.side)])
  }

  function VehiclePosition(lib: Lib, s: VehicleState, range: (int, int)): Json {
    var crew := lib.unmarshal(s.crew);
    JArr([Vec3(s.position), Num(s.bearing), Num(BoolToInt(s.isAlive)),
          if crew.Some? then crew.value else JArr([]), JArr([Num(range.0), Num(range.1)])])
  }

  function TimeOf(t: TimeState): TimeRow {
    TimeRow(t.missionDate, FrameToV1(t.captureFrame), t.systemTimeUTC, t.missionTime, t.timeMultiplier)
  }

  // ---- the format ----

  function LineAt(frame: Frame, p: Position3D): Json { JArr([Num(FrameToV1(frame)), Vec3(p)]) }

  /** The format Build and Stream print in; vehicles are looked up for projectile texts. */
  function V1(lib: Lib, vehicles: map<uint16, VehicleRecord>): Format {
    Format(EntityJson, EventJson, TimeOf, e => GeneralRow(lib, e), SectorRow, EndMissionRow, HitRow, KillRow,
           r => PlacedHits(lib, r), p => ProjectileHits(lib, p), r => MarkerRow(lib, r), PlacedRow,
           p => ProjectileRow(vehicles, p), LineAt, SoldierPosition,
           (s, range) => VehiclePosition(lib, s, range))
  }
}
