/**
 The v1 rows as a reader of the format takes them: every entry of every row, by its index, in
 terms of the recorded values. Exported frames count from 0, recorded ones from 1.
 */
module V1Reading {
  import opened Wrappers
  import opened Core
  import opened Json
  import opened ExportTypes
  import opened V1Rows

  /** Entry i of an array. */
  function Entry(j: Json, i: nat): Json { if j.JArr? && i < |j.items| then j.items[i] else JNull }

  function Length(j: Json): nat { if j.JArr? then |j.items| else 0 }

  /** An integer entry. */
  predicate IsInt(j: Json, n: int) { j == JNum(n as real) }

  predicate IsPoint(j: Json, p: Position3D) { j == JArr([JNum(p.x), JNum(p.y), JNum(p.z)]) }

  // ---- events ----

  /** [frame, kind, victim, [source, text], distance] */
  predicate IsCombat(row: EventRow, kind: string, frame: Frame, victim: nat, source: nat, text: string,
                     distance: real)
  {
    var j := EventJson(row);
    && row.frame == frame - 1 && Length(j) == 5
    && IsInt(Entry(j, 0), frame - 1) && Entry(j, 1) == JStr(kind) && IsInt(Entry(j, 2), victim)
    && Length(Entry(j, 3)) == 2 && IsInt(Entry(Entry(j, 3), 0), source) && Entry(Entry(j, 3), 1) == JStr(text)
    && Entry(j, 4) == JNum(distance)
  }

  lemma CombatReads(kind: string, frame: Frame, victim: nat, source: nat, text: string, distance: real)
    ensures IsCombat(CombatRow(kind, frame, victim, source, text, distance),
                     kind, frame, victim, source, text, distance)
  {
  }

  /** The vehicle when there is one, else the soldier, else 0. */
  predicate IsChosen(n: nat, vehicle: Option<nat>, soldier: Option<nat>) {
    n == if vehicle.Some? then vehicle.value else if soldier.Some? then soldier.value else 0
  }

  lemma HitReads(lib: Lib, vs: map<uint16, VehicleRecord>, e: CombatEvent) returns (victim: nat, source: nat)
    ensures IsChosen(victim, e.victimVehicleId, e.victimSoldierId)
    ensures IsChosen(source, e.sourceVehicleId, e.sourceSoldierId)
    ensures IsCombat(V1(lib, vs).hit(e), "hit", e.captureFrame, victim, source, e.eventText, e.distance)
  {
    victim := FirstId(e.victimVehicleId, e.victimSoldierId);
    source := FirstId(e.sourceVehicleId, e.sourceSoldierId);
    CombatReads("hit", e.captureFrame, victim, source, e.eventText, e.distance);
  }

  lemma KillReads(lib: Lib, vs: map<uint16, VehicleRecord>, e: CombatEvent) returns (victim: nat, source: nat)
    ensures IsChosen(victim, e.victimVehicleId, e.victimSoldierId)
    ensures IsChosen(source, e.sourceVehicleId, e.sourceSoldierId)
    ensures IsCombat(V1(lib, vs).kill(e), "killed", e.captureFrame, victim, source, e.eventText, e.distance)
  {
    victim := FirstId(e.victimVehicleId, e.victimSoldierId);
    source := FirstId(e.sourceVehicleId, e.sourceSoldierId);
    CombatReads("killed", e.captureFrame, victim, source, e.eventText, e.distance);
  }

  /** [frame, name, message], with the player's ID behind it for connections that carry one. */
  lemma GeneralReads(lib: Lib, vs: map<uint16, VehicleRecord>, e: GeneralEvent)
    ensures var row := V1(lib, vs).general(e); var j := EventJson(row);
      && row.frame == e.captureFrame - 1 && IsInt(Entry(j, 0), e.captureFrame - 1) && Entry(j, 1) == JStr(e.name)
      && Entry(j, 2) == (if e.message != "" && e.message[0] in {'[', '{'} && lib.unmarshal(e.message).Some?
                         then lib.unmarshal(e.message).value else JStr(e.message))
      && if e.name in {"connected", "disconnected"} && e.playerUid.Some? && e.playerUid.value != ""
         then Length(j) == 4 && Entry(j, 3) == JStr(e.playerUid.value) else Length(j) == 3
  {
    var row := V1(lib, vs).general(e);
    assert row == GeneralRow(lib, e);
    assert e.message != "" ==> (e.message[0] in {'[', '{'} <==> e.message[0] == '[' || e.message[0] == '{');
    assert e.name in {"connected", "disconnected"} <==> e.name == "connected" || e.name == "disconnected";
    var items := EventJson(row).items;
    assert items[0] == Num(row.frame) && items[1] == row.rest[0] && items[2] == row.rest[1];
    assert |row.rest| == 3 ==> items[3] == row.rest[2];
  }

  /** [frame, name, [object type, unit, side, [x, y, z]]] */
  lemma SectorReads(lib: Lib, vs: map<uint16, VehicleRecord>, e: SectorEvent)
    ensures var row := V1(lib, vs).sector(e); var j := EventJson(row); var detail := Entry(j, 2);
      && row.frame == e.captureFrame - 1 && Length(j) == 3 && Length(detail) == 4
      && IsInt(Entry(j, 0), e.captureFrame - 1) && Entry(j, 1) == JStr(e.name)
      && Entry(detail, 0) == JStr(e.objectType) && Entry(detail, 1) == JStr(e.unitName)
      && Entry(detail, 2) == JStr(e.side) && IsPoint(Entry(detail, 3), Position3D(e.posX, e.posY, e.posZ))
  {
  }

  /** [frame, "endMission", [side, message]] */
  lemma EndMissionReads(lib: Lib, vs: map<uint16, VehicleRecord>, e: EndMissionEvent)
    ensures var row := V1(lib, vs).endMission(e); var j := EventJson(row); var detail := Entry(j, 2);
      && row.frame == e.captureFrame - 1 && Length(j) == 3 && Length(detail) == 2
      && IsInt(Entry(j, 0), e.captureFrame - 1) && Entry(j, 1) == JStr("endMission")
      && Entry(detail, 0) == JStr(e.side) && Entry(detail, 1) == JStr(e.message)
  {
  }

  predicate IsPlacedHit(e: PlacedObjectEvent) { e.eventType == "hit" && e.hitEntityId.Some? }

  /** A placed object gives a hit row for each of its hits, in order, and nothing else. */
  lemma PlacedHitsRead(lib: Lib, vs: map<uint16, VehicleRecord>, r: PlacedRecord)
    ensures var rows, hits := V1(lib, vs).placedHits(r), Filter(IsPlacedHit, r.events);
      && |rows| == |hits|
      && forall i :: 0 <= i < |hits| ==>
           hits[i].hitEntityId.Some?
           && IsCombat(rows[i], "hit", hits[i].captureFrame, hits[i].hitEntityId.value as nat,
                       r.placedObject.ownerId as nat, r.placedObject.displayName,
                       lib.distance(r.placedObject.position.x - hits[i].position.x,
                                    r.placedObject.position.y - hits[i].position.y))
  {
    PlacedHitsOf(lib, r.placedObject, r.events, e => PlacedHitRow(lib, r.placedObject, e));
  }

  ghost predicate ReadsAsPlacedHit(lib: Lib, o: PlacedObject, row: EventRow, e: PlacedObjectEvent) {
    e.hitEntityId.Some?
    && IsCombat(row, "hit", e.captureFrame, e.hitEntityId.value as nat, o.ownerId as nat, o.displayName,
                lib.distance(o.position.x - e.position.x, o.position.y - e.position.y))
  }

  lemma {:induction false} PlacedHitsOf(lib: Lib, o: PlacedObject, events: seq<PlacedObjectEvent>,
                                        f: PlacedObjectEvent -> seq<EventRow>)
    requires forall e :: f(e) == PlacedHitRow(lib, o, e)
    ensures var rows, hits := FlatMap(f, events), Filter(IsPlacedHit, events);
      |rows| == |hits| && forall i :: 0 <= i < |hits| ==> ReadsAsPlacedHit(lib, o, rows[i], hits[i])
  {
    if events != [] {
      var before, e := events[..|events| - 1], events[|events| - 1];
      PlacedHitsOf(lib, o, before, f);
      assert IsPlacedHit(e) ==> |f(e)| == 1 && ReadsAsPlacedHit(lib, o, f(e)[0], e);
      assert !IsPlacedHit(e) ==> f(e) == [];
    }
  }

  /** Where the projectile was first seen. */
  function StartOf(p: ProjectileEvent): Position3D {
    if p.trajectory == [] then Position3D(0.0, 0.0, 0.0) else p.trajectory[0].position
  }

  /** What a hit is said to be made with: the muzzle, or the weapon without one, and the magazine. */
  function HitText(p: ProjectileEvent): string {
    var weapon := if p.muzzleDisplay != "" then p.muzzleDisplay else p.weaponDisplay;
    if p.magazineDisplay == "" then weapon else weapon + " [" + p.magazineDisplay + "]"
  }

  /** The row of one hit of a projectile. */
  predicate ReadsAsProjectileHit(lib: Lib, p: ProjectileEvent, row: EventRow, h: ProjectileHit) {
    var victim: nat := if h.soldierId.Some? then h.soldierId.value as nat
                       else if h.vehicleId.Some? then h.vehicleId.value as nat else 0;
    IsCombat(row, "hit", h.captureFrame, victim, p.firerObjectId as nat, HitText(p),
             lib.distance(StartOf(p).x - h.position.x, StartOf(p).y - h.position.y))
  }

  lemma ProjectileHitReads(lib: Lib, p: ProjectileEvent, h: ProjectileHit)
    ensures ReadsAsProjectileHit(lib, p, ProjectileHitRow(lib, p, h), h)
  {
    var weapon := if p.muzzleDisplay == "" then p.weaponDisplay else p.muzzleDisplay;
    WeaponTextReads("", weapon, p.magazineDisplay);
    var victim: nat := if h.soldierId.Some? then h.soldierId.value as nat
                       else if h.vehicleId.Some? then h.vehicleId.value as nat else 0;
    CombatReads("hit", h.captureFrame, victim, p.firerObjectId as nat, HitText(p),
                lib.distance(StartOf(p).x - h.position.x, StartOf(p).y - h.position.y));
  }

  /** A projectile gives one hit row for each of its hits, in order. */
  lemma ProjectileHitsRead(lib: Lib, vs: map<uint16, VehicleRecord>, p: ProjectileEvent)
    ensures |V1(lib, vs).projectileHits(p)| == |p.hits|
    ensures forall i :: 0 <= i < |p.hits| ==> ReadsAsProjectileHit(lib, p, V1(lib, vs).projectileHits(p)[i], p.hits[i])
  {
    var rows := V1(lib, vs).projectileHits(p);
    assert rows == ProjectileHits(lib, p);
    forall i | 0 <= i < |p.hits| ensures ReadsAsProjectileHit(lib, p, rows[i], p.hits[i]) {
      assert rows[i] == ProjectileHitRow(lib, p, p.hits[i]);
      ProjectileHitReads(lib, p, p.hits[i]);
    }
  }

  /** "Vehicle: Weapon [Magazine]" with empty parts and their punctuation left out. */
  lemma WeaponTextReads(v: string, w: string, m: string)
    ensures v == "" ==> WeaponText(v, w, m) == if m == "" then w else w + " [" + m + "]"
    ensures v != "" && w == "" ==> WeaponText(v, w, m) == if m == "" then v else v + " [" + m + "]"
    ensures v != "" && w != "" ==> WeaponText(v, w, m) == v + ": " + w + if m == "" then "" else " [" + m + "]"
  {
    assert "" + "" + w == w;
    assert v + "" + "" == v;
  }

  // ---- markers ----

  /** The number of a side: 0 east, 1 west, 2 independent, 3 civilian, -1 for everybody. */
  lemma SideReads(lib: Lib, side: string)
    ensures var n, s := SideToIndex(lib, side), lib.toUpper(side);
      && (n == 0 <==> s in {"EAST", "OPFOR"}) && (n == 1 <==> s in {"WEST", "BLUFOR"})
      && (n == 2 <==> s in {"GUER", "INDEPENDENT"}) && (n == 3 <==> s in {"CIV", "CIVILIAN"})
      && (n == -1 <==> s !in {"EAST", "OPFOR", "WEST", "BLUFOR", "GUER", "INDEPENDENT", "CIV", "CIVILIAN"})
  {
    var s := lib.toUpper(side);
    assert "EAST"[0] != "WEST"[0] && "GUER"[0] != "CIV"[0];
  }

  /** A size of two numbers; anything else is 1 by 1. */
  predicate IsSize(j: Json, parsed: Option<seq<real>>) {
    j == if parsed.Some? && |parsed.value| == 2 then JArr([JNum(parsed.value[0]), JNum(parsed.value[1])])
         else JArr([JNum(1.0), JNum(1.0)])
  }

  /** The color without the # that may lead it. */
  predicate IsColor(j: Json, color: string) {
    j == JStr(if color != "" && color[0] == '#' then color[1..] else color)
  }

  /** [frame, where, direction, alpha, text, color, size, type, brush, shape] */
  predicate IsMarkerPosition(lib: Lib, j: Json, frame: Frame, direction: real, alpha: real, text: string,
                             color: string, size: string, markerType: string, brush: string, shape: string) {
    && Length(j) == 10 && IsInt(Entry(j, 0), frame - 1)
    && Entry(j, 2) == JNum(direction) && Entry(j, 3) == JNum(alpha) && Entry(j, 4) == JStr(text)
    && IsColor(Entry(j, 5), color) && IsSize(Entry(j, 6), lib.parseSize(size))
    && Entry(j, 7) == JStr(markerType) && Entry(j, 8) == JStr(brush) && Entry(j, 9) == JStr(shape)
  }

  predicate IsPath(j: Json, line: seq<Position2D>) {
    Length(j) == |line| && j.JArr?
    && forall i :: 0 <= i < |line| ==> Entry(j, i) == JArr([JNum(line[i].x), JNum(line[i].y)])
  }

  /** The first position is the marker's own. */
  predicate IsFirstPosition(lib: Lib, j: Json, m: Marker) {
    && IsMarkerPosition(lib, j, m.captureFrame, m.direction, m.alpha, m.text, m.color, m.size, m.markerType,
                        m.brush, m.shape)
    && if m.shape == "POLYLINE" then IsPath(Entry(j, 1), m.polyline) else IsPoint(Entry(j, 1), m.position)
  }

  predicate IsStatePosition(lib: Lib, j: Json, s: MarkerState) {
    && IsMarkerPosition(lib, j, s.captureFrame, s.direction, s.alpha, s.text, s.color, s.size, s.markerType,
                        s.brush, s.shape)
    && IsPoint(Entry(j, 1), s.position)
  }

  ghost predicate AreMoves(lib: Lib, rows: seq<Json>, states: seq<MarkerState>) {
    |rows| == |states| && forall i :: 0 <= i < |rows| ==> IsStatePosition(lib, rows[i], states[i])
  }

  /** The marker's own position, then its moves; a line does not move. */
  ghost predicate ArePositions(lib: Lib, j: Json, r: MarkerData) {
    && j.JArr? && j.items != [] && IsFirstPosition(lib, j.items[0], r.marker)
    && AreMoves(lib, j.items[1..], if r.marker.shape == "POLYLINE" then [] else r.states)
  }

  lemma PathReads(line: seq<Position2D>)
    ensures IsPath(JArr(MapSeq(Vec2, line)), line)
  {
    var path := JArr(MapSeq(Vec2, line));
    forall i | 0 <= i < |line| ensures Entry(path, i) == JArr([JNum(line[i].x), JNum(line[i].y)]) {
      assert Entry(path, i) == Vec2(line[i]);
    }
  }

  lemma FirstPositionReads(lib: Lib, r: MarkerData)
    ensures IsFirstPosition(lib, MarkerPositions(lib, r)[0], r.marker)
  {
    PathReads(r.marker.polyline);
  }

  lemma StatePositionReads(lib: Lib, s: MarkerState)
    ensures IsStatePosition(lib, MarkerStatePosition(lib, s), s)
  {
  }

  lemma MovesRead(lib: Lib, states: seq<MarkerState>)
    ensures AreMoves(lib, MapSeq(s => MarkerStatePosition(lib, s), states), states)
  {
    forall i | 0 <= i < |states| ensures IsStatePosition(lib, MarkerStatePosition(lib, states[i]), states[i]) {
      StatePositionReads(lib, states[i]);
    }
  }

  lemma MovesBehindFirst(lib: Lib, r: MarkerData)
    ensures MarkerPositions(lib, r)[1..]
         == MapSeq(s => MarkerStatePosition(lib, s), if r.marker.shape == "POLYLINE" then [] else r.states)
  {
  }

  lemma PositionsRead(lib: Lib, r: MarkerData)
    ensures ArePositions(lib, JArr(MarkerPositions(lib, r)), r)
  {
    FirstPositionReads(lib, r);
    MovesRead(lib, if r.marker.shape == "POLYLINE" then [] else r.states);
    MovesBehindFirst(lib, r);
  }

  lemma SizeAndColorRead(lib: Lib, size: string, color: string)
    ensures IsSize(MarkerSize(lib, size), lib.parseSize(size)) && IsColor(JStr(TrimHash(color)), color)
  {
  }

  lemma MarkerEntries(lib: Lib, r: MarkerData)
    ensures var m, j := r.marker, MarkerRow(lib, r);
      && Length(j) == 11 && Entry(j, 0) == JStr(m.markerType) && Entry(j, 1) == JStr(m.text)
      && IsInt(Entry(j, 2), m.captureFrame - 1) && IsInt(Entry(j, 3), m.endFrame - 1) && IsInt(Entry(j, 4), m.ownerId)
      && Entry(j, 5) == JStr(TrimHash(m.color)) && IsInt(Entry(j, 6), SideToIndex(lib, m.side))
      && Entry(j, 7) == JArr(MarkerPositions(lib, r)) && Entry(j, 8) == MarkerSize(lib, m.size)
      && Entry(j, 9) == JStr(m.shape) && Entry(j, 10) == JStr(m.brush)
  {
  }

  /** [type, text, start, end, player, color, side, positions, size, shape, brush] */
  lemma MarkerReads(lib: Lib, vs: map<uint16, VehicleRecord>, r: MarkerData)
    ensures var m, j := r.marker, V1(lib, vs).marker(r);
      && Length(j) == 11 && Entry(j, 0) == JStr(m.markerType) && Entry(j, 1) == JStr(m.text)
      && IsInt(Entry(j, 2), m.captureFrame - 1) && IsInt(Entry(j, 3), m.endFrame - 1) && IsInt(Entry(j, 4), m.ownerId)
      && IsColor(Entry(j, 5), m.color) && IsInt(Entry(j, 6), SideToIndex(lib, m.side))
      && ArePositions(lib, Entry(j, 7), r) && IsSize(Entry(j, 8), lib.parseSize(m.size))
      && Entry(j, 9) == JStr(m.shape) && Entry(j, 10) == JStr(m.brush)
  {
    MarkerEntries(lib, r);
    SizeAndColorRead(lib, r.marker.size, r.marker.color);
    PositionsRead(lib, r);
  }

  /** A marker without side, size, shape and brush of its own: a mine, or a projectile in flight. */
  predicate IsIcon(j: Json, markerType: string, text: string, start: Frame, end: int, owner: uint16, color: string) {
    && Length(j) == 11 && Entry(j, 0) == JStr(markerType) && Entry(j, 1) == JStr(text)
    && IsInt(Entry(j, 2), start - 1) && IsInt(Entry(j, 3), end) && IsInt(Entry(j, 4), owner as int)
    && Entry(j, 5) == JStr(color) && IsInt(Entry(j, 6), -1)
    && Entry(j, 8) == JArr([JNum(1.0), JNum(1.0)]) && Entry(j, 9) == JStr("ICON") && Entry(j, 10) == JStr("Solid")
  }

  /** [frame, [x, y, z], 0, 1] */
  predicate IsIconPosition(j: Json, frame: Frame, p: Position3D) {
    && Length(j) == 4 && IsInt(Entry(j, 0), frame - 1) && IsPoint(Entry(j, 1), p)
    && IsInt(Entry(j, 2), 0) && Entry(j, 3) == JNum(1.0)
  }

  /** The icon of a magazine, by the file name of its picture. */
  function IconName(picture: string, otherwise: string): string {
    if FileName(picture) == "" then otherwise else "magIcons/" + FileName(picture)
  }

  lemma IconReads(markerType: string, text: string, start: Frame, end: int, owner: uint16, color: string,
                  positions: seq<Json>)
    ensures var j := IconRow(markerType, text, start, end, owner, color, positions);
      IsIcon(j, markerType, text, start, end, owner, color) && Entry(j, 7) == JArr(positions)
  {
  }

  lemma IconPositionReads(frame: Frame, p: Position3D)
    ensures IsIconPosition(IconPosition(frame, p), frame, p)
  {
  }

  lemma PlacedReads(lib: Lib, vs: map<uint16, VehicleRecord>, r: PlacedRecord)
    ensures var o, j := r.placedObject, V1(lib, vs).placed(r);
      && IsIcon(j, IconName(o.magazineIcon, "Minefield"), o.displayName, o.joinFrame, PlacedEnd(r.events), o.ownerId,
                "D96600")
      && Length(Entry(j, 7)) == 1 && IsIconPosition(Entry(Entry(j, 7), 0), o.joinFrame, o.position)
  {
    var o := r.placedObject;
    var positions := [IconPosition(o.joinFrame, o.position)];
    IconReads(IconName(o.magazineIcon, "Minefield"), o.displayName, o.joinFrame, PlacedEnd(r.events), o.ownerId,
              "D96600", positions);
    IconPositionReads(o.joinFrame, o.position);
  }

  /** What a projectile in flight is called. */
  function NameInFlight(vs: map<uint16, VehicleRecord>, p: ProjectileEvent): string {
    var what := p.muzzleDisplay + " - " + p.magazineDisplay;
    if p.vehicleObjectId.Some? && p.vehicleObjectId.value != p.firerObjectId then
      var v := p.vehicleObjectId.value;
      if v in vs then vs[v].vehicle.displayName + (" " + what) else " " + what
    else if p.simulationType == "shotGrenade" then p.magazineDisplay
    else what
  }

  lemma ProjectileTextReads(vs: map<uint16, VehicleRecord>, p: ProjectileEvent)
    ensures ProjectileText(vs, p) == NameInFlight(vs, p)
  {
    var m, n := p.muzzleDisplay, p.magazineDisplay;
    if p.vehicleObjectId.Some? && p.vehicleObjectId.value != p.firerObjectId {
      var v := p.vehicleObjectId.value;
      var name := if v in vs then vs[v].vehicle.displayName else "";
      assert name + " " + m + " - " + n == name + (" " + (m + " - " + n));
      assert "" + (" " + (m + " - " + n)) == " " + (m + " - " + n);
    }
  }

  lemma PathInFlightReads(points: seq<TrajectoryPoint>)
    ensures var rows := MapSeq((t: TrajectoryPoint) => IconPosition(t.frameNum, t.position), points);
      forall i :: 0 <= i < |points| ==> IsIconPosition(Entry(JArr(rows), i), points[i].frameNum, points[i].position)
  {
    forall i | 0 <= i < |points|
      ensures IsIconPosition(IconPosition(points[i].frameNum, points[i].position),
                             points[i].frameNum, points[i].position)
    {
      IconPositionReads(points[i].frameNum, points[i].position);
    }
  }

  /** The last frame of its path, -1 without one. */
  function LandsAt(p: ProjectileEvent): int {
    if p.trajectory == [] then -1 else p.trajectory[|p.trajectory| - 1].frameNum - 1
  }

  function ColorInFlight(p: ProjectileEvent): string {
    if FileName(p.magazineIcon) == "" then "ColorRed" else "ColorWhite"
  }

  lemma ProjectileRowIs(vs: map<uint16, VehicleRecord>, p: ProjectileEvent)
    ensures ProjectileRow(vs, p)
         == IconRow(IconName(p.magazineIcon, "mil_triangle"), NameInFlight(vs, p), p.captureFrame, LandsAt(p),
                    p.firerObjectId, ColorInFlight(p),
                    MapSeq((t: TrajectoryPoint) => IconPosition(t.frameNum, t.position), p.trajectory))
  {
    ProjectileTextReads(vs, p);
  }

  lemma ProjectileReads(lib: Lib, vs: map<uint16, VehicleRecord>, p: ProjectileEvent)
    ensures var j := V1(lib, vs).projectile(p);
      && IsIcon(j, IconName(p.magazineIcon, "mil_triangle"), NameInFlight(vs, p), p.captureFrame, LandsAt(p),
                p.firerObjectId, ColorInFlight(p))
      && Length(Entry(j, 7)) == |p.trajectory|
      && forall i :: 0 <= i < |p.trajectory| ==>
           IsIconPosition(Entry(Entry(j, 7), i), p.trajectory[i].frameNum, p.trajectory[i].position)
  {
    ProjectileRowIs(vs, p);
    PathInFlightReads(p.trajectory);
    IconReads(IconName(p.magazineIcon, "mil_triangle"), NameInFlight(vs, p), p.captureFrame, LandsAt(p),
              p.firerObjectId, ColorInFlight(p),
              MapSeq((t: TrajectoryPoint) => IconPosition(t.frameNum, t.position), p.trajectory));
  }

  // ---- entities ----

  /** [frame, [x, y, z]] */
  lemma LineReads(lib: Lib, vs: map<uint16, VehicleRecord>, frame: Frame, p: Position3D)
    ensures var j := V1(lib, vs).line(frame, p);
      Length(j) == 2 && IsInt(Entry(j, 0), frame - 1) && IsPoint(Entry(j, 1), p)
  {
  }

  /** [[x, y, z], bearing, lifestate, vehicle, name, isPlayer, role, group, side] */
  lemma SoldierPositionReads(lib: Lib, vs: map<uint16, VehicleRecord>, s: SoldierState)
    ensures var j := V1(lib, vs).soldierPosition(s);
      && Length(j) == 9 && IsPoint(Entry(j, 0), s.position) && IsInt(Entry(j, 1), s.bearing)
      && IsInt(Entry(j, 2), s.lifestate)
      && IsInt(Entry(j, 3), if s.inVehicleObjectId.Some? then s.inVehicleObjectId.value as int else 0)
      && Entry(j, 4) == JStr(s.unitName) && IsInt(Entry(j, 5), if s.isPlayer then 1 else 0)
      && Entry(j, 6) == JStr(s.currentRole) && Entry(j, 7) == JStr(s.groupId) && Entry(j, 8) == JStr(s.side)
  {
  }

  /** [[x, y, z], bearing, isAlive, crew, [first frame, last frame]] */
  lemma VehiclePositionReads(lib: Lib, vs: map<uint16, VehicleRecord>, s: VehicleState, range: (int, int))
    ensures var j := V1(lib, vs).vehiclePosition(s, range);
      && Length(j) == 5 && IsPoint(Entry(j, 0), s.position) && IsInt(Entry(j, 1), s.bearing)
      && IsInt(Entry(j, 2), if s.isAlive then 1 else 0)
      && Entry(j, 3) == (if lib.unmarshal(s.crew).Some? then lib.unmarshal(s.crew).value else JArr([]))
      && Length(Entry(j, 4)) == 2 && IsInt(Entry(Entry(j, 4), 0), range.0) && IsInt(Entry(Entry(j, 4), 1), range.1)
  {
  }
}
