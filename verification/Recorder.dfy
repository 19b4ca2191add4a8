/**
 The recorder as a state machine over values: the entity and marker caches, the in-memory
 store, and one atomic step for every command (internal/worker/dispatch.go,
 internal/storage/memory/memory.go, cmd/ocap_recorder/main.go handleNewMission). The classes
 in MemoryBackend and Worker are proved to take exactly these steps.
 */
module Recorder {
  import opened Wrappers
  import opened Core

  datatype Caches = Caches(
    soldiers: map<uint16, Soldier>, vehicles: map<uint16, Vehicle>, placed: map<uint16, PlacedObject>,
    markerIds: map<string, nat>)

  /**
   The markers of the backend. ids is the name index, given by the ID of the record it points
   at; records is the ID index. Both point at the same record objects.
   */
  datatype MarkerIndex = MarkerIndex(ids: map<string, nat>, records: map<nat, MarkerData>, nextId: nat)

  datatype Focus = Focus(ranges: seq<FocusRange>, open: Option<Frame>)

  /** The recorded event lists. */
  datatype EventLists = EventLists(
    general: seq<GeneralEvent>, sector: seq<SectorEvent>, endMission: seq<EndMissionEvent>,
    kills: seq<CombatEvent>, times: seq<TimeState>, projectiles: seq<ProjectileEvent>)

  datatype Store = Store(
    mission: Option<Mission>, world: Option<World>,
    soldiers: map<uint16, SoldierRecord>, vehicles: map<uint16, VehicleRecord>,
    placed: map<uint16, PlacedRecord>, markers: MarkerIndex, events: EventLists, focus: Focus)

  datatype Snapshot = Snapshot(caches: Caches, store: Store)

  const NO_CACHES := Caches(map[], map[], map[], map[])
  const NO_EVENTS := EventLists([], [], [], [], [], [])
  const EMPTY_STORE :=
    Store(None, None, map[], map[], map[], MarkerIndex(map[], map[], 0), NO_EVENTS, Focus([], None))
  const INITIAL := Snapshot(NO_CACHES, EMPTY_STORE)

  /** A hit as parsed, before it is known what was hit. */
  datatype HitPart = HitPart(entityId: uint16, captureFrame: Frame, position: Position3D)

  datatype SoldierCommand =
    | NewSoldier(soldier: Soldier)
    | RecordSoldier(state: SoldierState)
    | DeleteSoldier(id: uint16, frame: Frame)

  datatype VehicleCommand =
    | NewVehicle(vehicle: Vehicle)
    | RecordVehicle(state: VehicleState)
    | DeleteVehicle(id: uint16, frame: Frame)

  datatype PlacedCommand = NewPlaced(placed: PlacedObject) | PlacedEvent(event: PlacedObjectEvent)

  datatype MarkerCommand =
    | CreateMarker(marker: Marker)
    | MoveMarker(name: string, state: MarkerState)
    | DeleteMarker(name: string, endFrame: Frame)

  datatype EventCommand =
    | Projectile(projectile: ProjectileEvent, hitParts: seq<HitPart>)
    | Kill(kill: CombatEvent, victim: uint16, killer: uint16)
    | General(general: GeneralEvent)
    | Sector(sector: SectorEvent)
    | EndEvent(endEvent: EndMissionEvent)
    | Time(time: TimeState)

  datatype FocusCommand = FocusStart(frame: Frame) | FocusEnd(frame: Frame)

  datatype Command =
    | OnSoldier(soldierCommand: SoldierCommand)
    | OnVehicle(vehicleCommand: VehicleCommand)
    | OnPlaced(placedCommand: PlacedCommand)
    | OnMarker(markerCommand: MarkerCommand)
    | OnEvent(eventCommand: EventCommand)
    | OnFocus(focusCommand: FocusCommand)
    | StartMission(mission: Mission, world: World)
    | EndMission

  // ---- worker decisions ----

  /** GroupID and Side default to the cached soldier's. */
  function FillState(s: SoldierState, cached: Soldier): SoldierState {
    s.(groupId := if s.groupId == "" then cached.groupId else s.groupId,
       side := if s.side == "" then cached.side else s.side)
  }

  /** Player takeover: touch the cached soldier only when something escalates. */
  function Takeover(cached: Soldier, s: SoldierState): Soldier {
    if s.isPlayer && (!cached.isPlayer || (s.unitName != "" && cached.unitName != s.unitName)) then
      cached.(isPlayer := true, unitName := if s.unitName != "" then s.unitName else cached.unitName)
    else cached
  }

  function ClassifySoldier(c: Caches, id: uint16): Option<nat> {
    if id in c.soldiers then Some(id as nat) else None
  }

  function ClassifyVehicle(c: Caches, id: uint16): Option<nat> {
    if id !in c.soldiers && id in c.vehicles then Some(id as nat) else None
  }

  /** A hit becomes a soldier hit or a vehicle hit; an unknown entity is dropped. */
  function ClassifyHit(c: Caches, h: HitPart): seq<ProjectileHit> {
    if h.entityId in c.soldiers then [ProjectileHit(h.captureFrame, h.position, Some(h.entityId), None)]
    else if h.entityId in c.vehicles then [ProjectileHit(h.captureFrame, h.position, None, Some(h.entityId))]
    else []
  }

  function ClassifyHits(c: Caches, hs: seq<HitPart>): seq<ProjectileHit> {
    if hs == [] then [] else ClassifyHits(c, hs[..|hs| - 1]) + ClassifyHit(c, hs[|hs| - 1])
  }

  function ClassifyKill(c: Caches, k: CombatEvent, victim: uint16, killer: uint16): CombatEvent {
    k.(victimSoldierId := ClassifySoldier(c, victim), victimVehicleId := ClassifyVehicle(c, victim),
       sourceSoldierId := ClassifySoldier(c, killer), sourceVehicleId := ClassifyVehicle(c, killer))
  }

  // ---- appending to a record, when there is one ----

  function AppendSoldierState(records: map<uint16, SoldierRecord>, s: SoldierState): map<uint16, SoldierRecord> {
    if s.soldierId in records then
      var r := records[s.soldierId];
      records[s.soldierId := r.(states := r.states + [s])]
    else records
  }

  function AppendVehicleState(records: map<uint16, VehicleRecord>, v: VehicleState): map<uint16, VehicleRecord> {
    if v.vehicleId in records then
      var r := records[v.vehicleId];
      records[v.vehicleId := r.(states := r.states + [v])]
    else records
  }

  function AppendPlacedEvent(records: map<uint16, PlacedRecord>, e: PlacedObjectEvent): map<uint16, PlacedRecord> {
    if e.placedId in records then
      var r := records[e.placedId];
      records[e.placedId := r.(events := r.events + [e])]
    else records
  }

  // ---- one command: the new caches, the new records, and whether the handler succeeded ----

  function StepSoldier(cache: map<uint16, Soldier>, records: map<uint16, SoldierRecord>, c: SoldierCommand)
    : (map<uint16, Soldier>, map<uint16, SoldierRecord>, bool)
  {
    match c
    case NewSoldier(o) => (cache[o.id := o], records[o.id := SoldierRecord(o, [], [])], true)
    case RecordSoldier(o) =>
      if o.soldierId !in cache then (cache, records, false)
      else
        var cached := cache[o.soldierId];
        var updated := Takeover(cached, o);
        (if updated != cached then cache[updated.id := updated] else cache,
         AppendSoldierState(records, FillState(o, cached)), true)
    case DeleteSoldier(id, frame) =>
      (cache,
       if id in records then
         var r := records[id];
         records[id := r.(soldier := r.soldier.(deleteFrame := frame))]
       else records,
       true)
  }

  function StepVehicle(cache: map<uint16, Vehicle>, records: map<uint16, VehicleRecord>, c: VehicleCommand)
    : (map<uint16, Vehicle>, map<uint16, VehicleRecord>, bool)
  {
    match c
    case NewVehicle(o) => (cache[o.id := o], records[o.id := VehicleRecord(o, [])], true)
    case RecordVehicle(o) =>
      if o.vehicleId !in cache then (cache, records, false)
      else (cache, AppendVehicleState(records, o), true)
    case DeleteVehicle(id, frame) =>
      (cache,
       if id in records then
         var r := records[id];
         records[id := r.(vehicle := r.vehicle.(deleteFrame := frame))]
       else records,
       true)
  }

  function StepPlaced(cache: map<uint16, PlacedObject>, records: map<uint16, PlacedRecord>, c: PlacedCommand)
    : (map<uint16, PlacedObject>, map<uint16, PlacedRecord>, bool)
  {
    match c
    case NewPlaced(o) => (cache[o.id := o], records[o.id := PlacedRecord(o, [])], true)
    case PlacedEvent(e) =>
      if e.placedId !in cache then (cache, records, false)
      else (cache, AppendPlacedEvent(records, e), true)
  }

  /** Creation gives the next ID; a move goes by the cached ID, a deletion by the name index. */
  function StepMarker(cache: map<string, nat>, index: MarkerIndex, c: MarkerCommand)
    : (map<string, nat>, MarkerIndex, bool)
  {
    match c
    case CreateMarker(m) =>
      var id := index.nextId + 1;
      (cache[m.markerName := id],
       MarkerIndex(index.ids[m.markerName := id], index.records[id := MarkerData(m.(id := id), [])], id), true)
    case MoveMarker(name, s) =>
      if name !in cache then (cache, index, false)
      else
        var id := cache[name];
        (cache,
         if id in index.records then
           var r := index.records[id];
           index.(records := index.records[id := r.(states := r.states + [s.(markerId := id)])])
         else index,
         true)
    case DeleteMarker(name, frame) =>
      (cache,
       if name in index.ids && index.ids[name] in index.records then
         var id := index.ids[name];
         var r := index.records[id];
         index.(records := index.records[id := r.(marker := r.marker.(endFrame := frame))])
       else index,
       true)
  }

  function StepEvents(caches: Caches, ls: EventLists, c: EventCommand): EventLists {
    match c
    case Projectile(p, hs) => ls.(projectiles := ls.projectiles + [p.(hits := ClassifyHits(caches, hs))])
    case Kill(k, victim, killer) => ls.(kills := ls.kills + [ClassifyKill(caches, k, victim, killer)])
    case General(e) => ls.(general := ls.general + [e])
    case Sector(e) => ls.(sector := ls.sector + [e])
    case EndEvent(e) => ls.(endMission := ls.endMission + [e])
    case Time(t) => ls.(times := ls.times + [t])
  }

  /** A second start, or an end without a start, is ignored and is no error. */
  function StepFocus(f: Focus, c: FocusCommand): (Focus, bool) {
    match c
    case FocusStart(frame) =>
      if frame == FRAME_FOREVER then (f, false)
      else if f.open.Some? then (f, true)
      else if f.ranges != [] && frame < f.ranges[|f.ranges| - 1].end then (f, false)
      else (f.(open := Some(frame)), true)
    case FocusEnd(frame) =>
      if f.open.None? then (f, true)
      else if frame <= f.open.value then (f, false)
      else (Focus(f.ranges + [FocusRange(f.open.value, frame)], None), true)
  }

  /** The state after a command, and whether its handler returned without an error. */
  function Step(s: Snapshot, c: Command): (Snapshot, bool) {
    var caches, st := s.caches, s.store;
    match c
    case OnSoldier(sc) =>
      var r := StepSoldier(caches.soldiers, st.soldiers, sc);
      (Snapshot(caches.(soldiers := r.0), st.(soldiers := r.1)), r.2)
    case OnVehicle(vc) =>
      var r := StepVehicle(caches.vehicles, st.vehicles, vc);
      (Snapshot(caches.(vehicles := r.0), st.(vehicles := r.1)), r.2)
    case OnPlaced(pc) =>
      var r := StepPlaced(caches.placed, st.placed, pc);
      (Snapshot(caches.(placed := r.0), st.(placed := r.1)), r.2)
    case OnMarker(mc) =>
      var r := StepMarker(caches.markerIds, st.markers, mc);
      (Snapshot(caches.(markerIds := r.0), st.(markers := r.1)), r.2)
    case OnEvent(ec) => (s.(store := st.(events := StepEvents(caches, st.events, ec))), true)
    case OnFocus(fc) => var r := StepFocus(st.focus, fc); (s.(store := st.(focus := r.0)), r.1)
    case StartMission(m, w) => (Snapshot(NO_CACHES, EMPTY_STORE.(mission := Some(m), world := Some(w))), true)
    case EndMission => if st.mission.None? then (s, false) else (s.(store := EMPTY_STORE), true)
  }

  function Run(s: Snapshot, cmds: seq<Command>): Snapshot {
    if cmds == [] then s else Step(Run(s, cmds[..|cmds| - 1]), cmds[|cmds| - 1]).0
  }

  // ---- what the store is read as ----

  /** buildMissionDataUnlocked; hit events are never recorded by the worker. */
  function DataOf(st: Store): MissionData
    requires st.mission.Some? && st.world.Some?
    requires forall n :: n in st.markers.ids ==> st.markers.ids[n] in st.markers.records
  {
    MissionData(st.mission.value, st.world.value, st.soldiers, st.vehicles,
                map n | n in st.markers.ids :: st.markers.records[st.markers.ids[n]], st.placed,
                st.events.general, st.events.sector, st.events.endMission, [], st.events.kills,
                st.events.times, st.events.projectiles)
  }
}
