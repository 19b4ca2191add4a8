/**
 The recorded values (pkg/core). Only the fields that the modelled code reads or writes are
 kept. Frames are Go uints and unbounded here; object IDs are 16 bits wide.
 */
module Core {
  import opened Wrappers

  newtype uint16 = x: int | 0 <= x < 0x1_0000

  type Frame = nat

  /** Frame zero: unset, or "until the mission ends". */
  const FRAME_FOREVER: Frame := 0

  datatype Position3D = Position3D(x: real, y: real, z: real)
  datatype Position2D = Position2D(x: real, y: real)

  datatype Soldier = Soldier(
    id: uint16, joinFrame: Frame, unitName: string, groupId: string, side: string,
    isPlayer: bool, roleDescription: string, deleteFrame: Frame)

  datatype SoldierState = SoldierState(
    soldierId: uint16, captureFrame: Frame, position: Position3D, bearing: nat, lifestate: nat,
    inVehicleObjectId: Option<uint16>, unitName: string, isPlayer: bool, currentRole: string,
    groupId: string, side: string)

  datatype FiredEvent = FiredEvent(soldierId: uint16, captureFrame: Frame, endPos: Position3D)

  datatype Vehicle = Vehicle(
    id: uint16, joinFrame: Frame, ocapType: string, displayName: string, side: string,
    deleteFrame: Frame)

  datatype VehicleState = VehicleState(
    vehicleId: uint16, captureFrame: Frame, position: Position3D, bearing: nat, isAlive: bool,
    crew: string)

  datatype Marker = Marker(
    id: nat, captureFrame: Frame, endFrame: Frame, markerName: string, direction: real,
    markerType: string, text: string, ownerId: int, color: string, size: string, side: string,
    position: Position3D, polyline: seq<Position2D>, shape: string, alpha: real, brush: string)

  datatype MarkerState = MarkerState(
    markerId: nat, captureFrame: Frame, position: Position3D, direction: real, alpha: real,
    text: string, color: string, size: string, markerType: string, brush: string, shape: string)

  datatype PlacedObject = PlacedObject(
    id: uint16, joinFrame: Frame, displayName: string, position: Position3D, ownerId: uint16,
    magazineIcon: string)

  datatype PlacedObjectEvent = PlacedObjectEvent(
    captureFrame: Frame, placedId: uint16, eventType: string, position: Position3D,
    hitEntityId: Option<uint16>)

  /** playerUid is ExtraData["playerUid"] when that entry is a string. */
  datatype GeneralEvent = GeneralEvent(
    captureFrame: Frame, name: string, message: string, playerUid: Option<string>)

  datatype SectorEvent = SectorEvent(
    captureFrame: Frame, name: string, objectType: string, unitName: string, side: string,
    posX: real, posY: real, posZ: real)

  datatype EndMissionEvent = EndMissionEvent(captureFrame: Frame, side: string, message: string)

  /** A hit or a kill: the two Go types differ only in the names of the second pair of IDs. */
  datatype CombatEvent = CombatEvent(
    captureFrame: Frame, victimSoldierId: Option<nat>, victimVehicleId: Option<nat>,
    sourceSoldierId: Option<nat>, sourceVehicleId: Option<nat>, eventText: string, distance: real)

  datatype TimeState = TimeState(
    captureFrame: Frame, systemTimeUTC: string, missionDate: string, timeMultiplier: real,
    missionTime: real)

  datatype TrajectoryPoint = TrajectoryPoint(position: Position3D, frameNum: Frame)

  datatype ProjectileHit = ProjectileHit(
    captureFrame: Frame, position: Position3D, soldierId: Option<uint16>, vehicleId: Option<uint16>)

  datatype ProjectileEvent = ProjectileEvent(
    captureFrame: Frame, firerObjectId: uint16, vehicleObjectId: Option<uint16>,
    weaponDisplay: string, magazineDisplay: string, muzzleDisplay: string,
    simulationType: string, magazineIcon: string,
    trajectory: seq<TrajectoryPoint>, hits: seq<ProjectileHit>)

  datatype Mission = Mission(
    missionName: string, author: string, captureDelay: real, addonVersion: string,
    extensionVersion: string, extensionBuild: string, tag: string)

  datatype World = World(worldName: string)

  datatype SoldierRecord = SoldierRecord(
    soldier: Soldier, states: seq<SoldierState>, firedEvents: seq<FiredEvent>)
  datatype VehicleRecord = VehicleRecord(vehicle: Vehicle, states: seq<VehicleState>)
  datatype MarkerData = MarkerData(marker: Marker, states: seq<MarkerState>)
  datatype PlacedRecord = PlacedRecord(placedObject: PlacedObject, events: seq<PlacedObjectEvent>)

  datatype FocusRange = FocusRange(start: Frame, end: Frame)

  /** Everything an export is built from. */
  datatype MissionData = MissionData(
    mission: Mission, world: World,
    soldiers: map<uint16, SoldierRecord>, vehicles: map<uint16, VehicleRecord>,
    markers: map<string, MarkerData>, placed: map<uint16, PlacedRecord>,
    generalEvents: seq<GeneralEvent>, sectorEvents: seq<SectorEvent>,
    endMissionEvents: seq<EndMissionEvent>, hitEvents: seq<CombatEvent>,
    killEvents: seq<CombatEvent>, timeStates: seq<TimeState>,
    projectiles: seq<ProjectileEvent>)

  /** Every soldier and vehicle record carries the ID it is filed under. */
  ghost predicate KeysAgree(d: MissionData) {
    && (forall k :: k in d.soldiers ==> d.soldiers[k].soldier.id == k)
    && (forall k :: k in d.vehicles ==> d.vehicles[k].vehicle.id == k)
  }
}
