/**
 The caches (internal/cache) and the in-memory backend (internal/storage/memory/memory.go),
 updated in place. Every method is tied to the value the Recorder machine gives. Locks are
 not modelled: each method is one atomic step.
 */
module MemoryBackend {
  import opened Wrappers
  import opened Core
  import opened Frames
  import opened Sorting
  import opened Recorder

  class EntityCache {
    var soldiers: map<uint16, Soldier>
    var vehicles: map<uint16, Vehicle>
    var placed: map<uint16, PlacedObject>

    method Reset()
      modifies this
      ensures soldiers == map[] && vehicles == map[] && placed == map[]
    {
      soldiers, vehicles, placed := map[], map[], map[];
    }

    method GetSoldier(id: uint16) returns (r: Option<Soldier>)
      ensures r.Some? <==> id in soldiers
      ensures r.Some? ==> r.value == soldiers[id]
    {
      r := if id in soldiers then Some(soldiers[id]) else None;
    }

    method GetVehicle(id: uint16) returns (r: Option<Vehicle>)
      ensures r.Some? <==> id in vehicles
      ensures r.Some? ==> r.value == vehicles[id]
    {
      r := if id in vehicles then Some(vehicles[id]) else None;
    }

    method GetPlacedObject(id: uint16) returns (r: Option<PlacedObject>)
      ensures r.Some? <==> id in placed
      ensures r.Some? ==> r.value == placed[id]
    {
      r := if id in placed then Some(placed[id]) else None;
    }

    method AddSoldier(s: Soldier)
      modifies `soldiers
      ensures soldiers == old(soldiers)[s.id := s]
    {
      soldiers := soldiers[s.id := s];
    }

    /** Replaces the cached entry of the soldier's own ID. */
    method UpdateSoldier(s: Soldier)
      modifies `soldiers
      ensures soldiers == old(soldiers)[s.id := s]
    {
      AddSoldier(s);
    }

    method AddVehicle(v: Vehicle)
      modifies `vehicles
      ensures vehicles == old(vehicles)[v.id := v]
    {
      vehicles := vehicles[v.id := v];
    }

    method AddPlacedObject(p: PlacedObject)
      modifies `placed
      ensures placed == old(placed)[p.id := p]
    {
      placed := placed[p.id := p];
    }
  }

  class MarkerCache {
    var markers: map<string, nat>

    method Get(name: string) returns (r: Option<nat>)
      ensures r.Some? <==> name in markers
      ensures r.Some? ==> r.value == markers[name]
    {
      r := if name in markers then Some(markers[name]) else None;
    }

    method Set(name: string, id: nat)
      modifies this
      ensures markers == old(markers)[name := id]
    {
      markers := markers[name := id];
    }

    method Delete(name: string)
      modifies this
      ensures markers == old(markers) - {name}
    {
      markers := markers - {name};
    }

    method Reset()
      modifies this
      ensures markers == map[]
    {
      markers := map[];
    }
  }

  /** A marker record: one object, reached through two maps. */
  class MarkerRecord {
    var marker: Marker
    var states: seq<MarkerState>

    constructor (m: Marker)
      ensures marker == m && states == []
    {
      marker, states := m, [];
    }

    function Data(): MarkerData
      reads this
    {
      MarkerData(marker, states)
    }
  }

  ghost function IdsOf(m: map<string, MarkerRecord>): map<string, nat>
    reads m.Values
  {
    map n | n in m :: m[n].marker.id
  }

  ghost function DataOfAll(m: map<nat, MarkerRecord>): map<nat, MarkerData>
    reads m.Values
  {
    map i | i in m :: m[i].Data()
  }

  lemma IdsOfUpdate(m: map<string, MarkerRecord>, name: string, r: MarkerRecord)
    ensures IdsOf(m[name := r]) == IdsOf(m)[name := r.marker.id]
  {
  }

  lemma NoMarkers()
    ensures IdsOf(map[]) == map[] && DataOfAll(map[]) == map[]
  {
  }

  lemma DataOfUpdate(m: map<nat, MarkerRecord>, id: nat, r: MarkerRecord)
    ensures DataOfAll(m[id := r]) == DataOfAll(m)[id := r.Data()]
  {
  }

  /** Both marker indexes point at the same objects, each filed under its own ID up to next. */
  ghost predicate Shared(byName: map<string, MarkerRecord>, byId: map<nat, MarkerRecord>, next: nat)
    reads byName.Values, byId.Values
  {
    && (forall n :: n in byName ==> byName[n].marker.id in byId && byId[byName[n].marker.id] == byName[n])
    && (forall i :: i in byId ==> byId[i].marker.id == i && i <= next)
  }

  lemma SharedUpdate(byName: map<string, MarkerRecord>, byId: map<nat, MarkerRecord>, next: nat,
                     name: string, r: MarkerRecord)
    requires Shared(byName, byId, next) && r.marker.id == next + 1
    ensures Shared(byName[name := r], byId[next + 1 := r], next + 1)
  {
  }

  /** A floating-point product, left unevaluated: no claim is made about its rounding. */
  datatype Duration = Times(frames: Frame, captureDelay: real)

  datatype UploadMetadata = UploadMetadata(
    worldName: string, missionName: string, missionDuration: Duration, tag: string, endFrame: Frame,
    focusRanges: seq<FocusRange>)

  const NO_METADATA := UploadMetadata("", "", Times(0, 0.0), "", 0, [])

  /** How writing the export file ends; the file itself is not modelled. */
  datatype ExportAttempt = Written(path: string) | Failed | Panicked

  datatype EndReply = Ended | NoMission | ExportFailed | ExportPanicked

  // ---- metadata ----

  /** Every frame the metadata looks at, placed-object events included. */
  ghost function RecordedFrames(st: Store): set<int> {
    FramesIn(SoldierFrames(st.soldiers)) + FramesIn(VehicleFrames(st.vehicles)) + FramesIn(PlacedFrames(st.placed))
  }

  ghost function EndFrame(st: Store): Frame { MaxOf(RecordedFrames(st)) }

  /** Completed ranges, and an open one closed at the end frame when that lies behind its start. */
  function ClosedRanges(f: Focus, endFrame: Frame): seq<FocusRange> {
    f.ranges + if f.open.Some? && endFrame > f.open.value then [FocusRange(f.open.value, endFrame)] else []
  }

  ghost function Metadata(st: Store): UploadMetadata {
    if st.mission.None? || st.world.None? then NO_METADATA
    else
      UploadMetadata(st.world.value.worldName, st.mission.value.missionName,
                     Times(EndFrame(st), st.mission.value.captureDelay), st.mission.value.tag,
                     EndFrame(st), ClosedRanges(st.focus, EndFrame(st)))
  }

  class Backend {
    var mission: Option<Mission>
    var world: Option<World>
    var lastExportPath: string
    var lastExportMetadata: UploadMetadata

    var soldiers: map<uint16, SoldierRecord>
    var vehicles: map<uint16, VehicleRecord>
    var markers: map<string, MarkerRecord>
    var markersById: map<nat, MarkerRecord>
    var nextMarkerId: nat
    var placed: map<uint16, PlacedRecord>
    var events: EventLists
    var focusRanges: seq<FocusRange>
    var focusOpenStart: Option<Frame>

    ghost predicate Valid()
      reads this, markers.Values, markersById.Values
    {
      Shared(markers, markersById, nextMarkerId)
    }

    ghost function MarkerState(): MarkerIndex
      reads this, markers.Values, markersById.Values
    {
      MarkerIndex(IdsOf(markers), DataOfAll(markersById), nextMarkerId)
    }

    /** The value of the recorded data. */
    ghost function State(): Store
      reads this, markers.Values, markersById.Values
    {
      Store(mission, world, soldiers, vehicles, placed, MarkerState(), events, Focus(focusRanges, focusOpenStart))
    }

    constructor ()
      ensures Valid() && State() == EMPTY_STORE
      ensures lastExportPath == "" && lastExportMetadata == NO_METADATA
    {
      mission, world := None, None;
      lastExportPath, lastExportMetadata := "", NO_METADATA;
      soldiers, vehicles, placed := map[], map[], map[];
      markers, markersById, nextMarkerId := map[], map[], 0;
      events := NO_EVENTS;
      focusRanges, focusOpenStart := [], None;
    }

    method ResetCollections()
      modifies this
      ensures Valid() && State() == EMPTY_STORE.(mission := old(mission), world := old(world))
      ensures lastExportPath == old(lastExportPath) && lastExportMetadata == old(lastExportMetadata)
    {
      soldiers, vehicles, placed := map[], map[], map[];
      markers, markersById, nextMarkerId := map[], map[], 0;
      events := NO_EVENTS;
      focusRanges, focusOpenStart := [], None;
      NoMarkers();
    }

    method StartMission(m: Mission, w: World)
      modifies this
      ensures Valid() && State() == EMPTY_STORE.(mission := Some(m), world := Some(w))
      ensures lastExportPath == "" && lastExportMetadata == old(lastExportMetadata)
    {
      mission, world := Some(m), Some(w);
      lastExportPath := "";
      ResetCollections();
    }

    /**
     Ends a mission: metadata is cached before the export is tried, and the data is cleared
     whether the export succeeds, fails or panics.
     */
    method EndMission(attempt: ExportAttempt) returns (r: EndReply)
      requires Valid()
      modifies this
      ensures Valid()
      ensures old(mission).None? ==>
        r == NoMission && State() == old(State()) && lastExportPath == old(lastExportPath)
        && lastExportMetadata == old(lastExportMetadata)
      ensures old(mission).Some? ==>
        && State() == EMPTY_STORE
        && lastExportMetadata == Metadata(old(State()))
        && lastExportPath == (if attempt.Written? then attempt.path else old(lastExportPath))
        && r == (match attempt case Written(_) => Ended case Failed => ExportFailed case Panicked => ExportPanicked)
    {
      if mission.None? {
        return NoMission;
      }
      lastExportMetadata := ComputeExportMetadata();
      match attempt {
        case Written(path) =>
          lastExportPath := path;
          r := Ended;
        case Failed =>
          r := ExportFailed;
        case Panicked =>
          r := ExportPanicked;
      }
      mission, world := None, None;
      ResetCollections();
    }

    method AddSoldier(s: Soldier)
      requires Valid()
      modifies `soldiers
      ensures Valid() && soldiers == old(soldiers)[s.id := SoldierRecord(s, [], [])]
      ensures MarkerState() == old(MarkerState())
    {
      soldiers := soldiers[s.id := SoldierRecord(s, [], [])];
    }

    method AddVehicle(v: Vehicle)
      requires Valid()
      modifies `vehicles
      ensures Valid() && vehicles == old(vehicles)[v.id := VehicleRecord(v, [])]
      ensures MarkerState() == old(MarkerState())
    {
      vehicles := vehicles[v.id := VehicleRecord(v, [])];
    }

    method AddPlacedObject(p: PlacedObject)
      requires Valid()
      modifies `placed
      ensures Valid() && placed == old(placed)[p.id := PlacedRecord(p, [])]
      ensures MarkerState() == old(MarkerState())
    {
      placed := placed[p.id := PlacedRecord(p, [])];
    }

    method DeleteSoldier(id: uint16, frame: Frame)
      requires Valid()
      modifies `soldiers
      ensures Valid() && soldiers == StepSoldier(map[], old(soldiers), SoldierCommand.DeleteSoldier(id, frame)).1
      ensures MarkerState() == old(MarkerState())
    {
      if id in soldiers {
        var r := soldiers[id];
        soldiers := soldiers[id := r.(soldier := r.soldier.(deleteFrame := frame))];
      }
    }

    method DeleteVehicle(id: uint16, frame: Frame)
      requires Valid()
      modifies `vehicles
      ensures Valid() && vehicles == StepVehicle(map[], old(vehicles), VehicleCommand.DeleteVehicle(id, frame)).1
      ensures MarkerState() == old(MarkerState())
    {
      if id in vehicles {
        var r := vehicles[id];
        vehicles := vehicles[id := r.(vehicle := r.vehicle.(deleteFrame := frame))];
      }
    }

    method RecordSoldierState(s: SoldierState)
      requires Valid()
      modifies `soldiers
      ensures Valid() && soldiers == AppendSoldierState(old(soldiers), s)
      ensures MarkerState() == old(MarkerState())
    {
      if s.soldierId in soldiers {
        var r := soldiers[s.soldierId];
        soldiers := soldiers[s.soldierId := r.(states := r.states + [s])];
      }
    }

    method RecordVehicleState(v: VehicleState)
      requires Valid()
      modifies `vehicles
      ensures Valid() && vehicles == AppendVehicleState(old(vehicles), v)
      ensures MarkerState() == old(MarkerState())
    {
      if v.vehicleId in vehicles {
        var r := vehicles[v.vehicleId];
        vehicles := vehicles[v.vehicleId := r.(states := r.states + [v])];
      }
    }

    method RecordPlacedObjectEvent(e: PlacedObjectEvent)
      requires Valid()
      modifies `placed
      ensures Valid() && placed == AppendPlacedEvent(old(placed), e)
      ensures MarkerState() == old(MarkerState())
    {
      if e.placedId in placed {
        var r := placed[e.placedId];
        placed := placed[e.placedId := r.(events := r.events + [e])];
      }
    }

    /** Files one new record object under its name and under the next ID. */
    method AddMarker(m: Marker) returns (id: nat)
      requires Valid()
      modifies `nextMarkerId, `markers, `markersById
      ensures Valid()
      ensures forall i :: i in markersById ==> markersById[i] in old(markersById.Values) || fresh(markersById[i])
      ensures id == old(nextMarkerId) + 1
      ensures MarkerState() == StepMarker(map[], old(MarkerState()), CreateMarker(m)).1
    {
      id := nextMarkerId + 1;
      var markerCopy := m.(id := id);
      var record := new MarkerRecord(markerCopy);
      ghost var byName, byId := markers, markersById;
      FileRecord(m.markerName, id, record);
      SharedUpdate(byName, byId, id - 1, m.markerName, record);
    }

    method FileRecord(name: string, id: nat, record: MarkerRecord)
      requires Valid() && id == nextMarkerId + 1 && record.marker.id == id
      modifies `nextMarkerId, `markers, `markersById
      ensures markers == old(markers)[name := record] && markersById == old(markersById)[id := record]
      ensures nextMarkerId == id
      ensures MarkerState() == MarkerIndex(old(MarkerState()).ids[name := id],
                                           old(MarkerState()).records[id := record.Data()], id)
    {
      IdsOfUpdate(markers, name, record);
      DataOfUpdate(markersById, id, record);
      nextMarkerId := id;
      markers := markers[name := record];
      markersById := markersById[id := record];
    }

    /** Appends through the ID index; the name index sees it, because the object is shared. */
    method RecordMarkerState(s: Core.MarkerState)
      requires Valid()
      modifies markersById.Values
      ensures Valid()
      ensures MarkerState() == StepMarker(map["" := s.markerId], old(MarkerState()), MoveMarker("", s)).1
    {
      if s.markerId in markersById {
        var record := markersById[s.markerId];
        record.states := record.states + [s];
      }
    }

    /** Sets the end frame through the name index; the ID index sees it. */
    method DeleteMarker(name: string, frame: Frame)
      requires Valid()
      modifies markers.Values
      ensures Valid()
      ensures MarkerState() == StepMarker(map[], old(MarkerState()), MarkerCommand.DeleteMarker(name, frame)).1
    {
      if name in markers {
        var record := markers[name];
        record.marker := record.marker.(endFrame := frame);
        assert IdsOf(markers) == old(IdsOf(markers));
        assert markersById[record.marker.id] == record;
      }
    }

    method RecordProjectileEvent(e: ProjectileEvent)
      requires Valid()
      modifies `events
      ensures Valid() && events == old(events).(projectiles := old(events).projectiles + [e])
      ensures MarkerState() == old(MarkerState())
    {
      events := events.(projectiles := events.projectiles + [e]);
    }

    method RecordKillEvent(e: CombatEvent)
      requires Valid()
      modifies `events
      ensures Valid() && events == old(events).(kills := old(events).kills + [e])
      ensures MarkerState() == old(MarkerState())
    {
      events := events.(kills := events.kills + [e]);
    }

    method RecordGeneralEvent(e: GeneralEvent)
      requires Valid()
      modifies `events
      ensures Valid() && events == old(events).(general := old(events).general + [e])
      ensures MarkerState() == old(MarkerState())
    {
      events := events.(general := events.general + [e]);
    }

    method RecordSectorEvent(e: SectorEvent)
      requires Valid()
      modifies `events
      ensures Valid() && events == old(events).(sector := old(events).sector + [e])
      ensures MarkerState() == old(MarkerState())
    {
      events := events.(sector := events.sector + [e]);
    }

    method RecordEndMissionEvent(e: EndMissionEvent)
      requires Valid()
      modifies `events
      ensures Valid() && events == old(events).(endMission := old(events).endMission + [e])
      ensures MarkerState() == old(MarkerState())
    {
      events := events.(endMission := events.endMission + [e]);
    }

    method RecordTimeState(e: TimeState)
      requires Valid()
      modifies `events
      ensures Valid() && events == old(events).(times := old(events).times + [e])
      ensures MarkerState() == old(MarkerState())
    {
      events := events.(times := events.times + [e]);
    }

    method SetFocusStart(frame: Frame) returns (ok: bool)
      requires Valid()
      modifies `focusOpenStart
      ensures Valid()
      ensures (Focus(focusRanges, focusOpenStart), ok)
           == StepFocus(old(Focus(focusRanges, focusOpenStart)), FocusStart(frame))
      ensures MarkerState() == old(MarkerState())
    {
      if frame == FRAME_FOREVER {
        return false;
      }
      if focusOpenStart.Some? {
        return true;
      }
      if |focusRanges| > 0 {
        var lastEnd := focusRanges[|focusRanges| - 1].end;
        if frame < lastEnd {
          return false;
        }
      }
      focusOpenStart := Some(frame);
      return true;
    }

    method SetFocusEnd(frame: Frame) returns (ok: bool)
      requires Valid()
      modifies `focusRanges, `focusOpenStart
      ensures Valid()
      ensures (Focus(focusRanges, focusOpenStart), ok)
           == StepFocus(old(Focus(focusRanges, focusOpenStart)), FocusEnd(frame))
      ensures MarkerState() == old(MarkerState())
    {
      if focusOpenStart.None? {
        return true;
      }
      if frame <= focusOpenStart.value {
        return false;
      }
      focusRanges := focusRanges + [FocusRange(focusOpenStart.value, frame)];
      focusOpenStart := None;
      return true;
    }

    /** The largest frame over soldier states, vehicle states and placed-object events. */
    method LastFrame() returns (m: Frame)
      ensures m == EndFrame(State())
    {
      m := MaxFrameIn(SoldierFrames(soldiers), 0);
      m := MaxFrameIn(VehicleFrames(vehicles), m);
      m := MaxFrameIn(PlacedFrames(placed), m);
      assert IsMax(RecordedFrames(State()), m);
    }

    method ComputeExportMetadata() returns (r: UploadMetadata)
      ensures r == Metadata(State())
    {
      if mission.None? || world.None? {
        return NO_METADATA;
      }
      var endFrame := LastFrame();
      var ranges := focusRanges;
      if focusOpenStart.Some? && endFrame > focusOpenStart.value {
        ranges := ranges + [FocusRange(focusOpenStart.value, endFrame)];
      }
      r := UploadMetadata(world.value.worldName, mission.value.missionName,
                          Times(endFrame, mission.value.captureDelay), mission.value.tag, endFrame, ranges);
    }

    /** Live metadata during a mission, the cached one after it. */
    method GetExportMetadata() returns (r: UploadMetadata)
      ensures r == if mission.Some? && world.Some? then Metadata(State()) else lastExportMetadata
    {
      if mission.Some? && world.Some? {
        r := ComputeExportMetadata();
      } else {
        r := lastExportMetadata;
      }
    }
  }
}
