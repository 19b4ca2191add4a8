/**
 The command handlers (internal/worker/dispatch.go, and handleNewMission in
 cmd/ocap_recorder/main.go) over the caches and the backend. Each is proved to take the step
 the Recorder machine takes. Handlers start from parsed values and run one at a time.
 */
module Worker {
  import opened Wrappers
  import opened Core
  import opened Recorder
  import opened MemoryBackend

  class Manager {
    const entityCache: EntityCache
    const markerCache: MarkerCache
    const backend: Backend

    ghost predicate Valid()
      reads backend, backend.markers.Values, backend.markersById.Values
    {
      backend.Valid()
    }

    ghost function CacheState(): Caches
      reads entityCache, markerCache
    {
      Caches(entityCache.soldiers, entityCache.vehicles, entityCache.placed, markerCache.markers)
    }

    ghost function State(): Snapshot
      reads entityCache, markerCache, backend, backend.markers.Values, backend.markersById.Values
    {
      Snapshot(CacheState(), backend.State())
    }

    constructor (entities: EntityCache, markers: MarkerCache, store: Backend)
      requires store.Valid()
      ensures entityCache == entities && markerCache == markers && backend == store && Valid()
    {
      entityCache, markerCache, backend := entities, markers, store;
    }

    method HandleNewMission(m: Mission, w: World)
      requires Valid()
      modifies entityCache, markerCache, backend
      ensures Valid() && State() == Step(old(State()), StartMission(m, w)).0
    {
      markerCache.Reset();
      entityCache.Reset();
      backend.StartMission(m, w);
    }

    method HandleNewSoldier(o: Soldier)
      requires Valid()
      modifies entityCache`soldiers, backend`soldiers
      ensures Valid() && State() == Step(old(State()), OnSoldier(NewSoldier(o))).0
    {
      entityCache.AddSoldier(o);
      backend.AddSoldier(o);
    }

    method HandleNewVehicle(o: Vehicle)
      requires Valid()
      modifies entityCache`vehicles, backend`vehicles
      ensures Valid() && State() == Step(old(State()), OnVehicle(NewVehicle(o))).0
    {
      entityCache.AddVehicle(o);
      backend.AddVehicle(o);
    }

    method HandleNewPlaced(o: PlacedObject)
      requires Valid()
      modifies entityCache`placed, backend`placed
      ensures Valid() && State() == Step(old(State()), OnPlaced(NewPlaced(o))).0
    {
      entityCache.AddPlacedObject(o);
      backend.AddPlacedObject(o);
    }

    method HandlePlacedEvent(e: PlacedObjectEvent) returns (ok: bool)
      requires Valid()
      modifies backend`placed
      ensures Valid() && (State(), ok) == Step(old(State()), OnPlaced(PlacedEvent(e)))
    {
      var known := entityCache.GetPlacedObject(e.placedId);
      if known.None? {
        return false;
      }
      backend.RecordPlacedObjectEvent(e);
      return true;
    }

    /** Group and side of a state default to the cached soldier's. */
    method FillFromCache(o: SoldierState, soldier: Soldier) returns (obj: SoldierState)
      ensures obj == FillState(o, soldier)
    {
      obj := o;
      if obj.groupId == "" {
        obj := obj.(groupId := soldier.groupId);
      }
      if obj.side == "" {
        obj := obj.(side := soldier.side);
      }
    }

    /** Player takeover: the cached soldier is replaced when something escalates. */
    method UpdateFromState(cached: Soldier, obj: SoldierState)
      modifies entityCache`soldiers
      ensures var updated := Takeover(cached, obj);
        entityCache.soldiers == if updated != cached then old(entityCache.soldiers)[updated.id := updated]
                                else old(entityCache.soldiers)
    {
      var soldier := cached;
      if obj.isPlayer && (!soldier.isPlayer || (obj.unitName != "" && soldier.unitName != obj.unitName)) {
        soldier := soldier.(isPlayer := true);
        if obj.unitName != "" {
          soldier := soldier.(unitName := obj.unitName);
        }
        entityCache.UpdateSoldier(soldier);
      }
    }

    method HandleSoldierState(o: SoldierState) returns (ok: bool)
      requires Valid()
      modifies entityCache`soldiers, backend`soldiers
      ensures Valid()
      ensures (State(), ok) == Step(old(State()), OnSoldier(RecordSoldier(o)))
    {
      ok := AcceptSoldierState(o);
    }

    /** The same on the two maps that can change. */
    method AcceptSoldierState(o: SoldierState) returns (ok: bool)
      requires Valid()
      modifies entityCache`soldiers, backend`soldiers
      ensures Valid()
      ensures (entityCache.soldiers, backend.soldiers, ok)
           == StepSoldier(old(entityCache.soldiers), old(backend.soldiers), RecordSoldier(o))
      ensures backend.MarkerState() == old(backend.MarkerState())
    {
      var soldier := entityCache.GetSoldier(o.soldierId);
      if soldier.None? {
        return false;
      }
      var obj := FillFromCache(o, soldier.value);
      UpdateFromState(soldier.value, obj);
      assert Takeover(soldier.value, obj) == Takeover(soldier.value, o);
      backend.RecordSoldierState(obj);
      return true;
    }

    method HandleVehicleState(o: VehicleState) returns (ok: bool)
      requires Valid()
      modifies backend`vehicles
      ensures Valid() && (State(), ok) == Step(old(State()), OnVehicle(RecordVehicle(o)))
    {
      var known := entityCache.GetVehicle(o.vehicleId);
      if known.None? {
        return false;
      }
      backend.RecordVehicleState(o);
      return true;
    }

    method HandleSoldierDelete(id: uint16, frame: Frame)
      requires Valid()
      modifies backend
      ensures Valid() && State() == Step(old(State()), OnSoldier(DeleteSoldier(id, frame))).0
    {
      backend.DeleteSoldier(id, frame);
    }

    method HandleVehicleDelete(id: uint16, frame: Frame)
      requires Valid()
      modifies backend
      ensures Valid() && State() == Step(old(State()), OnVehicle(DeleteVehicle(id, frame))).0
    {
      backend.DeleteVehicle(id, frame);
    }

    /** Soldier hit, vehicle hit, or dropped: one look at the cache for each part. */
    method ClassifyHitParts(hitParts: seq<HitPart>) returns (hits: seq<ProjectileHit>)
      ensures hits == ClassifyHits(CacheState(), hitParts)
    {
      hits := [];
      for i := 0 to |hitParts|
        invariant hits == ClassifyHits(CacheState(), hitParts[..i])
      {
        var h := hitParts[i];
        assert hitParts[..i + 1][..i] == hitParts[..i];
        var soldier := entityCache.GetSoldier(h.entityId);
        if soldier.Some? {
          hits := hits + [ProjectileHit(h.captureFrame, h.position, Some(h.entityId), None)];
        } else {
          var vehicle := entityCache.GetVehicle(h.entityId);
          if vehicle.Some? {
            hits := hits + [ProjectileHit(h.captureFrame, h.position, None, Some(h.entityId))];
          }
        }
      }
      assert hitParts[..|hitParts|] == hitParts;
    }

    method ClassifyEntity(id: uint16) returns (soldierId: Option<nat>, vehicleId: Option<nat>)
      ensures soldierId == ClassifySoldier(CacheState(), id)
      ensures vehicleId == ClassifyVehicle(CacheState(), id)
    {
      var soldier := entityCache.GetSoldier(id);
      if soldier.Some? {
        return Some(id as nat), None;
      }
      var vehicle := entityCache.GetVehicle(id);
      if vehicle.Some? {
        return None, Some(id as nat);
      }
      return None, None;
    }

    method HandleProjectileEvent(p: ProjectileEvent, hitParts: seq<HitPart>)
      requires Valid()
      modifies backend`events
      ensures Valid() && State() == Step(old(State()), OnEvent(Projectile(p, hitParts))).0
    {
      var hits := ClassifyHitParts(hitParts);
      backend.RecordProjectileEvent(p.(hits := hits));
    }

    method HandleKillEvent(k: CombatEvent, victim: uint16, killer: uint16)
      requires Valid()
      modifies backend`events
      ensures Valid() && State() == Step(old(State()), OnEvent(Kill(k, victim, killer))).0
    {
      var event := k;
      var soldierId, vehicleId := ClassifyEntity(victim);
      event := event.(victimSoldierId := soldierId, victimVehicleId := vehicleId);
      soldierId, vehicleId := ClassifyEntity(killer);
      event := event.(sourceSoldierId := soldierId, sourceVehicleId := vehicleId);
      backend.RecordKillEvent(event);
    }

    method HandleGeneralEvent(e: GeneralEvent)
      requires Valid()
      modifies backend
      ensures Valid() && State() == Step(old(State()), OnEvent(General(e))).0
    {
      backend.RecordGeneralEvent(e);
    }

    method HandleSectorEvent(e: SectorEvent)
      requires Valid()
      modifies backend
      ensures Valid() && State() == Step(old(State()), OnEvent(Sector(e))).0
    {
      backend.RecordSectorEvent(e);
    }

    method HandleEndMissionEvent(e: EndMissionEvent)
      requires Valid()
      modifies backend
      ensures Valid() && State() == Step(old(State()), OnEvent(EndEvent(e))).0
    {
      backend.RecordEndMissionEvent(e);
    }

    method HandleTimeState(e: TimeState)
      requires Valid()
      modifies backend
      ensures Valid() && State() == Step(old(State()), OnEvent(Time(e))).0
    {
      backend.RecordTimeState(e);
    }

    method HandleMarkerCreate(m: Marker)
      requires Valid()
      modifies markerCache, backend`nextMarkerId, backend`markers, backend`markersById
      ensures Valid() && State() == Step(old(State()), OnMarker(CreateMarker(m))).0
    {
      var id := backend.AddMarker(m);
      ghost var index := backend.MarkerState();
      markerCache.Set(m.markerName, id);
      assert backend.MarkerState() == index;
    }

    method HandleMarkerMove(name: string, s: MarkerState) returns (ok: bool)
      requires Valid()
      modifies backend.markersById.Values
      ensures Valid() && (State(), ok) == Step(old(State()), OnMarker(MoveMarker(name, s)))
    {
      var id := markerCache.Get(name);
      if id.None? {
        return false;
      }
      backend.RecordMarkerState(s.(markerId := id.value));
      return true;
    }

    method HandleMarkerDelete(name: string, frame: Frame)
      requires Valid()
      modifies backend.markers.Values
      ensures Valid() && State() == Step(old(State()), OnMarker(DeleteMarker(name, frame))).0
    {
      backend.DeleteMarker(name, frame);
    }

    method HandleFocusStart(frame: Frame) returns (ok: bool)
      requires Valid()
      modifies backend`focusOpenStart
      ensures Valid() && (State(), ok) == Step(old(State()), OnFocus(FocusStart(frame)))
    {
      ok := backend.SetFocusStart(frame);
    }

    method HandleFocusEnd(frame: Frame) returns (ok: bool)
      requires Valid()
      modifies backend`focusRanges, backend`focusOpenStart
      ensures Valid() && (State(), ok) == Step(old(State()), OnFocus(FocusEnd(frame)))
    {
      ok := backend.SetFocusEnd(frame);
    }
  }
}
