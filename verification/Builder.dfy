/**
 Build (internal/storage/memory/export/v1/builder.go): the whole export in memory, filling an
 entity array in place. Maps are walked in any order.
 */
module Builder {
  import opened Wrappers
  import opened Core
  import opened Frames
  import opened Json
  import opened GapFill
  import opened ExportTypes
  import opened Sorting
  import opened ExportSpec

  /** The largest frame, the largest ID and whether there is any entity; Stream uses it too. */
  method ComputeMetadata(d: MissionData) returns (maxFrame: Frame, maxEntityId: uint16, hasEntities: bool)
    ensures maxFrame == MaxFrame(d)
    ensures maxEntityId as int == MaxId(d)
    ensures hasEntities == HasEntities(d)
  {
    hasEntities := |d.soldiers| > 0 || |d.vehicles| > 0;
    maxFrame := MaxFrameIn(SoldierFrames(d.soldiers), 0);
    maxFrame := MaxFrameIn(VehicleFrames(d.vehicles), maxFrame);
    assert IsMax(StateFrames(d), maxFrame);

    maxEntityId := MaxIdIn(SoldierIds(d.soldiers), 0);
    maxEntityId := MaxIdIn(VehicleIds(d.vehicles), maxEntityId);
    assert IsMax(RecordIds(d), maxEntityId as int);
  }

  /** One soldier's entity: identity folded from the states, positions repeated frame by frame. */
  method BuildSoldierEntity(fmt: Format, record: SoldierRecord, maxFrame: Frame, extra: seq<Json>) returns (e: Entity)
    ensures e == SoldierEntity(fmt, record, maxFrame, extra)
  {
    var states := record.states;
    var isPlayer, name := record.soldier.isPlayer, record.soldier.unitName;
    for i := 0 to |states|
      invariant (isPlayer, name) == PlayerFold((record.soldier.isPlayer, record.soldier.unitName), states[..i])
    {
      assert states[..i + 1][..i] == states[..i];
      if states[i].isPlayer {
        isPlayer := true;
        if states[i].unitName != "" {
          name := states[i].unitName;
        }
      }
    }
    assert states[..|states|] == states;

    var positions: seq<Json> := [];
    for i := 0 to |states|
      invariant positions == SoldierPositions(fmt, record, maxFrame, i)
    {
      var pos := fmt.soldierPosition(states[i]);
      var startF := FrameToV1(states[i].captureFrame);
      var endF: int;
      if i + 1 < |states| {
        endF := FrameToV1(states[i + 1].captureFrame) - 1;
      } else if record.soldier.deleteFrame > 0 {
        endF := FrameToV1(record.soldier.deleteFrame);
      } else {
        endF := FrameToV1(maxFrame);
      }
      ghost var before := positions;
      var f := startF;
      while f <= endF
        invariant startF <= f && (f <= endF + 1 || f == startF)
        invariant positions == before + Repeat(pos, f - startF)
      {
        positions := positions + [pos];
        f := f + 1;
      }
      assert positions == before + Repeat(pos, Width((startF, endF)));
      assert positions == SoldierPositions(fmt, record, maxFrame, i + 1);
    }

    var framesFired: seq<Json> := [];
    for i := 0 to |record.firedEvents|
      invariant framesFired == FiredRows(fmt, record.firedEvents)[..i]
    {
      framesFired := framesFired + [fmt.line(record.firedEvents[i].captureFrame, record.firedEvents[i].endPos)];
    }
    assert framesFired == FiredRows(fmt, record.firedEvents);
    framesFired := framesFired + extra;
    e := Entity(record.soldier.id, name, record.soldier.groupId, record.soldier.side,
                BoolToInt(isPlayer), "unit", record.soldier.roleDescription, "",
                FrameToV1(record.soldier.joinFrame), Some(positions), Some(framesFired));
  }

  method BuildVehicleEntity(fmt: Format, record: VehicleRecord, maxFrame: Frame) returns (e: Entity)
    ensures e == VehicleEntity(fmt, record, maxFrame)
  {
    var states := record.states;
    var side := record.vehicle.side;
    if side == "" {
      side := "UNKNOWN";
    }
    var positions: seq<Json> := [];
    for i := 0 to |states|
      invariant positions == VehiclePositions(fmt, record, maxFrame)[..i]
    {
      var startF := FrameToV1(states[i].captureFrame);
      var endF: int;
      if i + 1 < |states| {
        endF := FrameToV1(states[i + 1].captureFrame) - 1;
      } else if record.vehicle.deleteFrame > 0 {
        endF := FrameToV1(record.vehicle.deleteFrame);
      } else {
        endF := FrameToV1(maxFrame);
      }
      positions := positions + [fmt.vehiclePosition(states[i], (startF, endF))];
    }
    assert positions == VehiclePositions(fmt, record, maxFrame);
    e := Entity(record.vehicle.id, record.vehicle.displayName, "", side, 0, "vehicle", "",
                record.vehicle.ocapType, FrameToV1(record.vehicle.joinFrame), Some(positions), Some([]));
  }

  /** sortedMarkers and sortedPlacedObjects: collect the keys in any order, sort, look up. */
  method SortedRecords<K(==, !new), V>(lt: (K, K) -> bool, m: map<K, V>) returns (out: seq<V>)
    requires StrictTotal(lt)
    ensures |out| == |Listing(lt, m.Keys)|
    ensures forall i :: 0 <= i < |out| ==>
      Listing(lt, m.Keys)[i] in m && out[i] == m[Listing(lt, m.Keys)[i]]
  {
    var keys: seq<K> := [];
    var todo := m.Keys;
    while todo != {}
      invariant todo <= m.Keys
      invariant forall k :: k in keys <==> k in m && k !in todo
      invariant forall i, j :: 0 <= i < j < |keys| ==> keys[i] != keys[j]
      decreases todo
    {
      var k :| k in todo;
      keys := keys + [k];
      todo := todo - {k};
    }
    keys := SortKeys(lt, keys);
    ListingUnique(lt, keys, Listing(lt, m.Keys), m.Keys);
    out := [];
    for i := 0 to |keys|
      invariant |out| == i
      invariant forall j :: 0 <= j < i ==> keys[j] in m && out[j] == m[keys[j]]
    {
      assert keys[i] in keys;
      out := out + [m[keys[i]]];
    }
  }

  /** Appends one row for each element of a list. */
  method AppendMapped<A, B>(f: A -> B, xs: seq<A>, rows: seq<B>) returns (out: seq<B>)
    ensures out == rows + MapSeq(f, xs)
  {
    out := rows;
    for i := 0 to |xs|
      invariant out == rows + MapSeq(f, xs)[..i]
    {
      out := out + [f(xs[i])];
    }
  }

  method CollectListed(fmt: Format, d: MissionData) returns (events: seq<EventRow>)
    ensures events == ListedEvents(fmt, d)
  {
    events := AppendMapped(fmt.general, d.generalEvents, []);
    events := AppendMapped(fmt.sector, d.sectorEvents, events);
    events := AppendMapped(fmt.endMission, d.endMissionEvents, events);
    events := AppendMapped(fmt.hit, d.hitEvents, events);
    events := AppendMapped(fmt.kill, d.killEvents, events);
  }

  method CollectMarkers(fmt: Format, d: MissionData) returns (markers: seq<Json>)
    ensures markers == MapSeq(fmt.marker, MarkersInOrder(d.markers))
  {
    LtStringStrictTotal();
    var sorted := SortedRecords(LtString, d.markers);
    assert sorted == MarkersInOrder(d.markers);
    markers := AppendMapped(fmt.marker, sorted, []);
  }

  /** The placed-object loop: for each object a marker and its hit events. */
  method CollectBoth<A>(marker: A -> Json, hits: A -> seq<EventRow>, xs: seq<A>,
                        events0: seq<EventRow>, markers0: seq<Json>)
    returns (events: seq<EventRow>, markers: seq<Json>)
    ensures events == events0 + FlatMap(hits, xs)
    ensures markers == markers0 + MapSeq(marker, xs)
  {
    events, markers := events0, markers0;
    for i := 0 to |xs|
      invariant events == events0 + FlatMap(hits, xs[..i])
      invariant markers == markers0 + MapSeq(marker, xs)[..i]
    {
      FlatMapSnoc(hits, xs, i);
      markers := markers + [marker(xs[i])];
      events := events + hits(xs[i]);
    }
    assert xs[..|xs|] == xs;
  }

  /** The events and markers that come before the projectiles. */
  method CollectRows(fmt: Format, d: MissionData) returns (events: seq<EventRow>, markers: seq<Json>)
    ensures events == ListedEvents(fmt, d) + FlatMap(fmt.placedHits, PlacedInOrder(d.placed))
    ensures markers == MapSeq(fmt.marker, MarkersInOrder(d.markers)) + MapSeq(fmt.placed, PlacedInOrder(d.placed))
  {
    events := CollectListed(fmt, d);
    markers := CollectMarkers(fmt, d);
    LtIdStrictTotal();
    var placed := SortedRecords(LtId, d.placed);
    assert placed == PlacedInOrder(d.placed);
    events, markers := CollectBoth(fmt.placed, fmt.placedHits, placed, events, markers);
  }

  /** The projectile loop of Build: a line goes straight into the firer's array slot. */
  method ApplyProjectiles(fmt: Format, d: MissionData, entities: array<Entity>,
                          events0: seq<EventRow>, markers0: seq<Json>)
    returns (events: seq<EventRow>, markers: seq<Json>)
    modifies entities
    ensures entities[..] == AddAll(fmt, old(entities[..]), d.projectiles)
    ensures events == events0 + FlatMap(fmt.projectileHits, d.projectiles)
    ensures markers == markers0 + ProjectileMarkers(fmt, d.projectiles)
  {
    var ps := d.projectiles;
    events, markers := events0, markers0;
    for n := 0 to |ps|
      invariant entities[..] == AddAll(fmt, old(entities[..]), ps[..n])
      invariant events == events0 + FlatMap(fmt.projectileHits, ps[..n])
      invariant markers == markers0 + ProjectileMarkers(fmt, ps[..n])
    {
      var p := ps[n];
      assert ps[..n + 1][..n] == ps[..n];
      if !IsProjectileMarker(p.simulationType) {
        if |p.trajectory| >= 2 && p.firerObjectId as int < entities.Length {
          var slot := p.firerObjectId as int;
          entities[slot] := AddLines(entities[slot], [LineRow(fmt, p)]);
        }
      } else {
        markers := markers + [fmt.projectile(p)];
      }
      events := events + fmt.projectileHits(p);
    }
    assert ps[..|ps|] == ps;
  }

  /** Writes every soldier into its slot; false when a slot does not exist. */
  method PlaceSoldiers(fmt: Format, d: MissionData, maxFrame: Frame, entities: array<Entity>) returns (ok: bool)
    requires maxFrame == MaxFrame(d)
    requires forall i :: 0 <= i < entities.Length ==> entities[i] == PLACEHOLDER
    requires entities.Length <= 0x1_0000
    requires entities.Length == 0 || forall k :: k in d.soldiers ==> d.soldiers[k].soldier.id as int < entities.Length
    modifies entities
    ensures ok <==> entities.Length > 0 || |d.soldiers| == 0
    ensures forall i :: 0 <= i < entities.Length ==> SoldierSlot(fmt, d, d.soldiers.Keys, i as uint16, entities[i])
  {
    var todo := d.soldiers.Keys;
    while todo != {}
      invariant todo <= d.soldiers.Keys
      invariant todo == d.soldiers.Keys || entities.Length > 0
      invariant forall i :: 0 <= i < entities.Length ==>
        SoldierSlot(fmt, d, d.soldiers.Keys - todo, i as uint16, entities[i])
      decreases todo
    {
      var k :| k in todo;
      var record := d.soldiers[k];
      if record.soldier.id as int >= entities.Length {
        assert |d.soldiers.Keys| > 0;
        return false;
      }
      entities[record.soldier.id as int] := BuildSoldierEntity(fmt, record, maxFrame, []);
      todo := todo - {k};
    }
    return true;
  }

  method PlaceVehicles(fmt: Format, d: MissionData, maxFrame: Frame, entities: array<Entity>) returns (ok: bool)
    requires maxFrame == MaxFrame(d)
    requires entities.Length <= 0x1_0000
    requires forall i :: 0 <= i < entities.Length ==> SoldierSlot(fmt, d, d.soldiers.Keys, i as uint16, entities[i])
    requires entities.Length == 0 || forall k :: k in d.vehicles ==> d.vehicles[k].vehicle.id as int < entities.Length
    modifies entities
    ensures ok <==> entities.Length > 0 || |d.vehicles| == 0
    ensures forall i :: 0 <= i < entities.Length ==> VehicleSlot(fmt, d, d.vehicles.Keys, i as uint16, entities[i])
  {
    var todo := d.vehicles.Keys;
    while todo != {}
      invariant todo <= d.vehicles.Keys
      invariant todo == d.vehicles.Keys || entities.Length > 0
      invariant forall i :: 0 <= i < entities.Length ==>
        VehicleSlot(fmt, d, d.vehicles.Keys - todo, i as uint16, entities[i])
      decreases todo
    {
      var k :| k in todo;
      var record := d.vehicles[k];
      if record.vehicle.id as int >= entities.Length {
        assert |d.vehicles.Keys| > 0;
        return false;
      }
      entities[record.vehicle.id as int] := BuildVehicleEntity(fmt, record, maxFrame);
      todo := todo - {k};
    }
    return true;
  }

  /** Size of the entity array: maxEntityID+1 is computed in 16 bits. */
  function SlotCount(hasEntities: bool, maxEntityId: uint16): (n: nat)
    ensures n == if hasEntities && maxEntityId < 0xFFFF then maxEntityId as int + 1 else 0
  {
    if hasEntities then (maxEntityId as int + 1) % 0x1_0000 else 0
  }

  /** The entity array before fire lines; false when a write falls outside it. */
  method PlaceEntities(fmt: Format, d: MissionData, maxFrame: Frame, maxEntityId: uint16, hasEntities: bool)
    returns (ok: bool, entities: array<Entity>)
    requires maxFrame == MaxFrame(d) && maxEntityId as int == MaxId(d) && hasEntities == HasEntities(d)
    ensures fresh(entities)
    ensures ok <==> !(HasEntities(d) && MaxId(d) == 0xFFFF)
    ensures ok ==> entities.Length == if HasEntities(d) then MaxId(d) + 1 else 0
    ensures ok ==> forall i :: 0 <= i < entities.Length ==>
      VehicleSlot(fmt, d, d.vehicles.Keys, i as uint16, entities[i])
  {
    var slots := SlotCount(hasEntities, maxEntityId);
    entities := new Entity[slots](_ => PLACEHOLDER);
    MetadataBounds(d);
    ok := PlaceSoldiers(fmt, d, maxFrame, entities);
    if ok {
      ok := PlaceVehicles(fmt, d, maxFrame, entities);
    }
  }

  method Build(fmt: Format, d: MissionData) returns (r: BuildOutcome)
    ensures BuildAllows(fmt, d, r)
  {
    var times := AppendMapped(fmt.time, d.timeStates, []);
    var maxFrame, maxEntityId, hasEntities := ComputeMetadata(d);
    var ok, entities := PlaceEntities(fmt, d, maxFrame, maxEntityId, hasEntities);
    if !ok {
      return BuildPanic;
    }
    ghost var placed := entities[..];
    var events, markers := CollectRows(fmt, d);
    events, markers := ApplyProjectiles(fmt, d, entities, events, markers);
    events := StableSort(EventFrame, events);
    AllowedFromSlots(fmt, d, placed, entities[..]);
    r := Built(Export(d.mission.addonVersion, d.mission.extensionVersion, d.mission.extensionBuild,
                      d.mission.missionName, d.mission.author, d.world.worldName,
                      FrameToV1(maxFrame), d.mission.captureDelay, d.mission.tag, times,
                      entities[..], events, markers));
  }

  /** Slots that held a legal entity before the projectile loop hold a legal one after it. */
  lemma AllowedFromSlots(fmt: Format, d: MissionData, before: seq<Entity>, after: seq<Entity>)
    requires |after| == |before| == if HasEntities(d) then MaxId(d) + 1 else 0
    requires forall i :: 0 <= i < |before| ==> VehicleSlot(fmt, d, d.vehicles.Keys, i as uint16, before[i])
    requires after == AddAll(fmt, before, d.projectiles)
    ensures EntitiesAllowed(fmt, d, after)
  {
    forall i | 0 <= i < |after| ensures FinalSlot(fmt, d, i as uint16, after[i]) {
      InPlaceIsGrouped(fmt, before, d.projectiles, i);
    }
  }
}
