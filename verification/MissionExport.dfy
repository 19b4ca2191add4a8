/**
 What the exports of recorded missions have in common: the results about the recorder and the
 results about the two export forms, put together for every run.
 */
module MissionExport {
  import opened Wrappers
  import opened Core
  import opened Sorting
  import opened ExportTypes
  import opened ExportSpec
  import opened V1Rows
  import opened Equivalence
  import opened Recorder
  import opened RecorderProofs
  import opened MemoryBackend

  /** Whatever Build may return for d encodes to what Stream writes. */
  ghost predicate FormsAgree(lib: Lib, d: MissionData) {
    forall r :: BuildAllows(V1(lib, d.vehicles), d, r) ==> SameDocument(V1(lib, d.vehicles), d, r)
  }

  /** The mission data at the end of a run. */
  ghost function RecordedData(s: Snapshot, cmds: seq<Command>): MissionData
    requires StoreOk(s.store) && InMission(cmds)
  {
    ReachableDataOk(s, cmds);
    DataOf(Run(s, cmds).store)
  }

  /** Every run that is in a mission: the two export forms agree if and only if AgreeOn holds. */
  lemma EveryMissionExports(lib: Lib, s: Snapshot, cmds: seq<Command>)
    requires StoreOk(s.store) && InMission(cmds)
    ensures FormsAgree(lib, RecordedData(s, cmds)) <==> AgreeOn(RecordedData(s, cmds))
  {
    ReachableDataOk(s, cmds);
    StreamEqualsBuild(lib, RecordedData(s, cmds));
  }

  lemma RunOfThree(s: Snapshot, a: Command, b: Command, c: Command)
    ensures Run(s, [a, b, c]) == Step(Step(Step(s, a).0, b).0, c).0
  {
    assert [a, b, c][..2] == [a, b] && [a, b][..1] == [a] && [a][..0] == [];
    assert Run(s, [a]) == Step(Run(s, []), a).0;
    assert Run(s, [a, b]) == Step(Run(s, [a]), b).0;
  }

  /** A mission with one vehicle, and one projectile fired from it. */
  ghost function GunnerMission(m: Mission, w: World, v: Vehicle, p: ProjectileEvent): seq<Command> {
    [StartMission(m, w), OnVehicle(NewVehicle(v)), OnEvent(Projectile(p, []))]
  }

  lemma GunnerData(m: Mission, w: World, v: Vehicle, p: ProjectileEvent)
    ensures InMission(GunnerMission(m, w, v, p))
    ensures var st := Run(INITIAL, GunnerMission(m, w, v, p)).store;
      st.soldiers == map[] && v.id in st.vehicles && st.vehicles[v.id].vehicle.id == v.id
      && p.(hits := []) in st.events.projectiles
  {
    var cmds := GunnerMission(m, w, v, p);
    assert cmds[..2][..1] == [StartMission(m, w)];
    RunOfThree(INITIAL, cmds[0], cmds[1], cmds[2]);
    var end := Run(INITIAL, cmds).store;
    assert end.events.projectiles == [p.(hits := [])];
  }

  /** A line inside the entity list without a soldier behind it. */
  lemma LineWithoutSoldier(d: MissionData, id: uint16, p: ProjectileEvent)
    requires d.soldiers == map[] && id in d.vehicles && d.vehicles[id].vehicle.id == id
    requires p in d.projectiles && IsLine(p) && p.firerObjectId == id
    ensures !AgreeOn(d)
  {
    MetadataBounds(d);
    assert d.vehicles.Keys != {};
  }

  /**
   The forms do differ on a recorded mission: a bullet with two points fired from a vehicle.
   Build draws its line at the vehicle, Stream at nobody.
   */
  lemma VehicleGunnerDiffers(lib: Lib, m: Mission, w: World, v: Vehicle, p: ProjectileEvent)
    requires IsLine(p) && p.firerObjectId == v.id
    ensures var cmds := GunnerMission(m, w, v, p);
      InMission(cmds) && !FormsAgree(lib, RecordedData(INITIAL, cmds))
  {
    var cmds := GunnerMission(m, w, v, p);
    GunnerData(m, w, v, p);
    EveryMissionExports(lib, INITIAL, cmds);
    LineWithoutSoldier(RecordedData(INITIAL, cmds), v.id, p.(hits := []));
  }

  /** The largest ID there is: Build panics, Stream writes its 65536 entities. */
  lemma LargestIdDiffers(lib: Lib, s: Snapshot, cmds: seq<Command>)
    requires StoreOk(s.store) && InMission(cmds) && 0xFFFF in Run(s, cmds).store.soldiers
    ensures var d := RecordedData(s, cmds); var fmt := V1(lib, d.vehicles);
      && (forall r :: BuildAllows(fmt, d, r) <==> r == BuildPanic)
      && |StreamExport(fmt, d).entities| == 0x1_0000
  {
    var d := RecordedData(s, cmds);
    ReachableDataOk(s, cmds);
    MetadataBounds(d);
    assert d.soldiers[0xFFFF].soldier.id == 0xFFFF;
    assert d.soldiers.Keys != {};
  }

  /** The entity is the soldier as the cache knows it. */
  predicate ShowsSoldier(e: Entity, cached: Soldier) {
    && e.id == cached.id && e.name == cached.unitName && e.isPlayer == (if cached.isPlayer then 1 else 0)
    && e.group == cached.groupId && e.side == cached.side && e.kind == "unit"
  }

  lemma EntityShowsSoldier(fmt: Format, r: SoldierRecord, cached: Soldier, maxFrame: Frame, extra: seq<Json.Json>)
    requires SoldierAgrees(cached, r)
    ensures ShowsSoldier(SoldierEntity(fmt, r, maxFrame, extra), cached)
  {
  }

  /**
   In every mission the same soldiers are cached and exported. Stream shows each in the slot of
   its ID as the cache knows it; so does Build, where no vehicle has that ID.
   */
  lemma ExportShowsCache(fmt: Format, s: Snapshot, cmds: seq<Command>, id: uint16)
    requires StoreOk(s.store) && InMission(cmds)
    ensures id in Run(s, cmds).caches.soldiers <==> id in RecordedData(s, cmds).soldiers
    ensures var d, es := RecordedData(s, cmds), StreamExport(fmt, RecordedData(s, cmds)).entities;
      id in d.soldiers ==> id as int < |es| && ShowsSoldier(es[id as int], Run(s, cmds).caches.soldiers[id])
    ensures var d, es := RecordedData(s, cmds), BuildEntities(fmt, RecordedData(s, cmds));
      id in d.soldiers && id !in d.vehicles ==>
        id as int < |es| && ShowsSoldier(es[id as int], Run(s, cmds).caches.soldiers[id])
  {
    SyncedInMission(s, cmds);
    var d := RecordedData(s, cmds);
    ReachableDataOk(s, cmds);
    if id in d.soldiers {
      var r, cached := d.soldiers[id], Run(s, cmds).caches.soldiers[id];
      InsideExport(d, id);
      SlotValues(fmt, d, id);
      EntityShowsSoldier(fmt, r, cached, MaxFrame(d), []);
      EntityShowsSoldier(fmt, r, cached, MaxFrame(d), Lines(fmt, d.projectiles, id));
    }
  }

  lemma InsideExport(d: MissionData, id: uint16)
    requires KeysAgree(d) && id in d.soldiers
    ensures HasEntities(d) && id as int <= MaxId(d)
  {
    MetadataBounds(d);
    assert d.soldiers.Keys != {};
  }

  // ---- focus ranges ----

  lemma ClosingKeepsOrder(f: Focus, endFrame: Frame)
    requires FocusOk(f)
    ensures RangesOk(ClosedRanges(f, endFrame))
  {
  }

  /**
   The metadata of every run: focus ranges are positive, not empty, in order and do not
   overlap, also after an open one was closed at the last recorded frame, which is at least
   the last frame of the export.
   */
  lemma MetadataInOrder(s: Snapshot, cmds: seq<Command>)
    requires StoreOk(s.store)
    ensures var st := Run(s, cmds).store;
      && RangesOk(Metadata(st).focusRanges)
      && IsMax(RecordedFrames(st), EndFrame(st))
      && (InMission(cmds) ==> EndFrame(st) >= MaxFrame(RecordedData(s, cmds)))
  {
    RunKeepsStoreOk(s, cmds);
    var st := Run(s, cmds).store;
    ClosingKeepsOrder(st.focus, EndFrame(st));
    if InMission(cmds) {
      var d := RecordedData(s, cmds);
      assert StateFrames(d) <= RecordedFrames(st);
    }
  }

  // ---- classified entities ----

  /** The IDs a mission has recorded. */
  datatype Ids = Ids(soldiers: set<uint16>, vehicles: set<uint16>)

  /** At most one of the two IDs is set, and the one that is set names a recorded entity. */
  ghost predicate Known(ids: Ids, soldierId: Option<nat>, vehicleId: Option<nat>) {
    && (soldierId.Some? ==> exists id :: id in ids.soldiers && id as nat == soldierId.value && vehicleId.None?)
    && (vehicleId.Some? ==> exists id :: id in ids.vehicles && id as nat == vehicleId.value && soldierId.None?)
  }

  ghost predicate KnownKill(ids: Ids, k: CombatEvent) {
    Known(ids, k.victimSoldierId, k.victimVehicleId) && Known(ids, k.sourceSoldierId, k.sourceVehicleId)
  }

  /** Every hit names exactly one recorded entity. */
  ghost predicate KnownHits(ids: Ids, hits: seq<ProjectileHit>) {
    forall h :: h in hits ==>
      if h.soldierId.Some? then h.soldierId.value in ids.soldiers && h.vehicleId.None?
      else h.vehicleId.Some? && h.vehicleId.value in ids.vehicles
  }

  ghost predicate KnownEvents(ids: Ids, events: EventLists) {
    && (forall k :: k in events.kills ==> KnownKill(ids, k))
    && (forall p :: p in events.projectiles ==> KnownHits(ids, p.hits))
  }

  ghost function IdsOfStore(st: Store): Ids { Ids(st.soldiers.Keys, st.vehicles.Keys) }

  ghost function IdsOfCaches(c: Caches): Ids { Ids(c.soldiers.Keys, c.vehicles.Keys) }

  lemma {:induction false} ClassifiedHitsKnown(c: Caches, hs: seq<HitPart>)
    ensures KnownHits(IdsOfCaches(c), ClassifyHits(c, hs))
  {
    if hs != [] {
      ClassifiedHitsKnown(c, hs[..|hs| - 1]);
    }
  }

  lemma ClassifiedKillKnown(c: Caches, k: CombatEvent, victim: uint16, killer: uint16)
    ensures KnownKill(IdsOfCaches(c), ClassifyKill(c, k, victim, killer))
  {
  }

  lemma KnownStays(ids: Ids, later: Ids, events: EventLists)
    requires KnownEvents(ids, events) && ids.soldiers <= later.soldiers && ids.vehicles <= later.vehicles
    ensures KnownEvents(later, events)
  {
    forall k | k in events.kills ensures KnownKill(later, k) {
      assert KnownKill(ids, k);
    }
    forall p | p in events.projectiles ensures KnownHits(later, p.hits) {
      assert KnownHits(ids, p.hits);
    }
  }

  lemma KnownStepEvents(c: Caches, events: EventLists, e: EventCommand)
    requires KnownEvents(IdsOfCaches(c), events)
    ensures KnownEvents(IdsOfCaches(c), StepEvents(c, events, e))
  {
    if e.Kill? {
      ClassifiedKillKnown(c, e.kill, e.victim, e.killer);
    } else if e.Projectile? {
      ClassifiedHitsKnown(c, e.hitParts);
    }
  }

  lemma StepKeepsKnown(s: Snapshot, c: Command)
    requires Synced(s) && KnownEvents(IdsOfStore(s.store), s.store.events) && !c.EndMission?
    ensures var after := Step(s, c).0.store; KnownEvents(IdsOfStore(after), after.events)
  {
    if c.OnEvent? {
      assert IdsOfCaches(s.caches) == IdsOfStore(s.store);
      KnownStepEvents(s.caches, s.store.events, c.eventCommand);
    } else if !c.StartMission? {
      KnownStays(IdsOfStore(s.store), IdsOfStore(Step(s, c).0.store), s.store.events);
    }
  }

  /** During a mission every kill and every hit names entities the mission has recorded. */
  lemma {:induction false} EventsNameRecordedEntities(s: Snapshot, cmds: seq<Command>)
    requires InMission(cmds)
    ensures var st := Run(s, cmds).store; KnownEvents(IdsOfStore(st), st.events)
  {
    var before, c := cmds[..|cmds| - 1], cmds[|cmds| - 1];
    if !c.StartMission? {
      SyncedInMission(s, before);
      EventsNameRecordedEntities(s, before);
      StepKeepsKnown(Run(s, before), c);
    }
  }
}
